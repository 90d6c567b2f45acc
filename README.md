# AInote in Dafny

A model of the decision logic of AInote. AInote is a Next.js notes application backed by Supabase, with an edge function that asks a chat-completion provider for a two-to-three-sentence summary of a note. No parsers or algorithms of note live in the application. Its logic is:

- the access guard that decides between staying, going to the login page and going to the dashboard;
- the notes data layer, which reads and writes the remote `notes` table and keeps a React Query cache whose entries are invalidated after each mutation;
- the `summarize` edge function: CORS preflight, content validation, a provider call, and the 200/400/500 answers;
- the client-side summarize call and what it makes of each answer;
- the note form, the login/sign-up form, the navigation bar, the note card, the dashboard's delete confirmation and the new-note page. These are validation rules, message and route choices, and small flag state machines.

Every network party is a parameter: the Supabase store (a `fault` argument for each call), the current user, the ids and timestamps the server assigns, the chat provider (a function from request to reply), and the auth calls. Each module lives in one file. The source column names the file a module models, if it models a single one:

| module | file(s) | source | form |
|---|---|---|---|
| `AuthGuard` | `auth_guard.dfy` | `components/auth-guard.tsx` | functions and lemmas |
| `NotesApi` | `notes_api.dfy` | `lib/api/notes.ts` | class `NoteService` holding the table (`map`) and the query cache (`map`); a listing method with a loop; pure helpers |
| `SummarizeFunction`, `SummarizePrompts` | `summarize_function.dfy`, `summarize_prompts.dfy` | `supabase/functions/summarize/index.ts` | total handler function with the provider as a parameter; the prompt wording |
| `CorsPreflight` | `cors_preflight.dfy` | none: the browser side of the CORS protocol of the WHATWG Fetch Standard | the header-list parsing "get, decode, and split", and the "CORS-preflight fetch" and "CORS check" algorithms, as the reference the handler is checked against |
| `SummarizeEndToEnd` | `summarize_end_to_end.dfy` | none: composes `lib/api/notes.ts` with the edge function | lemmas composing the client call, the handler and the CORS rules |
| `NoteForm` | `note_form.dfy` | `components/forms/note-form.tsx` | validation functions; class `NoteFormState` for `handleSummarize` |
| `NoteCard` | `note_card.dfy` | `components/ui/note-card.tsx` | truncation and summary visibility; class `HoverState` |
| `Navbar` | `navbar.dfy` | `components/layout/navbar.tsx` | functions and lemmas |
| `Dashboard` | `dashboard.dfy` | `app/dashboard/page.tsx` | routes and list view; class `DashboardState` for the delete dialog |
| `NewNotePage` | `new_note_page.dfy` | `app/notes/new/page.tsx` | class `NewNotePageState` for `handleSubmit` |
| `AuthForm` | `auth_form.dfy` | `components/forms/auth-form.tsx` | message/navigation functions; class `AuthFormState` for the two loading flags |
| `Outcomes`, `Session`, `Toasts`, `Text`, `HttpStatus` | `outcomes.dfy`, `session.dfy`, `toasts.dfy`, `text.dfy`, `http_status.dfy` | none: shared | shared values: `Option`/`Result`, the user, toasts, ECMAScript `trim`, ok status |

The query cache follows React Query: `invalidateQueries({ queryKey })` marks stale every cached query whose key starts with `queryKey`. The cache invariant `NoteService.Valid()` says that every entry not marked stale agrees with the table. Every method keeps that invariant.

Four behaviours of the code that a reader may not expect, which the model follows:

- Deleting an id that is not in the table succeeds and returns the id. The delete call has no `.single()`, so it never reports a missing row. A second delete of the same id also succeeds (`NotesApi.CreateThenDelete`).
- Updating writes only the supplied fields. Nothing in the code refreshes `updated_at`, so the model leaves it as it was.
- The edge function rejects only content that is empty after trimming. The 50-character minimum is enforced only on the client, by the note form and by the note view page (`app/notes/[id]/page.tsx`), never by the edge function.
- The client reads `message` from a failed answer, but the edge function writes `error`. So every error answer from the edge function, 400 or 500, makes the client call fail with 'Failed to summarize note' (`SummarizeEndToEnd.ClientSeesHandlerOutcome`). A network failure or an unparsable body keeps its own message (`NotesApi.SummarizeResult`). Either way the note form shows its own 'Failed to generate summary' toast.

## Model

| member | source | states |
|---|---|---|
| AuthGuard.RedirectFor | components/auth-guard.tsx:16-36 | nothing while loading; login exactly for an anonymous user off the public routes; dashboard exactly for a signed-in user on a public route other than `/`; one redirect at most |
| AuthGuard.RendersChildren | components/auth-guard.tsx:38-43 | children are rendered exactly when loading is over, whatever redirect was issued |
| AuthGuard.NoRedirectCases | components/auth-guard.tsx:29-35 | no redirect exactly while loading, for a signed-in user on `/` or a private route, or for an anonymous user on a public route |
| AuthGuard.RedirectSettles | components/auth-guard.tsx:29-35 | after either redirect, the target route gives no further redirect for the same session |
| AuthGuard.TrailingSlashIsPrivate | components/auth-guard.tsx:24-27 | a public route with a trailing slash is not public |
| AuthGuard.ExtensionsArePrivate | components/auth-guard.tsx:24-27 | any non-empty extension of a public route other than `/` is not public (exact membership, no prefix match) |
| AuthGuard.PrefixesArePrivate | components/auth-guard.tsx:24-27 | a proper prefix of a public route other than the root, such as `/auth`, is not public |
| AuthGuard.RenderingIgnoresRedirect | components/auth-guard.tsx:29-43 | once loading is over the page is shown even when a redirect is pushed; while loading nothing is shown or pushed |
| NotesApi.InsertByUpdated | lib/api/notes.ts:16-19 | inserting into a list sorted by `updated_at` descending keeps it sorted and yields a permutation of the list plus the new row (multiset equality) |
| NotesApi.InsertedMembers | lib/api/notes.ts:16-19 | the sorted insertion contains exactly the new row and the old rows |
| NotesApi.ListingStep | lib/api/notes.ts:16-19 | adding one more row of the table to a partial listing gives a partial listing of one more id |
| NotesApi.SelectOrdered | lib/api/notes.ts:16-19 | the list query returns every row of the table once, sorted by `updated_at` descending |
| NotesApi.Invalidate | lib/api/notes.ts:67-69 | invalidation keeps every cached entry's key and data and marks stale exactly the entries whose key starts with the given key |
| NotesApi.InvalidateListIsCoherent | lib/api/notes.ts:67-69 | after `['notes']` is invalidated, the cache agrees with any table, because list and single-note entries are all stale |
| NotesApi.SecondInvalidationIsRedundant | lib/api/notes.ts:89-92 | update's invalidation of `['notes', id]` changes nothing after `['notes']` has been invalidated |
| NotesApi.ApplyPatch | lib/api/notes.ts:78-84 | the updated row has each supplied field replaced and every other column, `id` included, kept |
| NotesApi.ApplyPatchIdempotent | lib/api/notes.ts:78-84 | writing the same fields twice is the same as writing them once |
| NotesApi.NoteService.constructor | lib/api/notes.ts:12-24 | a keyed table with an empty cache satisfies the cache invariant |
| NotesApi.NoteService.FreshList | lib/api/notes.ts:12-24 | a fresh cached list is a listing of the current table |
| NotesApi.NoteService.FreshNote | lib/api/notes.ts:28-43 | a fresh cached note is the current row for its id |
| NotesApi.NoteService.FetchList | lib/api/notes.ts:12-24 | on success the listing of the table, cached under `['notes']`; a store error is thrown and the cache is untouched |
| NotesApi.NoteService.FetchNote | lib/api/notes.ts:28-43 | disabled exactly for the empty id; a store error or a missing row is thrown; otherwise the row, cached under `['notes', id]` |
| NotesApi.NoteService.Create | lib/api/notes.ts:46-71 | no user gives 'User not authenticated'; on success the caller's fields are stored with the user's id and `['notes']` is invalidated; any failure leaves table and cache unchanged |
| NotesApi.NoteService.Update | lib/api/notes.ts:74-94 | on success the row matching the id has the supplied fields written, and `['notes']` and `['notes', id]` are invalidated; an error or a missing row leaves table and cache unchanged |
| NotesApi.NoteService.Delete | lib/api/notes.ts:97-114 | on success the id is returned, its row is gone and `['notes']` is invalidated; an error leaves table and cache unchanged |
| NotesApi.CreateThenDelete | lib/api/notes.ts:46-114 | create then two deletes both return the id; the note is then not found and the table is back to its original state |
| NotesApi.SummarizeResult | lib/api/notes.ts:117-137 | an ok response yields its `summary`; a failed one throws its `message`, or 'Failed to summarize note' when that is missing or empty; unparsable bodies and network errors throw their own message |
| NotesApi.FailureWithoutMessageUsesFallback | lib/api/notes.ts:129-132 | a failed response with no or an empty `message` always surfaces the fixed fallback |
| SummarizeFunction.ContentMissing | supabase/functions/summarize/index.ts:25-27 | content is missing exactly when it is neither a string with a non-whitespace character nor a truthy non-string |
| SummarizeFunction.ProviderRequest | supabase/functions/summarize/index.ts:44-57 | model `deepseek-chat` and 150 max tokens; the system instruction first, then the summary request carrying the content unchanged |
| SummarizeFunction.Handle | supabase/functions/summarize/index.ts:15-80 | every answer carries the CORS headers; OPTIONS exactly gives 204 with no body and no provider call; missing or blank content exactly gives 400 'Content is required' with no call; the provider is called at most once, with that content; 200 exactly when it returns a completion, with the trimmed text; every other case 500 'Failed to summarize content' |
| SummarizeFunction.SummaryIsTrimmed | supabase/functions/summarize/index.ts:60-69 | a 200 summary has no leading or trailing whitespace |
| SummarizeFunction.ProviderOnlyConsultedWhenSent | supabase/functions/summarize/index.ts:17-35 | an answer given without a provider call does not depend on the provider |
| SummarizeFunction.AnyNonBlankStringIsSent | supabase/functions/summarize/index.ts:27-58 | any string content with a non-whitespace character reaches the provider; there is no length minimum |
| SummarizeFunction.PreflightIgnoresBody | supabase/functions/summarize/index.ts:17-22 | the preflight answer is the same whatever the request body |
| SummarizePrompts.ProviderRequestShape | supabase/functions/summarize/index.ts:44-57 | the provider gets model `deepseek-chat`, 150 max tokens, the system prompt, and a user message that is the fixed 2-3 sentence instruction followed by the content unchanged |
| SummarizePrompts.ProviderRequestInjective | supabase/functions/summarize/index.ts:44-57 | different contents give different provider requests |
| CorsPreflight.ParseJoinPadded | supabase/functions/summarize/index.ts:6-7 | the Fetch Standard's header-list parser gives back the items of a `", "`-joined list, after any leading tab-or-space padding |
| CorsPreflight.ParseJoin | supabase/functions/summarize/index.ts:6-7 | parsing a `", "`-joined list of plain items gives back the items |
| CorsPreflight.StripLeadingDropsPadding | supabase/functions/summarize/index.ts:6-7 | stripping the front of a list item leaves a suffix of it that starts with neither tab nor space, everything cut being tab or space |
| CorsPreflight.StripTrailingDropsPadding | supabase/functions/summarize/index.ts:6-7 | stripping the back of a list item leaves a prefix of it that ends in neither tab nor space, everything cut being tab or space |
| CorsPreflight.WildcardExcludesAuthorization | supabase/functions/summarize/index.ts:6 | an allow-headers list of `*` admits any unsafe header except `Authorization`, which must be listed by name |
| CorsPreflight.GetHeader | supabase/functions/summarize/index.ts:4-9 | a header lookup returns the value of a header whose name matches case-insensitively, and nothing exactly when no name matches |
| CorsPreflight.UnsafeHeaderNames | lib/api/notes.ts:122-125 | a name is returned exactly when it is the lower-cased name of a header of the request that is not CORS-safelisted; never more names than headers |
| CorsPreflight.AllowedHeadersArePlain | supabase/functions/summarize/index.ts:6 | the allowed header names are non-empty, comma-free and unpadded |
| CorsPreflight.CorsHeaderLookups | supabase/functions/summarize/index.ts:4-9 | `corsHeaders` yields origin `*` and the two list values |
| CorsPreflight.AllowHeadersLookup | supabase/functions/summarize/index.ts:4-9 | looking up Access-Control-Allow-Headers in `corsHeaders` finds its value |
| CorsPreflight.AllowMethodsLookup | supabase/functions/summarize/index.ts:4-9 | looking up Access-Control-Allow-Methods in `corsHeaders` finds its value |
| CorsPreflight.EveryResponsePassesCorsCheck | supabase/functions/summarize/index.ts:20 | every answer of the handler, errors included, passes the CORS check for any origin |
| CorsPreflight.CorsHeadersAdmit | supabase/functions/summarize/index.ts:4-9 | an ok answer carrying `corsHeaders` admits a POST whose unsafe headers are among the allowed ones |
| CorsPreflight.PreflightAdmitsAllowedHeaders | supabase/functions/summarize/index.ts:17-22 | the 204 preflight answer admits a POST with any allowed unsafe headers, in any letter case |
| SummarizeEndToEnd.ClientSeesHandlerOutcome | lib/api/notes.ts:119-136 | end to end, blank content and provider failures both surface as 'Failed to summarize note', and otherwise the caller gets the provider's text trimmed |
| SummarizeEndToEnd.BlankContentFails | supabase/functions/summarize/index.ts:27-35 | blank content reaches the client as a 400 without a `message` |
| SummarizeEndToEnd.SentContentOutcome | supabase/functions/summarize/index.ts:38-79 | non-blank content reaches the client as a 500 without a `message` or as a 200 with the trimmed completion |
| SummarizeEndToEnd.ClientSummaryIsTrimmed | lib/api/notes.ts:134-135 | whatever the provider does, a summary the client receives is its own trim |
| SummarizeEndToEnd.ClientHeadersAreUnsafe | lib/api/notes.ts:122-125 | both headers of the summarize call are CORS-unsafe, so the POST is preflighted |
| SummarizeEndToEnd.ClientRequestPassesPreflight | supabase/functions/summarize/index.ts:17-22 | the handler's preflight answer admits the client's summarize POST |
| SummarizeEndToEnd.FormGuardImpliesProviderCall | components/forms/note-form.tsx:64-78 | content the form lets through is never answered with 400 and always reaches the provider |
| SummarizeEndToEnd.ShortContentReachesProvider | supabase/functions/summarize/index.ts:27 | one letter of content is refused by the client's 50-character guard yet sent to the provider by the edge function |
| Text.Trim | supabase/functions/summarize/index.ts:61 | `trim` leaves no ECMAScript whitespace at either end and never lengthens |
| Text.TrimIsInfix | supabase/functions/summarize/index.ts:61 | the trimmed text is a contiguous piece of the input with only whitespace cut away on both sides |
| Text.TrimEmptyIff | supabase/functions/summarize/index.ts:27 | `trim` gives the empty string exactly for all-whitespace input |
| Text.TrimOfTrimmed | supabase/functions/summarize/index.ts:61 | a string without whitespace at either end is its own trim |
| Text.TrimIdempotent | supabase/functions/summarize/index.ts:61 | trimming twice is trimming once |
| Text.UpperAscii | components/layout/navbar.tsx:80 | ASCII lower-case letters are upper-cased and every other character is kept |
| NoteForm.Validate | components/forms/note-form.tsx:24-34 | no issue exactly when the title has 1 to 100 characters and the content at least one; each message appears exactly when its rule is broken; summary is unconstrained |
| NoteForm.DefaultValues | components/forms/note-form.tsx:56-60 | the initial data when given, otherwise empty title, content and summary |
| NoteForm.DefaultFormIsIncomplete | components/forms/note-form.tsx:56-60 | without initial data the fields are empty and both required messages appear |
| NoteForm.BlankTitleAccepted | components/forms/note-form.tsx:25-29 | a title of whitespace only passes validation, though it trims to nothing |
| NoteForm.DisplayedSummary | components/forms/note-form.tsx:162 | the summary box shows the summary, or the empty string when it is absent or null |
| NoteForm.MayRequestSummary | components/forms/note-form.tsx:64-66 | the guard holds exactly when the trimmed content has at least 50 characters; the presence test is implied |
| NoteForm.RequestableContentIsNotBlank | components/forms/note-form.tsx:66 | content passing the 50-character guard is not all whitespace |
| NoteForm.NoteFormState.constructor | components/forms/note-form.tsx:49-61 | the form starts from the initial data or empty fields, not summarizing |
| NoteForm.NoteFormState.HandleSummarize | components/forms/note-form.tsx:63-93 | content is sent exactly when present and at least 50 characters after trimming, and the flag is up while it is; a success writes the returned summary and toasts; a failure or the short-content refusal leaves the fields unchanged with its toast; the flag is down afterwards |
| NoteCard.TruncatedContent | components/ui/note-card.tsx:42-44 | content of at most 200 characters is shown unchanged; longer content as its first 200 characters and `...`; never more than 203 characters, and always starting with the content's first min(length, 200) |
| NoteCard.TruncationIdempotent | components/ui/note-card.tsx:42-44 | truncating a preview again gives the same preview |
| NoteCard.SummaryBox | components/ui/note-card.tsx:69-74 | the summary box exists exactly for a non-empty summary and shows it |
| NoteCard.HoverState.constructor | components/ui/note-card.tsx:34 | a card starts not hovered |
| NoteCard.HoverState.MouseEnter | components/ui/note-card.tsx:52 | mouse-enter sets the hover flag |
| NoteCard.HoverState.MouseLeave | components/ui/note-card.tsx:53 | mouse-leave clears the hover flag |
| Navbar.HomeLink | components/layout/navbar.tsx:28-29 | the logo leads to `/dashboard` exactly when a user is present, otherwise to `/` |
| Navbar.NavItems | components/layout/navbar.tsx:30-39 | a signed-in user gets Dashboard (`/dashboard`) and New Note (`/notes/new`); an anonymous one Home (`/`), Sign In (`/auth/login`) and Sign Up (`/auth/signup`), in that order |
| Navbar.HeaderButton | components/layout/navbar.tsx:66-112 | the button beside the theme toggle is New Note (`/notes/new`) for a signed-in user and Sign In (`/auth/login`) otherwise |
| Navbar.ButtonRepeatsSecondItem | components/layout/navbar.tsx:30-39 | the header button always repeats the second nav link |
| Navbar.AvatarFallback | components/layout/navbar.tsx:80 | one letter: the upper-cased first character of the e-mail, or 'U' without an e-mail or with an empty one |
| Navbar.Render | components/layout/navbar.tsx:19-116 | nothing exactly on paths starting with `/auth`; otherwise the home link, items and header button for the session, and an avatar exactly for a signed-in user |
| Navbar.NavHrefsDistinct | components/layout/navbar.tsx:30-39 | within each item list the targets are distinct, as keys must be |
| Navbar.NavLinksLandWithoutRedirect | components/layout/navbar.tsx:28-39 | the home link, every item and the header button lead to a page the access guard does not redirect away from |
| Navbar.SignInPagesHideBar | components/layout/navbar.tsx:24-26 | the Sign In and Sign Up pages have no bar, while Home has one |
| Dashboard.ViewRoute | app/dashboard/page.tsx:64-66 | the route is `/notes/` followed by the id unchanged |
| Dashboard.EditRoute | app/dashboard/page.tsx:34-36 | the route is `/notes/`, the id unchanged, then `/edit` |
| Dashboard.ViewRouteInjective | app/dashboard/page.tsx:64-66 | different notes are viewed at different routes |
| Dashboard.EditRouteInjective | app/dashboard/page.tsx:34-36 | different notes are edited at different routes |
| Dashboard.RoutesArePrivate | app/dashboard/page.tsx:34-66 | neither the view nor the edit route is public, so an anonymous visitor is sent to log in |
| Dashboard.CardFor | app/dashboard/page.tsx:107-120 | the card has the note's id and title, its content unchanged when at most 200 characters and never over 203, and its summary exactly when non-empty |
| Dashboard.RenderList | app/dashboard/page.tsx:86-122 | the spinner exactly while loading; the empty state exactly for a defined empty list; otherwise one card per note, in order, with its truncated content and summary box |
| Dashboard.UndefinedListShowsNothing | app/dashboard/page.tsx:90-107 | an undefined list after loading shows zero cards and not the empty state |
| Dashboard.DashboardState.constructor | app/dashboard/page.tsx:28-29 | no selection and the dialog closed |
| Dashboard.DashboardState.HandleDeleteNote | app/dashboard/page.tsx:38-41 | the note is selected and the dialog opens |
| Dashboard.DashboardState.CancelDialog | app/dashboard/page.tsx:124 | the dialog closes and the selection stays |
| Dashboard.DashboardState.ConfirmDelete | app/dashboard/page.tsx:43-62 | with no selection (null or empty id) nothing happens at all; otherwise exactly the selected id is deleted, the toast reports the outcome, and the dialog is closed and the selection cleared whether or not the delete succeeded |
| NewNotePage.InputOf | app/notes/new/page.tsx:24 | the form data is passed to create unchanged |
| NewNotePage.NewNotePageState.constructor | app/notes/new/page.tsx:11 | not submitting |
| NewNotePage.NewNotePageState.HandleSubmit | app/notes/new/page.tsx:16-39 | the flag is up during the call and down afterwards; navigation to `/dashboard` with the success toast exactly when create succeeds, storing the form's fields with the user's id and the server time as both timestamps, and invalidating `['notes']`; on failure the error toast, no navigation, and table and cache unchanged |
| NewNotePage.DestinationIsReachable | app/notes/new/page.tsx:29 | the dashboard a successful submit moves to is shown without a redirect |
| AuthForm.Issues | components/forms/auth-form.tsx:24-29 | the password message appears exactly for passwords shorter than 6 characters; no issue exactly when e-mail and password are both valid |
| AuthForm.LoginErrorMessage | components/forms/auth-form.tsx:60-64 | the credentials message exactly for code `invalid_credentials`, the generic message for any other |
| AuthForm.SubmitFeedback | components/forms/auth-form.tsx:52-95 | navigation to `/dashboard` exactly for a login without error; a login error toasts its message; sign-up toasts success unless it threw; a throw gives the generic message |
| AuthForm.FailureIsDestructive | components/forms/auth-form.tsx:59-91 | the toast is destructive exactly when the call threw or a login returned an error |
| AuthForm.SignupIgnoresReturnedError | components/forms/auth-form.tsx:80-84 | a sign-up that returns an error looks exactly like one that does not |
| AuthForm.GoogleFeedback | components/forms/auth-form.tsx:97-117 | no toast exactly when Google sign-in returns without error; otherwise the Google failure message |
| AuthForm.GoogleFailuresAgree | components/forms/auth-form.tsx:101-113 | for Google sign-in a returned error and a throw give the same toast |
| AuthForm.AuthFormState.constructor | components/forms/auth-form.tsx:38-39 | both loading flags start down |
| AuthForm.AuthFormState.Submit | components/forms/auth-form.tsx:52-95 | the auth call is made exactly when validation passes, with the flag up during it and down after; the feedback is that of the call's outcome |
| AuthForm.AuthFormState.HandleGoogleSignIn | components/forms/auth-form.tsx:97-117 | the flag is up during the call and down after; the toast is that of the outcome |

## Left out

- The Supabase client, `supabase.auth.getUser`, `fetch`, the DeepSeek endpoint, `Deno.env` and the auth calls are not modelled as behaviour. They become parameters: a `fault` per store call, the current user, an oracle function, or a call outcome.
- Server-side behaviour no shown file implements is left out: assigning `id`, `created_at` and `updated_at` (given as parameters of `Create`), row-level security per owner, and any other summarizer or provider. The table holds only the notes the caller can see.
- React rendering, hooks, JSX, the router and the toast queue are left out. Handlers return the toast and the route they would push. The cache is only the keyed entries with their stale flags; refetching is the `Fetch*` methods.
- The zod e-mail check is library behaviour. `AuthForm.Issues` takes its result as `emailValid`.
- `formatDistance` on the note card depends on the clock and on date-fns.
- `handleCancel` (`router.back()`) and the navbar's sign-out, theme toggle and avatar-menu links are router or library calls with no decision in them.
- Concurrency between in-flight mutations is left out, because each handler awaits a single call. Operations are sequential.
- The `busy` out-parameters are ghost, since a flag's value while an oracle runs cannot be observed otherwise.
- Lengths and indices count Unicode code points, not the UTF-16 code units JavaScript counts. This governs Text.Trim, NoteForm.Validate (title of at most 100), NoteForm.MayRequestSummary (at least 50), AuthForm.Issues (password of at least 6), NoteCard.TruncatedContent (200) and Navbar.AvatarFallback (`charAt(0)`). For text outside the Basic Multilingual Plane these limits are counted in characters rather than code units.
- Text.UpperAscii: `toUpperCase` is modelled for ASCII letters only; other letters are left unchanged.
- CorsPreflight.UnsafeHeaderNames: it returns the unsafe names in request order without the sorting and de-duplication the Fetch Standard's CORS-preflight fetch applies. The checks that use it are order-insensitive.
- CorsPreflight: the header-list parser splits on every comma, with no quoted strings. `GetHeader` returns the first header of the name, where the Fetch Standard joins all values of that name with ", ". `CorsCheckPasses` accepts only the wildcard origin `*`, not an `Access-Control-Allow-Origin` equal to the request's own origin; the edge function only ever sends `*`. Credentialed requests, redirects and the preflight cache are left out.
- CorsPreflight.Safelisted: a `Content-Type` value is compared whole, after lower-casing, instead of by its parsed MIME essence, and no length limit on safelisted values is applied. `Range` is not treated as safelisted. `Accept`, `Accept-Language` and `Content-Language` are safelisted whatever their value, without the Standard's checks on the bytes of the value. The summarize call sends `application/json`, which is unsafe either way.
- SummarizeFunction.Handle: a provider reply is either a completion text or unusable, the latter standing for a network error, a non-JSON body or a missing `choices[0].message.content`. The HTTP status of the provider's reply is not inspected, as in the code.
- SummarizeFunction.Handle: the values of `Access-Control-Allow-Headers` and `Access-Control-Allow-Methods` are written as their lists joined with `", "`. That yields the same text as the literals in the code.
- The `console.error` logging of the edge function is left out.
