/** The "Create New Note" page: submitting the form creates the note and returns to the dashboard. */
module NewNotePage {
  import opened Outcomes
  import opened Toasts
  import opened Session
  import opened AuthGuard
  import opened NotesApi
  import opened NoteForm

  const CreatedToast: Toast := Toast("Success", "Your note has been created.", false)
  const CreateFailedMessage: string := "Failed to create note. Please try again."

  /** The fields the form submits, passed on to the create mutation as they are. */
  function InputOf(data: FormValues): (input: NoteInput)
    ensures input.title == data.title && input.content == data.content && input.summary == data.summary
  {
    NoteInput(data.title, data.content, data.summary)
  }

  /** The page's `isSubmitting` flag, which disables the form's Save button. */
  class NewNotePageState {
    var isSubmitting: bool

    constructor ()
      ensures !isSubmitting
    {
      isSubmitting := false;
    }

    /**
     * `handleSubmit`. The create call is the store `service` with the parameters
     * `Create` takes; `navigation` is the `router.push` target, if any, and `busy`
     * the flag while the call is awaited.
     */
    method HandleSubmit(service: NoteService, data: FormValues, user: Option<User>,
                        newId: NoteId, now: Timestamp, fault: Option<string>)
      returns (created: Result<Note, NoteError>, navigation: Option<string>, toast: Toast, ghost busy: bool)
      requires service.Valid()
      modifies this, service
      ensures service.Valid() && !isSubmitting && busy
      ensures created.Ok? <==> user.Some? && fault.None? && newId !in old(service.table)
      ensures created.Ok? ==> && created.value == Note(newId, user.value.id, data.title, data.content,
                                                       data.summary, now, now)
                              && service.table == old(service.table)[newId := created.value]
                              && service.cache == Invalidate(old(service.cache), ListKey)
                              && navigation == Some(DashboardRoute) && toast == CreatedToast
      ensures created.Err? ==> && service.table == old(service.table) && service.cache == old(service.cache)
                               && navigation.None? && toast == ErrorToast(CreateFailedMessage)
    {
      isSubmitting := true;
      busy := isSubmitting;
      created := service.Create(InputOf(data), user, newId, now, fault);
      if created.Ok? {
        toast := CreatedToast;
        navigation := Some(DashboardRoute);
      } else {
        toast := ErrorToast(CreateFailedMessage);
        navigation := None;
      }
      isSubmitting := false;
    }
  }

  /** The page a successful submit moves to is shown to the signed-in author without a redirect. */
  lemma DestinationIsReachable(user: User)
    ensures RedirectFor(false, Some(user), DashboardRoute) == NoRedirect
  {
    assert DashboardRoute[1] == 'd' && |DashboardRoute| > 1;
    assert "/auth/login"[1] == 'a' && "/auth/signup"[1] == 'a' && "/auth/verify"[1] == 'a';
  }
}
