/**
 * The notes data layer: the remote `notes` table, the client's query cache, the
 * two queries, the three mutations, and the client side of the summarize call.
 *
 * Everything the network decides is an explicit parameter: the signed-in user
 * (`supabase.auth.getUser`), a store failure (`fault`), the id and timestamp
 * the database assigns on insert, and the HTTP outcome of the summarize call.
 */
module NotesApi {
  import opened Outcomes
  import opened Session
  import opened HttpStatus

  type NoteId = string

  /** A timestamp as the database orders it (`timestamptz`). */
  type Timestamp = int

  /** A row of the `notes` table; a `None` summary is SQL `NULL`. */
  datatype Note = Note(id: NoteId, userId: string, title: string, content: string,
                       summary: Option<string>, createdAt: Timestamp, updatedAt: Timestamp)

  /** The insert payload callers pass to create: the row without `user_id` and server-set columns. */
  datatype NoteInput = NoteInput(title: string, content: string, summary: Option<string>)

  /**
   * The update payload without its `id`: `None` means the field is not supplied;
   * for the summary, `Some(None)` writes `NULL`.
   */
  datatype NotePatch = NotePatch(title: Option<string>, content: Option<string>, summary: Option<Option<string>>)

  /** Why a store call failed. */
  datatype StoreError =
    | Rejected(message: string) // the error the client library returned (network, row security, ...)
    | DuplicateId               // the primary key assigned on insert already exists
    | NoSingleRow               // `.single()` found no row to return

  /** What a query or mutation throws. */
  datatype NoteError = NotAuthenticated | Store(cause: StoreError) {
    /** The message of the thrown error, for the errors this file raises itself. */
    function Message(): Option<string> {
      match this
      case NotAuthenticated => Some("User not authenticated")
      case Store(Rejected(m)) => Some(m)
      case Store(_) => None
    }
  }

  /** The primary key holds: every row is stored under its own id. */
  ghost predicate Keyed(table: map<NoteId, Note>) {
    forall id :: id in table ==> table[id].id == id
  }

  // ---------------------------------------------------------------- ordering

  ghost predicate SortedByUpdatedDesc(rows: seq<Note>) {
    forall i, j :: 0 <= i < j < |rows| ==> rows[i].updatedAt >= rows[j].updatedAt
  }

  /**
   * `rows` is what `select('*').order('updated_at', { ascending: false })` returns
   * for `table`: every row once, newest update first.
   */
  ghost predicate IsListing(rows: seq<Note>, table: map<NoteId, Note>) {
    ListsExactly(rows, table.Keys, table)
  }

  /** `rows` holds the rows of `table` whose ids are in `ids`, each once, newest update first. */
  ghost predicate ListsExactly(rows: seq<Note>, ids: set<NoteId>, table: map<NoteId, Note>) {
    && SortedByUpdatedDesc(rows)
    && |rows| == |ids|
    && (forall i :: 0 <= i < |rows| ==> rows[i].id in ids && rows[i].id in table && table[rows[i].id] == rows[i])
    && (forall id :: id in ids && id in table ==> table[id] in rows)
  }

  /** Inserts `n` into a list sorted by `updated_at` descending, keeping it sorted. */
  function InsertByUpdated(rows: seq<Note>, n: Note): (r: seq<Note>)
    requires SortedByUpdatedDesc(rows)
    ensures multiset(r) == multiset(rows) + multiset{n}
    ensures |r| == |rows| + 1
    ensures SortedByUpdatedDesc(r)
  {
    if rows == [] || n.updatedAt >= rows[0].updatedAt then [n] + rows
    else
      var tail := InsertByUpdated(rows[1..], n);
      assert rows == [rows[0]] + rows[1..];
      HeadBoundsInsertion(rows, n, tail);
      [rows[0]] + tail
  }

  /** The head of a sorted list bounds any rearrangement of its tail plus a row no newer than it. */
  lemma HeadBoundsInsertion(rows: seq<Note>, n: Note, tail: seq<Note>)
    requires SortedByUpdatedDesc(rows) && |rows| > 0 && n.updatedAt <= rows[0].updatedAt
    requires multiset(tail) == multiset(rows[1..]) + multiset{n}
    ensures forall j :: 0 <= j < |tail| ==> rows[0].updatedAt >= tail[j].updatedAt
  {
    forall j | 0 <= j < |tail| ensures rows[0].updatedAt >= tail[j].updatedAt {
      assert tail[j] in multiset(tail);
      if tail[j] != n {
        assert tail[j] in rows[1..];
        var k :| 0 <= k < |rows[1..]| && rows[1..][k] == tail[j];
        assert rows[k + 1] == tail[j];
      }
    }
  }

  /** The sorted insertion holds the new row and the old rows, and nothing else. */
  lemma InsertedMembers(rows: seq<Note>, n: Note)
    requires SortedByUpdatedDesc(rows)
    ensures forall x :: x in InsertByUpdated(rows, n) <==> x == n || x in rows
  {
    var r := InsertByUpdated(rows, n);
    forall x ensures x in r <==> x == n || x in rows {
      assert x in r <==> x in multiset(r);
      assert x in rows <==> x in multiset(rows);
    }
  }

  /** Adding one more row of `table` to a partial listing keeps it a listing. */
  lemma ListingStep(rows: seq<Note>, ids: set<NoteId>, table: map<NoteId, Note>, id: NoteId)
    requires Keyed(table) && id in table && id !in ids && ListsExactly(rows, ids, table)
    ensures ListsExactly(InsertByUpdated(rows, table[id]), ids + {id}, table)
  {
    var r := InsertByUpdated(rows, table[id]);
    InsertedMembers(rows, table[id]);
    forall i | 0 <= i < |r| ensures r[i].id in ids + {id} && r[i].id in table && table[r[i].id] == r[i] {
      assert r[i] in r;
      if r[i] != table[id] {
        var k :| 0 <= k < |rows| && rows[k] == r[i];
      }
    }
  }

  /** The list query run against the store: all rows, ordered by `updated_at` descending. */
  method SelectOrdered(table: map<NoteId, Note>) returns (rows: seq<Note>)
    requires Keyed(table)
    ensures IsListing(rows, table)
  {
    rows := [];
    var done: set<NoteId> := {};
    while done != table.Keys
      invariant done <= table.Keys
      invariant ListsExactly(rows, done, table)
      decreases table.Keys - done
    {
      assert table.Keys - done != {};
      var id :| id in table.Keys - done;
      ListingStep(rows, done, table, id);
      rows := InsertByUpdated(rows, table[id]);
      done := done + {id};
    }
  }

  // ------------------------------------------------------------- query cache

  /** A React Query key: `['notes']` or `['notes', id]`. */
  type QueryKey = seq<string>

  const ListKey: QueryKey := ["notes"]

  function NoteKey(id: NoteId): QueryKey {
    ["notes", id]
  }

  datatype CachedData = NoteList(notes: seq<Note>) | SingleNote(note: Note)

  /** A cached query result and whether it has been invalidated since it was fetched. */
  datatype CacheEntry = CacheEntry(data: CachedData, stale: bool)

  /**
   * `queryClient.invalidateQueries({ queryKey: key })`: marks stale every cached
   * query whose key starts with `key` (the library's default, non-exact matching).
   */
  function Invalidate(cache: map<QueryKey, CacheEntry>, key: QueryKey): (c: map<QueryKey, CacheEntry>)
    ensures c.Keys == cache.Keys
    ensures forall k :: k in c ==> c[k].data == cache[k].data
    ensures forall k :: k in c ==> (c[k].stale <==> cache[k].stale || key <= k)
  {
    map k | k in cache :: if key <= k then cache[k].(stale := true) else cache[k]
  }

  /**
   * No stale read: every entry that is still fresh agrees with the table. The list
   * entry is a listing of the table; a single-note entry is that row.
   */
  ghost predicate CacheCoherent(cache: map<QueryKey, CacheEntry>, table: map<NoteId, Note>) {
    && (ListKey in cache && !cache[ListKey].stale ==>
          cache[ListKey].data.NoteList? && IsListing(cache[ListKey].data.notes, table))
    && (forall id :: NoteKey(id) in cache && !cache[NoteKey(id)].stale ==>
          id in table && cache[NoteKey(id)].data == SingleNote(table[id]))
  }

  /**
   * Invalidating `['notes']` makes any cache coherent with any table, because it marks
   * the list and every single-note entry stale. This is what lets each mutation
   * change the table and stay coherent.
   */
  lemma InvalidateListIsCoherent(cache: map<QueryKey, CacheEntry>, table: map<NoteId, Note>)
    ensures CacheCoherent(Invalidate(cache, ListKey), table)
  {
    forall id ensures ListKey <= NoteKey(id) {
      assert NoteKey(id)[..1] == ListKey;
    }
  }

  /**
   * Under prefix matching, update's second invalidation (`['notes', id]`) changes
   * nothing once `['notes']` has been invalidated.
   */
  lemma SecondInvalidationIsRedundant(cache: map<QueryKey, CacheEntry>, id: NoteId)
    ensures Invalidate(Invalidate(cache, ListKey), NoteKey(id)) == Invalidate(cache, ListKey)
  {
    var once := Invalidate(cache, ListKey);
    var twice := Invalidate(once, NoteKey(id));
    forall k | k in twice ensures twice[k] == once[k] {
      if NoteKey(id) <= k {
        assert k[..1] == ListKey;
      }
    }
  }

  /** The fields of `row` after `patch` is written: supplied fields replaced, the rest kept. */
  function ApplyPatch(row: Note, patch: NotePatch): (r: Note)
    ensures r.id == row.id && r.userId == row.userId
    ensures r.createdAt == row.createdAt && r.updatedAt == row.updatedAt
    ensures r.title == patch.title.GetOr(row.title)
    ensures r.content == patch.content.GetOr(row.content)
    ensures r.summary == patch.summary.GetOr(row.summary)
  {
    row.(title := patch.title.GetOr(row.title),
         content := patch.content.GetOr(row.content),
         summary := patch.summary.GetOr(row.summary))
  }

  /** Writing the same patch twice is the same as writing it once. */
  lemma ApplyPatchIdempotent(row: Note, patch: NotePatch)
    ensures ApplyPatch(ApplyPatch(row, patch), patch) == ApplyPatch(row, patch)
  {
  }

  /** The state of the single-note query. */
  datatype NoteQuery = Disabled | Loaded(note: Note) | Failed(error: NoteError)

  // ---------------------------------------------------------- store + cache

  /** The remote `notes` table together with the client's query cache. */
  class NoteService {
    var table: map<NoteId, Note>
    var cache: map<QueryKey, CacheEntry>

    ghost predicate Valid()
      reads this
    {
      Keyed(table) && CacheCoherent(cache, table)
    }

    constructor (initial: map<NoteId, Note>)
      requires Keyed(initial)
      ensures Valid() && table == initial && cache == map[]
    {
      table := initial;
      cache := map[];
    }

    /** The cached list, when it is fresh: it always agrees with the table. */
    function FreshList(): (r: Option<seq<Note>>)
      requires Valid()
      reads this
      ensures r.Some? ==> IsListing(r.value, table)
    {
      if ListKey in cache && !cache[ListKey].stale then Some(cache[ListKey].data.notes) else None
    }

    /** The cached note `id`, when it is fresh: it always is the row in the table. */
    function FreshNote(id: NoteId): (r: Option<Note>)
      requires Valid()
      reads this
      ensures r.Some? ==> id in table && r.value == table[id]
    {
      if NoteKey(id) in cache && !cache[NoteKey(id)].stale then Some(cache[NoteKey(id)].data.note) else None
    }

    /** `useNotes`: fetches the ordered list and caches it under `['notes']`. */
    method FetchList(fault: Option<string>) returns (r: Result<seq<Note>, NoteError>)
      requires Valid()
      modifies this`cache
      ensures Valid()
      ensures fault.Some? ==> r == Err(Store(Rejected(fault.value))) && cache == old(cache)
      ensures fault.None? ==> && r.Ok? && IsListing(r.value, table)
                              && cache == old(cache)[ListKey := CacheEntry(NoteList(r.value), false)]
    {
      if fault.Some? {
        return Err(Store(Rejected(fault.value)));
      }
      var rows := SelectOrdered(table);
      cache := cache[ListKey := CacheEntry(NoteList(rows), false)];
      assert forall id :: NoteKey(id) != ListKey;
      r := Ok(rows);
    }

    /** `useNote(id)`: disabled for an empty id; otherwise fetches the one row and caches it. */
    method FetchNote(id: NoteId, fault: Option<string>) returns (r: NoteQuery)
      requires Valid()
      modifies this`cache
      ensures Valid()
      ensures r == Disabled <==> id == ""
      ensures id != "" && fault.Some? ==> r == Failed(Store(Rejected(fault.value)))
      ensures id != "" && fault.None? && id !in table ==> r == Failed(Store(NoSingleRow))
      ensures r.Loaded? ==> id in table && r.note == table[id]
                            && cache == old(cache)[NoteKey(id) := CacheEntry(SingleNote(r.note), false)]
      ensures r.Loaded? <==> id != "" && fault.None? && id in table
      ensures !r.Loaded? ==> cache == old(cache)
    {
      if id == "" {
        return Disabled;
      }
      if fault.Some? {
        return Failed(Store(Rejected(fault.value)));
      }
      if id !in table {
        return Failed(Store(NoSingleRow));
      }
      cache := cache[NoteKey(id) := CacheEntry(SingleNote(table[id]), false)];
      assert NoteKey(id) != ListKey;
      r := Loaded(table[id]);
    }

    /**
     * `useCreateNote`: inserts the caller's fields owned by the signed-in user, then
     * invalidates `['notes']`. The database assigns `newId` and `now`.
     */
    method Create(input: NoteInput, user: Option<User>, newId: NoteId, now: Timestamp, fault: Option<string>)
      returns (r: Result<Note, NoteError>)
      requires Valid()
      modifies this
      ensures Valid()
      ensures user.None? ==> r == Err(NotAuthenticated)
      ensures user.Some? && fault.Some? ==> r == Err(Store(Rejected(fault.value)))
      ensures user.Some? && fault.None? && newId in old(table) ==> r == Err(Store(DuplicateId))
      ensures r.Ok? <==> user.Some? && fault.None? && newId !in old(table)
      ensures r.Ok? ==> && r.value == Note(newId, user.value.id, input.title, input.content, input.summary, now, now)
                        && table == old(table)[newId := r.value]
                        && cache == Invalidate(old(cache), ListKey)
      ensures r.Err? ==> table == old(table) && cache == old(cache)
    {
      if user.None? {
        return Err(NotAuthenticated);
      }
      if fault.Some? {
        return Err(Store(Rejected(fault.value)));
      }
      if newId in table {
        return Err(Store(DuplicateId));
      }
      var row := Note(newId, user.value.id, input.title, input.content, input.summary, now, now);
      table := table[newId := row];
      cache := Invalidate(cache, ListKey);
      InvalidateListIsCoherent(old(cache), table);
      r := Ok(row);
    }

    /**
     * `useUpdateNote`: writes the supplied fields to the row with id `id`, then
     * invalidates `['notes']` and `['notes', id]`. `.single()` fails when no row matches.
     */
    method Update(id: NoteId, patch: NotePatch, fault: Option<string>) returns (r: Result<Note, NoteError>)
      requires Valid()
      modifies this
      ensures Valid()
      ensures fault.Some? ==> r == Err(Store(Rejected(fault.value)))
      ensures fault.None? && id !in old(table) ==> r == Err(Store(NoSingleRow))
      ensures r.Ok? <==> fault.None? && id in old(table)
      ensures r.Ok? ==> && r.value == ApplyPatch(old(table)[id], patch)
                        && table == old(table)[id := r.value]
                        && cache == Invalidate(Invalidate(old(cache), ListKey), NoteKey(r.value.id))
      ensures r.Err? ==> table == old(table) && cache == old(cache)
    {
      if fault.Some? {
        return Err(Store(Rejected(fault.value)));
      }
      if id !in table {
        return Err(Store(NoSingleRow));
      }
      var row := ApplyPatch(table[id], patch);
      table := table[id := row];
      cache := Invalidate(cache, ListKey);
      InvalidateListIsCoherent(old(cache), table);
      SecondInvalidationIsRedundant(old(cache), row.id);
      cache := Invalidate(cache, NoteKey(row.id));
      r := Ok(row);
    }

    /**
     * `useDeleteNote`: deletes the rows with id `id` and returns that id, then
     * invalidates `['notes']`. Deleting an id that has no row is not an error.
     */
    method Delete(id: NoteId, fault: Option<string>) returns (r: Result<NoteId, NoteError>)
      requires Valid()
      modifies this
      ensures Valid()
      ensures fault.Some? ==> r == Err(Store(Rejected(fault.value))) && table == old(table) && cache == old(cache)
      ensures fault.None? ==> && r == Ok(id)
                              && table == old(table) - {id}
                              && cache == Invalidate(old(cache), ListKey)
    {
      if fault.Some? {
        return Err(Store(Rejected(fault.value)));
      }
      table := table - {id};
      cache := Invalidate(cache, ListKey);
      InvalidateListIsCoherent(old(cache), table);
      r := Ok(id);
    }
  }

  /** A note created and then deleted is gone, and deleting it again still succeeds. */
  method CreateThenDelete(s: NoteService, input: NoteInput, user: User, newId: NoteId, now: Timestamp)
    returns (first: Result<NoteId, NoteError>, second: Result<NoteId, NoteError>, after: NoteQuery)
    requires s.Valid() && newId !in s.table && newId != ""
    modifies s
    ensures s.Valid()
    ensures first == Ok(newId) && second == Ok(newId)
    ensures after == Failed(Store(NoSingleRow)) && s.table == old(s.table)
  {
    var created := s.Create(input, Some(user), newId, now, None);
    first := s.Delete(newId, None);
    second := s.Delete(newId, None);
    after := s.FetchNote(newId, None);
    assert s.table == old(s.table)[newId := created.value] - {newId};
  }

  // -------------------------------------------------- summarize (client side)

  /** The body of an HTTP response as `response.json()` sees it. */
  datatype HttpBody =
    | Unparsable(parseError: string)                              // `response.json()` throws
    | JsonBody(message: Option<string>, summary: Option<string>)  // the `message` and `summary` properties

  /** What `fetch` yields: a thrown network error, or a response with a status. */
  datatype HttpOutcome = NetworkError(message: string) | HttpResponse(status: int, body: HttpBody)

  /** The headers `useSummarizeNote` sends; `anonKey` is the public anonymous key. */
  function SummarizeRequestHeaders(anonKey: string): seq<(string, string)> {
    [("Content-Type", "application/json"), ("Authorization", "Bearer " + anonKey)]
  }

  const SummarizeFallbackMessage: string := "Failed to summarize note"

  /**
   * `useSummarizeNote`: the summary of an ok response (the property may be absent),
   * or the message of the error thrown.
   */
  function SummarizeResult(h: HttpOutcome): (r: Result<Option<string>, string>)
    ensures r.Ok? <==> h.HttpResponse? && IsOkStatus(h.status) && h.body.JsonBody?
    ensures r.Ok? ==> r.value == h.body.summary
    ensures h.NetworkError? ==> r == Err(h.message)
    ensures h.HttpResponse? && h.body.Unparsable? ==> r == Err(h.body.parseError)
    ensures h.HttpResponse? && !IsOkStatus(h.status) && h.body.JsonBody? ==>
              r == Err(if h.body.message.Some? && h.body.message.value != "" then h.body.message.value
                       else SummarizeFallbackMessage)
  {
    match h
    case NetworkError(m) => Err(m)
    case HttpResponse(status, Unparsable(e)) => Err(e)
    case HttpResponse(status, JsonBody(message, summary)) =>
      if IsOkStatus(status) then Ok(summary)
      else Err(if message.Some? && message.value != "" then message.value else SummarizeFallbackMessage)
  }

  /** A failed response without a usable `message` always surfaces the fixed fallback text. */
  lemma FailureWithoutMessageUsesFallback(status: int, summary: Option<string>)
    requires !IsOkStatus(status)
    ensures SummarizeResult(HttpResponse(status, JsonBody(None, summary))) == Err(SummarizeFallbackMessage)
    ensures SummarizeResult(HttpResponse(status, JsonBody(Some(""), summary))) == Err(SummarizeFallbackMessage)
  {
  }
}
