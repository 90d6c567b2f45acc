/**
 * The dashboard page: the routes its cards lead to, which of its three list views
 * it shows, and the two-step delete confirmation.
 */
module Dashboard {
  import opened Outcomes
  import opened Toasts
  import opened AuthGuard
  import opened NotesApi
  import opened NoteCard

  /** `/notes/${id}`, where `handleViewNote` goes: the id follows the fixed `/notes/` prefix unchanged. */
  function ViewRoute(id: NoteId): (r: string)
    ensures |r| == 7 + |id| && r[..7] == "/notes/" && r[7..] == id
  {
    "/notes/" + id
  }

  /** `/notes/${id}/edit`, where `handleEditNote` goes: the id sits between `/notes/` and `/edit`. */
  function EditRoute(id: NoteId): (r: string)
    ensures |r| == 12 + |id| && r[..7] == "/notes/" && r[7..7 + |id|] == id && r[7 + |id|..] == "/edit"
  {
    "/notes/" + id + "/edit"
  }

  /** Different notes are viewed at different routes. */
  lemma ViewRouteInjective(a: NoteId, b: NoteId)
    requires ViewRoute(a) == ViewRoute(b)
    ensures a == b
  {
    assert a == ViewRoute(a)[7..] && b == ViewRoute(b)[7..];
  }

  /** Different notes are edited at different routes. */
  lemma EditRouteInjective(a: NoteId, b: NoteId)
    requires EditRoute(a) == EditRoute(b)
    ensures a == b
  {
    assert |a| == |b|;
    assert a == EditRoute(a)[7..7 + |a|] && b == EditRoute(b)[7..7 + |b|];
  }

  /** Neither route is public, so an anonymous visitor following one is sent to the login page. */
  lemma RoutesArePrivate(id: NoteId)
    ensures RedirectFor(false, None, ViewRoute(id)) == ToLogin
    ensures RedirectFor(false, None, EditRoute(id)) == ToLogin
  {
    assert ViewRoute(id)[1] == 'n' && EditRoute(id)[1] == 'n';
    assert |ViewRoute(id)| > 1 && |EditRoute(id)| > 1;
    assert "/auth/login"[1] == 'a' && "/auth/signup"[1] == 'a' && "/auth/verify"[1] == 'a';
  }

  /** What one `NoteCard` shows of a note. */
  datatype CardView = CardView(id: NoteId, title: string, preview: string, summary: Option<string>)

  /**
   * The card of one note: its id and title, a preview that is the content itself when it
   * has at most 200 characters and never longer than 203, and the summary only when it
   * is non-empty.
   */
  function CardFor(n: Note): (c: CardView)
    ensures c.id == n.id && c.title == n.title
    ensures |n.content| <= PreviewLength ==> c.preview == n.content
    ensures |c.preview| <= PreviewLength + 3
    ensures c.summary.Some? <==> ShowsSummary(n.summary)
    ensures c.summary.Some? ==> c.summary == n.summary
  {
    CardView(n.id, n.title, TruncatedContent(n.content), SummaryBox(n.summary))
  }

  /** The three branches of the list area. */
  datatype ListView = Spinner | EmptyState | Cards(cards: seq<CardView>)

  /**
   * `isLoading ? spinner : notes?.length === 0 ? empty state : notes?.map(card)`;
   * `None` is a list that is still undefined.
   */
  function RenderList(isLoading: bool, notes: Option<seq<Note>>): (v: ListView)
    ensures v.Spinner? <==> isLoading
    ensures v.EmptyState? <==> !isLoading && notes == Some([])
    ensures v.Cards? ==> |v.cards| == |notes.GetOr([])|
                         && forall i :: 0 <= i < |v.cards| ==> v.cards[i] == CardFor(notes.value[i])
  {
    if isLoading then Spinner
    else if notes.Some? && |notes.value| == 0 then EmptyState
    else if notes.None? then Cards([])
    else Cards(seq(|notes.value|, i requires 0 <= i < |notes.value| => CardFor(notes.value[i])))
  }

  /** A list that has not arrived, once loading is over, shows neither cards nor the empty state. */
  lemma UndefinedListShowsNothing()
    ensures RenderList(false, None) == Cards([])
  {
    assert !RenderList(false, None).EmptyState?;
  }

  const DeletedToast: Toast := Toast("Note deleted", "Your note has been permanently deleted.", false)
  const DeleteFailedMessage: string := "Failed to delete note. Please try again."

  /** The page's delete-confirmation state. */
  class DashboardState {
    var selectedNoteId: Option<NoteId>
    var deleteDialogOpen: bool

    constructor ()
      ensures selectedNoteId == None && !deleteDialogOpen
    {
      selectedNoteId := None;
      deleteDialogOpen := false;
    }

    /** A card's delete button: remember the note and ask for confirmation. */
    method HandleDeleteNote(id: NoteId)
      modifies this
      ensures selectedNoteId == Some(id) && deleteDialogOpen
    {
      selectedNoteId := Some(id);
      deleteDialogOpen := true;
    }

    /** The dialog's Cancel (its `onOpenChange(false)`): the dialog closes, the selection stays. */
    method CancelDialog()
      modifies this
      ensures !deleteDialogOpen && selectedNoteId == old(selectedNoteId)
    {
      deleteDialogOpen := false;
    }

    /**
     * `confirmDelete`. Without a selection (`null` or the empty id, both falsy) nothing
     * happens. Otherwise the selected id is deleted through `service`, a toast reports
     * the outcome, and the dialog is closed and the selection cleared either way.
     */
    method ConfirmDelete(service: NoteService, fault: Option<string>)
      returns (requested: Option<NoteId>, toast: Option<Toast>)
      requires service.Valid()
      modifies this, service
      ensures service.Valid()
      ensures requested.Some? <==> old(selectedNoteId).Some? && old(selectedNoteId).value != ""
      ensures requested.None? ==> && toast.None? && selectedNoteId == old(selectedNoteId)
                                  && deleteDialogOpen == old(deleteDialogOpen)
                                  && service.table == old(service.table) && service.cache == old(service.cache)
      ensures requested.Some? ==> && requested == old(selectedNoteId)
                                  && selectedNoteId.None? && !deleteDialogOpen
      ensures requested.Some? && fault.None? ==>
                && toast == Some(DeletedToast) && service.table == old(service.table) - {requested.value}
                && service.cache == Invalidate(old(service.cache), ListKey)
      ensures requested.Some? && fault.Some? ==>
                && toast == Some(ErrorToast(DeleteFailedMessage))
                && service.table == old(service.table) && service.cache == old(service.cache)
    {
      if selectedNoteId.None? || selectedNoteId.value == "" {
        return None, None;
      }
      requested := selectedNoteId;
      var r := service.Delete(selectedNoteId.value, fault);
      if r.Ok? {
        toast := Some(DeletedToast);
      } else {
        toast := Some(ErrorToast(DeleteFailedMessage));
      }
      deleteDialogOpen := false;
      selectedNoteId := None;
    }
  }
}
