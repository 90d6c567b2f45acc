/** The card the dashboard shows for one note: a content preview, the summary box, and hover. */
module NoteCard {
  import opened Outcomes

  const PreviewLength: nat := 200
  const Ellipsis: string := "..."

  /** `truncatedContent`: content over 200 characters is cut to its first 200 and marked with `...`. */
  function TruncatedContent(content: string): (shown: string)
    ensures |content| <= PreviewLength ==> shown == content
    ensures |content| > PreviewLength ==>
              |shown| == PreviewLength + 3 && shown[..PreviewLength] == content[..PreviewLength]
              && shown[PreviewLength..] == Ellipsis
    ensures |shown| <= PreviewLength + 3
    ensures var n := if |content| < PreviewLength then |content| else PreviewLength;
            n <= |shown| && shown[..n] == content[..n]
  {
    if |content| > PreviewLength then
      var shown := content[..PreviewLength] + Ellipsis;
      assert shown[..PreviewLength] == content[..PreviewLength];
      assert shown[PreviewLength..] == Ellipsis;
      shown
    else content
  }

  /** Truncating a preview again gives the same preview. */
  lemma {:induction false} TruncationIdempotent(content: string)
    ensures TruncatedContent(TruncatedContent(content)) == TruncatedContent(content)
  {
    if |content| > PreviewLength {
      var once := TruncatedContent(content);
      assert once == once[..PreviewLength] + once[PreviewLength..];
    }
  }

  /** `{summary && ...}`: the box appears only for a non-empty summary. */
  predicate ShowsSummary(summary: Option<string>) {
    summary.Some? && summary.value != ""
  }

  /** The summary box's contents: the summary when shown, nothing otherwise. */
  function SummaryBox(summary: Option<string>): (box: Option<string>)
    ensures box.Some? <==> summary.Some? && |summary.value| > 0
    ensures box.Some? ==> box == summary
  {
    if ShowsSummary(summary) then summary else None
  }

  /** The card's `isHovering` highlight. */
  class HoverState {
    var isHovering: bool

    constructor ()
      ensures !isHovering
    {
      isHovering := false;
    }

    method MouseEnter()
      modifies this
      ensures isHovering
    {
      isHovering := true;
    }

    method MouseLeave()
      modifies this
      ensures !isHovering
    {
      isHovering := false;
    }
  }
}
