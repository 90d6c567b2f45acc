/**
 * The note editor: the validation schema of its three fields, the values it
 * starts from, and the "Generate Summary" button with its `isSummarizing` flag.
 */
module NoteForm {
  import opened Outcomes
  import opened Text
  import opened Toasts

  /** The form's fields; a `null` and an absent summary are both `None`. */
  datatype FormValues = FormValues(title: string, content: string, summary: Option<string>)

  datatype Field = TitleField | ContentField

  /** One message the resolver attaches to a field. */
  datatype Issue = Issue(field: Field, message: string)

  const MaxTitleLength: nat := 100
  const TitleRequired: string := "Title is required"
  const TitleTooLong: string := "Title cannot be longer than 100 characters"
  const ContentRequired: string := "Content is required"

  /**
   * The issues `noteFormSchema` reports, title first; the form submits only when
   * there are none. Nothing is trimmed, so a title of spaces is accepted.
   */
  function Validate(v: FormValues): (issues: seq<Issue>)
    ensures issues == [] <==> 1 <= |v.title| <= MaxTitleLength && |v.content| >= 1
    ensures Issue(TitleField, TitleRequired) in issues <==> |v.title| < 1
    ensures Issue(TitleField, TitleTooLong) in issues <==> |v.title| > MaxTitleLength
    ensures Issue(ContentField, ContentRequired) in issues <==> |v.content| < 1
    ensures forall i :: 0 <= i < |issues| ==>
              issues[i] in {Issue(TitleField, TitleRequired), Issue(TitleField, TitleTooLong),
                            Issue(ContentField, ContentRequired)}
  {
    var title := if |v.title| < 1 then [Issue(TitleField, TitleRequired)]
                 else if |v.title| > MaxTitleLength then [Issue(TitleField, TitleTooLong)]
                 else [];
    var content := if |v.content| < 1 then [Issue(ContentField, ContentRequired)] else [];
    title + content
  }

  /** `initialData || { title: '', content: '', summary: '' }`. */
  function DefaultValues(initialData: Option<FormValues>): (v: FormValues)
    ensures initialData.Some? ==> v == initialData.value
    ensures initialData.None? ==> v.title == [] && v.content == [] && v.summary == Some([])
  {
    initialData.GetOr(FormValues("", "", Some("")))
  }

  /**
   * A fresh form without initial data starts with all three fields empty, and so fails
   * validation on both required fields.
   */
  lemma DefaultFormIsIncomplete()
    ensures DefaultValues(None) == FormValues("", "", Some(""))
    ensures Validate(DefaultValues(None)) == [Issue(TitleField, TitleRequired), Issue(ContentField, ContentRequired)]
  {
    var v := DefaultValues(None);
    assert v == FormValues("", "", Some(""));
  }

  /** Any title of one to 100 whitespace characters passes, though it trims to nothing. */
  lemma BlankTitleAccepted(title: string, content: string, summary: Option<string>)
    requires 1 <= |title| <= MaxTitleLength && AllWhitespace(title) && content != []
    ensures Validate(FormValues(title, content, summary)) == [] && Trim(title) == []
  {
    TrimEmptyIff(title);
  }

  /** What the read-only summary box shows: `field.value || ''`. */
  function DisplayedSummary(v: FormValues): (shown: string)
    ensures v.summary.Some? ==> shown == v.summary.value
    ensures v.summary.None? ==> shown == ""
  {
    v.summary.GetOr("")
  }

  /**
   * The guard of `handleSummarize`: content present and at least 50 characters once
   * trimmed. The presence test adds nothing, since empty content trims to nothing.
   */
  predicate MayRequestSummary(content: string): (ok: bool)
    ensures ok <==> |Trim(content)| >= 50
  {
    content != [] && |Trim(content)| >= 50
  }

  /** Content that passes the button's guard has at least one non-whitespace character. */
  lemma RequestableContentIsNotBlank(content: string)
    requires MayRequestSummary(content)
    ensures !AllWhitespace(content)
  {
    TrimEmptyIff(content);
  }

  const TooShortToast: Toast :=
    Toast("Content too short", "Please add more content to generate a summary (at least 50 characters).", true)
  const SummaryToast: Toast := Toast("Summary generated", "AI summary has been created for your note.", false)
  const SummaryFailedMessage: string := "Failed to generate summary. Please try again."

  /** The mounted form: its current values and the `isSummarizing` flag. */
  class NoteFormState {
    var values: FormValues
    var isSummarizing: bool

    constructor (initialData: Option<FormValues>)
      ensures values == DefaultValues(initialData) && !isSummarizing
    {
      values := DefaultValues(initialData);
      isSummarizing := false;
    }

    /**
     * `handleSummarize`, with `summarize.mutateAsync` as the oracle `summarize`.
     * `sent` is the content handed to it, if any; `busy` is the flag while it runs.
     * The button is disabled while a summary is pending, so the handler only runs
     * with the flag down.
     */
    method HandleSummarize(summarize: string -> Result<Option<string>, string>)
      returns (sent: Option<string>, toast: Toast, ghost busy: bool)
      requires !isSummarizing
      modifies this
      ensures !isSummarizing
      ensures sent.Some? <==> MayRequestSummary(old(values).content)
      ensures sent.Some? ==> sent.value == old(values).content && busy
      ensures sent.None? ==> values == old(values) && toast == TooShortToast
      ensures sent.Some? && summarize(sent.value).Ok? ==>
                values == old(values).(summary := summarize(sent.value).value) && toast == SummaryToast
      ensures sent.Some? && summarize(sent.value).Err? ==>
                values == old(values) && toast == ErrorToast(SummaryFailedMessage)
    {
      var content := values.content;
      busy := false;
      if !MayRequestSummary(content) {
        sent := None;
        toast := TooShortToast;
        return;
      }
      isSummarizing := true;
      sent := Some(content);
      busy := isSummarizing;
      match summarize(content) {
        case Ok(summary) =>
          values := values.(summary := summary);
          toast := SummaryToast;
        case Err(_) =>
          toast := ErrorToast(SummaryFailedMessage);
      }
      isSummarizing := false;
    }
  }
}
