/**
 * The content submission form: a content-type selector, a URL field and a
 * submit button. Submitting a non-blank URL shows a "processing" state that
 * a five-second timer clears again; nothing is sent anywhere.
 */
module Submission {
  import opened Wrappers

  datatype ContentKind = YouTube | Pdf | Blog | Podcast

  datatype ContentType = ContentType(id: ContentKind, labelText: string, placeholder: string)

  /** The selector's four entries, in display order. */
  function ContentTypes(): seq<ContentType> {
    [ ContentType(YouTube, "YouTube Video", "https://youtube.com/watch?v=..."),
      ContentType(Pdf, "PDF Document", "Upload PDF file..."),
      ContentType(Blog, "Blog/Article", "https://blog.example.com/article"),
      ContentType(Podcast, "Podcast", "https://podcast.example.com/episode")
    ]
  }

  // ---------------------------------------------------------------------
  // String.prototype.trim

  /**
   * The characters JavaScript's trim removes: the ECMAScript WhiteSpace
   * characters (tab, vertical tab, form feed, space, no-break space, byte
   * order mark and the other Unicode space separators) and the
   * LineTerminator characters (line feed, carriage return, U+2028, U+2029).
   */
  predicate IsTrimSpace(c: char) {
    var n := c as int;
    || n == 0x09 || n == 0x0A || n == 0x0B || n == 0x0C || n == 0x0D || n == 0x20
    || n == 0xA0 || n == 0x1680 || (0x2000 <= n <= 0x200A) || n == 0x2028 || n == 0x2029
    || n == 0x202F || n == 0x205F || n == 0x3000 || n == 0xFEFF
  }

  /** The length of the run of trimmed characters that starts `s`. */
  function LeadingRun(s: string): (k: nat)
    ensures k <= |s|
    ensures forall i :: 0 <= i < k ==> IsTrimSpace(s[i])
    ensures k < |s| ==> !IsTrimSpace(s[k])
  {
    if s == [] || !IsTrimSpace(s[0]) then 0 else 1 + LeadingRun(s[1..])
  }

  /** The length of the run of trimmed characters that ends `s`. */
  function TrailingRun(s: string): (k: nat)
    ensures k <= |s|
    ensures forall i :: |s| - k <= i < |s| ==> IsTrimSpace(s[i])
    ensures k < |s| ==> !IsTrimSpace(s[|s| - 1 - k])
  {
    if s == [] || !IsTrimSpace(s[|s| - 1]) then 0 else 1 + TrailingRun(s[..|s| - 1])
  }

  /**
   * `s` without its leading and trailing whitespace: the slice of `s` that
   * starts after the leading run and is followed only by whitespace, and
   * that neither starts nor ends with whitespace.
   */
  function Trim(s: string): (r: string)
    ensures LeadingRun(s) + |r| <= |s|
    ensures r == s[LeadingRun(s)..LeadingRun(s) + |r|]
    ensures forall i :: 0 <= i < LeadingRun(s) ==> IsTrimSpace(s[i])
    ensures forall i :: LeadingRun(s) + |r| <= i < |s| ==> IsTrimSpace(s[i])
    ensures r != [] ==> !IsTrimSpace(r[0]) && !IsTrimSpace(r[|r| - 1])
  {
    var start := LeadingRun(s);
    var rest := s[start..];
    var r := rest[..|rest| - TrailingRun(rest)];
    assert forall i :: start + |r| <= i < |s| ==> s[i] == rest[i - start];
    r
  }

  /** `!url.trim()`: the trimmed string is empty, that is, the URL is all whitespace. */
  predicate IsBlank(url: string)
    ensures IsBlank(url) <==> forall i :: 0 <= i < |url| ==> IsTrimSpace(url[i])
  {
    Trim(url) == []
  }

  // ---------------------------------------------------------------------
  // The placeholder lookup.

  /** The position of the first entry whose id is `kind` (Array.prototype.findIndex). */
  function FindType(types: seq<ContentType>, kind: ContentKind): (r: Option<nat>)
    ensures r.Some? ==> r.value < |types| && types[r.value].id == kind
    ensures r.Some? ==> forall j :: 0 <= j < r.value ==> types[j].id != kind
    ensures r.None? <==> forall j :: 0 <= j < |types| ==> types[j].id != kind
  {
    if types == [] then None
    else if types[0].id == kind then Some(0)
    else match FindType(types[1..], kind)
      case None => None
      case Some(i) => Some(i + 1)
  }

  /** The input's placeholder: that of the entry found for the selected type, if any. */
  function Placeholder(kind: ContentKind): (r: Option<string>)
    ensures r == Some(ContentTypes()[Position(kind)].placeholder)
  {
    PlaceholderOfEveryKind(kind);
    match FindType(ContentTypes(), kind)
    case None => None
    case Some(i) => Some(ContentTypes()[i].placeholder)
  }

  /** Where each kind sits in the selector. */
  function Position(kind: ContentKind): nat {
    match kind
    case YouTube => 0
    case Pdf => 1
    case Blog => 2
    case Podcast => 3
  }

  /** Every content type has an entry, and the lookup finds it at its position. */
  lemma PlaceholderOfEveryKind(kind: ContentKind)
    ensures Position(kind) < |ContentTypes()| && ContentTypes()[Position(kind)].id == kind
    ensures FindType(ContentTypes(), kind) == Some(Position(kind))
  {
  }

  // ---------------------------------------------------------------------
  // The form's state and its events.

  /**
   * The form's fields, and the number of five-second completion timers
   * scheduled and not yet fired.
   */
  datatype FormState = FormState(
    contentUrl: string,
    isProcessing: bool,
    selectedType: ContentKind,
    pendingTimers: nat)

  function Initial(): FormState {
    FormState("", false, YouTube, 0)
  }

  /** Typing into the URL field. */
  function ChangeUrl(s: FormState, value: string): (r: FormState)
    ensures r.contentUrl == value
    ensures r.isProcessing == s.isProcessing && r.selectedType == s.selectedType && r.pendingTimers == s.pendingTimers
  {
    s.(contentUrl := value)
  }

  /** Clicking a content-type button changes the selected type and nothing else. */
  function ChooseType(s: FormState, kind: ContentKind): (r: FormState)
    ensures r.selectedType == kind
    ensures r.contentUrl == s.contentUrl && r.isProcessing == s.isProcessing && r.pendingTimers == s.pendingTimers
  {
    s.(selectedType := kind)
  }

  /**
   * handleSubmit: a blank URL changes nothing; otherwise the form shows
   * "processing" and a completion timer is scheduled. The URL and the type
   * are never touched.
   */
  function Submit(s: FormState): (r: FormState)
    ensures r.contentUrl == s.contentUrl && r.selectedType == s.selectedType
    ensures IsBlank(s.contentUrl) ==> r == s
    ensures !IsBlank(s.contentUrl) ==> r.isProcessing && r.pendingTimers == s.pendingTimers + 1
  {
    if IsBlank(s.contentUrl) then s
    else s.(isProcessing := true, pendingTimers := s.pendingTimers + 1)
  }

  /** The oldest completion timer fires and clears the processing flag. */
  function Complete(s: FormState): (r: FormState)
    requires s.pendingTimers > 0
    ensures !r.isProcessing && r.pendingTimers == s.pendingTimers - 1
    ensures r.contentUrl == s.contentUrl && r.selectedType == s.selectedType
  {
    s.(isProcessing := false, pendingTimers := s.pendingTimers - 1)
  }

  /** The submit button is disabled when the URL is all whitespace or processing is under way. */
  predicate SubmitDisabled(s: FormState)
    ensures SubmitDisabled(s) <==>
      s.isProcessing || forall i :: 0 <= i < |s.contentUrl| ==> IsTrimSpace(s.contentUrl[i])
  {
    IsBlank(s.contentUrl) || s.isProcessing
  }

  /** What the user and the clock can do to the form. */
  datatype FormEvent = TypeUrl(value: string) | SelectType(kind: ContentKind) | ClickSubmit | TimerFires

  /** An event can happen: submit only through the enabled button, a timer only when one is scheduled. */
  predicate Enabled(s: FormState, e: FormEvent) {
    match e
    case ClickSubmit => !SubmitDisabled(s)
    case TimerFires => s.pendingTimers > 0
    case _ => true
  }

  function Step(s: FormState, e: FormEvent): FormState
    requires Enabled(s, e)
  {
    match e
    case TypeUrl(value) => ChangeUrl(s, value)
    case SelectType(kind) => ChooseType(s, kind)
    case ClickSubmit => Submit(s)
    case TimerFires => Complete(s)
  }

  /** What the button gating keeps: at most one timer, pending exactly while processing. */
  predicate Inv(s: FormState) {
    s.pendingTimers <= 1 && (s.isProcessing <==> s.pendingTimers == 1)
  }

  lemma StepPreservesInv(s: FormState, e: FormEvent)
    requires Inv(s) && Enabled(s, e)
    ensures Inv(Step(s, e))
  {
  }

  /** While processing, the completion timer is pending, and its firing ends processing. */
  lemma ProcessingEnds(s: FormState)
    requires Inv(s) && s.isProcessing
    ensures Enabled(s, TimerFires)
    ensures !Step(s, TimerFires).isProcessing && Inv(Step(s, TimerFires))
  {
  }

  // ---------------------------------------------------------------------
  // The component.

  class ContentSubmissionForm {
    var contentUrl: string
    var isProcessing: bool
    var selectedType: ContentKind
    var pendingTimers: nat

    function State(): FormState
      reads this
    {
      FormState(contentUrl, isProcessing, selectedType, pendingTimers)
    }

    constructor ()
      ensures State() == Initial()
    {
      contentUrl := "";
      isProcessing := false;
      selectedType := YouTube;
      pendingTimers := 0;
    }

    method SetContentUrl(value: string)
      modifies this
      ensures State() == ChangeUrl(old(State()), value)
    {
      contentUrl := value;
    }

    method SetSelectedType(kind: ContentKind)
      modifies this
      ensures State() == ChooseType(old(State()), kind)
    {
      selectedType := kind;
    }

    method HandleSubmit()
      modifies this
      ensures State() == Submit(old(State()))
    {
      if IsBlank(contentUrl) {
        return;
      }
      isProcessing := true;
      pendingTimers := pendingTimers + 1;
    }

    method ProcessingTimerFires()
      requires pendingTimers > 0
      modifies this
      ensures State() == Complete(old(State()))
    {
      isProcessing := false;
      pendingTimers := pendingTimers - 1;
    }
  }
}
