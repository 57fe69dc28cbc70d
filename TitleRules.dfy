/** The title rules both title inputs apply: the length thresholds, the
    add-button gate, the length messages and the outcome of a submit
    (ToDoList.tsx and AddItemForm.tsx define them alike). */
module TitleRules {
  import opened Text

  datatype Option<T> = None | Some(value: T)

  const MaxTitleLength: nat := 20
  const RecommendedTitleLength: nat := 10

  /** The add button is disabled: the title is empty or has reached the
      maximum length. It is enabled exactly for lengths 1 to 19. */
  function IsAddTaskNotPossible(title: string): (disabled: bool)
    ensures !disabled <==> 0 < |title| < MaxTitleLength
  {
    |title| == 0 || |title| >= MaxTitleLength
  }

  /** "Title should be shorter" is shown. It shows only above the recommended
      length, always for lengths 11 to 19, and comes with a disabled button
      only at exactly the maximum length. */
  function ShowsLengthWarning(title: string): (shown: bool)
    ensures shown ==> |title| > RecommendedTitleLength
    ensures RecommendedTitleLength < |title| < MaxTitleLength ==> shown
    ensures shown ==> (IsAddTaskNotPossible(title) <==> |title| == MaxTitleLength)
  {
    RecommendedTitleLength < |title| <= MaxTitleLength
  }

  /** "Title too long" is shown. It shows only with a disabled button, and
      not at exactly the maximum length. */
  function ShowsLengthError(title: string): (shown: bool)
    ensures shown ==> IsAddTaskNotPossible(title)
    ensures shown <==> |title| >= MaxTitleLength + 1
  {
    |title| > MaxTitleLength
  }

  /** What a submit hands to the callback: the trimmed title, or nothing when
      trimming leaves the empty string (the JavaScript falsy test). */
  function Submission(title: string): (sent: Option<string>)
    ensures sent.None? <==> AllWhitespace(title)
    ensures sent.Some? ==> sent.value != [] && |sent.value| <= |title|
    ensures sent.Some? ==> !IsWhitespace(sent.value[0]) && !IsWhitespace(sent.value[|sent.value| - 1])
    ensures sent.Some? ==>
              var start := LeadingWhitespace(title);
              && start + |sent.value| <= |title|
              && title[start..start + |sent.value|] == sent.value
              && AllWhitespace(title[..start]) && AllWhitespace(title[start + |sent.value|..])
  {
    TrimEmptyIffAllWhitespace(title);
    var trimmed := Trim(title);
    if trimmed != [] then Some(trimmed) else None
  }

  /** The two length messages are never shown together, the too-long message
      always comes with a disabled button, and at exactly the maximum length
      the button is disabled while only the milder warning is shown. */
  lemma LengthMessagesExclusive(title: string)
    ensures !(ShowsLengthWarning(title) && ShowsLengthError(title))
    ensures ShowsLengthError(title) ==> IsAddTaskNotPossible(title)
    ensures |title| == MaxTitleLength ==>
              IsAddTaskNotPossible(title) && ShowsLengthWarning(title) && !ShowsLengthError(title)
  {
  }

  /** Submitting twice gives the same text: a submitted title is already trimmed. */
  lemma SubmissionIdempotent(title: string)
    requires Submission(title).Some?
    ensures Submission(Submission(title).value) == Submission(title)
  {
    TrimIdempotent(title);
  }
}
