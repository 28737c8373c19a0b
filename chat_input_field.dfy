/**
 * The chat input field: a multi-line editor whose Enter key submits the trimmed text to
 * `onSendMessage` and whose preferred height follows the number of lines, between one
 * and ten.
 */
module ChatInputFieldComponent {
  import opened Wrappers
  import opened KotlinText

  /** `KeyEvent.VK_ENTER`. */
  const VkEnter: int := 10

  const MinLines: int := 1
  const MaxLines: int := 10
  const LineHeight: int := 20
  const HeightPadding: int := 10

  /** Kotlin's `coerceIn(1, 10)` on the document's line count. */
  function VisibleLines(lineCount: int): (n: int)
    ensures MinLines <= n <= MaxLines
    ensures MinLines <= lineCount <= MaxLines ==> n == lineCount
    ensures lineCount < MinLines ==> n == MinLines
    ensures lineCount > MaxLines ==> n == MaxLines
  {
    if lineCount < MinLines then MinLines else if lineCount > MaxLines then MaxLines else lineCount
  }

  /** The preferred height the document listener sets: twenty pixels a visible line plus ten. */
  function PreferredHeight(lineCount: int): (h: int)
    ensures 30 <= h <= 210
    ensures (h - HeightPadding) % LineHeight == 0
  {
    VisibleLines(lineCount) * LineHeight + HeightPadding
  }

  /** Reading the number of visible lines back from a preferred height. */
  function LinesForHeight(h: int): int {
    (h - HeightPadding) / LineHeight
  }

  /** The height determines the visible line count, and the visible line count the height. */
  lemma HeightEncodesVisibleLines(lineCount: int)
    ensures LinesForHeight(PreferredHeight(lineCount)) == VisibleLines(lineCount)
  {
  }

  /** More lines never make the field shorter. */
  lemma HeightMonotone(a: int, b: int)
    requires a <= b
    ensures PreferredHeight(a) <= PreferredHeight(b)
  {
  }

  /** Within one to ten lines, each extra line adds exactly one line height. */
  lemma HeightGrowsPerLine(n: int)
    requires MinLines <= n < MaxLines
    ensures PreferredHeight(n + 1) == PreferredHeight(n) + LineHeight
  {
  }

  /** Below one line the field has its one-line height; from ten lines on it stops growing and scrolls. */
  lemma HeightSaturates(n: int)
    ensures n <= MinLines ==> PreferredHeight(n) == 30
    ensures n >= MaxLines ==> PreferredHeight(n) == 210
  {
  }

  /** Contents of 1, 5 and 12 lines get the heights of 1, 5 and 10 lines. */
  lemma HeightExamples()
    ensures PreferredHeight(1) == 30 && PreferredHeight(5) == 110 && PreferredHeight(12) == 210
    ensures PreferredHeight(0) == PreferredHeight(1)
  {
  }

  /** What pressing Enter sends: the trimmed text, when that is not blank. */
  function Submission(text: string): (m: Option<string>)
    ensures m.Some? <==> !IsBlank(text)
    ensures m.Some? ==> m.value != [] && !IsWhitespace(m.value[0]) && !IsWhitespace(m.value[|m.value| - 1])
    ensures m.Some? ==> |m.value| <= |text|
  {
    var message := Trim(text);
    if !IsBlank(message) then Some(message) else None
  }

  /** A submitted message is a contiguous slice of the buffer, with only whitespace around it. */
  lemma SubmissionIsTrimmedSlice(text: string)
    requires Submission(text).Some?
    ensures var i := TrimStartIndex(text, IsWhitespace, 0);
            var j := TrimEndIndex(text, IsWhitespace, i, |text|);
      && i < j <= |text| && Submission(text).value == text[i..j]
      && (forall k :: 0 <= k < i ==> IsWhitespace(text[k]))
      && (forall k :: j <= k < |text| ==> IsWhitespace(text[k]))
  {
    TrimByIsMaximalSlice(text, IsWhitespace);
  }

  /** Submitting a sent message again would send it unchanged. */
  lemma SubmissionIdempotent(text: string)
    requires Submission(text).Some?
    ensures Submission(Submission(text).value) == Submission(text)
  {
    TrimByIdempotent(text, IsWhitespace);
  }

  /** What the key listener does with a key press. */
  datatype KeyOutcome = KeyOutcome(consumed: bool, submits: bool)

  /** Enter without Shift is consumed and submits; Shift+Enter and every other key pass through. */
  function KeyRule(keyCode: int, shiftDown: bool): (r: KeyOutcome)
    ensures r.consumed == r.submits
    ensures r.submits <==> keyCode == VkEnter && !shiftDown
  {
    if keyCode == VkEnter && !shiftDown then KeyOutcome(true, true) else KeyOutcome(false, false)
  }

  /** Shift never submits, whatever the key. */
  lemma ShiftNeverSubmits(keyCode: int)
    ensures !KeyRule(keyCode, true).submits && !KeyRule(keyCode, true).consumed
  {
  }

  /** The input field: the text buffer, the messages handed to `onSendMessage`, and the preferred size. */
  class ChatInputField {
    var text: string
    var sent: seq<string>
    var preferredWidth: int
    var preferredHeight: int

    /** An empty field of the editor's initial preferred size. */
    constructor (width: int, height: int)
      ensures text == [] && sent == []
      ensures preferredWidth == width && preferredHeight == height
    {
      text := [];
      sent := [];
      preferredWidth := width;
      preferredHeight := height;
    }

    /**
     * An edit made through the editor itself (typing, pasting, the newline Shift+Enter
     * inserts). Like every change of the document it runs the document listener, with the
     * line count the editor reports for the new text.
     */
    method Edit(newText: string, lineCount: nat)
      modifies this
      ensures text == newText
      ensures preferredHeight == PreferredHeight(lineCount) && preferredWidth == old(preferredWidth)
      ensures sent == old(sent)
    {
      text := newText;
      DocumentChanged(lineCount);
    }

    /**
     * Sends the trimmed text once and clears the buffer when it is not blank; otherwise
     * sends nothing and keeps the buffer. Clearing the buffer is a document change, so the
     * document listener runs on the empty document and the field shrinks to one line
     * (30 pixels, whether the empty document counts as zero lines or one).
     */
    method SendMessage()
      modifies this
      ensures Submission(old(text)).Some? ==> sent == old(sent) + [Submission(old(text)).value] && text == []
      ensures Submission(old(text)).Some? ==> preferredHeight == PreferredHeight(0) == 30
      ensures Submission(old(text)).None? ==> sent == old(sent) && text == old(text)
      ensures Submission(old(text)).None? ==> preferredHeight == old(preferredHeight)
      ensures preferredWidth == old(preferredWidth)
    {
      var message := Trim(text);
      if !IsBlank(message) {
        sent := sent + [message];
        text := [];
        DocumentChanged(0);
      }
    }

    /** The key listener: Enter without Shift is consumed and sends. */
    method KeyPressed(keyCode: int, shiftDown: bool) returns (consumed: bool)
      modifies this
      ensures consumed == KeyRule(keyCode, shiftDown).consumed
      ensures consumed && Submission(old(text)).Some? ==> sent == old(sent) + [Submission(old(text)).value] && text == []
      ensures consumed && Submission(old(text)).Some? ==> preferredHeight == 30
      ensures !(consumed && Submission(old(text)).Some?) ==> sent == old(sent) && text == old(text)
      ensures !(consumed && Submission(old(text)).Some?) ==> preferredHeight == old(preferredHeight)
      ensures preferredWidth == old(preferredWidth)
    {
      consumed := false;
      if keyCode == VkEnter {
        if !shiftDown {
          consumed := true;
          SendMessage();
        }
      }
    }

    /** The document listener: the height follows the line count, the width is kept. */
    method DocumentChanged(lineCount: nat)
      modifies this
      ensures preferredHeight == PreferredHeight(lineCount)
      ensures 30 <= preferredHeight <= 210
      ensures preferredWidth == old(preferredWidth)
      ensures text == old(text) && sent == old(sent)
    {
      var lines := VisibleLines(lineCount);
      preferredHeight := lines * 20 + 10;
    }
  }
}
