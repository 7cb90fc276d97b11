/** The two text hooks of src/hooks/useTypingEffect.ts: the typewriter that reveals a text one
    character per tick, and the streaming text that grows by appended chunks. Timers are left
    out: each fired timer is a method call. */
module TypingText {

  /** The state of `useTypingEffect(text)`: the text being revealed, what is shown, the two flags,
      and the tick closure's `currentIndex`. */
  class TypingEffect {
    var text: string
    var displayedText: string
    var isTyping: bool
    var isComplete: bool
    var currentIndex: int

    /** What is shown is always the first `currentIndex` characters of the text, and a complete
        reveal shows all of it. */
    predicate Valid()
      reads this
    {
      && 0 <= currentIndex <= |text|
      && displayedText == text[..currentIndex]
      && (isComplete ==> !isTyping && currentIndex == |text|)
    }

    constructor()
      ensures Valid()
      ensures text == "" && displayedText == "" && !isTyping && !isComplete
    {
      text := "";
      displayedText := "";
      isTyping := false;
      isComplete := false;
      currentIndex := 0;
    }

    /** The effect on a new `text`: an empty text changes nothing; any other resets the display and
        both flags and waits for the start timer. */
    method SetText(newText: string)
      requires Valid()
      modifies this
      ensures Valid()
      ensures newText == "" ==>
        text == old(text) && displayedText == old(displayedText) && isTyping == old(isTyping)
        && isComplete == old(isComplete) && currentIndex == old(currentIndex)
      ensures newText != "" ==> text == newText && displayedText == "" && !isTyping && !isComplete
    {
      if newText == "" {
        return;
      }
      text := newText;
      displayedText := "";
      isTyping := false;
      isComplete := false;
      currentIndex := 0;
    }

    /** One run of `typeCharacter`: reveal one more character, or finish. */
    method Tick()
      requires Valid()
      modifies this
      ensures Valid()
      ensures text == old(text)
      ensures old(currentIndex) < |text| ==>
        && currentIndex == old(currentIndex) + 1
        && displayedText == old(displayedText) + [text[old(currentIndex)]]
        && isTyping == old(isTyping) && isComplete == old(isComplete)
      ensures old(currentIndex) == |text| ==>
        displayedText == text && !isTyping && isComplete && currentIndex == old(currentIndex)
    {
      if currentIndex < |text| {
        displayedText := text[..currentIndex + 1];
        currentIndex := currentIndex + 1;
      } else {
        isTyping := false;
        isComplete := true;
      }
    }

    /** The start timer firing, which only a non-empty text schedules: typing begins from the
        first character, and the first tick runs at once. */
    method StartTyping()
      requires Valid() && text != ""
      modifies this
      ensures Valid()
      ensures text == old(text)
      ensures isTyping && !isComplete && displayedText == text[..1] && currentIndex == 1
    {
      isTyping := true;
      isComplete := false;
      currentIndex := 0;
      displayedText := "";
      Tick();
    }

    /** The rest of the chain of tick timers: the remaining reveals, one character each, and the
        finishing tick. The display ends as the whole text. */
    method TypeToEnd()
      requires Valid()
      modifies this
      ensures Valid()
      ensures text == old(text) && displayedText == text && isComplete && !isTyping
    {
      while currentIndex < |text|
        invariant Valid() && text == old(text)
        decreases |text| - currentIndex
      {
        Tick();
      }
      Tick();
    }
  }

  /** The state of `useStreamingText(initialText)`. */
  class StreamingText {
    var text: string
    var isStreaming: bool

    constructor(initialText: string := "")
      ensures text == initialText && !isStreaming
    {
      text := initialText;
      isStreaming := false;
    }

    /** `startStreaming`. */
    method StartStreaming()
      modifies this
      ensures isStreaming && text == ""
    {
      isStreaming := true;
      text := "";
    }

    /** `appendText(chunk)`: the chunk goes at the end; the flag is not consulted. */
    method AppendText(chunk: string)
      modifies this
      ensures text == old(text) + chunk && isStreaming == old(isStreaming)
    {
      text := text + chunk;
    }

    /** `stopStreaming`: only the flag changes. */
    method StopStreaming()
      modifies this
      ensures !isStreaming && text == old(text)
    {
      isStreaming := false;
    }

    /** `resetText`. */
    method ResetText()
      modifies this
      ensures !isStreaming && text == ""
    {
      text := "";
      isStreaming := false;
    }
  }
}
