// The typing effect: after a start event, each timer step reveals one more
// code unit of a fixed text.
//
// JavaScript strings are sequences of UTF-16 code units: `text.length` counts
// them and `text[i]` reads one. So the text and the display are sequences of
// code units here, and a character outside the Basic Multilingual Plane takes
// two steps, the first of which shows a lone high surrogate.

module Typewriter {

  /** One UTF-16 code unit, the element a JavaScript string is indexed by. */
  type CodeUnit = bv16

  /** A JavaScript string. */
  type JsString = seq<CodeUnit>

  /** displayText, currentIndex and startTyping. */
  datatype Typing = Typing(displayText: JsString, currentIndex: nat, startTyping: bool)

  /** Everything typed so far is the prefix of the text up to currentIndex. */
  predicate IsPrefixState(text: JsString, s: Typing) {
    s.currentIndex <= |text| && s.displayText == text[..s.currentIndex]
  }

  /** The mounted state: nothing shown, nothing typed, not started. */
  function Initial(): (s: Typing)
    ensures forall text :: IsPrefixState(text, s)
    ensures !s.startTyping
  {
    Typing([], 0, false)
  }

  /** The delay timeout: startTyping becomes true, and nothing else changes. */
  function Started(s: Typing): (t: Typing)
    ensures t.startTyping
    ensures t.displayText == s.displayText && t.currentIndex == s.currentIndex
  {
    s.(startTyping := true)
  }

  /**
   * One typing step: once started and before the end, append the character
   * at currentIndex and advance; otherwise no timer is pending and nothing
   * happens.
   */
  function StepOnce(text: JsString, s: Typing): (t: Typing)
    requires IsPrefixState(text, s)
    ensures IsPrefixState(text, t)
    ensures t.startTyping == s.startTyping
    ensures s.startTyping && s.currentIndex < |text| ==>
      t.displayText == s.displayText + [text[s.currentIndex]] && t.currentIndex == s.currentIndex + 1
    ensures !s.startTyping || s.currentIndex == |text| ==> t == s
  {
    if s.startTyping && s.currentIndex < |text| then
      var t := Typing(s.displayText + [text[s.currentIndex]], s.currentIndex + 1, true);
      assert text[..s.currentIndex + 1] == text[..s.currentIndex] + [text[s.currentIndex]];
      t
    else
      s
  }

  /** n typing steps in a row. */
  function Steps(text: JsString, s: Typing, n: nat): Typing
    requires IsPrefixState(text, s)
    decreases n
  {
    if n == 0 then s else Steps(text, StepOnce(text, s), n - 1)
  }

  /** n steps after the start advance the index by n, capped at the end of the text, and keep the prefix state. */
  lemma {:induction false} StepsAdvance(text: JsString, s: Typing, n: nat)
    requires IsPrefixState(text, s) && s.startTyping
    ensures var t := Steps(text, s, n);
      && IsPrefixState(text, t)
      && t.startTyping
      && t.currentIndex == if s.currentIndex + n <= |text| then s.currentIndex + n else |text|
    decreases n
  {
    if n > 0 {
      StepsAdvance(text, StepOnce(text, s), n - 1);
    }
  }

  /** Before the start, no number of steps changes anything. */
  lemma {:induction false} NoTypingBeforeStart(text: JsString, s: Typing, n: nat)
    requires IsPrefixState(text, s) && !s.startTyping
    ensures Steps(text, s, n) == s
    decreases n
  {
    if n > 0 {
      NoTypingBeforeStart(text, StepOnce(text, s), n - 1);
    }
  }

  /** At the end of the text the whole text is shown, and further steps change nothing. */
  lemma {:induction false} FixedPointAtEnd(text: JsString, s: Typing, n: nat)
    requires IsPrefixState(text, s) && s.currentIndex == |text|
    ensures s.displayText == text
    ensures Steps(text, s, n) == s
    decreases n
  {
    assert text[..|text|] == text;
    if n > 0 {
      FixedPointAtEnd(text, StepOnce(text, s), n - 1);
    }
  }

  /** From the mounted state, the start followed by |text| steps shows the whole text. */
  lemma FullTextAfterAllSteps(text: JsString)
    ensures Steps(text, Started(Initial()), |text|).displayText == text
  {
    StepsAdvance(text, Started(Initial()), |text|);
    assert text[..|text|] == text;
  }

  /** The two timer events of the component. */
  datatype Event = DelayElapsed | StepElapsed

  function Apply(text: JsString, s: Typing, ev: Event): Typing
    requires IsPrefixState(text, s)
  {
    match ev
    case DelayElapsed => Started(s)
    case StepElapsed => StepOnce(text, s)
  }

  function Run(text: JsString, s: Typing, evs: seq<Event>): Typing
    requires IsPrefixState(text, s)
    decreases |evs|
  {
    if |evs| == 0 then s else Run(text, Apply(text, s, evs[0]), evs[1..])
  }

  /**
   * Along any sequence of events the prefix state holds, the index never
   * moves back, and once typing has started it stays started.
   */
  lemma {:induction false} RunKeepsPrefixAndStart(text: JsString, s: Typing, evs: seq<Event>)
    requires IsPrefixState(text, s)
    ensures var t := Run(text, s, evs);
      && IsPrefixState(text, t)
      && s.currentIndex <= t.currentIndex
      && (s.startTyping ==> t.startTyping)
    decreases |evs|
  {
    if |evs| > 0 {
      RunKeepsPrefixAndStart(text, Apply(text, s, evs[0]), evs[1..]);
    }
  }

  /** The component's state, for a text fixed at mount. */
  class Typewriter {
    const text: JsString
    var displayText: JsString
    var currentIndex: nat
    var startTyping: bool

    function State(): Typing
      reads this
    {
      Typing(displayText, currentIndex, startTyping)
    }

    ghost predicate Valid()
      reads this
    {
      IsPrefixState(text, State())
    }

    constructor (text: JsString)
      ensures Valid() && this.text == text
      ensures State() == Initial()
    {
      this.text := text;
      displayText := [];
      currentIndex := 0;
      startTyping := false;
    }

    /** The delay timeout fires: start typing. Nothing ever sets it back. */
    method Start()
      requires Valid()
      modifies this
      ensures Valid()
      ensures State() == Started(old(State()))
    {
      startTyping := true;
    }

    /** The speed timeout fires: reveal the next character, if typing has started and text remains. */
    method Step()
      requires Valid()
      modifies this
      ensures Valid()
      ensures State() == StepOnce(text, old(State()))
      ensures startTyping == old(startTyping)
    {
      if !startTyping {
        return;
      }
      if currentIndex < |text| {
        displayText := displayText + [text[currentIndex]];
        currentIndex := currentIndex + 1;
      }
    }

    /** Let the step timer run until the whole text is shown. */
    method TypeAll() returns (steps: nat)
      requires Valid() && startTyping
      modifies this
      ensures Valid() && startTyping
      ensures displayText == text && currentIndex == |text|
      ensures steps == |text| - old(currentIndex)
      ensures State() == Steps(text, old(State()), steps)
    {
      steps := 0;
      ghost var s0 := State();
      while currentIndex < |text|
        invariant Valid() && startTyping
        invariant currentIndex == s0.currentIndex + steps
        invariant State() == Steps(text, s0, steps)
        decreases |text| - currentIndex
      {
        StepsThenOne(text, s0, steps);
        Step();
        steps := steps + 1;
      }
      assert text[..|text|] == text;
    }
  }

  /** Taking one more step after n steps is the same as n + 1 steps. */
  lemma {:induction false} StepsThenOne(text: JsString, s: Typing, n: nat)
    requires IsPrefixState(text, s)
    ensures IsPrefixState(text, Steps(text, s, n))
    ensures Steps(text, s, n + 1) == StepOnce(text, Steps(text, s, n))
    decreases n
  {
    if n > 0 {
      StepsThenOne(text, StepOnce(text, s), n - 1);
    }
  }
}
