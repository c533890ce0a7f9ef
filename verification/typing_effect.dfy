/** The text-reveal effect: each timer tick shows one more character, or a
    whole `<...>` tag at once. The timer itself is not modelled; `Tick` is
    the body of the interval callback. */
module TypingEffect {

  /** The callback's closure state: the scan index and the text shown so far. */
  datatype Reveal = Reveal(i: nat, visible: string)

  /** The shown text is exactly the first `i` characters of the full text. */
  predicate Valid(text: string, st: Reveal) {
    st.i <= |text| && st.visible == text[..st.i]
  }

  /** `text.indexOf(c, from)`: the first position at or after `from` holding `c`, or -1. */
  function IndexOf(text: string, c: char, from: nat): (r: int)
    ensures r == -1 <==> forall k :: from <= k < |text| ==> text[k] != c
    ensures r != -1 ==> from <= r < |text| && text[r] == c && forall k :: from <= k < r ==> text[k] != c
    decreases |text| - from
  {
    if from >= |text| then -1
    else if text[from] == c then from
    else IndexOf(text, c, from + 1)
  }

  /** The effect's starting point: with speed 0 or an empty text everything
      is shown at once; otherwise nothing is shown yet. */
  function Start(text: string, speed: int): (st: Reveal)
    ensures Valid(text, st)
    ensures speed == 0 || text == "" ==> st.visible == text
    ensures speed != 0 && text != "" ==> st.i == 0
  {
    if speed == 0 || text == "" then Reveal(|text|, text) else Reveal(0, "")
  }

  /** One interval tick. */
  function Tick(text: string, st: Reveal): (r: Reveal)
    ensures st.i >= |text| ==> r == st
    ensures st.i < |text| ==> st.i < r.i <= |text| && r.visible == st.visible + text[st.i..r.i]
    ensures Valid(text, st) ==> Valid(text, r)
  {
    if st.i >= |text| then st
    else if text[st.i] == '<' then
      var close := IndexOf(text, '>', st.i);
      if close != -1 then Reveal(close + 1, st.visible + text[st.i..close + 1])
      else Reveal(st.i + 1, st.visible + [text[st.i]])
    else Reveal(st.i + 1, st.visible + [text[st.i]])
  }

  /** How far a tick advances: one character, unless it stands on a `<`
      with a `>` at or after it, in which case up to and including that `>`. */
  lemma TickAdvance(text: string, st: Reveal)
    requires st.i < |text|
    ensures text[st.i] != '<' || IndexOf(text, '>', st.i) == -1 ==> Tick(text, st).i == st.i + 1
    ensures text[st.i] == '<' && IndexOf(text, '>', st.i) != -1 ==>
              Tick(text, st).i == IndexOf(text, '>', st.i) + 1
  {
  }

  /** A tick at a `<` that has a later `>` reveals the whole tag: the new
      text ends at the first `>` and holds no `>` before it. */
  lemma TagRevealedWhole(text: string, st: Reveal, close: nat)
    requires st.i <= close < |text| && text[st.i] == '<' && text[close] == '>'
    ensures var r := Tick(text, st);
            r.i <= close + 1 && text[r.i - 1] == '>' && forall k :: st.i <= k < r.i - 1 ==> text[k] != '>'
  {
  }

  /** The state after `n` ticks. */
  function Ticks(text: string, st: Reveal, n: nat): Reveal
    decreases n
  {
    if n == 0 then st else Ticks(text, Tick(text, st), n - 1)
  }

  /** From a valid state, `|text|` ticks (or more) show the whole text. */
  lemma {:induction false} TicksReachEnd(text: string, st: Reveal, n: nat)
    requires Valid(text, st) && n >= |text| - st.i
    ensures Ticks(text, st, n).visible == text
    decreases n
  {
    if n == 0 {
      assert text[..|text|] == text;
    } else if st.i == |text| {
      TicksStayAtEnd(text, st, n);
    } else {
      TicksReachEnd(text, Tick(text, st), n - 1);
    }
  }

  /** Once the whole text is shown, further ticks change nothing. */
  lemma {:induction false} TicksStayAtEnd(text: string, st: Reveal, n: nat)
    requires Valid(text, st) && st.i == |text|
    ensures Ticks(text, st, n) == st
    ensures st.visible == text
    decreases n
  {
    assert text[..|text|] == text;
    if n > 0 {
      TicksStayAtEnd(text, Tick(text, st), n - 1);
    }
  }

  /** Run the effect to completion; `ticks` counts the ticks that showed something. */
  method RevealAll(text: string, speed: int) returns (typed: string, ticks: nat)
    ensures typed == text
    ensures ticks <= |text|
    ensures speed == 0 || text == "" ==> ticks == 0
  {
    var st := Start(text, speed);
    ticks := 0;
    while st.i < |text|
      invariant Valid(text, st)
      invariant ticks <= st.i
      invariant speed == 0 || text == "" ==> ticks == 0
      decreases |text| - st.i
    {
      st := Tick(text, st);
      ticks := ticks + 1;
    }
    typed := st.visible;
  }
}
