/** The blink sequencer of the front panel: a timer shows the frames of a pattern one after another,
    and the pattern a number of times. */
module Blink {

  /** The fields of the sequencer, whether its timer is scheduled, and the frames shown since the
      last start. */
  datatype State<F> = State(list: seq<F>, index: int, blinks: int, maxRepeats: int, isBlinking: bool, scheduled: bool, shown: seq<F>)

  /** setBlinkLed, and the timer scheduled again. */
  function Show<F>(s: State<F>): State<F>
    requires 0 <= s.index < |s.list|
  {
    s.(shown := s.shown + [s.list[s.index]], scheduled := s.isBlinking)
  }

  /** startBlinkTimer. */
  function Started<F>(list: seq<F>, repeats: int): State<F> {
    var s := State(list, 0, 0, repeats, true, false, []);
    if |list| > 0 then Show(s) else s
  }

  /** The index and the count at the next tick, and whether a frame is shown then. */
  function Advanced<F>(s: State<F>): (State<F>, bool) {
    if s.index + 1 < |s.list| then (s.(index := s.index + 1), true)
    else
      var s' := s.(index := 0, blinks := s.blinks + 1);
      (s', s'.maxRepeats < 0 || s'.blinks <= s'.maxRepeats)
  }

  /** The timer fires: onBlinkTimer. */
  function Tick<F>(s: State<F>): State<F>
    requires s.scheduled && 0 <= s.index < |s.list|
  {
    var (s', again) := Advanced(s);
    if again then Show(s') else s'.(scheduled := false)
  }

  /** The state after t ticks of an uninterrupted run, as long as the timer goes on. */
  function Ran<F>(list: seq<F>, repeats: int, t: nat): (s: State<F>)
    ensures s.list == list && s.maxRepeats == repeats && s.isBlinking
    ensures list != [] ==> 0 <= s.index < |list|
    decreases t
  {
    if t == 0 then Started(list, repeats)
    else
      var s := Ran(list, repeats, t - 1);
      if s.scheduled && list != [] then Tick(s) else s
  }

  function Repeat<F>(list: seq<F>, times: nat): seq<F> {
    if times == 0 then [] else list + Repeat(list, times - 1)
  }

  lemma NextRound(n: nat, d: nat)
    ensures d * n + n == (d + 1) * n
  {
  }

  lemma {:induction false} RepeatNext<F>(list: seq<F>, times: nat)
    ensures Repeat(list, times + 1) == Repeat(list, times) + list
  {
    if times > 0 {
      RepeatNext(list, times - 1);
      assert list + (Repeat(list, times - 1) + list) == (list + Repeat(list, times - 1)) + list;
    }
  }

  /** What has been shown: whole rounds of the pattern, and its frames up to the index. */
  predicate ShowsRounds<F(==)>(s: State<F>) {
    0 <= s.index < |s.list| && s.blinks >= 0 && s.shown == Repeat(s.list, s.blinks) + s.list[..s.index + 1]
  }

  /** A tick shows the next frame, or the first one of the next round if one is due. */
  lemma TickShowsNext<F>(s: State<F>)
    requires ShowsRounds(s) && s.scheduled && s.isBlinking
    requires s.index + 1 < |s.list| || s.maxRepeats < 0 || s.blinks < s.maxRepeats
    ensures
      var t := Tick(s);
      && ShowsRounds(t) && t.scheduled
      && (if s.index + 1 < |s.list| then t.index == s.index + 1 && t.blinks == s.blinks else t.index == 0 && t.blinks == s.blinks + 1)
  {
    var list := s.list;
    if s.index + 1 < |list| {
      assert list[..s.index + 2] == list[..s.index + 1] + [list[s.index + 1]];
    } else {
      RepeatNext(list, s.blinks);
      assert list[..s.index + 1] == list && list[..1] == [list[0]];
    }
  }

  /** While frames are left, tick t shows one more, t + 1 in all. */
  lemma {:induction false} RunShowsRounds<F>(list: seq<F>, repeats: int, t: nat)
    requires list != [] && (repeats < 0 || t < (repeats + 1) * |list|)
    ensures
      var s := Ran(list, repeats, t);
      && s.scheduled && ShowsRounds(s) && t == s.blinks * |list| + s.index
      && (repeats >= 0 ==> s.blinks <= repeats)
    decreases t
  {
    if t > 0 {
      RunShowsRounds(list, repeats, t - 1);
      var s := Ran(list, repeats, t - 1);
      NextRound(|list|, s.blinks);
      TickShowsNext(s);
    } else {
      assert list[..1] == [list[0]];
    }
  }

  /** With k >= 0 repeats an uninterrupted run stops at tick (k + 1) * n, after the pattern has been
      shown exactly k + 1 times, and the light stays on its last frame. */
  lemma {:induction false} RunEnds<F>(list: seq<F>, repeats: nat, t: nat)
    requires list != [] && t >= (repeats + 1) * |list|
    ensures
      var s := Ran(list, repeats, t);
      && !s.scheduled
      && s.shown == Repeat(list, repeats + 1)
      && s.shown != [] && s.shown[|s.shown| - 1] == list[|list| - 1]
    decreases t
  {
    var n := |list|;
    NextRound(n, repeats);
    RepeatNext(list, repeats);
    if t > (repeats + 1) * n {
      RunEnds(list, repeats, t - 1);
    } else {
      RunShowsRounds(list, repeats, t - 1);
      var s := Ran(list, repeats, t - 1);
      SameRound(n, s.blinks, s.index, repeats, n - 1);
      assert list[..n] == list;
    }
  }

  lemma Smaller(n: nat, d: nat, i: nat, e: nat, j: nat)
    requires i < n && d < e
    ensures d * n + i < e * n + j
  {
    assert (d + 1) * n <= e * n;
    NextRound(n, d);
  }

  /** A number splits into rounds and a rest in one way. */
  lemma SameRound(n: nat, d: nat, i: nat, e: nat, j: nat)
    requires i < n && j < n && d * n + i == e * n + j
    ensures d == e && i == j
  {
    if d < e { Smaller(n, d, i, e, j); }
    if e < d { Smaller(n, e, j, d, i); }
  }

  lemma Wrap(i: nat, n: nat)
    requires 0 < n <= i
    ensures i % n == (i - n) % n
  {
    NextRound(n, (i - n) / n);
    SameRound(n, (i - n) / n + 1, (i - n) % n, i / n, i % n);
  }

  lemma {:induction false} RepeatAt<F>(list: seq<F>, times: nat, m: nat, i: nat)
    requires list != [] && m <= |list| && i < |Repeat(list, times) + list[..m]|
    ensures (Repeat(list, times) + list[..m])[i] == list[i % |list|]
    decreases times
  {
    if i >= |list| {
      assert times > 0;
      Wrap(i, |list|);
      assert (Repeat(list, times) + list[..m])[i] == (Repeat(list, times - 1) + list[..m])[i - |list|];
      RepeatAt(list, times - 1, m, i - |list|);
    }
  }

  lemma {:induction false} RepeatLength<F>(list: seq<F>, times: nat)
    ensures |Repeat(list, times)| == times * |list|
  {
    if times > 0 {
      RepeatLength(list, times - 1);
      NextRound(|list|, times - 1);
    }
  }

  /** With a negative number of repeats it never stops, and the i-th frame is always frame i modulo
      the length of the pattern. */
  lemma RunGoesOn<F>(list: seq<F>, repeats: int, t: nat, i: nat)
    requires list != [] && repeats < 0 && i <= t
    ensures
      var s := Ran(list, repeats, t);
      s.scheduled && |s.shown| == t + 1 && s.shown[i] == list[i % |list|]
  {
    RunShowsRounds(list, repeats, t);
    var s := Ran(list, repeats, t);
    RepeatLength(list, s.blinks);
    RepeatAt(list, s.blinks, s.index + 1, i);
  }

  /** An empty pattern shows nothing and schedules nothing. */
  lemma EmptyPattern<F>(repeats: int, t: nat)
    ensures !Ran<F>([], repeats, t).scheduled && Ran<F>([], repeats, t).shown == []
  {
  }

  /** A tick that comes after the sequencer was stopped does not schedule another. */
  lemma StoppedStaysStopped<F>(s: State<F>)
    requires s.scheduled && 0 <= s.index < |s.list| && !s.isBlinking
    ensures !Tick(s).scheduled
  {
  }

  class Sequencer<F> {
    var list: seq<F>
    var index: int
    var blinks: int
    var maxRepeats: int
    var isBlinking: bool
    var scheduled: bool
    var shown: seq<F>

    constructor ()
      ensures !isBlinking && !scheduled && list == [] && index == 0
    {
      list, index, blinks, maxRepeats, isBlinking, scheduled, shown := [], 0, 0, 0, false, false, [];
    }

    function Contents(): State<F> reads this { State(list, index, blinks, maxRepeats, isBlinking, scheduled, shown) }

    /** setBlink, with the pattern already parsed. */
    method SetBlink(pattern: seq<F>, iterations: int)
      modifies this
      ensures Contents() == Started(pattern, iterations)
    {
      StopBlinkTimer();
      list := [];
      for i := 0 to |pattern|
        invariant list == pattern[..i]
      {
        list := list + [pattern[i]];
      }
      assert pattern[..|pattern|] == pattern;
      StartBlinkTimer(iterations);
    }

    method StopBlinkTimer()
      modifies this`isBlinking, this`scheduled
      ensures !isBlinking && !scheduled
    {
      isBlinking := false;
      scheduled := false;
    }

    method StartBlinkTimer(repeats: int)
      modifies this
      ensures Contents() == Started(old(list), repeats)
    {
      StopBlinkTimer();
      shown := [];
      blinks := 0;
      isBlinking := true;
      maxRepeats := repeats;
      index := 0;
      if |list| > 0 {
        shown := shown + [list[0]];
        if isBlinking { scheduled := true; }
      }
    }

    /** The timer fires. */
    method OnBlinkTimer()
      requires scheduled && 0 <= index < |list|
      modifies this`index, this`blinks, this`scheduled, this`shown
      ensures Contents() == Tick(old(Contents()))
    {
      scheduled := false;
      index := index + 1;
      var blinkAgain := true;
      if index >= |list| {
        blinkAgain := false;
        index := 0;
        blinks := blinks + 1;
        if maxRepeats < 0 || blinks <= maxRepeats { blinkAgain := true; }
      }
      if blinkAgain {
        shown := shown + [list[index]];
        if isBlinking { scheduled := true; }
      }
    }
  }
}
