/** The zoom mode of the picture: the mode the user chose is kept aside while HDMI input is shown at
    4K or above, where the hardware is put on automatic. */
module Zoom {
  /** Build and platform constants: whether 4K zoom is locked out (HDMIIN_4K_ZOOM not defined), the
      device-settings resolution codes for 3840x2160 and for "no resolution", and automatic zoom. */
  datatype Config = Config(lock: bool, uhd: int, noResolution: int, auto: int) {
    predicate Is4K(resolution: int) { !(resolution < uhd || resolution == noResolution) }
  }

  /** m_isDisabledHdmiIn4KZoom, m_currentHdmiInResoluton, m_videoZoomMode, and the hardware's zoom. */
  datatype State = State(presented: bool, resolution: int, saved: int, applied: int)

  /** The events, each with the outcome of the HAL call it makes. */
  datatype Event =
    | HdmiStarted
    | HdmiStopped(halOk: bool)
    | VideoMode(resolution: int, halOk: bool)
    | UserChoice(mode: int, halOk: bool)

  function Applied(s: State, mode: int, halOk: bool): State { if halOk then s.(applied := mode) else s }

  function Step(c: Config, s: State, e: Event): State {
    match e
    case HdmiStarted => if c.lock then s.(presented := true) else s
    case HdmiStopped(ok) => if c.lock then Applied(s.(presented := false), s.saved, ok) else s
    case VideoMode(resolution, ok) =>
      if !c.lock then s
      else if !s.presented then s.(resolution := resolution)
      else Applied(s.(resolution := resolution), if c.Is4K(resolution) then c.auto else s.saved, ok)
    case UserChoice(mode, ok) =>
      Applied(s.(saved := mode), if c.lock && s.presented && c.Is4K(s.resolution) then c.auto else mode, ok)
  }

  /** HDMI input is shown at 4K or above on a build that locks zoom out there. */
  predicate Locked(c: Config, s: State) { c.lock && s.presented && c.Is4K(s.resolution) }

  /** getUserSelectedAspectRatio. */
  function Answer(c: Config, s: State): int { if Locked(c, s) then s.saved else s.applied }

  /** The zoom the hardware ought to have. */
  function Wanted(c: Config, s: State): int { if Locked(c, s) then c.auto else s.saved }

  function Run(c: Config, s: State, es: seq<Event>): State
    decreases |es|
  {
    if es == [] then s else Step(c, Run(c, s, es[..|es| - 1]), es[|es| - 1])
  }

  function LastChoice(initial: int, es: seq<Event>): int
    decreases |es|
  {
    if es == [] then initial
    else if es[|es| - 1].UserChoice? then es[|es| - 1].mode
    else LastChoice(initial, es[..|es| - 1])
  }

  function LastResolution(initial: int, es: seq<Event>): int
    decreases |es|
  {
    if es == [] then initial
    else if es[|es| - 1].VideoMode? then es[|es| - 1].resolution
    else LastResolution(initial, es[..|es| - 1])
  }

  predicate LastPresented(initial: bool, es: seq<Event>)
    decreases |es|
  {
    if es == [] then initial
    else if es[|es| - 1].HdmiStarted? then true
    else if es[|es| - 1].HdmiStopped? then false
    else LastPresented(initial, es[..|es| - 1])
  }

  /** Whatever HAL calls fail, a build that locks zoom out remembers the last resolution reported, shown or
      not, and whether HDMI was last started or stopped; the other build remembers neither. */
  lemma {:induction false} LastEventsAreRemembered(c: Config, s: State, es: seq<Event>)
    ensures Run(c, s, es).resolution == if c.lock then LastResolution(s.resolution, es) else s.resolution
    ensures Run(c, s, es).presented == if c.lock then LastPresented(s.presented, es) else s.presented
    decreases |es|
  {
    if es != [] { LastEventsAreRemembered(c, s, es[..|es| - 1]); }
  }

  /** At 4K or above over HDMI, by the events alone. */
  predicate LastShown4K(c: Config, s: State, es: seq<Event>) {
    && LastPresented(s.presented, es)
    && LastResolution(s.resolution, es) >= c.uhd && LastResolution(s.resolution, es) != c.noResolution
  }

  /** Then, on a build that locks zoom out, the answer is the mode chosen; otherwise it is what the
      hardware shows. */
  lemma LockedByEvents(c: Config, s: State, es: seq<Event>)
    ensures Locked(c, Run(c, s, es)) <==> c.lock && LastShown4K(c, s, es)
    ensures Answer(c, Run(c, s, es)) == if c.lock && LastShown4K(c, s, es) then LastChoice(s.saved, es) else Run(c, s, es).applied
  {
    LastEventsAreRemembered(c, s, es);
    SavedIsLastChoice(c, s, es);
  }

  /** What one more event does to the hardware, by the events before it alone: a stop puts it on the
      chosen mode, a resolution and a choice on the chosen mode or, at 4K or above over HDMI, on automatic;
      a failed call, a start, and HDMI events on the other build leave it. */
  lemma EventsDecide(c: Config, s: State, es: seq<Event>, e: Event)
    ensures
      var chosen := LastChoice(s.saved, es + [e]);
      Run(c, s, es + [e]).applied
      == if !Succeeds(e) || e.HdmiStarted? || (!c.lock && !e.UserChoice?) || (e.VideoMode? && !LastPresented(s.presented, es))
         then Run(c, s, es).applied
         else if c.lock && LastShown4K(c, s, es + [e]) then c.auto else chosen
  {
    assert (es + [e])[..|es|] == es;
    LastEventsAreRemembered(c, s, es);
    SavedIsLastChoice(c, s, es);
  }

  predicate Succeeds(e: Event) { e.HdmiStarted? || e.halOk }

  /** Whatever HAL calls fail, the saved mode is the last one chosen. */
  lemma {:induction false} SavedIsLastChoice(c: Config, s: State, es: seq<Event>)
    ensures Run(c, s, es).saved == LastChoice(s.saved, es)
    decreases |es|
  {
    if es != [] { SavedIsLastChoice(c, s, es[..|es| - 1]); }
  }

  /** In every run of successful events from a state where the hardware shows the saved mode, it goes
      on showing the last mode chosen except, on a build that locks zoom out, at 4K or above over HDMI,
      where it shows that mode or automatic zoom; the user is always told the last mode chosen. */
  lemma {:induction false} HardwareFollowsSavedMode(c: Config, s: State, es: seq<Event>)
    requires s.applied == s.saved
    requires forall i :: 0 <= i < |es| ==> Succeeds(es[i])
    ensures
      var t, chosen := Run(c, s, es), LastChoice(s.saved, es);
      && (!(c.lock && LastShown4K(c, s, es)) ==> t.applied == chosen)
      && (t.applied == chosen || t.applied == c.auto)
      && Answer(c, t) == chosen
    decreases |es|
  {
    SavedIsLastChoice(c, s, es);
    LockedByEvents(c, s, es);
    if es != [] {
      HardwareFollowsSavedMode(c, s, es[..|es| - 1]);
      SavedIsLastChoice(c, s, es[..|es| - 1]);
      LockedByEvents(c, s, es[..|es| - 1]);
      LastEventsAreRemembered(c, s, es[..|es| - 1]);
    }
  }

  /** The run without the HDMI starts at its end; a start itself does not touch the hardware. */
  function Settled(es: seq<Event>): seq<Event>
    decreases |es|
  {
    if es != [] && es[|es| - 1].HdmiStarted? then Settled(es[..|es| - 1]) else es
  }

  lemma {:induction false} AfterStarts(c: Config, s: State, es: seq<Event>)
    ensures |Settled(es)| <= |es|
    ensures Run(c, s, es) == if c.lock && |Settled(es)| < |es| then Run(c, s, Settled(es)).(presented := true) else Run(c, s, Settled(es))
    decreases |es|
  {
    if es != [] && es[|es| - 1].HdmiStarted? { AfterStarts(c, s, es[..|es| - 1]); }
  }

  /** The hardware shows what it ought to have shown after the last event that was not a start. */
  lemma {:induction false} HardwareIsSettled(c: Config, s: State, es: seq<Event>)
    requires s.applied == Wanted(c, s)
    requires forall i :: 0 <= i < |es| ==> Succeeds(es[i])
    ensures Run(c, s, es).applied == Wanted(c, Run(c, s, Settled(es)))
    decreases |es|
  {
    if es != [] {
      var before := es[..|es| - 1];
      HardwareIsSettled(c, s, before);
      AfterStarts(c, s, before);
    }
  }

  /** So it lags behind exactly when HDMI has started at a resolution already known to be 4K or
      above, no other event has followed, and the user had chosen something other than automatic. */
  lemma LagsExactly(c: Config, s: State, es: seq<Event>)
    requires s.applied == Wanted(c, s)
    requires forall i :: 0 <= i < |es| ==> Succeeds(es[i])
    ensures
      var before := Settled(es);
      Run(c, s, es).applied != (if c.lock && LastShown4K(c, s, es) then c.auto else LastChoice(s.saved, es))
      <==> && c.lock && |before| < |es| && !LastPresented(s.presented, before)
           && LastResolution(s.resolution, before) >= c.uhd && LastResolution(s.resolution, before) != c.noResolution
           && LastChoice(s.saved, before) != c.auto
  {
    HardwareIsSettled(c, s, es);
    AfterStarts(c, s, es);
    LastEventsAreRemembered(c, s, es);
    LastEventsAreRemembered(c, s, Settled(es));
    SavedIsLastChoice(c, s, es);
    SavedIsLastChoice(c, s, Settled(es));
  }

  /** Events whose HAL call reaches the hardware. */
  predicate Reaches(c: Config, s: State, e: Event) {
    match e
    case HdmiStarted => false
    case HdmiStopped(ok) => c.lock && ok
    case VideoMode(_, ok) => c.lock && s.presented && ok
    case UserChoice(_, ok) => ok
  }

  /** Past failures heal: an event whose own call reaches the hardware leaves the right zoom, whatever
      happened before; any other event leaves the zoom alone. */
  lemma NextSuccessHeals(c: Config, s: State, es: seq<Event>, e: Event)
    ensures
      var t := Run(c, s, es);
      var t' := Run(c, s, es + [e]);
      && t' == Step(c, t, e)
      && (Reaches(c, t, e) ==> t'.applied == Wanted(c, t'))
      && (!Reaches(c, t, e) ==> t'.applied == t.applied)
  {
    assert (es + [e])[..|es|] == es;
  }

  class ZoomSettings {
    const c: Config
    var presented: bool
    var resolution: int
    var saved: int
    var applied: int

    constructor (c: Config, resolution: int, mode: int)
      ensures this.c == c && Contents() == State(false, resolution, mode, mode)
    {
      this.c := c;
      presented, this.resolution, saved, applied := false, resolution, mode, mode;
    }

    function Contents(): State reads this { State(presented, resolution, saved, applied) }

    /** The HAL's SetAspectRatio, which either takes effect or fails. */
    method SetAspectRatio(mode: int, halOk: bool) returns (ok: bool)
      modifies this`applied
      ensures ok == halOk && Contents() == Applied(old(Contents()), mode, halOk)
    {
      if halOk { applied := mode; }
      ok := halOk;
    }

    /** dsHdmiStatusEventHandler, registered only on builds that lock 4K zoom out. */
    method OnHdmiStatus(isPresented: bool, halOk: bool)
      requires c.lock
      modifies this`presented, this`applied
      ensures Contents() == Step(c, old(Contents()), if isPresented then HdmiStarted else HdmiStopped(halOk))
    {
      if !isPresented {
        presented := false;
        var ok := SetAspectRatio(saved, halOk);
      } else {
        presented := true;
      }
    }

    /** dsHdmiVideoModeEventHandler. */
    method OnVideoMode(pixelResolution: int, halOk: bool)
      requires c.lock
      modifies this`resolution, this`applied
      ensures Contents() == Step(c, old(Contents()), VideoMode(pixelResolution, halOk))
    {
      resolution := pixelResolution;
      if presented {
        var ok;
        if resolution < c.uhd || resolution == c.noResolution {
          ok := SetAspectRatio(saved, halOk);
        } else {
          ok := SetAspectRatio(c.auto, halOk);
        }
      }
    }

    /** setAspectRatioZoomSettings. */
    method SetZoom(mode: int, halOk: bool) returns (ok: bool)
      modifies this`saved, this`applied
      ensures ok == halOk && Contents() == Step(c, old(Contents()), UserChoice(mode, halOk))
    {
      saved := mode;
      if !c.lock {
        ok := SetAspectRatio(mode, halOk);
      } else if presented {
        if resolution < c.uhd || resolution == c.noResolution {
          ok := SetAspectRatio(mode, halOk);
        } else {
          ok := SetAspectRatio(c.auto, halOk);
        }
      } else {
        ok := SetAspectRatio(saved, halOk);
      }
    }

    /** getUserSelectedAspectRatio, with a HAL reading that succeeds. */
    method GetZoom() returns (mode: int)
      ensures mode == Answer(c, Contents())
    {
      if c.lock && presented {
        if !(resolution < c.uhd || resolution == c.noResolution) { return saved; }
      }
      mode := applied;
    }
  }
}
