/**
 * The per-frame idle-wobble / periodic-spin state machine that `animate`
 * in script.js runs on the model's z rotation.
 *
 * The source keeps its timer on the animate function object
 * (isSpinning, lastSwitch, spinStart) and creates it lazily on the first
 * frame that has a model. Angles are kept symbolic: a rotation is the base
 * angle it was last set to plus a number of fixed spin steps (fastSpeed),
 * and the wobble angle of an idle frame is named WobbleAt(now) rather than
 * computed.
 */
module Animation {
  /** Milliseconds of idling, since the last mode switch, after which a spin starts. */
  const IdleBeforeSpin: int := 3000
  /** Milliseconds, since the spin started, after which a spin ends. */
  const SpinLength: int := 450

  /** The angle that the z rotation was last overwritten with. */
  datatype RotationBase =
    | AsLoaded            // the rotation the model asset was loaded with
    | WobbleAt(now: int)  // 2*PI + 0.05 * sin(0.005 * now) for an idle frame at time now

  /** model.rotation.z: base angle plus spinSteps times the per-frame spin step. */
  datatype Rotation = Rotation(base: RotationBase, spinSteps: nat)

  /**
   * The timer and the rotation. started is false while animate.isSpinning
   * is still undefined; until then the other timer fields are unused.
   */
  datatype AnimState = AnimState(
    started: bool,
    isSpinning: bool,
    lastSwitch: int,
    spinStart: int,
    rotation: Rotation)

  /** The state before the first frame with a model. */
  const Initial: AnimState := AnimState(false, false, 0, 0, Rotation(AsLoaded, 0))

  /**
   * What one call of animate sees: whether the model has loaded, the
   * Date.now() reading taken when the timer is created (line 52) and the
   * one taken for the frame itself (line 55).
   */
  datatype Tick = Tick(modelPresent: bool, initClock: int, now: int)

  /** True when the frame with this tick, from state s, runs the spinning branch. */
  predicate SpinsIn(s: AnimState, f: Tick)
  {
    f.modelPresent &&
    if s.started then s.isSpinning || f.now - s.lastSwitch > IdleBeforeSpin
    else f.now - f.initClock > IdleBeforeSpin
  }

  /** One frame of animate, on the state. */
  function Step(s: AnimState, f: Tick): (r: AnimState)
    // no model yet: nothing changes
    ensures !f.modelPresent ==> r == s
    // the timer exists from the first frame with a model on
    ensures f.modelPresent ==> r.started
    // the timer is created idle with lastSwitch at the creation reading
    ensures f.modelPresent && !s.started && !SpinsIn(s, f) ==>
      !r.isSpinning && r.lastSwitch == f.initClock
    // a frame that creates the timer with readings more than 3000 ms apart starts a spin at once
    ensures f.modelPresent && !s.started && SpinsIn(s, f) ==>
      r.isSpinning && r.spinStart == f.now && r.lastSwitch == f.initClock
    // an idle timer starts a spin only when strictly more than 3000 ms have passed
    ensures s.started && !s.isSpinning && r.isSpinning ==>
      f.now - s.lastSwitch > IdleBeforeSpin && r.spinStart == f.now && r.lastSwitch == s.lastSwitch
    // and it does start one when they have
    ensures f.modelPresent && s.started && !s.isSpinning && f.now - s.lastSwitch > IdleBeforeSpin ==>
      r.isSpinning && r.spinStart == f.now
    // every spinning frame, the starting and the ending one included, adds exactly one step
    ensures SpinsIn(s, f) ==>
      r.rotation == Rotation(s.rotation.base, s.rotation.spinSteps + 1)
    // a spin ends exactly on a frame more than 450 ms after it started,
    // and lastSwitch becomes that frame's time
    ensures s.started && s.isSpinning && f.modelPresent ==>
      (r.isSpinning <==> f.now - s.spinStart <= SpinLength) &&
      (r.isSpinning ==> r.spinStart == s.spinStart && r.lastSwitch == s.lastSwitch) &&
      (!r.isSpinning ==> r.lastSwitch == f.now)
    // an idle frame overwrites the rotation with the wobble for its own time
    // and leaves the timer alone
    ensures f.modelPresent && !SpinsIn(s, f) ==>
      r.rotation == Rotation(WobbleAt(f.now), 0) && !r.isSpinning &&
      (s.started ==> r.lastSwitch == s.lastSwitch && r.spinStart == s.spinStart)
  {
    if !f.modelPresent then s
    else
      var t := if s.started then s else s.(started := true, isSpinning := false, lastSwitch := f.initClock);
      var u := if !t.isSpinning && f.now - t.lastSwitch > IdleBeforeSpin
        then t.(isSpinning := true, spinStart := f.now)
        else t;
      if u.isSpinning then
        var v := u.(rotation := Rotation(u.rotation.base, u.rotation.spinSteps + 1));
        if f.now - v.spinStart > SpinLength then v.(isSpinning := false, lastSwitch := f.now) else v
      else
        u.(rotation := Rotation(WobbleAt(f.now), 0))
  }

  /**
   * The first frame with a model never spins when its two clock readings
   * are at most 3000 ms apart (they are taken a few statements apart).
   */
  lemma FirstFrameIdles(s: AnimState, f: Tick)
    requires !s.started && f.modelPresent && f.now - f.initClock <= IdleBeforeSpin
    ensures Step(s, f).started && !Step(s, f).isSpinning
    ensures Step(s, f).lastSwitch == f.initClock
    ensures Step(s, f).rotation == Rotation(WobbleAt(f.now), 0)
  {
  }

  /**
   * The angle an idle frame sets depends on the frame's time alone: not on
   * the rotation before it nor on how many spin steps were taken.
   */
  lemma IdleRotationForgetsHistory(s1: AnimState, s2: AnimState, f: Tick)
    requires f.modelPresent && !SpinsIn(s1, f)
    ensures Step(s1, f).rotation == Step(s2, f).rotation <==> !SpinsIn(s2, f)
  {
  }

  /** A change of mode, with the frame time at which it happened. */
  datatype Event = SpinStarted(at: int) | SpinEnded(at: int)

  /** The timer exists and is in the spinning mode. */
  predicate Spinning(s: AnimState)
  {
    s.started && s.isSpinning
  }

  /** The mode change, if any, made by the frame f from state s. */
  function FrameEvents(s: AnimState, f: Tick): (evs: seq<Event>)
    ensures |evs| <= 1
  {
    var r := Step(s, f);
    if !Spinning(s) && Spinning(r) then [SpinStarted(f.now)]
    else if Spinning(s) && !Spinning(r) then [SpinEnded(f.now)]
    else []
  }

  /** The mode changes made while running the frames fs from s, in order. */
  function Events(s: AnimState, fs: seq<Tick>): seq<Event>
    decreases |fs|
  {
    if fs == [] then [] else FrameEvents(s, fs[0]) + Events(Step(s, fs[0]), fs[1..])
  }

  /**
   * The change b may follow the change a: a spin ends more than 450 ms
   * after it started, and the next spin starts more than 3000 ms after the
   * previous one ended.
   */
  predicate Linked(a: Event, b: Event)
  {
    (a.SpinStarted? ==> b.SpinEnded? && b.at - a.at > SpinLength) &&
    (a.SpinEnded? ==> b.SpinStarted? && b.at - a.at > IdleBeforeSpin)
  }

  /** Starts and ends alternate, each change linked to the next. */
  ghost predicate WellSpaced(evs: seq<Event>)
  {
    forall i :: 0 <= i < |evs| - 1 ==> Linked(evs[i], evs[i + 1])
  }

  /** How the first mode change made from s relates to the timer in s. */
  ghost predicate FollowsTimer(s: AnimState, evs: seq<Event>)
  {
    evs != [] ==>
      if Spinning(s) then
        evs[0].SpinEnded? && evs[0].at - s.spinStart > SpinLength
      else
        evs[0].SpinStarted? && (s.started ==> evs[0].at - s.lastSwitch > IdleBeforeSpin)
  }

  /**
   * One frame keeps the timer's promise: if the changes after the frame
   * follow the new timer, the frame's own change (if any) follows the old
   * timer and is linked to the next change.
   */
  lemma FrameFollowsTimer(s: AnimState, f: Tick, rest: seq<Event>)
    requires FollowsTimer(Step(s, f), rest)
    ensures FollowsTimer(s, FrameEvents(s, f) + rest)
    ensures FrameEvents(s, f) != [] && rest != [] ==> Linked(FrameEvents(s, f)[0], rest[0])
  {
  }

  /** Putting a change linked to the first of a well-spaced sequence in front keeps it well spaced. */
  lemma PrependWellSpaced(head: seq<Event>, rest: seq<Event>)
    requires |head| <= 1 && WellSpaced(rest)
    requires head != [] && rest != [] ==> Linked(head[0], rest[0])
    ensures WellSpaced(head + rest)
  {
  }

  /**
   * For ANY sequence of frames (the clock need not even be monotone), the
   * mode changes are well spaced and the first one agrees with the timer.
   */
  lemma {:induction false} EventsWellSpaced(s: AnimState, fs: seq<Tick>)
    ensures WellSpaced(Events(s, fs)) && FollowsTimer(s, Events(s, fs))
    decreases |fs|
  {
    if fs != [] {
      var rest := Events(Step(s, fs[0]), fs[1..]);
      EventsWellSpaced(Step(s, fs[0]), fs[1..]);
      FrameFollowsTimer(s, fs[0], rest);
      PrependWellSpaced(FrameEvents(s, fs[0]), rest);
    }
  }

  /** Two consecutive spins start more than 3450 ms apart. */
  lemma SpinStartsApart(s: AnimState, fs: seq<Tick>, i: nat)
    requires i + 2 < |Events(s, fs)| && Events(s, fs)[i].SpinStarted?
    ensures Events(s, fs)[i + 2].SpinStarted?
    ensures Events(s, fs)[i + 2].at - Events(s, fs)[i].at > SpinLength + IdleBeforeSpin
  {
    var evs := Events(s, fs);
    EventsWellSpaced(s, fs);
    assert Linked(evs[i], evs[i + 1]);
    assert Linked(evs[i + 1], evs[i + 2]);
  }

  /**
   * animate's timer and the model's rotation, updated in place once per
   * displayed frame.
   */
  class Animator {
    var started: bool
    var isSpinning: bool
    var lastSwitch: int
    var spinStart: int
    var rotation: Rotation

    function State(): AnimState
      reads this
    {
      AnimState(started, isSpinning, lastSwitch, spinStart, rotation)
    }

    constructor ()
      ensures State() == Initial
    {
      started, isSpinning, lastSwitch, spinStart := false, false, 0, 0;
      rotation := Rotation(AsLoaded, 0);
    }

    /**
     * One call of animate, leaving out the progress bar and the render
     * call. initClock and now are the two Date.now() readings it takes.
     */
    method Frame(modelPresent: bool, initClock: int, now: int)
      modifies this
      ensures State() == Step(old(State()), Tick(modelPresent, initClock, now))
    {
      if modelPresent {
        if !started {
          started := true;
          isSpinning := false;
          lastSwitch := initClock;
        }
        var elapsed := now - lastSwitch;
        if !isSpinning && elapsed > IdleBeforeSpin {
          isSpinning := true;
          spinStart := now;
        }
        if isSpinning {
          rotation := Rotation(rotation.base, rotation.spinSteps + 1);
          if now - spinStart > SpinLength {
            isSpinning := false;
            lastSwitch := now;
          }
        } else {
          rotation := Rotation(WobbleAt(now), 0);
        }
      }
    }
  }
}
