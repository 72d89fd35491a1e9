/**
 * The replay controller embedded in the generated page: a cursor over the n
 * resampled samples, a playing flag, and one repeating browser timer that
 * advances the cursor. The page's handlers are modelled twice: as pure
 * transition functions on a `State` value (used to reason about whole event
 * sequences) and as the methods of `ReplayController`, whose fields the
 * handlers update in place and whose every method is tied to its function.
 *
 * Timestamps are milliseconds since the epoch. A timer is a browser handle
 * mapped to its period in milliseconds; timer firing is an explicit `Tick`
 * event rather than real time.
 */
module Replay {
  import opened Nearest

  datatype Option<T> = None | Some(value: T)

  /** The periods (milliseconds per frame) the speed selector offers. */
  const SpeedPresets: seq<int> := [1000, 200, 100, 20, 10]

  /** The option selected when the page loads (50x). */
  const DefaultSpeed: int := 20

  /**
   * The controller's variables together with the browser state they refer to.
   *  - cursor:     `currentIndex`
   *  - playing:    `isPlaying`
   *  - intervalId: the handle last returned by `setInterval`; `clearInterval`
   *                does not reset it, so it can name a timer that has stopped
   *  - timers:     the browser's running repeating timers, handle to period
   *  - nextId:     the handle the next `setInterval` returns
   *  - speed:      the speed selector's current value
   */
  datatype State = State(
    cursor: int,
    playing: bool,
    intervalId: Option<nat>,
    timers: map<nat, int>,
    nextId: nat,
    speed: int)

  /** `currentIndex = 0, isPlaying = false, intervalId = null`, no timer, 50x selected. */
  function Initial(): (r: State)
    ensures !r.playing && Running(r) == None && r.timers == map[] && r.intervalId == None
    ensures forall n: nat :: CursorInRange(r.cursor, n)
    ensures r.speed == DefaultSpeed && r.speed in SpeedPresets
  {
    State(0, false, None, map[], 1, DefaultSpeed)
  }

  /** The period of the timer `intervalId` names, if that timer is running. */
  function Running(s: State): Option<int>
  {
    if s.intervalId.Some? && s.intervalId.value in s.timers
    then Some(s.timers[s.intervalId.value])
    else None
  }

  /** Every running timer is the one `intervalId` names. */
  predicate OnlyCurrentTimer(s: State)
  {
    forall id :: id in s.timers ==> s.intervalId == Some(id)
  }

  /** Every handle handed out so far, running or stale, is below the next one. */
  predicate HandlesIssued(s: State)
  {
    (forall id :: id in s.timers ==> id < s.nextId) &&
    (s.intervalId.Some? ==> s.intervalId.value < s.nextId)
  }

  /** The cursor bounds: a valid index when there are samples; -1 or 0 when there are none. */
  predicate CursorInRange(cursor: int, n: nat)
  {
    if n > 0 then 0 <= cursor < n else -1 <= cursor <= 0
  }

  /** The invariant every reachable state of a controller over `n` samples keeps. */
  predicate Inv(s: State, n: nat)
  {
    CursorInRange(s.cursor, n) &&
    OnlyCurrentTimer(s) &&
    HandlesIssued(s) &&
    (s.playing <==> Running(s).Some?) &&
    s.speed in SpeedPresets &&
    (Running(s).Some? ==> Running(s).value in SpeedPresets)
  }

  lemma InitialInv(n: nat)
    ensures Inv(Initial(), n)
  {
  }

  /** Under the invariant at most one timer is running. */
  lemma AtMostOneTimer(s: State, n: nat)
    requires Inv(s, n)
    ensures |s.timers| <= 1
    ensures s.timers == map[] <==> !s.playing
  {
    if s.intervalId.Some? && s.intervalId.value in s.timers {
      assert s.timers.Keys == {s.intervalId.value};
    } else {
      assert s.timers.Keys == {};
    }
  }

  // ---------------------------------------------------------------------
  // The browser's timer table

  /** `clearInterval(intervalId)`: stops the timer the handle names, if any. */
  function Cleared(s: State): (r: State)
    ensures Running(r) == None
    ensures r.timers.Keys <= s.timers.Keys
    ensures OnlyCurrentTimer(s) ==> r.timers == map[]
    ensures forall id :: id in s.timers && s.intervalId != Some(id) ==> id in r.timers && r.timers[id] == s.timers[id]
    ensures r == s.(timers := r.timers)
  {
    if s.intervalId.Some? then s.(timers := s.timers - {s.intervalId.value}) else s
  }

  /** `setInterval(advanceFrame, ms)`: starts a new timer; the handle is `s.nextId`. */
  function Started(s: State, ms: int): (r: State)
    ensures s.nextId in r.timers && r.timers[s.nextId] == ms
    ensures r.timers.Keys == s.timers.Keys + {s.nextId}
    ensures r.nextId > s.nextId
    ensures HandlesIssued(s) ==> s.nextId !in s.timers && HandlesIssued(r)
    ensures forall id :: id in s.timers && id != s.nextId ==> id in r.timers && r.timers[id] == s.timers[id]
    ensures r == s.(timers := r.timers, nextId := r.nextId)
  {
    s.(timers := s.timers[s.nextId := ms], nextId := s.nextId + 1)
  }

  // ---------------------------------------------------------------------
  // The handlers, as functions of the state and the number of samples

  /** `pauseReplay`: stop playing and clear the timer; the cursor stays. */
  function AfterPause(s: State): (r: State)
    ensures !r.playing && Running(r) == None
    ensures r.cursor == s.cursor && r.speed == s.speed
    ensures r.intervalId == s.intervalId && r.nextId == s.nextId
    ensures r.timers.Keys <= s.timers.Keys
    ensures OnlyCurrentTimer(s) ==> r.timers == map[]
    ensures forall n: nat :: Inv(s, n) ==> Inv(r, n)
  {
    Cleared(s.(playing := false))
  }

  /**
   * `playReplay`: nothing when already playing; otherwise start playing,
   * rewind to the first sample when the cursor is at or past the last one,
   * clear the previous timer and start one at the selected period.
   */
  function AfterPlay(s: State, n: nat): (r: State)
    ensures s.playing ==> r == s
    ensures !s.playing ==> r.playing && r.cursor == (if s.cursor >= n - 1 then 0 else s.cursor)
    ensures !s.playing ==> Running(r) == Some(s.speed) && r.intervalId == Some(s.nextId)
    ensures !s.playing && OnlyCurrentTimer(s) ==> r.timers == map[s.nextId := s.speed]
    ensures r.speed == s.speed
    ensures Inv(s, n) ==> Inv(r, n)
  {
    if s.playing then s
    else
      var s1 := s.(playing := true);
      var s2 := if s1.cursor >= n - 1 then s1.(cursor := 0) else s1;
      var s3 := Cleared(s2);
      Started(s3, s3.speed).(intervalId := Some(s3.nextId))
  }

  /**
   * `advanceFrame`, run by the timer: step the cursor; once it passes the
   * last sample, pause and put the cursor back on the last sample.
   */
  function AfterTick(s: State, n: nat): (r: State)
    ensures s.cursor + 1 < n ==> r == s.(cursor := s.cursor + 1)
    ensures s.cursor + 1 >= n ==> r.cursor == n - 1 && !r.playing && Running(r) == None
    ensures s.cursor + 1 >= n ==> r.speed == s.speed && r.intervalId == s.intervalId
    ensures s.cursor + 1 >= n && OnlyCurrentTimer(s) ==> r.timers == map[]
    ensures Inv(s, n) ==> Inv(r, n)
  {
    var c := s.cursor + 1;
    if c >= n then AfterPause(s.(cursor := c)).(cursor := n - 1)
    else s.(cursor := c)
  }

  /** `resetReplay`: pause, then put the cursor on the first sample, in any state. */
  function AfterReset(s: State, n: nat): (r: State)
    ensures r.cursor == 0 && !r.playing && Running(r) == None
    ensures r.speed == s.speed
    ensures OnlyCurrentTimer(s) ==> r.timers == map[]
    ensures Inv(s, n) ==> Inv(r, n)
  {
    AfterPause(s).(cursor := 0)
  }

  /** The Play/Pause button: pause when playing, play otherwise. */
  function AfterToggle(s: State, n: nat): (r: State)
    ensures r.playing == !s.playing
    ensures s.playing ==> r.cursor == s.cursor && Running(r) == None
    ensures !s.playing ==> Running(r) == Some(s.speed)
    ensures Inv(s, n) ==> Inv(r, n)
  {
    if s.playing then AfterPause(s) else AfterPlay(s, n)
  }

  /**
   * The speed selector's change handler as written: the selector takes the
   * new value and `playReplay` is called when playing, which then returns at
   * once. Only the selector changes; a running timer keeps its old period.
   */
  function AfterSpeedChange(s: State, n: nat, ms: int): (r: State)
    ensures r == s.(speed := ms)
    ensures Running(r) == Running(s)
    ensures Inv(s, n) && ms in SpeedPresets ==> Inv(r, n)
  {
    var s1 := s.(speed := ms);
    if s1.playing then AfterPlay(s1, n) else s1
  }

  /** Witness of the discrepancy: playing at 50x and choosing 1x leaves the 20 ms timer running. */
  lemma SpeedChangeKeepsOldInterval()
    ensures var s := AfterPlay(Initial(), 10);
            s.playing && Running(AfterSpeedChange(s, 10, 1000)) == Some(DefaultSpeed)
  {
  }

  /**
   * The speed change the page evidently intends: while playing, restart the
   * timer at the newly selected period, keeping the cursor; while paused,
   * only the selector changes and Play picks the new period up.
   */
  function AfterSpeedChangeRestart(s: State, n: nat, ms: int): (r: State)
    ensures !s.playing ==> r == s.(speed := ms)
    ensures s.playing ==> r.playing && r.cursor == s.cursor && r.speed == ms
    ensures s.playing ==> Running(r) == Some(ms)
    ensures s.playing && OnlyCurrentTimer(s) ==> r.timers == map[s.nextId := ms]
    ensures Inv(s, n) && ms in SpeedPresets ==> Inv(r, n)
  {
    var s1 := s.(speed := ms);
    if s1.playing then
      var s2 := Cleared(s1);
      Started(s2, ms).(intervalId := Some(s2.nextId))
    else s1
  }

  /**
   * The chart's click handler: pause when playing, then move the cursor to
   * the first sample nearest the clicked time (no move when there is none).
   */
  function AfterClick(s: State, ts: seq<int>, time: int): (r: State)
    ensures !r.playing && r.speed == s.speed
    ensures |ts| > 0 ==> IsClosest(ts, time, r.cursor)
    ensures |ts| == 0 ==> r.cursor == s.cursor
    ensures !s.playing ==> r.timers == s.timers
    ensures Inv(s, |ts|) ==> Inv(r, |ts|) && Running(r) == None
  {
    var s1 := if s.playing then AfterPause(s) else s;
    var closestIndex := ClosestTimestampIndex(ts, time);
    if closestIndex != -1 then s1.(cursor := closestIndex) else s1
  }

  // ---------------------------------------------------------------------
  // Event sequences

  /**
   * What can happen to the controller. `Tick` is the running timer firing;
   * `Play` and `Pause` are direct calls of the two functions, which the
   * handlers also make.
   */
  datatype Event = Tick | Play | Pause | Reset | Toggle | SpeedChange(ms: int) | Click(time: int)

  /** Events the page can produce: the selector only offers its presets. */
  predicate FromPage(e: Event)
  {
    e.SpeedChange? ==> e.ms in SpeedPresets
  }

  /** One event; a tick happens only while some timer is running. */
  function Step(s: State, ts: seq<int>, e: Event): (r: State)
    ensures e.Tick? && s.timers == map[] ==> r == s
    ensures e.Tick? && s.timers != map[] ==> r == AfterTick(s, |ts|)
    ensures Inv(s, |ts|) && FromPage(e) ==> Inv(r, |ts|)
    ensures r.nextId >= s.nextId
  {
    match e
    case Tick => if s.timers != map[] then AfterTick(s, |ts|) else s
    case Play => AfterPlay(s, |ts|)
    case Pause => AfterPause(s)
    case Reset => AfterReset(s, |ts|)
    case Toggle => AfterToggle(s, |ts|)
    case SpeedChange(ms) => AfterSpeedChange(s, |ts|, ms)
    case Click(time) => AfterClick(s, ts, time)
  }

  /** The events in order; timer handles are never reused, so the next handle only grows. */
  function Run(s: State, ts: seq<int>, es: seq<Event>): (r: State)
    ensures es == [] ==> r == s
    ensures r.nextId >= s.nextId
    decreases |es|
  {
    if es == [] then s else Run(Step(s, ts, es[0]), ts, es[1..])
  }

  /** `k` timer firings in a row. */
  function Ticks(k: nat): seq<Event>
  {
    seq(k, _ => Tick)
  }

  /** Running two event sequences one after the other is running their concatenation. */
  lemma {:induction false} RunAppend(s: State, ts: seq<int>, es1: seq<Event>, es2: seq<Event>)
    ensures Run(s, ts, es1 + es2) == Run(Run(s, ts, es1), ts, es2)
    decreases |es1|
  {
    if es1 != [] {
      assert (es1 + es2)[0] == es1[0];
      assert (es1 + es2)[1..] == es1[1..] + es2;
      RunAppend(Step(s, ts, es1[0]), ts, es1[1..], es2);
    } else {
      assert es1 + es2 == es2;
    }
  }

  /** Every sequence of page events keeps the invariant, in particular the cursor bounds. */
  lemma {:induction false} RunKeepsInv(s: State, ts: seq<int>, es: seq<Event>)
    requires Inv(s, |ts|)
    requires forall i :: 0 <= i < |es| ==> FromPage(es[i])
    ensures Inv(Run(s, ts, es), |ts|)
    decreases |es|
  {
    if es != [] {
      assert forall i :: 0 <= i < |es| - 1 ==> es[1..][i] == es[i + 1];
      RunKeepsInv(Step(s, ts, es[0]), ts, es[1..]);
    }
  }

  /**
   * From the page's initial state, whatever the user and the timer do, the
   * cursor stays on a sample (for at least one sample), at most one timer
   * runs, and a timer runs exactly while playing.
   */
  lemma ReachableStates(ts: seq<int>, es: seq<Event>)
    requires forall i :: 0 <= i < |es| ==> FromPage(es[i])
    ensures var s := Run(Initial(), ts, es);
            (|ts| > 0 ==> 0 <= s.cursor < |ts|) &&
            |s.timers| <= 1 &&
            (s.playing <==> s.timers != map[])
  {
    InitialInv(|ts|);
    RunKeepsInv(Initial(), ts, es);
    AtMostOneTimer(Run(Initial(), ts, es), |ts|);
  }

  /** While playing and before the last sample, each tick moves the cursor by one and nothing else. */
  lemma {:induction false} TicksWhilePlaying(s: State, ts: seq<int>, k: nat)
    requires Inv(s, |ts|) && s.playing
    requires s.cursor + k < |ts|
    ensures Run(s, ts, Ticks(k)) == s.(cursor := s.cursor + k)
    decreases k
  {
    if k > 0 {
      AtMostOneTimer(s, |ts|);
      var s' := Step(s, ts, Tick);
      assert s' == s.(cursor := s.cursor + 1);
      assert Ticks(k)[1..] == Ticks(k - 1);
      TicksWhilePlaying(s', ts, k - 1);
    }
  }

  /**
   * A replay started from the first sample: the first n - 1 ticks reach the
   * last sample still playing, and the n-th pauses there with no timer left.
   */
  lemma ReplayToEnd(s: State, ts: seq<int>)
    requires |ts| > 0 && Inv(s, |ts|) && s.playing && s.cursor == 0
    ensures Run(s, ts, Ticks(|ts| - 1)) == s.(cursor := |ts| - 1)
    ensures var e := Run(s, ts, Ticks(|ts|));
            e.cursor == |ts| - 1 && !e.playing && e.timers == map[]
  {
    var n := |ts|;
    TicksWhilePlaying(s, ts, n - 1);
    TicksSnoc(n - 1);
    RunAppend(s, ts, Ticks(n - 1), [Tick]);
    TickOnLast(s, ts);
  }

  lemma TicksSnoc(k: nat)
    ensures Ticks(k + 1) == Ticks(k) + [Tick]
  {
  }

  /** A tick on the last sample while playing pauses there and leaves no timer running. */
  lemma TickOnLast(s: State, ts: seq<int>)
    requires |ts| > 0 && Inv(s, |ts|) && s.playing
    ensures var e := Run(s.(cursor := |ts| - 1), ts, [Tick]);
            e.cursor == |ts| - 1 && !e.playing && e.timers == map[]
  {
    var last := s.(cursor := |ts| - 1);
    assert Inv(last, |ts|);
    AtMostOneTimer(last, |ts|);
    var e := AfterTick(last, |ts|);
    assert Step(last, ts, Tick) == e;
    assert Run(e, ts, []) == e;
    assert [Tick][1..] == [];
  }

  /** Ten samples, Play from the initial state: nine ticks show the last sample, the tenth pauses on it. */
  lemma TenSamples(ts: seq<int>)
    requires |ts| == 10
    ensures var s := Run(Initial(), ts, [Play]);
            var nine := Run(s, ts, Ticks(9));
            var ten := Run(s, ts, Ticks(10));
            nine.cursor == 9 && nine.playing && ten.cursor == 9 && !ten.playing
  {
    var s := Run(Initial(), ts, [Play]);
    InitialInv(10);
    assert s == AfterPlay(Initial(), 10);
    ReplayToEnd(s, ts);
  }

  /** Pressing Play twice is pressing it once. */
  lemma PlayIdempotent(s: State, n: nat)
    ensures AfterPlay(AfterPlay(s, n), n) == AfterPlay(s, n)
  {
  }

  // ---------------------------------------------------------------------
  // The controller as an object whose handlers update its fields

  class ReplayController {
    const timestamps: seq<int>
    var currentIndex: int
    var isPlaying: bool
    var intervalId: Option<nat>
    var timers: map<nat, int>
    var nextTimerId: nat
    var speed: int

    /** The fields as a `State` value. */
    ghost function Snapshot(): State
      reads this
    {
      State(currentIndex, isPlaying, intervalId, timers, nextTimerId, speed)
    }

    ghost predicate Valid()
      reads this
    {
      Inv(Snapshot(), |timestamps|)
    }

    constructor (ts: seq<int>)
      ensures timestamps == ts && Snapshot() == Initial() && Valid()
    {
      timestamps := ts;
      currentIndex, isPlaying, intervalId := 0, false, None;
      timers, nextTimerId, speed := map[], 1, DefaultSpeed;
    }

    /** `clearInterval(intervalId)`. */
    method ClearInterval()
      modifies this
      ensures Snapshot() == Cleared(old(Snapshot()))
    {
      if intervalId.Some? {
        timers := timers - {intervalId.value};
      }
    }

    /** `setInterval(advanceFrame, ms)`, returning the new timer's handle. */
    method SetInterval(ms: int) returns (id: nat)
      modifies this
      ensures id == old(nextTimerId)
      ensures Snapshot() == Started(old(Snapshot()), ms)
    {
      id := nextTimerId;
      timers := timers[id := ms];
      nextTimerId := nextTimerId + 1;
    }

    method PauseReplay()
      modifies this
      ensures Snapshot() == AfterPause(old(Snapshot()))
      ensures old(Valid()) ==> Valid()
    {
      isPlaying := false;
      ClearInterval();
    }

    method PlayReplay()
      modifies this
      ensures Snapshot() == AfterPlay(old(Snapshot()), |timestamps|)
      ensures old(Valid()) ==> Valid()
    {
      if isPlaying {
        return;
      }
      isPlaying := true;
      if currentIndex >= |timestamps| - 1 {
        currentIndex := 0;
      }
      var intervalMilliseconds := speed;
      ClearInterval();
      var id := SetInterval(intervalMilliseconds);
      intervalId := Some(id);
    }

    method AdvanceFrame()
      modifies this
      ensures Snapshot() == AfterTick(old(Snapshot()), |timestamps|)
      ensures old(Valid()) ==> Valid()
    {
      currentIndex := currentIndex + 1;
      if currentIndex >= |timestamps| {
        PauseReplay();
        currentIndex := |timestamps| - 1;
        return;
      }
    }

    method ResetReplay()
      modifies this
      ensures Snapshot() == AfterReset(old(Snapshot()), |timestamps|)
      ensures old(Valid()) ==> Valid()
    {
      PauseReplay();
      currentIndex := 0;
    }

    method OnPlayPauseClick()
      modifies this
      ensures Snapshot() == AfterToggle(old(Snapshot()), |timestamps|)
      ensures old(Valid()) ==> Valid()
    {
      if isPlaying {
        PauseReplay();
      } else {
        PlayReplay();
      }
    }

    method OnSpeedChange(ms: int)
      modifies this
      ensures Snapshot() == AfterSpeedChange(old(Snapshot()), |timestamps|, ms)
      ensures old(Valid()) && ms in SpeedPresets ==> Valid()
    {
      speed := ms;
      if isPlaying {
        PlayReplay();
      }
    }

    method OnChartClick(time: int)
      modifies this
      ensures Snapshot() == AfterClick(old(Snapshot()), timestamps, time)
      ensures old(Valid()) ==> Valid()
    {
      if isPlaying {
        PauseReplay();
      }
      var closestIndex := FindClosestTimestampIndex(timestamps, time);
      if closestIndex != -1 {
        currentIndex := closestIndex;
      }
    }

    /** The page's event loop delivering one event; a tick reaches `advanceFrame` only through a running timer. */
    method Dispatch(e: Event)
      modifies this
      ensures Snapshot() == Step(old(Snapshot()), timestamps, e)
      ensures old(Valid()) && FromPage(e) ==> Valid()
    {
      match e
      case Tick =>
        if timers != map[] {
          AdvanceFrame();
        }
      case Play => PlayReplay();
      case Pause => PauseReplay();
      case Reset => ResetReplay();
      case Toggle => OnPlayPauseClick();
      case SpeedChange(ms) => OnSpeedChange(ms);
      case Click(time) => OnChartClick(time);
    }
  }
}
