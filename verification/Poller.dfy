/**
 * The browser-side poller of an authorization request: timers, polls in
 * flight, `stop()` calls and callbacks that may themselves stop the poller or
 * throw, in any order.
 */
module Poller {
  import opened Prelude

  type TimerId = nat

  datatype TimerKind = TickTimer | ExpiryTimer

  datatype Reason = Denied | Expired | Logged | NotFound

  /** A callback the poller made. */
  datatype Callback = OnApproved | OnRejected(reason: Reason) | OnTick

  predicate Terminal(c: Callback) {
    !c.OnTick?
  }

  datatype Thrown = Nothing | Status404 | Other

  /** What a callback does: it may call `stop()`, then return or throw. An absent callback does nothing. */
  datatype Reaction = Reaction(stops: bool, thrown: Thrown)

  /** `StillOpen` is every other status, a missing one and a falsy answer. */
  datatype PollStatus = StatusApproved | StatusDenied | StatusExpired | StatusLogged | StillOpen

  datatype Outcome = Resolved(status: PollStatus) | Failed(is404: bool)

  /** The poller's fields, and the host's: pending timers, polls in flight and the callbacks made so far. */
  datatype State = State(
    stopped: bool, tickHandle: Option<TimerId>, expiryHandle: Option<TimerId>,
    timers: map<TimerId, TimerKind>, nextTimer: TimerId, inFlight: nat, calls: seq<Callback>)

  const IDLE: State := State(false, None, None, map[], 0, 0, [])

  function Cleared(timers: map<TimerId, TimerKind>, handle: Option<TimerId>): map<TimerId, TimerKind> {
    if handle.Some? then timers - {handle.value} else timers
  }

  function Stop(st: State): State {
    st.(stopped := true, timers := Cleared(Cleared(st.timers, st.tickHandle), st.expiryHandle), tickHandle := None,
      expiryHandle := None)
  }

  function ScheduleTick(st: State): State {
    st.(timers := st.timers[st.nextTimer := TickTimer], tickHandle := Some(st.nextTimer), nextTimer := st.nextTimer + 1)
  }

  function ArmExpiry(st: State): State {
    st.(timers := st.timers[st.nextTimer := ExpiryTimer], expiryHandle := Some(st.nextTimer),
      nextTimer := st.nextTimer + 1)
  }

  function Start(st: State, expiryParses: bool): State {
    if st.stopped then st
    else if expiryParses then ArmExpiry(ScheduleTick(st))
    else ScheduleTick(st)
  }

  /** A callback runs: what it leaves behind and what it throws. */
  function Invoke(st: State, c: Callback, r: Reaction): (State, Thrown) {
    var called := st.(calls := st.calls + [c]);
    (if r.stops then Stop(called) else called, r.thrown)
  }

  function Finish(st: State, c: Callback, r: Reaction): (State, Thrown) {
    if st.stopped then (st, Nothing) else Invoke(Stop(st), c, r)
  }

  function GuardedTick(st: State, r: Reaction): (State, Thrown) {
    if st.stopped then (st, Nothing) else Invoke(st, OnTick, r)
  }

  function Reschedule(st: State): State {
    if st.stopped then st else ScheduleTick(st)
  }

  /** `onTick` and, unless it throws, the next tick. */
  function TickAgain(st: State, r: Reaction): (State, Thrown) {
    var (t, thrown) := GuardedTick(st, r);
    if thrown.Nothing? then (Reschedule(t), Nothing) else (t, thrown)
  }

  function DispatchPollResult(st: State, status: PollStatus, r: Reaction): (State, Thrown) {
    match status
    case StatusApproved => Finish(st, OnApproved, r)
    case StatusDenied => Finish(st, OnRejected(Denied), r)
    case StatusExpired => Finish(st, OnRejected(Expired), r)
    case StatusLogged => Finish(st, OnRejected(Logged), r)
    case StillOpen => TickAgain(st, r)
  }

  function HandlePollError(st: State, is404: bool, r: Reaction): (State, Thrown) {
    if is404 then Finish(st, OnRejected(NotFound), r) else TickAgain(st, r)
  }

  /** A poll comes back; a callback that throws while its result is dispatched is handled like a failed poll. */
  function PollSettles(st: State, outcome: Outcome, r1: Reaction, r2: Reaction): State
    requires st.inFlight > 0
  {
    var landed := st.(inFlight := st.inFlight - 1);
    match outcome
    case Resolved(status) =>
      var (t, thrown) := DispatchPollResult(landed, status, r1);
      if thrown.Nothing? then t else HandlePollError(t, thrown.Status404?, r2).0
    case Failed(is404) => HandlePollError(landed, is404, r1).0
  }

  /** A timer runs out; `late` says whether the request's expiry time has passed. */
  function TimerFires(st: State, id: TimerId, late: bool, r: Reaction): State
    requires id in st.timers
  {
    var popped := st.(timers := st.timers - {id});
    match st.timers[id]
    case TickTimer =>
      var t := popped.(tickHandle := None);
      if t.stopped then t
      else if late then Finish(t, OnRejected(Expired), r).0
      else t.(inFlight := t.inFlight + 1)
    case ExpiryTimer => Finish(popped.(expiryHandle := None), OnRejected(Expired), r).0
  }

  datatype Event =
    | Started(expiryParses: bool)
    | Stopped
    | Fires(id: TimerId, late: bool, r: Reaction)
    | Settles(outcome: Outcome, r1: Reaction, r2: Reaction)

  predicate Enabled(st: State, e: Event) {
    match e
    case Started(_) => true
    case Stopped => true
    case Fires(id, _, _) => id in st.timers
    case Settles(_, _, _) => st.inFlight > 0
  }

  function Apply(st: State, e: Event): State
    requires Enabled(st, e)
  {
    match e
    case Started(expiryParses) => Start(st, expiryParses)
    case Stopped => Stop(st)
    case Fires(id, late, r) => TimerFires(st, id, late, r)
    case Settles(outcome, r1, r2) => PollSettles(st, outcome, r1, r2)
  }

  predicate ValidRun(st: State, run: seq<Event>)
    decreases |run|
  {
    run == [] || (Enabled(st, run[0]) && ValidRun(Apply(st, run[0]), run[1..]))
  }

  function After(st: State, run: seq<Event>): State
    requires ValidRun(st, run)
    decreases |run|
  {
    if run == [] then st else After(Apply(st, run[0]), run[1..])
  }

  // ---- At most one terminal callback, nothing after it ----

  /** Only the last callback may be terminal, and then the poller is stopped. */
  ghost predicate AtMostOneEnd(st: State) {
    forall i :: 0 <= i < |st.calls| && Terminal(st.calls[i]) ==> i == |st.calls| - 1 && st.stopped
  }

  /** What every handler does: keeps the order of the callbacks, and does nothing once stopped. */
  ghost predicate Orderly(st: State, t: State) {
    AtMostOneEnd(t) && (st.stopped ==> t.stopped && t.calls == st.calls)
  }

  lemma HandlersAreOrderly(st: State, c: Callback, r: Reaction)
    requires AtMostOneEnd(st)
    ensures Orderly(st, Finish(st, c, r).0) && Orderly(st, TickAgain(st, r).0)
  {
  }

  lemma SettleIsOrderly(st: State, outcome: Outcome, r1: Reaction, r2: Reaction)
    requires AtMostOneEnd(st) && st.inFlight > 0
    ensures Orderly(st, PollSettles(st, outcome, r1, r2))
  {
    var landed := st.(inFlight := st.inFlight - 1);
    match outcome
    case Failed(is404) => HandlersAreOrderly(landed, OnRejected(NotFound), r1);
    case Resolved(status) =>
      HandlersAreOrderly(landed, OnApproved, r1);
      HandlersAreOrderly(landed, OnRejected(Denied), r1);
      HandlersAreOrderly(landed, OnRejected(Expired), r1);
      HandlersAreOrderly(landed, OnRejected(Logged), r1);
      HandlersAreOrderly(DispatchPollResult(landed, status, r1).0, OnRejected(NotFound), r2);
  }

  lemma StepKeepsEnd(st: State, e: Event)
    requires AtMostOneEnd(st) && Enabled(st, e)
    ensures AtMostOneEnd(Apply(st, e))
    ensures st.stopped ==> Apply(st, e).stopped && Apply(st, e).calls == st.calls
  {
    if e.Settles? { SettleIsOrderly(st, e.outcome, e.r1, e.r2); }
  }

  lemma {:induction false} RunKeepsEnd(st: State, run: seq<Event>)
    requires AtMostOneEnd(st) && ValidRun(st, run)
    ensures AtMostOneEnd(After(st, run))
    ensures st.stopped ==> After(st, run).stopped && After(st, run).calls == st.calls
    decreases |run|
  {
    if run == [] {
    } else {
      StepKeepsEnd(st, run[0]);
      RunKeepsEnd(Apply(st, run[0]), run[1..]);
    }
  }

  lemma {:induction false} AfterSplits(st: State, before: seq<Event>, rest: seq<Event>)
    requires ValidRun(st, before + rest)
    ensures ValidRun(st, before) && ValidRun(After(st, before), rest) &&
      After(st, before + rest) == After(After(st, before), rest)
    decreases |before|
  {
    if before == [] {
      assert before + rest == rest;
    } else {
      assert (before + rest)[0] == before[0] && (before + rest)[1..] == before[1..] + rest;
      AfterSplits(Apply(st, before[0]), before[1..], rest);
    }
  }

  /**
   * For every order of starts, stops, timers, results and errors: at most one
   * terminal callback, no callback after it, and none after the poller stopped.
   */
  lemma SilentAfterEnd(before: seq<Event>, rest: seq<Event>)
    requires ValidRun(IDLE, before + rest)
    ensures ValidRun(IDLE, before)
    ensures var mid := After(IDLE, before); var end := After(IDLE, before + rest);
      && (mid.stopped ==> end.calls == mid.calls)
      && (forall i, j :: 0 <= i < j < |end.calls| ==> !(Terminal(end.calls[i]) && Terminal(end.calls[j])))
      && ((exists c :: c in mid.calls && Terminal(c)) ==> end.calls == mid.calls)
  {
    AfterSplits(IDLE, before, rest);
    RunKeepsEnd(IDLE, before);
    RunKeepsEnd(After(IDLE, before), rest);
  }

  // ---- Which callback ----

  /** The callback an answered poll calls for. */
  ghost predicate Answers(outcome: Outcome, c: Callback) {
    && (c == OnApproved <==> outcome == Resolved(StatusApproved))
    && (c == OnRejected(Denied) <==> outcome == Resolved(StatusDenied))
    && (c == OnRejected(Expired) <==> outcome == Resolved(StatusExpired))
    && (c == OnRejected(Logged) <==> outcome == Resolved(StatusLogged))
    && (c == OnRejected(NotFound) <==> outcome == Failed(true))
    && (c == OnTick <==> outcome == Resolved(StillOpen) || outcome == Failed(false))
  }

  /** A throw out of the first `onTick`, unless it also stopped the poller, is handled as a failed poll. */
  predicate CallsAgain(outcome: Outcome, r1: Reaction) {
    outcome == Resolved(StillOpen) && !r1.stops && !r1.thrown.Nothing?
  }

  /** What a settled poll adds to the callbacks made. */
  ghost predicate Added(was: seq<Callback>, calls: seq<Callback>, outcome: Outcome, r1: Reaction) {
    && |calls| == |was| + (if CallsAgain(outcome, r1) then 2 else 1)
    && calls[..|was|] == was && Answers(outcome, calls[|was|])
    && (CallsAgain(outcome, r1) ==> calls[|was| + 1] == if r1.thrown.Status404? then OnRejected(NotFound) else OnTick)
  }

  /** The poller stops exactly on a terminal callback or at a callback's own wish. */
  predicate Stops(outcome: Outcome, r1: Reaction, r2: Reaction) {
    || (outcome != Failed(false) && outcome != Resolved(StillOpen))
    || r1.stops
    || (CallsAgain(outcome, r1) && (r1.thrown.Status404? || r2.stops))
  }

  /** A poll answered while the poller runs makes the callback its answer calls for; afterwards none is made. */
  lemma SettleAnswers(st: State, outcome: Outcome, r1: Reaction, r2: Reaction)
    requires st.inFlight > 0
    ensures var t := PollSettles(st, outcome, r1, r2);
      && (if st.stopped then t.calls == st.calls else Added(st.calls, t.calls, outcome, r1))
      && t.inFlight == st.inFlight - 1
      && (t.stopped <==> st.stopped || Stops(outcome, r1, r2))
  {
    var landed := st.(inFlight := st.inFlight - 1);
    if st.stopped {
      StoppedSettle(st, outcome, r1, r2);
    } else if outcome == Failed(true) {
      FinishAdds(landed, OnRejected(NotFound), r1);
    } else if outcome.Failed? || outcome.status == StillOpen {
      TickAdds(landed, r1);
      TickSettles(st, outcome, r1, r2);
    } else {
      var c := match outcome.status
        case StatusApproved => OnApproved
        case StatusDenied => OnRejected(Denied)
        case StatusExpired => OnRejected(Expired)
        case _ => OnRejected(Logged);
      EndSettles(st, outcome.status, c, r1, r2);
    }
  }

  lemma FinishAdds(st: State, c: Callback, r: Reaction)
    ensures var t := Finish(st, c, r);
      && t.0.stopped && t.0.inFlight == st.inFlight
      && t.0.calls == (if st.stopped then st.calls else st.calls + [c])
  {
  }

  lemma TickAdds(st: State, r: Reaction)
    ensures var t := TickAgain(st, r);
      && t.0.stopped == (st.stopped || r.stops) && t.0.inFlight == st.inFlight
      && t.0.calls == (if st.stopped then st.calls else st.calls + [OnTick])
      && t.1 == (if st.stopped then Nothing else r.thrown)
  {
  }

  lemma EndSettles(st: State, status: PollStatus, c: Callback, r1: Reaction, r2: Reaction)
    requires st.inFlight > 0 && !st.stopped
    requires DispatchPollResult(st.(inFlight := st.inFlight - 1), status, r1)
          == Finish(st.(inFlight := st.inFlight - 1), c, r1)
    ensures var t := PollSettles(st, Resolved(status), r1, r2);
      t.calls == st.calls + [c] && t.inFlight == st.inFlight - 1 && t.stopped
  {
    var landed := st.(inFlight := st.inFlight - 1);
    FinishAdds(landed, c, r1);
    var ended := Finish(landed, c, r1).0;
    FinishAdds(ended, OnRejected(NotFound), r2);
    TickAdds(ended, r2);
  }

  lemma TickSettles(st: State, outcome: Outcome, r1: Reaction, r2: Reaction)
    requires st.inFlight > 0 && !st.stopped && (outcome == Failed(false) || outcome == Resolved(StillOpen))
    ensures var t := PollSettles(st, outcome, r1, r2);
      && t.inFlight == st.inFlight - 1 && t.stopped == Stops(outcome, r1, r2)
      && t.calls == st.calls + [OnTick]
           + if !CallsAgain(outcome, r1) then []
             else if r1.thrown.Status404? then [OnRejected(NotFound)] else [OnTick]
  {
    var landed := st.(inFlight := st.inFlight - 1);
    TickAdds(landed, r1);
    var ticked := TickAgain(landed, r1).0;
    FinishAdds(ticked, OnRejected(NotFound), r2);
    TickAdds(ticked, r2);
  }

  /** The event, in this state, can be why the callback was made. */
  predicate Causes(st: State, e: Event, c: Callback) {
    match c
    case OnApproved => e.Settles? && e.outcome == Resolved(StatusApproved)
    case OnRejected(Denied) => e.Settles? && e.outcome == Resolved(StatusDenied)
    case OnRejected(Logged) => e.Settles? && e.outcome == Resolved(StatusLogged)
    case OnRejected(NotFound) =>
      e.Settles? && (e.outcome == Failed(true) || (e.outcome == Resolved(StillOpen) && e.r1.thrown.Status404?))
    case OnRejected(Expired) =>
      || (e.Settles? && e.outcome == Resolved(StatusExpired))
      || (e.Fires? && e.id in st.timers && (st.timers[e.id] == ExpiryTimer || e.late))
    case OnTick => e.Settles? && (e.outcome == Resolved(StillOpen) || e.outcome == Failed(false))
  }

  predicate Caused(st: State, run: seq<Event>, c: Callback)
    requires ValidRun(st, run)
    decreases |run|
  {
    run != [] && (Causes(st, run[0], c) || Caused(Apply(st, run[0]), run[1..], c))
  }

  lemma StepCauses(st: State, e: Event, c: Callback)
    requires Enabled(st, e) && c in Apply(st, e).calls
    ensures c in st.calls || Causes(st, e, c)
  {
    if e.Settles? {
      SettleAnswers(st, e.outcome, e.r1, e.r2);
      AddedOnly(st.calls, Apply(st, e).calls, e, c);
    }
  }

  lemma AddedOnly(was: seq<Callback>, calls: seq<Callback>, e: Event, c: Callback)
    requires e.Settles? && (calls == was || Added(was, calls, e.outcome, e.r1)) && c in calls
    ensures c in was || forall st :: Causes(st, e, c)
  {
    var k :| 0 <= k < |calls| && calls[k] == c;
    if k < |was| { assert calls[..|was|][k] == c; }
  }

  /** In every run, each callback made has an event of its kind: no approval without an approved poll, and so on. */
  lemma {:induction false} CallbacksAreCaused(st: State, run: seq<Event>, c: Callback)
    requires ValidRun(st, run) && c in After(st, run).calls
    ensures c in st.calls || Caused(st, run, c)
    decreases |run|
  {
    if run == [] {
    } else {
      var next := Apply(st, run[0]);
      CallbacksAreCaused(next, run[1..], c);
      if c in next.calls { StepCauses(st, run[0], c); }
    }
  }

  /** A timer that runs out polls when it is a tick in time, and otherwise ends a running poller as expired. */
  lemma FireAnswers(st: State, id: TimerId, late: bool, r: Reaction)
    requires id in st.timers
    ensures var t := TimerFires(st, id, late, r);
      if st.stopped then t.calls == st.calls && t.inFlight == st.inFlight
      else if st.timers[id] == TickTimer && !late
      then t.calls == st.calls && t.inFlight == st.inFlight + 1 && !t.stopped
      else t.calls == st.calls + [OnRejected(Expired)] && t.inFlight == st.inFlight && t.stopped
  {
  }

  // ---- One thread of polling ----

  function TickTimers(timers: map<TimerId, TimerKind>): set<TimerId> {
    set id | id in timers && timers[id] == TickTimer
  }

  function ExpiryTimers(timers: map<TimerId, TimerKind>): set<TimerId> {
    set id | id in timers && timers[id] == ExpiryTimer
  }

  function Just(handle: Option<TimerId>): set<TimerId> {
    if handle.Some? then {handle.value} else {}
  }

  /** Every pending timer is the one its handle names; a stopped poller has none. */
  ghost predicate Tracked(st: State) {
    && TickTimers(st.timers) == Just(st.tickHandle) && ExpiryTimers(st.timers) == Just(st.expiryHandle)
    && (forall id :: id in st.timers ==> id < st.nextTimer)
    && (st.stopped ==> st.timers == map[])
  }

  /** Exactly one of: a tick timer pending, a poll in flight. */
  ghost predicate OneThread(st: State) {
    |TickTimers(st.timers)| + st.inFlight == 1
  }

  ghost predicate Stalled(st: State) {
    TickTimers(st.timers) == {} && st.inFlight == 0
  }

  /** `onTick` throws out of the last handler: nothing schedules another tick. */
  predicate Stalls(st: State, e: Event) {
    e.Settles? && !st.stopped &&
    match e.outcome
    case Failed(is404) => !is404 && !e.r1.stops && !e.r1.thrown.Nothing?
    case Resolved(status) =>
      status.StillOpen? && !e.r1.stops && e.r1.thrown.Other? && !e.r2.stops && !e.r2.thrown.Nothing?
  }

  predicate SomeStall(st: State, run: seq<Event>)
    requires ValidRun(st, run)
    decreases |run|
  {
    run != [] && (Stalls(st, run[0]) || SomeStall(Apply(st, run[0]), run[1..]))
  }

  predicate NoStart(run: seq<Event>) {
    forall i :: 0 <= i < |run| ==> !run[i].Started?
  }

  lemma StopTracks(st: State)
    requires TickTimers(st.timers) == Just(st.tickHandle) && ExpiryTimers(st.timers) == Just(st.expiryHandle)
    ensures Tracked(Stop(st))
  {
    var t := Stop(st);
    forall id ensures id !in t.timers {
      if id in st.timers { assert id in TickTimers(st.timers) || id in ExpiryTimers(st.timers); }
    }
  }

  lemma ScheduleTracks(st: State)
    requires Tracked(st) && !st.stopped && st.tickHandle.None?
    ensures Tracked(ScheduleTick(st)) && TickTimers(ScheduleTick(st).timers) == {st.nextTimer}
  {
    var t := ScheduleTick(st);
    assert TickTimers(t.timers) == TickTimers(st.timers) + {st.nextTimer};
    assert ExpiryTimers(t.timers) == ExpiryTimers(st.timers);
  }

  lemma TickAgainTracks(st: State, r: Reaction)
    requires Tracked(st) && !st.stopped && Stalled(st)
    ensures var t := TickAgain(st, r).0;
      Tracked(t) && (t.stopped || if r.thrown.Nothing? then OneThread(t) else Stalled(t))
    ensures r.stops <==> TickAgain(st, r).0.stopped
    ensures TickAgain(st, r).1 == r.thrown
  {
    var called := st.(calls := st.calls + [OnTick]);
    StopTracks(called);
    ScheduleTracks(called);
  }

  lemma FinishTracks(st: State, c: Callback, r: Reaction)
    requires Tracked(st) && !st.stopped
    ensures Tracked(Finish(st, c, r).0) && Finish(st, c, r).0.stopped
  {
    StopTracks(st);
    StopTracks(Stop(st).(calls := st.calls + [c]));
  }

  lemma SettleTracks(st: State, outcome: Outcome, r1: Reaction, r2: Reaction)
    requires Tracked(st) && !st.stopped && OneThread(st) && st.inFlight > 0
    ensures var t := PollSettles(st, outcome, r1, r2);
      Tracked(t) && (t.stopped || if Stalls(st, Settles(outcome, r1, r2)) then Stalled(t) else OneThread(t))
  {
    var landed := st.(inFlight := st.inFlight - 1);
    TickAgainTracks(landed, r1);
    var ticked := TickAgain(landed, r1).0;
    if outcome == Resolved(StillOpen) && !r1.stops && !r1.thrown.Nothing? {
      FinishTracks(ticked, OnRejected(NotFound), r2);
      TickAgainTracks(ticked, r2);
    }
    FinishTracks(landed, OnRejected(NotFound), r1);
    FinishTracks(landed, OnApproved, r1);
    FinishTracks(landed, OnRejected(Denied), r1);
    FinishTracks(landed, OnRejected(Expired), r1);
    FinishTracks(landed, OnRejected(Logged), r1);
  }

  lemma FireTracks(st: State, id: TimerId, late: bool, r: Reaction)
    requires Tracked(st) && !st.stopped && id in st.timers
    ensures var t := TimerFires(st, id, late, r);
      && Tracked(t)
      && (!t.stopped ==> |TickTimers(t.timers)| + t.inFlight == |TickTimers(st.timers)| + st.inFlight)
      && (!t.stopped && Stalled(st) ==> Stalled(t))
  {
    var popped := st.(timers := st.timers - {id});
    assert TickTimers(popped.timers) == TickTimers(st.timers) - {id};
    assert ExpiryTimers(popped.timers) == ExpiryTimers(st.timers) - {id};
    if st.timers[id] == TickTimer {
      assert id in TickTimers(st.timers);
      assert Tracked(popped.(tickHandle := None));
      FinishTracks(popped.(tickHandle := None), OnRejected(Expired), r);
    } else {
      assert id in ExpiryTimers(st.timers);
      assert id !in TickTimers(st.timers);
      assert Tracked(popped.(expiryHandle := None));
      FinishTracks(popped.(expiryHandle := None), OnRejected(Expired), r);
    }
  }

  lemma StoppedSettle(st: State, outcome: Outcome, r1: Reaction, r2: Reaction)
    requires st.stopped && st.inFlight > 0
    ensures PollSettles(st, outcome, r1, r2) == st.(inFlight := st.inFlight - 1)
  {
  }

  /** One event of a poller that was started once: it stops, or keeps its one thread unless the event stalls it. */
  lemma StepTracks(st: State, e: Event)
    requires Tracked(st) && (st.stopped || OneThread(st) || Stalled(st)) && Enabled(st, e) && !e.Started?
    ensures var t := Apply(st, e);
      && Tracked(t)
      && (st.stopped ==> t.stopped)
      && (!t.stopped && OneThread(st) ==> if Stalls(st, e) then Stalled(t) else OneThread(t))
      && (!t.stopped && Stalled(st) ==> Stalled(t))
  {
    match e
    case Stopped => StopTracks(st);
    case Fires(id, late, r) => if !st.stopped { FireTracks(st, id, late, r); }
    case Settles(outcome, r1, r2) =>
      if st.stopped {
        StoppedSettle(st, outcome, r1, r2);
      } else {
        SettleTracks(st, outcome, r1, r2);
      }
  }

  lemma {:induction false} RunTracks(st: State, run: seq<Event>)
    requires Tracked(st) && (st.stopped || OneThread(st) || Stalled(st)) && NoStart(run) && ValidRun(st, run)
    ensures var t := After(st, run);
      && Tracked(t)
      && (st.stopped ==> t.stopped)
      && (!t.stopped && Stalled(st) ==> Stalled(t))
      && (!t.stopped && OneThread(st) ==> if SomeStall(st, run) then Stalled(t) else OneThread(t))
    decreases |run|
  {
    if run == [] {
    } else {
      var next := Apply(st, run[0]);
      StepTracks(st, run[0]);
      assert NoStart(run[1..]);
      RunTracks(next, run[1..]);
    }
  }

  /**
   * After a single start, a poller that is not stopped has exactly one of
   * {tick timer pending, poll in flight}, except when some `onTick` threw out
   * of the last handler: then it has neither, ever again. A stopped poller
   * has no timer left.
   */
  lemma NeverForksNorStalls(expiryParses: bool, run: seq<Event>)
    requires NoStart(run) && ValidRun(IDLE, [Started(expiryParses)] + run)
    ensures ValidRun(Start(IDLE, expiryParses), run)
    ensures
      var start := Start(IDLE, expiryParses);
      var t := After(start, run);
      && After(IDLE, [Started(expiryParses)] + run) == t
      && (t.stopped ==> t.timers == map[])
      && (!t.stopped ==> (OneThread(t) <==> !SomeStall(start, run)) && (Stalled(t) <==> SomeStall(start, run)))
  {
    var start := Start(IDLE, expiryParses);
    assert ([Started(expiryParses)] + run)[1..] == run;
    ScheduleTracks(IDLE);
    var t := ScheduleTick(IDLE);
    assert TickTimers(ArmExpiry(t).timers) == TickTimers(t.timers);
    assert ExpiryTimers(ArmExpiry(t).timers) == {t.nextTimer};
    RunTracks(start, run);
  }

  lemma StepKeepsExpiry(st: State, e: Event)
    requires Tracked(st) && Enabled(st, e) && !e.Started? && !Apply(st, e).stopped
    ensures !st.stopped && Apply(st, e).expiryHandle == st.expiryHandle
  {
    match e
    case Stopped =>
    case Fires(id, late, r) => FireAnswers(st, id, late, r);
    case Settles(outcome, r1, r2) =>
      SettleAnswers(st, outcome, r1, r2);
      TickKeepsExpiry(st.(inFlight := st.inFlight - 1), r1);
      TickKeepsExpiry(TickAgain(st.(inFlight := st.inFlight - 1), r1).0, r2);
  }

  lemma TickKeepsExpiry(st: State, r: Reaction)
    ensures !TickAgain(st, r).0.stopped ==> TickAgain(st, r).0.expiryHandle == st.expiryHandle
  {
  }

  lemma {:induction false} RunKeepsExpiry(st: State, run: seq<Event>)
    requires Tracked(st) && (st.stopped || OneThread(st) || Stalled(st)) && NoStart(run) && ValidRun(st, run)
    requires !After(st, run).stopped
    ensures Tracked(After(st, run)) && After(st, run).expiryHandle == st.expiryHandle
    decreases |run|
  {
    if run == [] {
    } else {
      StepTracks(st, run[0]);
      assert NoStart(run[1..]);
      RunKeepsExpiry(Apply(st, run[0]), run[1..]);
      RunTracks(Apply(st, run[0]), run[1..]);
      StepKeepsExpiry(st, run[0]);
    }
  }

  /** A started poller stays armed against the request's expiry until it stops, when that time could be parsed. */
  lemma ExpiryStaysArmed(expiryParses: bool, run: seq<Event>)
    requires NoStart(run) && ValidRun(Start(IDLE, expiryParses), run)
    requires !After(Start(IDLE, expiryParses), run).stopped
    ensures |ExpiryTimers(After(Start(IDLE, expiryParses), run).timers)| == if expiryParses then 1 else 0
  {
    var t := ScheduleTick(IDLE);
    ScheduleTracks(IDLE);
    assert TickTimers(ArmExpiry(t).timers) == TickTimers(t.timers);
    assert ExpiryTimers(ArmExpiry(t).timers) == {t.nextTimer};
    RunKeepsExpiry(Start(IDLE, expiryParses), run);
  }

  /** The stall is real: one tick, one failed poll, and an `onTick` that throws while the failure is handled. */
  lemma StallExists(r: Reaction)
    ensures var run := [Started(false), Fires(0, false, r), Settles(Failed(false), Reaction(false, Other), r)];
      && ValidRun(IDLE, run)
      && var t := After(IDLE, run); !t.stopped && Stalled(t) && t.timers == map[] && t.calls == [OnTick]
  {
    var run := [Started(false), Fires(0, false, r), Settles(Failed(false), Reaction(false, Other), r)];
    var s1 := ScheduleTick(IDLE);
    var s2 := s1.(timers := map[], tickHandle := None, inFlight := 1);
    var s3 := s2.(inFlight := 0, calls := [OnTick]);
    assert s1.timers - {0} == map[];
    assert Apply(IDLE, run[0]) == s1 && Apply(s1, run[1]) == s2 && Apply(s2, run[2]) == s3;
    assert run[1..][1..] == run[2..] && run[2..][1..] == [];
    assert ValidRun(s3, []) && ValidRun(s2, run[2..]) && ValidRun(s1, run[1..]);
    assert After(IDLE, run) == After(s1, run[1..]) == After(s2, run[2..]) == s3;
  }

  // ---- The class ----

  class AuthorizationRequestPoller {
    var stopped: bool
    var tickHandle: Option<TimerId>
    var expiryHandle: Option<TimerId>
    // The host's side: pending timers, polls in flight, callbacks made.
    var timers: map<TimerId, TimerKind>
    var nextTimer: TimerId
    var inFlight: nat
    var calls: seq<Callback>
    const expiryParses: bool

    ghost function View(): State
      reads this
    {
      State(stopped, tickHandle, expiryHandle, timers, nextTimer, inFlight, calls)
    }

    constructor (expiryParses: bool)
      ensures View() == IDLE && this.expiryParses == expiryParses
    {
      this.expiryParses := expiryParses;
      stopped, tickHandle, expiryHandle, timers, nextTimer, inFlight, calls := false, None, None, map[], 0, 0, [];
    }

    method Begin()
      modifies this
      ensures View() == Start(old(View()), expiryParses)
    {
      if stopped { return; }
      BeginTick();
      if expiryParses {
        timers := timers[nextTimer := ExpiryTimer];
        expiryHandle := Some(nextTimer);
        nextTimer := nextTimer + 1;
      }
    }

    method Halt()
      modifies this
      ensures View() == Stop(old(View()))
    {
      stopped := true;
      if tickHandle != None {
        timers := timers - {tickHandle.value};
        tickHandle := None;
      }
      if expiryHandle != None {
        timers := timers - {expiryHandle.value};
        expiryHandle := None;
      }
    }

    method BeginTick()
      modifies this
      ensures View() == ScheduleTick(old(View()))
    {
      timers := timers[nextTimer := TickTimer];
      tickHandle := Some(nextTimer);
      nextTimer := nextTimer + 1;
    }

    /** Hands control to a callback of the page. */
    method Call(c: Callback, r: Reaction) returns (thrown: Thrown)
      modifies this
      ensures (View(), thrown) == Invoke(old(View()), c, r)
    {
      calls := calls + [c];
      if r.stops { Halt(); }
      thrown := r.thrown;
    }

    method End(c: Callback, r: Reaction) returns (thrown: Thrown)
      modifies this
      ensures (View(), thrown) == Finish(old(View()), c, r)
    {
      if stopped { return Nothing; }
      Halt();
      thrown := Call(c, r);
    }

    method TickOrThrow(r: Reaction) returns (thrown: Thrown)
      modifies this
      ensures (View(), thrown) == TickAgain(old(View()), r)
    {
      thrown := Nothing;
      if !stopped { thrown := Call(OnTick, r); }
      if thrown.Nothing? && !stopped { BeginTick(); }
    }

    method OnPollError(is404: bool, r: Reaction) returns (thrown: Thrown)
      modifies this
      ensures (View(), thrown) == HandlePollError(old(View()), is404, r)
    {
      if is404 { thrown := End(OnRejected(NotFound), r); } else { thrown := TickOrThrow(r); }
    }

    method OnPollSettled(outcome: Outcome, r1: Reaction, r2: Reaction)
      requires inFlight > 0
      modifies this
      ensures View() == PollSettles(old(View()), outcome, r1, r2)
      ensures if old(stopped) then calls == old(calls) else Added(old(calls), calls, outcome, r1)
      ensures stopped <==> old(stopped) || Stops(outcome, r1, r2)
    {
      SettleAnswers(View(), outcome, r1, r2);
      inFlight := inFlight - 1;
      var thrown: Thrown;
      match outcome {
        case Failed(is404) => thrown := OnPollError(is404, r1);
        case Resolved(status) =>
          match status {
            case StatusApproved => thrown := End(OnApproved, r1);
            case StatusDenied => thrown := End(OnRejected(Denied), r1);
            case StatusExpired => thrown := End(OnRejected(Expired), r1);
            case StatusLogged => thrown := End(OnRejected(Logged), r1);
            case StillOpen => thrown := TickOrThrow(r1);
          }
          if !thrown.Nothing? { thrown := OnPollError(thrown.Status404?, r2); }
      }
    }

    method OnTimer(id: TimerId, late: bool, r: Reaction)
      requires id in timers
      modifies this
      ensures View() == TimerFires(old(View()), id, late, r)
      ensures calls == if old(stopped) || (old(timers)[id] == TickTimer && !late) then old(calls)
                       else old(calls) + [OnRejected(Expired)]
      ensures inFlight == old(inFlight) + if !old(stopped) && old(timers)[id] == TickTimer && !late then 1 else 0
    {
      FireAnswers(View(), id, late, r);
      var kind := timers[id];
      timers := timers - {id};
      if kind == TickTimer {
        tickHandle := None;
        if stopped { return; }
        if late {
          var thrown := End(OnRejected(Expired), r);
        } else {
          inFlight := inFlight + 1;
        }
      } else {
        expiryHandle := None;
        var thrown := End(OnRejected(Expired), r);
      }
    }
  }
}
