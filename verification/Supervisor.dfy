/**
 The native process supervisor: every ordering of pre-step exits, child starts and exits, spawn
 errors, restart timers and shutdown.

 An entry holds what the source keeps (`child`, `timer`, `failures`, `restarts`, `startedAt`) and,
 apart from it, what actually exists: launches waiting for a pre-step, live main processes and armed
 timers. That the two agree, and that there is never more than one of them, is proved.
 */
module Supervisor {
  import opened Wrappers

  const BASE_DELAY_MS := 1000
  const MAX_DELAY_MS := 30000
  const STABLE_RUN_MS := 60000

  type Handle = nat

  /** A scheduled restart: whether the run before it was stable, and the wait it got. */
  datatype Restart = Restart(stable: bool, waitMs: nat)

  datatype Entry = Entry(
    child: Option<Handle>, timer: Option<Handle>, restarts: nat, failures: nat, startedAt: int,
    launches: map<Handle, nat>, live: set<Handle>, timers: set<Handle>, next: Handle, log: seq<Restart>)

  const NEW_ENTRY := Entry(None, None, 0, 0, 0, map[], {}, {}, 0, [])

  function WaitMs(failures: nat): nat
  {
    if BASE_DELAY_MS * Pow2(failures) < MAX_DELAY_MS then BASE_DELAY_MS * Pow2(failures) else MAX_DELAY_MS
  }

  // ---- one entry ----

  function Spawn(e: Entry): Entry
  {
    e.(child := Some(e.next), live := e.live + {e.next}, startedAt := 0, next := e.next + 1)
  }

  function Launch(e: Entry, preSteps: nat): Entry
  {
    if preSteps == 0 then Spawn(e) else e.(launches := e.launches[e.next := 0], next := e.next + 1)
  }

  function ScheduleRestart(e: Entry, stable: bool): Entry
  {
    e.(failures := e.failures + 1, restarts := e.restarts + 1, timer := Some(e.next), timers := e.timers + {e.next},
       next := e.next + 1, log := e.log + [Restart(stable, WaitMs(e.failures))])
  }

  /** The pre-step that launch `l` waits for has exited. */
  function StepExited(e: Entry, l: Handle, code: int, preSteps: nat, stopping: bool): Entry
    requires l in e.launches
  {
    var done := e.(launches := e.launches - {l});
    if stopping then done
    else if code != 0 then ScheduleRestart(done, false)
    else if e.launches[l] + 1 < preSteps then e.(launches := e.launches[l := e.launches[l] + 1])
    else Spawn(done)
  }

  predicate RanStable(e: Entry, now: int) { e.startedAt != 0 && now - e.startedAt >= STABLE_RUN_MS }

  /** The main process has exited or failed to start. */
  function ChildExited(e: Entry, c: Handle, now: int, stopping: bool): Entry
    requires c in e.live
  {
    var gone := e.(child := None, live := e.live - {c});
    if stopping then gone
    else ScheduleRestart(if RanStable(e, now) then gone.(failures := 0) else gone, RanStable(e, now))
  }

  function TimerFired(e: Entry, t: Handle, preSteps: nat, stopping: bool): Entry
  {
    var fired := e.(timer := None, timers := e.timers - {t});
    if stopping then fired else Launch(fired, preSteps)
  }

  /** stopChild: the pending timer is cleared; a live child is told to stop and awaited. */
  function ClearTimer(e: Entry): Entry
  {
    if e.timer.Some? then e.(timer := None, timers := e.timers - {e.timer.value}) else e
  }

  // ---- all services ----

  /** `preSteps[n]` is the number of setup steps of service n; `cursor` is the service the shutdown
      has reached, counting down, and `awaiting` the child it waits for. */
  datatype State = State(
    preSteps: seq<nat>, clock: int, stopping: bool, entries: seq<Entry>, cursor: nat, awaiting: Option<Handle>)

  datatype Event =
    | Passes(ms: nat)
    | StartNext
    | StepExits(n: nat, launch: Handle, code: int)
    | Starts(n: nat, child: Handle)
    | Exits(n: nat, child: Handle)
    | TimerFires(n: nat, timer: Handle)
    | ShutdownBegins
    | StopNext

  function Initial(preSteps: seq<nat>, clock: int): State { State(preSteps, clock, false, [], |preSteps|, None) }

  predicate CanHappen(s: State, ev: Event)
  {
    match ev
    case Passes(_) => true
    case StartNext => |s.entries| < |s.preSteps|
    case StepExits(n, l, _) => n < |s.entries| <= |s.preSteps| && l in s.entries[n].launches
    case Starts(n, c) => n < |s.entries| && c in s.entries[n].live
    case Exits(n, c) => n < |s.entries| && c in s.entries[n].live
    case TimerFires(n, t) => n < |s.entries| <= |s.preSteps| && t in s.entries[n].timers
    case ShutdownBegins => true
    case StopNext => s.stopping && s.cursor > 0 && s.awaiting.None?
  }

  function Set(s: State, n: nat, e: Entry): State
    requires n < |s.entries|
  {
    s.(entries := s.entries[n := e])
  }

  function Happen(s: State, ev: Event): State
    requires CanHappen(s, ev)
  {
    match ev
    case Passes(ms) => s.(clock := s.clock + ms)
    case StartNext =>
      if s.stopping then s else s.(entries := s.entries + [Launch(NEW_ENTRY, s.preSteps[|s.entries|])])
    case StepExits(n, l, code) => Set(s, n, StepExited(s.entries[n], l, code, s.preSteps[n], s.stopping))
    case Starts(n, c) => Set(s, n, s.entries[n].(startedAt := s.clock))
    case Exits(n, c) =>
      Set(s, n, ChildExited(s.entries[n], c, s.clock, s.stopping)).(
        awaiting := if n == s.cursor && s.awaiting == Some(c) then None else s.awaiting)
    case TimerFires(n, t) => Set(s, n, TimerFired(s.entries[n], t, s.preSteps[n], s.stopping))
    case ShutdownBegins => s.(stopping := true)
    case StopNext =>
      var n := s.cursor - 1;
      if n < |s.entries| then
        Set(s, n, ClearTimer(s.entries[n])).(cursor := n, awaiting := s.entries[n].child)
      else s.(cursor := n)
  }

  // ---- invariants ----

  /** Fields and reality agree. */
  predicate Accurate(e: Entry)
  {
    && e.live == (if e.child.Some? then {e.child.value} else {})
    && e.timers == (if e.timer.Some? then {e.timer.value} else {})
    && (forall h <- e.launches :: h < e.next) && (forall h <- e.live :: h < e.next)
    && (forall h <- e.timers :: h < e.next)
  }

  ghost predicate Launching(e: Entry) { exists l :: e.launches.Keys == {l} && e.child.None? && e.timer.None? }

  predicate Running(e: Entry) { e.launches == map[] && e.child.Some? && e.timer.None? }

  predicate Waiting(e: Entry) { e.launches == map[] && e.child.None? && e.timer.Some? }

  predicate Stopped(e: Entry) { e.launches == map[] && e.child.None? && e.timer.None? }

  ghost predicate OneState(e: Entry, stopping: bool)
  {
    Accurate(e) && (Launching(e) || Running(e) || Waiting(e) || (stopping && Stopped(e)))
  }

  /** Entries the shutdown is done with have no process and no timer left. */
  predicate Cleared(s: State, n: nat)
    requires n < |s.entries|
  {
    && s.entries[n].timers == {}
    && (s.entries[n].live == {} || (n == s.cursor && s.awaiting.Some? && s.entries[n].child == s.awaiting))
  }

  ghost predicate Inv(s: State)
  {
    && |s.entries| <= |s.preSteps| && s.cursor <= |s.preSteps|
    && (forall n | 0 <= n < |s.entries| :: OneState(s.entries[n], s.stopping) && Counted(s.entries[n]))
    && (!s.stopping ==> s.cursor == |s.preSteps| && s.awaiting.None?)
    && (forall n | s.cursor <= n < |s.entries| :: Cleared(s, n))
  }

  lemma LaunchOneState(e: Entry, preSteps: nat, stopping: bool)
    requires Accurate(e) && Stopped(e) && Counted(e)
    ensures OneState(Launch(e, preSteps), stopping) && Counted(Launch(e, preSteps))
  {
    assert preSteps > 0 ==> Launch(e, preSteps).launches.Keys == {e.next};
  }

  lemma RestartOneState(e: Entry, stable: bool, stopping: bool)
    requires Accurate(e) && Stopped(e)
    ensures OneState(ScheduleRestart(e, stable), stopping)
  {
  }

  lemma StepExitedOneState(e: Entry, l: Handle, code: int, preSteps: nat, stopping: bool)
    requires OneState(e, stopping) && Counted(e) && l in e.launches
    ensures OneState(StepExited(e, l, code, preSteps, stopping), stopping)
    ensures Counted(StepExited(e, l, code, preSteps, stopping))
  {
    assert e.launches.Keys == {l};
    assert (e.launches - {l}).Keys == {};
    var done := e.(launches := e.launches - {l});
    if !stopping && code != 0 {
      RestartOneState(done, false, stopping);
      RestartCounted(done, false);
    }
    assert e.launches[l := e.launches[l] + 1].Keys == {l};
  }

  lemma ChildExitedOneState(e: Entry, c: Handle, now: int, stopping: bool)
    requires OneState(e, stopping) && Counted(e) && c in e.live
    ensures OneState(ChildExited(e, c, now, stopping), stopping)
    ensures Counted(ChildExited(e, c, now, stopping))
  {
    if !stopping {
      var gone := e.(child := None, live := e.live - {c});
      var reset := if RanStable(e, now) then gone.(failures := 0) else gone;
      RestartOneState(reset, RanStable(e, now), stopping);
      RestartCounted(reset, RanStable(e, now));
    }
  }

  lemma TimerFiredOneState(e: Entry, t: Handle, preSteps: nat, stopping: bool)
    requires OneState(e, stopping) && Counted(e) && t in e.timers
    ensures OneState(TimerFired(e, t, preSteps, stopping), stopping)
    ensures Counted(TimerFired(e, t, preSteps, stopping))
  {
    if !stopping { LaunchOneState(e.(timer := None, timers := e.timers - {t}), preSteps, stopping); }
  }

  lemma ClearTimerOneState(e: Entry)
    requires OneState(e, true) && Counted(e)
    ensures OneState(ClearTimer(e), true) && Counted(ClearTimer(e)) && ClearTimer(e).timers == {}
  {
  }

  lemma StoppingWeakens(e: Entry)
    requires OneState(e, false)
    ensures OneState(e, true)
  {
  }

  lemma InvOneStateKept(s: State, ev: Event)
    requires Inv(s) && CanHappen(s, ev)
    ensures var t := Happen(s, ev);
      forall n | 0 <= n < |t.entries| :: OneState(t.entries[n], t.stopping) && Counted(t.entries[n])
  {
    hide OneState, Counted, Cleared;
    match ev
    case StartNext =>
      NewEntryStopped();
      LaunchOneState(NEW_ENTRY, s.preSteps[|s.entries|], s.stopping);
    case StepExits(n, l, code) => StepExitedOneState(s.entries[n], l, code, s.preSteps[n], s.stopping);
    case Starts(n, _) => StartedOneState(s.entries[n], s.clock, s.stopping);
    case Exits(n, c) => ChildExitedOneState(s.entries[n], c, s.clock, s.stopping);
    case TimerFires(n, t) => TimerFiredOneState(s.entries[n], t, s.preSteps[n], s.stopping);
    case ShutdownBegins =>
      forall n | 0 <= n < |s.entries| ensures OneState(s.entries[n], true) {
        if !s.stopping { StoppingWeakens(s.entries[n]); }
      }
    case StopNext => if s.cursor - 1 < |s.entries| { ClearTimerOneState(s.entries[s.cursor - 1]); }
    case Passes(_) =>
  }

  lemma NewEntryStopped()
    ensures Accurate(NEW_ENTRY) && Stopped(NEW_ENTRY) && Counted(NEW_ENTRY)
  {
  }

  lemma StartedOneState(e: Entry, now: int, stopping: bool)
    requires OneState(e, stopping) && Counted(e)
    ensures OneState(e.(startedAt := now), stopping) && Counted(e.(startedAt := now))
  {
    if Launching(e) { assert Launching(e.(startedAt := now)); }
  }

  lemma InvClearedKept(s: State, ev: Event)
    requires Inv(s) && CanHappen(s, ev)
    ensures var t := Happen(s, ev); forall n | t.cursor <= n < |t.entries| :: Cleared(t, n)
  {
    var t := Happen(s, ev);
    forall n | t.cursor <= n < |t.entries| ensures Cleared(t, n) {
      if ev.StopNext? && n == t.cursor {
        ClearTimerOneState(s.entries[n]);
      } else {
        assert s.stopping && n < |s.entries| && Cleared(s, n);
      }
    }
  }

  /** Every event keeps the invariant. */
  lemma HappenKeepsInv(s: State, ev: Event)
    requires Inv(s) && CanHappen(s, ev)
    ensures Inv(Happen(s, ev))
  {
    InvOneStateKept(s, ev);
    InvClearedKept(s, ev);
    hide OneState, Counted, Cleared;
  }

  // ---- backoff ----

  /** Restarts since the last stable run, that one included; all of them when there was none. */
  function SinceStable(log: seq<Restart>): (k: nat)
    ensures log != [] ==> k >= 1
  {
    if log == [] then 0
    else if log[|log| - 1].stable then 1
    else SinceStable(log[..|log| - 1]) + 1
  }

  predicate Scheduled(log: seq<Restart>)
  {
    forall i | 0 <= i < |log| :: log[i].waitMs == WaitMs(SinceStable(log[..i + 1]) - 1)
  }

  ghost predicate Counted(e: Entry)
  {
    e.failures == SinceStable(e.log) && e.restarts == |e.log| && Scheduled(e.log)
  }

  lemma RestartCounted(e: Entry, stable: bool)
    requires e.restarts == |e.log| && Scheduled(e.log)
    requires if stable then e.failures == 0 else e.failures == SinceStable(e.log)
    ensures Counted(ScheduleRestart(e, stable))
  {
    hide WaitMs;
    var f := ScheduleRestart(e, stable);
    assert f.log[..|e.log|] == e.log && f.log[..|f.log|] == f.log;
    forall i | 0 <= i < |f.log| ensures f.log[i].waitMs == WaitMs(SinceStable(f.log[..i + 1]) - 1) {
      if i < |e.log| { assert f.log[..i + 1] == e.log[..i + 1]; }
    }
  }

  /** How many unstable launches in a row end the log. */
  function UnstableRun(log: seq<Restart>): nat
  {
    if log == [] || log[|log| - 1].stable then 0 else UnstableRun(log[..|log| - 1]) + 1
  }

  predicate EverStable(log: seq<Restart>) { exists i | 0 <= i < |log| :: log[i].stable }

  lemma {:induction false} SinceStableIsUnstableRun(log: seq<Restart>)
    ensures SinceStable(log) == UnstableRun(log) + if EverStable(log) then 1 else 0
  {
    if log != [] && !log[|log| - 1].stable {
      var before := log[..|log| - 1];
      SinceStableIsUnstableRun(before);
      assert EverStable(log) <==> EverStable(before) by {
        if i :| 0 <= i < |log| && log[i].stable { assert before[i].stable; }
        if i :| 0 <= i < |before| && before[i].stable { assert log[i].stable; }
      }
    }
  }

  lemma {:induction false} Pow2Grows(a: nat, b: nat)
    requires a < b
    ensures Pow2(a) < Pow2(b)
  {
    if a + 1 < b { Pow2Grows(a, b - 1); }
    Pow2Positive(b - 1);
  }

  lemma {:induction false} Pow2Positive(n: nat)
    ensures Pow2(n) >= 1
  {
    if n > 0 { Pow2Positive(n - 1); }
  }

  lemma WaitSettles(k: nat)
    ensures WaitMs(k) == WaitMs(k + 1) <==> k >= 5
  {
    assert Pow2(2) == 4;
    assert Pow2(4) == 4 * Pow2(2);
    assert Pow2(5) == 32;
    if k > 5 { Pow2Grows(5, k); }
    if k < 4 { Pow2Grows(k + 1, 5); }
    Pow2Positive(k);
  }

  lemma WaitMeetsFormula(e: Entry, i: nat)
    requires Counted(e) && i < |e.log| && !e.log[i].stable
    ensures var k := UnstableRun(e.log[..i + 1]);
      k >= 1 && (e.log[i].waitMs == WaitMs(k - 1) <==> !EverStable(e.log[..i + 1]) || k >= 6)
  {
    var past := e.log[..i + 1];
    var k := UnstableRun(past);
    SinceStableIsUnstableRun(past);
    if EverStable(past) { WaitSettles(k - 1); }
  }

  // ---- runs ----

  ghost predicate IsRun(ss: seq<State>, evs: seq<Event>)
  {
    && |ss| == |evs| + 1 && Inv(ss[0])
    && forall i | 0 <= i < |evs| :: CanHappen(ss[i], evs[i]) && ss[i + 1] == Happen(ss[i], evs[i])
  }

  lemma InitialInv(preSteps: seq<nat>, clock: int)
    ensures Inv(Initial(preSteps, clock))
  {
  }

  lemma {:induction false} RunInv(ss: seq<State>, evs: seq<Event>, i: nat)
    requires IsRun(ss, evs) && i < |ss|
    ensures Inv(ss[i])
  {
    hide Inv, CanHappen, Happen;
    if i > 0 {
      RunInv(ss, evs, i - 1);
      HappenKeepsInv(ss[i - 1], evs[i - 1]);
    }
  }

  /** In every run each started service is in exactly one of: running one launch's setup steps, one
      live main process, one armed restart timer, or, only once shutdown has begun, stopped. */
  lemma OneStateAlways(ss: seq<State>, evs: seq<Event>, i: nat, n: nat)
    requires IsRun(ss, evs) && i < |ss| && n < |ss[i].entries|
    ensures var e := ss[i].entries[n];
      && |e.launches| + |e.live| + |e.timers| <= 1
      && (|e.launches| + |e.live| + |e.timers| == 0 ==> ss[i].stopping)
      && e.live == (if e.child.Some? then {e.child.value} else {})
      && e.timers == (if e.timer.Some? then {e.timer.value} else {})
  {
    RunInv(ss, evs, i);
    var e := ss[i].entries[n];
    assert OneState(e, ss[i].stopping);
    if Launching(e) {
      var l :| e.launches.Keys == {l};
      assert |e.launches| == |e.launches.Keys| == 1;
    }
  }

  /** What shutdown rules out: no process starts, no timer is armed, no launch begins. */
  predicate NothingNew(s: State, t: State)
  {
    && |t.entries| == |s.entries|
    && forall n | 0 <= n < |s.entries| ::
         && t.entries[n].live <= s.entries[n].live && t.entries[n].timers <= s.entries[n].timers
         && t.entries[n].launches.Keys <= s.entries[n].launches.Keys
  }

  lemma StoppingStep(s: State, ev: Event)
    requires Inv(s) && CanHappen(s, ev) && s.stopping
    ensures Happen(s, ev).stopping && NothingNew(s, Happen(s, ev)) && Happen(s, ev).cursor <= s.cursor
  {
  }

  /** From the moment `stopping` is set no main process is ever spawned. */
  lemma {:induction false} NoSpawnAfterShutdown(ss: seq<State>, evs: seq<Event>, i: nat, j: nat)
    requires IsRun(ss, evs) && i <= j < |ss| && ss[i].stopping
    ensures ss[j].stopping && NothingNew(ss[i], ss[j]) && ss[j].cursor <= ss[i].cursor
  {
    hide Inv, CanHappen, Happen;
    if i < j {
      NoSpawnAfterShutdown(ss, evs, i, j - 1);
      RunInv(ss, evs, j - 1);
      StoppingStep(ss[j - 1], evs[j - 1]);
    }
  }

  /** Shutdown is ordered: when it tells service n to stop, every service after n has no process and
      no timer left, and none of them ever gets one again. */
  lemma ShutdownIsOrdered(ss: seq<State>, evs: seq<Event>, i: nat, j: nat, n: nat)
    requires IsRun(ss, evs) && i <= j < |ss| && i < |evs| && evs[i].StopNext?
    requires ss[i].cursor <= n < |ss[i].entries|
    ensures n < |ss[j].entries| && ss[j].entries[n].live == {} && ss[j].entries[n].timers == {}
  {
    RunInv(ss, evs, i);
    assert Cleared(ss[i], n);
    NoSpawnAfterShutdown(ss, evs, i, j);
  }

  /** When the shutdown loop has passed every service, no main process and no timer is left. */
  lemma ShutdownCompletes(ss: seq<State>, evs: seq<Event>, i: nat, n: nat)
    requires IsRun(ss, evs) && i < |ss| && ss[i].stopping && ss[i].cursor == 0 && ss[i].awaiting.None?
    requires n < |ss[i].entries|
    ensures ss[i].entries[n].live == {} && ss[i].entries[n].timers == {}
  {
    RunInv(ss, evs, i);
    assert Cleared(ss[i], n);
  }

  /** A shutdown begins with its event and with nothing else. */
  lemma StopsExactlyAtShutdown(s: State, ev: Event)
    requires CanHappen(s, ev)
    ensures Happen(s, ev).stopping <==> s.stopping || ev.ShutdownBegins?
  {
  }

  // ---- which runs are stable ----

  /** A main process of service n that was not there before. */
  predicate ComesToLife(s: State, t: State, n: nat, c: Handle)
  {
    n < |t.entries| && c in t.entries[n].live && !(n < |s.entries| && c in s.entries[n].live)
  }

  /** What the log of service n gains when its process exits while the supervisor is not stopping: one
      restart, stable exactly when the process reported its start a minute or more ago. */
  lemma ExitIsLogged(s: State, n: nat, c: Handle)
    requires CanHappen(s, Exits(n, c)) && !s.stopping
    ensures var e, t := s.entries[n], Happen(s, Exits(n, c)).entries[n];
      && t.log == e.log + [Restart(e.startedAt != 0 && s.clock - e.startedAt >= 60000, t.log[|e.log|].waitMs)]
      && t.restarts == e.restarts + 1 && t.timer.Some? && t.timer.value in t.timers && c !in t.live
  {
  }

  /** The start time of a live process: none until it reports its start, then that moment. */
  lemma {:induction false} StartedWhenReported(ss: seq<State>, evs: seq<Event>, i: nat, j: nat, n: nat, c: Handle)
    requires IsRun(ss, evs) && i < j < |ss| && n < |ss[j].entries| && c in ss[j].entries[n].live
    requires ComesToLife(ss[i], ss[i + 1], n, c)
    requires forall k | i < k < j :: n < |ss[k].entries| && c in ss[k].entries[n].live
    ensures if exists k :: i < k < j && evs[k] == Starts(n, c)
      then exists k | i < k < j :: evs[k] == Starts(n, c) && ss[j].entries[n].startedAt == ss[k].clock
      else ss[j].entries[n].startedAt == 0
    decreases j
  {
    hide Inv, CanHappen, Happen;
    RunInv(ss, evs, j - 1);
    if j == i + 1 {
      SpawnResetsStart(ss[i], evs[i], n, c);
    } else {
      StartedWhenReported(ss, evs, i, j - 1, n, c);
      StartKept(ss[j - 1], evs[j - 1], n, c);
      if evs[j - 1] == Starts(n, c) { assert i < j - 1 < j && evs[j - 1] == Starts(n, c); }
    }
  }

  lemma SpawnResetsStart(s: State, ev: Event, n: nat, c: Handle)
    requires Inv(s) && CanHappen(s, ev) && ComesToLife(s, Happen(s, ev), n, c)
    ensures Happen(s, ev).entries[n].startedAt == 0
  {
    hide Counted, Cleared;
  }

  lemma StartKept(s: State, ev: Event, n: nat, c: Handle)
    requires Inv(s) && CanHappen(s, ev) && n < |s.entries| && c in s.entries[n].live
    requires n < |Happen(s, ev).entries| && c in Happen(s, ev).entries[n].live
    ensures Happen(s, ev).entries[n].startedAt == if ev == Starts(n, c) then s.clock else s.entries[n].startedAt
  {
    hide Counted, Cleared;
    assert OneState(s.entries[n], s.stopping);
  }

  // ---- setup steps run before the main process ----

  /** How often a setup step of launch l of service n has exited. */
  function StepExitCount(evs: seq<Event>, n: nat, l: Handle): nat
  {
    if evs == [] then 0
    else
      var last := evs[|evs| - 1];
      StepExitCount(evs[..|evs| - 1], n, l) + if last.StepExits? && last.n == n && last.launch == l then 1 else 0
  }

  predicate AllSucceeded(evs: seq<Event>, n: nat, l: Handle)
  {
    forall i | 0 <= i < |evs| && evs[i].StepExits? && evs[i].n == n && evs[i].launch == l :: evs[i].code == 0
  }

  /** Open launches of service n have done as many steps as exits were seen, all successful and not yet
      all of them; handles to come have done none. */
  ghost predicate Tracks(e: Entry, preSteps: nat, evs: seq<Event>, n: nat)
  {
    && (forall l <- e.launches :: e.launches[l] == StepExitCount(evs, n, l) < preSteps && AllSucceeded(evs, n, l))
    && (forall h: nat | h >= e.next :: StepExitCount(evs, n, h) == 0)
  }

  ghost predicate AllTracked(s: State, evs: seq<Event>)
  {
    && |s.entries| <= |s.preSteps|
    && (forall n | 0 <= n < |s.entries| :: Tracks(s.entries[n], s.preSteps[n], evs, n))
    && (forall n: nat, h: nat | n >= |s.entries| :: StepExitCount(evs, n, h) == 0)
  }

  lemma CountAppend(evs: seq<Event>, ev: Event, n: nat, l: Handle)
    ensures StepExitCount(evs + [ev], n, l) ==
      StepExitCount(evs, n, l) + if ev.StepExits? && ev.n == n && ev.launch == l then 1 else 0
  {
    assert (evs + [ev])[..|evs|] == evs;
  }

  lemma {:induction false} NoExitsSucceeded(evs: seq<Event>, n: nat, l: Handle)
    requires StepExitCount(evs, n, l) == 0
    ensures AllSucceeded(evs, n, l)
  {
    if evs != [] { NoExitsSucceeded(evs[..|evs| - 1], n, l); }
  }

  /** `next` keeps or drops the launches of e, or begins one of at least one step. */
  predicate Relaunches(e: Entry, next: Entry, preSteps: nat)
  {
    && e.next <= next.next
    && forall l <- next.launches ::
         || (l in e.launches && next.launches[l] == e.launches[l])
         || (e.next <= l < next.next && next.launches[l] == 0 && preSteps > 0)
  }

  lemma OtherEventTracks(e: Entry, next: Entry, preSteps: nat, evs: seq<Event>, ev: Event, n: nat)
    requires Tracks(e, preSteps, evs, n) && Relaunches(e, next, preSteps) && !(ev.StepExits? && ev.n == n)
    ensures Tracks(next, preSteps, evs + [ev], n)
  {
    forall l: Handle ensures StepExitCount(evs + [ev], n, l) == StepExitCount(evs, n, l) { CountAppend(evs, ev, n, l); }
    forall l | l in next.launches ensures AllSucceeded(evs + [ev], n, l) {
      if l !in e.launches { NoExitsSucceeded(evs, n, l); }
    }
  }

  lemma StepExitTracks(e: Entry, l: Handle, code: int, preSteps: nat, stopping: bool, evs: seq<Event>, n: nat)
    requires Tracks(e, preSteps, evs, n) && l in e.launches && l < e.next
    ensures Tracks(StepExited(e, l, code, preSteps, stopping), preSteps, evs + [StepExits(n, l, code)], n)
  {
    var ev := StepExits(n, l, code);
    forall h: Handle ensures StepExitCount(evs + [ev], n, h) == StepExitCount(evs, n, h) + if h == l then 1 else 0 {
      CountAppend(evs, ev, n, h);
    }
  }

  lemma EventRelaunches(s: State, ev: Event, n: nat)
    requires Inv(s) && CanHappen(s, ev) && n < |s.entries| && !(ev.StepExits? && ev.n == n)
    ensures n < |Happen(s, ev).entries| && Relaunches(s.entries[n], Happen(s, ev).entries[n], s.preSteps[n])
  {
    hide Inv, Counted, Cleared;
  }

  lemma LaunchBelowNext(s: State, n: nat, l: Handle)
    requires Inv(s) && n < |s.entries| && l in s.entries[n].launches
    ensures l < s.entries[n].next
  {
    hide Counted, Cleared;
    assert OneState(s.entries[n], s.stopping);
  }

  lemma HappenShape(s: State, ev: Event)
    requires Inv(s) && CanHappen(s, ev)
    ensures var t := Happen(s, ev);
      && t.preSteps == s.preSteps && |s.entries| <= |t.entries| <= |s.preSteps|
      && (ev.StepExits? ==> t.entries == s.entries[ev.n :=
            StepExited(s.entries[ev.n], ev.launch, ev.code, s.preSteps[ev.n], s.stopping)])
      && (|t.entries| > |s.entries| ==>
            ev.StartNext? && |t.entries| == |s.entries| + 1
            && t.entries[|s.entries|] == Launch(NEW_ENTRY, s.preSteps[|s.entries|]))
  {
    hide OneState, Counted, Cleared;
  }

  lemma TrackedStep(s: State, evs: seq<Event>, ev: Event)
    requires Inv(s) && AllTracked(s, evs) && CanHappen(s, ev)
    ensures AllTracked(Happen(s, ev), evs + [ev])
  {
    hide Inv, CanHappen, Happen, Tracks, StepExited, Launch;
    var t := Happen(s, ev);
    HappenShape(s, ev);
    if ev.StepExits? { StepExitsInRange(s, ev); }
    forall n | 0 <= n < |t.entries| ensures Tracks(t.entries[n], t.preSteps[n], evs + [ev], n) {
      if n == |s.entries| {
        FirstLaunchTracks(s.preSteps[n], evs, ev, n);
      } else if ev.StepExits? && ev.n == n {
        LaunchBelowNext(s, n, ev.launch);
        StepExitTracks(s.entries[n], ev.launch, ev.code, s.preSteps[n], s.stopping, evs, n);
      } else {
        EventRelaunches(s, ev, n);
        OtherEventTracks(s.entries[n], t.entries[n], s.preSteps[n], evs, ev, n);
      }
    }
    forall n: nat, h: nat | n >= |t.entries| ensures StepExitCount(evs + [ev], n, h) == 0 {
      CountAppend(evs, ev, n, h);
    }
  }

  lemma StepExitsInRange(s: State, ev: Event)
    requires CanHappen(s, ev) && ev.StepExits?
    ensures ev.n < |s.entries| && ev.launch in s.entries[ev.n].launches
  {
  }

  lemma FirstLaunchTracks(preSteps: nat, evs: seq<Event>, ev: Event, n: nat)
    requires (forall h: nat :: StepExitCount(evs, n, h) == 0) && !ev.StepExits?
    ensures Tracks(Launch(NEW_ENTRY, preSteps), preSteps, evs + [ev], n)
  {
    forall h: Handle ensures StepExitCount(evs + [ev], n, h) == 0 { CountAppend(evs, ev, n, h); }
    forall h: Handle ensures AllSucceeded(evs + [ev], n, h) { NoExitsSucceeded(evs + [ev], n, h); }
  }

  lemma {:induction false} RunTracked(ss: seq<State>, evs: seq<Event>, i: nat)
    requires IsRun(ss, evs) && ss[0].entries == [] && i < |ss|
    ensures AllTracked(ss[i], evs[..i])
  {
    hide CanHappen, Happen, Tracks;
    if i > 0 {
      RunTracked(ss, evs, i - 1);
      RunInv(ss, evs, i - 1);
      TrackedStep(ss[i - 1], evs[..i - 1], evs[i - 1]);
      assert evs[..i] == evs[..i - 1] + [evs[i - 1]];
    }
  }

  lemma SpawnedBy(s: State, ev: Event, n: nat, c: Handle)
    requires Inv(s) && CanHappen(s, ev) && ComesToLife(s, Happen(s, ev), n, c)
    ensures n < |s.preSteps| && !s.stopping
    ensures
      || (s.preSteps[n] == 0 && (ev.StartNext? || (ev.TimerFires? && ev.n == n)))
      || (ev.StepExits? && ev.n == n && ev.code == 0 && n < |s.entries| && ev.launch in s.entries[n].launches
          && s.entries[n].launches[ev.launch] + 1 >= s.preSteps[n])
  {
    hide OneState, Counted, Cleared;
  }

  /** In every run the main process of a service comes to life only after all its setup steps: when it
      has any, neither a start nor a timer spawns it directly, and the launch it comes from has seen
      exactly as many step exits as there are steps, every one of them successful. */
  lemma StepsRunFirst(ss: seq<State>, evs: seq<Event>, i: nat, n: nat, c: Handle)
    requires IsRun(ss, evs) && ss[0].entries == [] && i < |evs| && ComesToLife(ss[i], ss[i + 1], n, c)
    ensures n < |ss[i].preSteps| && !ss[i].stopping
    ensures if ss[i].preSteps[n] == 0 then evs[i].StartNext? || (evs[i].TimerFires? && evs[i].n == n)
            else evs[i].StepExits? && evs[i].n == n
                 && StepExitCount(evs[..i + 1], n, evs[i].launch) == ss[i].preSteps[n]
                 && AllSucceeded(evs[..i + 1], n, evs[i].launch)
  {
    hide Inv, CanHappen, Happen;
    RunInv(ss, evs, i);
    SpawnedBy(ss[i], evs[i], n, c);
    if evs[i].StepExits? {
      RunTracked(ss, evs, i);
      assert Tracks(ss[i].entries[n], ss[i].preSteps[n], evs[..i], n);
      assert evs[..i + 1] == evs[..i] + [evs[i]];
      CountAppend(evs[..i], evs[i], n, evs[i].launch);
      assert AllSucceeded(evs[..i], n, evs[i].launch);
    }
  }

  /** And each exit of a setup step has its one consequence: nothing more while stopping; a restart timer
      after a failure; the next step after a success; the main process after the last. */
  lemma StepExitDecides(ss: seq<State>, evs: seq<Event>, i: nat)
    requires IsRun(ss, evs) && ss[0].entries == [] && i < |evs| && evs[i].StepExits?
    ensures var n, l := evs[i].n, evs[i].launch;
      && n < |ss[i].entries| == |ss[i + 1].entries| && |ss[i].entries| <= |ss[i].preSteps|
      && var e, done := ss[i + 1].entries[n], StepExitCount(evs[..i + 1], n, l);
      if ss[i].stopping then e.launches == map[] && e.live == {} && e.timers == {}
      else if evs[i].code != 0 then e.launches == map[] && e.live == {} && |e.timers| == 1
      else if done < ss[i].preSteps[n] then e.launches.Keys == {l} && e.live == {} && e.timers == {}
      else done == ss[i].preSteps[n] && e.launches == map[] && |e.live| == 1 && e.timers == {}
  {
    hide Inv, CanHappen, Happen;
    RunInv(ss, evs, i);
    RunTracked(ss, evs, i);
    var ev := evs[i];
    StepExitsInRange(ss[i], ev);
    HappenShape(ss[i], ev);
    assert Tracks(ss[i].entries[ev.n], ss[i].preSteps[ev.n], evs[..i], ev.n);
    assert evs[..i + 1] == evs[..i] + [ev];
    CountAppend(evs[..i], ev, ev.n, ev.launch);
    LaunchingAlone(ss[i], ev.n, ev.launch);
    StepExitedParts(ss[i].entries[ev.n], ev.launch, ev.code, ss[i].preSteps[ev.n], ss[i].stopping);
  }

  lemma LaunchingAlone(s: State, n: nat, l: Handle)
    requires Inv(s) && n < |s.entries| && l in s.entries[n].launches
    ensures s.entries[n].launches.Keys == {l} && s.entries[n].live == {} && s.entries[n].timers == {}
  {
    hide Counted, Cleared;
    assert OneState(s.entries[n], s.stopping);
  }

  lemma StepExitedParts(e: Entry, l: Handle, code: int, preSteps: nat, stopping: bool)
    requires e.launches.Keys == {l} && e.live == {} && e.timers == {}
    ensures var t := StepExited(e, l, code, preSteps, stopping);
      if stopping then t.launches == map[] && t.live == {} && t.timers == {}
      else if code != 0 then t.launches == map[] && t.live == {} && |t.timers| == 1
      else if e.launches[l] + 1 < preSteps then t.launches.Keys == {l} && t.live == {} && t.timers == {}
      else t.launches == map[] && |t.live| == 1 && t.timers == {}
  {
    assert (e.launches - {l}).Keys == {};
    assert e.launches[l := e.launches[l] + 1].Keys == {l};
  }

  /** In every run the wait after the k-th unstable launch in a row is min(30000, 1000 * 2^(k-1)) ms
      if and only if no launch before it was ever stable, or k is at least 6: the exit of a stable run
      is itself counted as the first failure, so later waits run one doubling ahead until the cap. */
  lemma BackoffFormula(ss: seq<State>, evs: seq<Event>, j: nat, n: nat, i: nat)
    requires IsRun(ss, evs) && j < |ss| && n < |ss[j].entries|
    requires i < |ss[j].entries[n].log| && !ss[j].entries[n].log[i].stable
    ensures var log := ss[j].entries[n].log;
      var k := UnstableRun(log[..i + 1]);
      k >= 1 && (log[i].waitMs == WaitMs(k - 1) <==> !EverStable(log[..i + 1]) || k >= 6)
  {
    hide CanHappen, Happen, WaitMs;
    RunInv(ss, evs, j);
    WaitMeetsFormula(ss[j].entries[n], i);
  }

  /** The run that shows it: one service starts, runs for a minute, exits, is launched again and exits
      at once. That is its first unstable launch in a row, and it waits 2000 ms, not 1000. */
  lemma FormulaFailsAfterStableRun() returns (ss: seq<State>, evs: seq<Event>)
    ensures IsRun(ss, evs) && ss[0] == Initial([0], 1)
    ensures evs == [StartNext, Starts(0, 0), Passes(STABLE_RUN_MS), Exits(0, 0), TimerFires(0, 1), Exits(0, 2)]
    ensures |ss[6].entries| == 1
    ensures var log := ss[6].entries[0].log;
      |log| == 2 && UnstableRun(log) == 1 && log[1].waitMs == 2000 && WaitMs(0) == 1000
  {
    hide Inv, CanHappen, Happen, UnstableRun, WaitMs;
    evs := [StartNext, Starts(0, 0), Passes(STABLE_RUN_MS), Exits(0, 0), TimerFires(0, 1), Exits(0, 2)];
    var s1, s2, s3, s4 := StableRun();
    var s5, s6 := UnstableRelaunch(s4);
    ss := [Initial([0], 1), s1, s2, s3, s4, s5, s6];
    InitialInv([0], 1);
  }

  /** The only service of a supervisor, in state e. */
  function Alone(clock: int, e: Entry): State { State([0], clock, false, [e], 1, None) }

  lemma StableRun() returns (s1: State, s2: State, s3: State, s4: State)
    ensures CanHappen(Initial([0], 1), StartNext) && s1 == Happen(Initial([0], 1), StartNext)
    ensures CanHappen(s1, Starts(0, 0)) && s2 == Happen(s1, Starts(0, 0))
    ensures CanHappen(s2, Passes(STABLE_RUN_MS)) && s3 == Happen(s2, Passes(STABLE_RUN_MS))
    ensures CanHappen(s3, Exits(0, 0)) && s4 == Happen(s3, Exits(0, 0))
    ensures s4 == Alone(60001, Entry(None, Some(1), 1, 1, 1, map[], {}, {1}, 2, [Restart(true, 1000)]))
  {
    s1 := Happen(Initial([0], 1), StartNext);
    s2 := Happen(s1, Starts(0, 0));
    s3 := Happen(s2, Passes(STABLE_RUN_MS));
    s4 := Happen(s3, Exits(0, 0));
    var e := s4.entries[0];
    assert e.live == {} && e.timers == {1} && e.launches == map[] && e.log == [Restart(true, 1000)];
  }

  lemma UnstableRelaunch(s4: State) returns (s5: State, s6: State)
    requires s4 == Alone(60001, Entry(None, Some(1), 1, 1, 1, map[], {}, {1}, 2, [Restart(true, 1000)]))
    ensures CanHappen(s4, TimerFires(0, 1)) && s5 == Happen(s4, TimerFires(0, 1))
    ensures CanHappen(s5, Exits(0, 2)) && s6 == Happen(s5, Exits(0, 2)) && |s6.entries| == 1
    ensures var log := s6.entries[0].log;
      |log| == 2 && UnstableRun(log) == 1 && log[1].waitMs == 2000 && WaitMs(0) == 1000
  {
    s5 := Happen(s4, TimerFires(0, 1));
    s6 := Happen(s5, Exits(0, 2));
    var log := s6.entries[0].log;
    assert log == [Restart(true, 1000), Restart(false, 2000)];
    assert log[..1] == [Restart(true, 1000)];
  }

  // ---- the supervisor object ----

  class NativeSupervisor {
    const preSteps: seq<nat>
    var stopping: bool
    var services: seq<Entry>
    var clock: int
    var cursor: nat
    var awaiting: Option<Handle>

    function View(): State
      reads this
    {
      State(preSteps, clock, stopping, services, cursor, awaiting)
    }

    constructor (preSteps: seq<nat>, clock: int)
      ensures View() == Initial(preSteps, clock) && Inv(View())
    {
      this.preSteps, this.clock := preSteps, clock;
      stopping, services, cursor, awaiting := false, [], |preSteps|, None;
      new;
      InitialInv(preSteps, clock);
    }

    /** Runs the first setup step, or spawns the main process when there is none. */
    method LaunchService(n: nat)
      requires n < |services| && n < |preSteps|
      modifies this`services
      ensures services == old(services)[n := Launch(old(services)[n], preSteps[n])]
    {
      var entry := services[n];
      if preSteps[n] > 0 {
        services := services[n := entry.(launches := entry.launches[entry.next := 0], next := entry.next + 1)];
        return;
      }
      SpawnMain(n);
    }

    method SpawnMain(n: nat)
      requires n < |services|
      modifies this`services
      ensures services == old(services)[n := Spawn(old(services)[n])]
    {
      var entry := services[n];
      var child := entry.next;
      services := services[n := entry.(child := Some(child), live := entry.live + {child}, startedAt := 0,
        next := child + 1)];
    }

    method RestartLater(n: nat, stable: bool)
      requires n < |services|
      modifies this`services
      ensures services == old(services)[n := ScheduleRestart(old(services)[n], stable)]
    {
      var entry := services[n];
      var waitMs := BASE_DELAY_MS;
      var doubled := 0;
      while doubled < entry.failures
        invariant doubled <= entry.failures && waitMs == BASE_DELAY_MS * Pow2(doubled)
      {
        waitMs, doubled := 2 * waitMs, doubled + 1;
      }
      if waitMs >= MAX_DELAY_MS { waitMs := MAX_DELAY_MS; }
      var timer := entry.next;
      services := services[n := entry.(failures := entry.failures + 1, restarts := entry.restarts + 1,
        timer := Some(timer), timers := entry.timers + {timer}, next := timer + 1,
        log := entry.log + [Restart(stable, waitMs)])];
    }

    /** One turn of the start loop. */
    method StartService()
      requires Inv(View()) && CanHappen(View(), StartNext)
      modifies this
      ensures Inv(View()) && View() == Happen(old(View()), StartNext)
    {
      hide OneState, Counted, Cleared;
      HappenKeepsInv(View(), StartNext);
      if stopping { return; }
      services := services + [NEW_ENTRY];
      LaunchService(|services| - 1);
      assert services == old(services) + [Launch(NEW_ENTRY, preSteps[|old(services)|])];
    }

    method OnStepExit(n: nat, launch: Handle, code: int)
      requires Inv(View()) && CanHappen(View(), StepExits(n, launch, code))
      modifies this
      ensures Inv(View()) && View() == Happen(old(View()), StepExits(n, launch, code))
    {
      hide OneState, Counted, Cleared;
      HappenKeepsInv(View(), StepExits(n, launch, code));
      var entry := services[n];
      var step := entry.launches[launch];
      if !stopping && code == 0 && step + 1 < preSteps[n] {
        services := services[n := entry.(launches := entry.launches[launch := step + 1])];
        return;
      }
      services := services[n := entry.(launches := entry.launches - {launch})];
      if stopping { return; }
      if code != 0 {
        RestartLater(n, false);
      } else {
        SpawnMain(n);
      }
      assert services == old(services)[n := services[n]];
    }

    method OnSpawn(n: nat, child: Handle)
      requires Inv(View()) && CanHappen(View(), Starts(n, child))
      modifies this
      ensures Inv(View()) && View() == Happen(old(View()), Starts(n, child))
    {
      hide OneState, Counted, Cleared;
      HappenKeepsInv(View(), Starts(n, child));
      services := services[n := services[n].(startedAt := clock)];
    }

    /** `finish`: the process exited, or failed to start. */
    method OnExit(n: nat, child: Handle)
      requires Inv(View()) && CanHappen(View(), Exits(n, child))
      modifies this
      ensures Inv(View()) && View() == Happen(old(View()), Exits(n, child))
    {
      hide OneState, Counted, Cleared;
      HappenKeepsInv(View(), Exits(n, child));
      var entry := services[n];
      if n == cursor && awaiting == Some(child) { awaiting := None; }
      var gone := entry.(child := None, live := entry.live - {child});
      services := services[n := gone];
      if stopping { return; }
      var stable := entry.startedAt != 0 && clock - entry.startedAt >= STABLE_RUN_MS;
      if stable { services := services[n := gone.(failures := 0)]; }
      RestartLater(n, stable);
      assert services == old(services)[n := services[n]];
    }

    method OnTimer(n: nat, timer: Handle)
      requires Inv(View()) && CanHappen(View(), TimerFires(n, timer))
      modifies this
      ensures Inv(View()) && View() == Happen(old(View()), TimerFires(n, timer))
    {
      hide OneState, Counted, Cleared;
      HappenKeepsInv(View(), TimerFires(n, timer));
      services := services[n := services[n].(timer := None, timers := services[n].timers - {timer})];
      if !stopping { LaunchService(n); }
      assert services == old(services)[n := services[n]];
    }

    method Shutdown()
      requires Inv(View())
      modifies this
      ensures Inv(View()) && View() == Happen(old(View()), ShutdownBegins)
    {
      hide OneState, Counted, Cleared;
      HappenKeepsInv(View(), ShutdownBegins);
      if stopping { return; }
      stopping := true;
    }

    /** `stopChild` on the next service in reverse order. */
    method StopChild()
      requires Inv(View()) && CanHappen(View(), StopNext)
      modifies this
      ensures Inv(View()) && View() == Happen(old(View()), StopNext)
    {
      hide OneState, Counted, Cleared;
      HappenKeepsInv(View(), StopNext);
      cursor := cursor - 1;
      if cursor >= |services| { return; }
      var entry := services[cursor];
      awaiting := entry.child;
      if entry.timer.Some? {
        services := services[cursor := entry.(timer := None, timers := entry.timers - {entry.timer.value})];
      }
      assert services == old(services)[cursor := ClearTimer(old(services)[cursor])];
    }
  }
}
