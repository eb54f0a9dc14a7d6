/**
 Leader election by advisory lock (internal/leaderelection/leader.go) together with the leader
 runtime that starts and stops the duties (cmd/cronlite/main.go).

 onElected runs in its own goroutine, so `start` may run late: after `stop`, after the connection is
 closed, or in a later term of the same instance.  Contexts are followed as the set of terms whose
 leader context has been cancelled.
 */
module Election {
  import opened Common

  type InstanceId = nat
  type Term = nat

  /** Where the election loop of one instance stands. */
  datatype Phase =
    | Following
    | Leading(term: Term)    // holdLock
    | Cancelled(term: Term)  // cancelLeader has run, onDemoted not yet
    | Waiting(term: Term)    // stop waits for the duties
    | Closing(term: Term)    // onDemoted has returned, the connection is still open
    | Dead
  {
    predicate Holds(t: Term) {
      (Leading? || Cancelled? || Waiting? || Closing?) && term == t
    }
  }

  /**
   `pending`: terms whose start has been spawned but has not run.  `duties`: running duty goroutines
   by the term that started them, and whether stop has cancelled them.  `runner`: the term whose
   start set the running flag; the flag is on exactly when there is one.  `late`: terms whose start
   ran after their stop.  `blocked`: terms whose start found the flag on and returned.
   */
  datatype Instance = Instance(
    phase: Phase,
    down: bool,
    runner: Option<Term>,
    pending: set<Term>,
    duties: map<Term, bool>,
    dead: set<Term>,
    late: set<Term>,
    blocked: set<Term>)

  /** `dropped`: terms whose connection the server has given up. */
  datatype State = State(
    instances: map<InstanceId, Instance>,
    lock: Option<(InstanceId, Term)>,
    dropped: set<Term>,
    nextTerm: Term)

  datatype Event =
    | Join(i: InstanceId)
    | Acquire(i: InstanceId)
    | RunStart(i: InstanceId, term: Term)
    | Notice(i: InstanceId)  // a failed ping, or shutdown
    | StopBegin(i: InstanceId)
    | DutyExit(i: InstanceId, term: Term)
    | StopEnd(i: InstanceId)
    | Close(i: InstanceId)
    | Shutdown(i: InstanceId)
    | Crash(i: InstanceId)
    | ServerDrops

  const INIT: State := State(map[], None, {}, 0)

  predicate Live(inst: Instance, t: Term) {
    t in inst.duties && !inst.duties[t] && t !in inst.dead
  }

  predicate Active(s: State, i: InstanceId) {
    i in s.instances && exists t :: t in s.instances[i].duties && Live(s.instances[i], t)
  }

  predicate Enabled(s: State, ev: Event) {
    match ev
    case Join(i) => i !in s.instances
    case ServerDrops => s.lock.Some?
    case _ =>
      ev.i in s.instances && var inst := s.instances[ev.i];
      match ev
      case Acquire(_) => inst.phase == Following && !inst.down && s.lock.None?
      case RunStart(_, t) => t in inst.pending
      case Notice(_) => inst.phase.Leading?
      case StopBegin(_) => inst.phase.Cancelled?
      case DutyExit(_, t) => t in inst.duties && !Live(inst, t)
      case StopEnd(_) => inst.phase.Waiting? && inst.duties == map[]
      case Close(_) => inst.phase.Closing?
      case Shutdown(_) => true
      case Crash(_) => true
      case _ => false
  }

  function Start(inst: Instance, t: Term): Instance {
    var onTime := inst.phase == Leading(t) || inst.phase == Cancelled(t);
    var ran := inst.(pending := inst.pending - {t}, late := if onTime then inst.late else inst.late + {t});
    if inst.runner.Some? then ran.(blocked := inst.blocked + {t})
    else ran.(runner := Some(t), duties := inst.duties[t := false])
  }

  function Stop(inst: Instance): Instance
    requires inst.phase.Cancelled?
  {
    var t := inst.phase.term;
    if inst.runner.None? then inst.(phase := Closing(t))
    else
      inst.(phase := Waiting(t), runner := None,
            duties := if inst.runner.value in inst.duties then inst.duties[inst.runner.value := true] else inst.duties)
  }

  function ApplyLocal(inst: Instance, ev: Event, next: Term): Instance
    requires ev.StopBegin? ==> inst.phase.Cancelled?
    requires ev.Notice? ==> inst.phase.Leading?
    requires ev.StopEnd? ==> inst.phase.Waiting?
  {
    match ev
    case Acquire(_) => inst.(phase := Leading(next), pending := inst.pending + {next})
    case RunStart(_, t) => Start(inst, t)
    case Notice(_) => inst.(phase := Cancelled(inst.phase.term), dead := inst.dead + {inst.phase.term})
    case StopBegin(_) => Stop(inst)
    case DutyExit(_, t) => inst.(duties := inst.duties - {t})
    case StopEnd(_) => inst.(phase := Closing(inst.phase.term))
    case Close(_) => inst.(phase := Following)
    case Shutdown(_) =>
      inst.(down := true, dead := if inst.phase.Leading? then inst.dead + {inst.phase.term} else inst.dead)
    case Crash(_) => inst.(phase := Dead, duties := map[], pending := {}, runner := None)
    case _ => inst
  }

  function Locally(s: State, ev: Event): State
    requires Enabled(s, ev) && !ev.Join? && !ev.ServerDrops?
  {
    s.(instances := s.instances[ev.i := ApplyLocal(s.instances[ev.i], ev, s.nextTerm)])
  }

  function Apply(s: State, ev: Event): State
    requires Enabled(s, ev)
  {
    match ev
    case Join(i) => s.(instances := s.instances[i := Instance(Following, false, None, {}, map[], {}, {}, {})])
    case ServerDrops => s.(lock := None, dropped := s.dropped + {s.lock.value.1})
    case Acquire(i) => Locally(s, ev).(lock := Some((i, s.nextTerm)), nextTerm := s.nextTerm + 1)
    case Close(i) =>
      if s.lock == Some((i, s.instances[i].phase.term)) then Locally(s, ev).(lock := None) else Locally(s, ev)
    case _ => Locally(s, ev)
  }

  predicate ValidRun(s: State, evs: seq<Event>)
    decreases |evs|
  {
    evs == [] || (Enabled(s, evs[0]) && ValidRun(Apply(s, evs[0]), evs[1..]))
  }

  function Final(s: State, evs: seq<Event>): State
    requires ValidRun(s, evs)
    decreases |evs|
  {
    if evs == [] then s else Final(Apply(s, evs[0]), evs[1..])
  }

  // ---------- the invariant ----------

  ghost predicate InstanceOk(inst: Instance, next: Term) {
    // every term in sight has been handed out
    && (forall t :: t in inst.pending || t in inst.duties || t in inst.dead || t in inst.blocked ==> t < next)
    && (!inst.phase.Following? && !inst.phase.Dead? ==> inst.phase.term < next)
    && (inst.runner.Some? ==> inst.runner.value < next)
    // a start runs once
    && (forall t :: t in inst.pending ==> t !in inst.duties && t !in inst.blocked && inst.runner != Some(t))
    && (forall t :: t in inst.blocked ==> t !in inst.duties)
    // a term's context outlives its lead in no case
    && (forall t :: t in inst.duties || t in inst.pending ==> inst.phase == Leading(t) || t in inst.dead)
    && (inst.phase.Leading? ==> (inst.phase.term in inst.dead <==> inst.down))
    // the running flag without a late start belongs to the term that leads
    && (inst.runner.Some? ==> inst.phase == Leading(inst.runner.value) || inst.phase == Cancelled(inst.runner.value)
                              || inst.runner.value in inst.late)
    && (inst.blocked != {} ==> inst.late != {})
    // a leader whose start has run has its duty, unless the start was blocked
    && (inst.phase.Leading? && inst.phase.term !in inst.pending && inst.phase.term !in inst.blocked && !inst.down ==>
          inst.phase.term in inst.duties && !inst.duties[inst.phase.term])
  }

  /** Whoever is in a term holds the lock, unless the server has dropped that connection. */
  ghost predicate LockOk(s: State, i: InstanceId)
    requires i in s.instances
  {
    forall t :: s.instances[i].phase.Holds(t) ==> s.lock == Some((i, t)) || t in s.dropped
  }

  ghost predicate Inv(s: State) {
    && (forall i :: i in s.instances ==> InstanceOk(s.instances[i], s.nextTerm) && LockOk(s, i))
    && (s.lock.Some? ==> s.lock.value.1 < s.nextTerm)
    && (forall t :: t in s.dropped ==> t < s.nextTerm)
  }

  lemma StartOk(inst: Instance, t: Term, next: Term)
    requires InstanceOk(inst, next) && t in inst.pending
    ensures InstanceOk(Start(inst, t), next)
  {
  }

  lemma StopOk(inst: Instance, next: Term)
    requires InstanceOk(inst, next) && inst.phase.Cancelled?
    ensures InstanceOk(Stop(inst), next)
  {
  }

  lemma DutyExitOk(inst: Instance, t: Term, next: Term)
    requires InstanceOk(inst, next) && t in inst.duties && !Live(inst, t)
    ensures InstanceOk(inst.(duties := inst.duties - {t}), next)
  {
  }

  lemma ElectedOk(inst: Instance, next: Term)
    requires InstanceOk(inst, next) && inst.phase == Following && !inst.down
    ensures InstanceOk(inst.(phase := Leading(next), pending := inst.pending + {next}), next + 1)
  {
  }

  lemma PhaseOk(inst: Instance, ev: Event, next: Term)
    requires InstanceOk(inst, next)
    requires match ev
             case Notice(_) => inst.phase.Leading?
             case StopEnd(_) => inst.phase.Waiting?
             case Close(_) => inst.phase.Closing?
             case Shutdown(_) => true
             case Crash(_) => true
             case _ => false
    ensures InstanceOk(ApplyLocal(inst, ev, next), next)
  {
  }

  lemma LocalStep(s: State, ev: Event)
    requires Inv(s) && Enabled(s, ev) && !ev.Join? && !ev.ServerDrops?
    ensures InstanceOk(Apply(s, ev).instances[ev.i], Apply(s, ev).nextTerm)
  {
    hide InstanceOk, LockOk, Start, Stop;
    var inst := s.instances[ev.i];
    assert InstanceOk(inst, s.nextTerm);
    if ev.Acquire? {
      ElectedOk(inst, s.nextTerm);
    } else if ev.RunStart? {
      StartOk(inst, ev.term, s.nextTerm);
    } else if ev.StopBegin? {
      StopOk(inst, s.nextTerm);
    } else if ev.DutyExit? {
      DutyExitOk(inst, ev.term, s.nextTerm);
    } else {
      PhaseOk(inst, ev, s.nextTerm);
    }
  }

  lemma InvStep(s: State, ev: Event)
    requires Inv(s) && Enabled(s, ev)
    ensures Inv(Apply(s, ev))
  {
    hide InstanceOk;
    var s' := Apply(s, ev);
    if ev.Join? {
      FreshInstanceOk(s.nextTerm);
    } else if !ev.ServerDrops? {
      LocalStep(s, ev);
    }
    forall i | i in s'.instances ensures InstanceOk(s'.instances[i], s'.nextTerm) && LockOk(s', i) {
      if i in s.instances {
        assert InstanceOk(s.instances[i], s.nextTerm) && LockOk(s, i);
        if s.instances[i] == s'.instances[i] {
          LaterTermsOk(s.instances[i], s.nextTerm, s'.nextTerm);
        }
      }
    }
  }

  lemma FreshInstanceOk(next: Term)
    ensures InstanceOk(Instance(Following, false, None, {}, map[], {}, {}, {}), next)
  {
  }

  lemma LaterTermsOk(inst: Instance, next: Term, next': Term)
    requires InstanceOk(inst, next) && next <= next'
    ensures InstanceOk(inst, next')
  {
  }

  lemma {:induction false} InvRun(s: State, evs: seq<Event>)
    requires Inv(s) && ValidRun(s, evs)
    ensures Inv(Final(s, evs))
    decreases |evs|
  {
    if evs != [] {
      InvStep(s, evs[0]);
      InvRun(Apply(s, evs[0]), evs[1..]);
    }
  }

  // ---------- what holds over every run ----------

  /**
   Duties with an uncancelled context run only in the instance's current term, in which it holds
   the lock unless the server has already given its connection up.
   */
  lemma ActiveHoldsLock(evs: seq<Event>, i: InstanceId, t: Term)
    requires ValidRun(INIT, evs) && i in Final(INIT, evs).instances && Live(Final(INIT, evs).instances[i], t)
    ensures var s := Final(INIT, evs);
            s.instances[i].phase == Leading(t) && (s.lock == Some((i, t)) || t in s.dropped)
  {
    InvRun(INIT, evs);
    var s := Final(INIT, evs);
    assert InstanceOk(s.instances[i], s.nextTerm) && LockOk(s, i);
    assert s.instances[i].phase == Leading(t);
    assert s.instances[i].phase.Holds(t);
  }

  /** Across all instances and terms, at most one uncancelled set of duties has a live connection. */
  lemma AtMostOneLeader(evs: seq<Event>, i: InstanceId, t: Term, j: InstanceId, u: Term)
    requires ValidRun(INIT, evs)
    requires i in Final(INIT, evs).instances && Live(Final(INIT, evs).instances[i], t) && t !in Final(INIT, evs).dropped
    requires j in Final(INIT, evs).instances && Live(Final(INIT, evs).instances[j], u) && u !in Final(INIT, evs).dropped
    ensures i == j && t == u
  {
    ActiveHoldsLock(evs, i, t);
    ActiveHoldsLock(evs, j, u);
  }

  /**
   A leader whose start has run performs its duties if and only if it is not shutting down and its
   start did not find the running flag on.
   */
  lemma WorksUnlessBlocked(evs: seq<Event>, i: InstanceId)
    requires ValidRun(INIT, evs) && i in Final(INIT, evs).instances
    ensures var inst := Final(INIT, evs).instances[i];
            inst.phase.Leading? && inst.phase.term !in inst.pending ==>
              (Live(inst, inst.phase.term) <==> !inst.down && inst.phase.term !in inst.blocked)
  {
    InvRun(INIT, evs);
    assert InstanceOk(Final(INIT, evs).instances[i], Final(INIT, evs).nextTerm);
  }

  /** In particular every such leader works if no start of its instance ever ran late. */
  lemma PunctualLeadersWork(evs: seq<Event>, i: InstanceId)
    requires ValidRun(INIT, evs) && i in Final(INIT, evs).instances
    ensures var inst := Final(INIT, evs).instances[i];
            inst.phase.Leading? && inst.phase.term !in inst.pending && !inst.down && inst.late == {} ==>
              Live(inst, inst.phase.term)
  {
    WorksUnlessBlocked(evs, i);
    InvRun(INIT, evs);
    assert InstanceOk(Final(INIT, evs).instances[i], Final(INIT, evs).nextTerm);
  }

  // ---------- a late start can leave a leader idle ----------

  ghost predicate Reachable(s: State) {
    exists evs :: ValidRun(INIT, evs) && Final(INIT, evs) == s
  }

  lemma {:induction false} Append(s: State, evs: seq<Event>, ev: Event)
    requires ValidRun(s, evs) && Enabled(Final(s, evs), ev)
    ensures ValidRun(s, evs + [ev]) && Final(s, evs + [ev]) == Apply(Final(s, evs), ev)
    decreases |evs|
  {
    hide Enabled, Apply;
    if evs == [] {
      assert evs + [ev] == [ev] && [ev][1..] == [];
      assert ValidRun(Apply(s, ev), []);
    } else {
      Append(Apply(s, evs[0]), evs[1..], ev);
      assert (evs + [ev])[0] == evs[0] && (evs + [ev])[1..] == evs[1..] + [ev];
    }
  }

  lemma Then(s: State, ev: Event, s': State)
    requires Reachable(s) && Enabled(s, ev) && Apply(s, ev) == s'
    ensures Reachable(s')
  {
    hide Enabled, Apply;
    var evs :| ValidRun(INIT, evs) && Final(INIT, evs) == s;
    Append(INIT, evs, ev);
  }

  function Alone(inst: Instance, lock: Option<(InstanceId, Term)>, next: Term): State {
    State(map[0 := inst], lock, {}, next)
  }

  /** Term 0 is lost before its start runs. */
  lemma LostBeforeStart()
    ensures Reachable(Alone(Instance(Cancelled(0), false, None, {0}, map[], {0}, {}, {}), Some((0, 0)), 1))
  {
    assert ValidRun(INIT, []) && Final(INIT, []) == INIT;
    var s1 := Alone(Instance(Following, false, None, {}, map[], {}, {}, {}), None, 0);
    Then(INIT, Join(0), s1);
    var s2 := Alone(Instance(Leading(0), false, None, {0}, map[], {}, {}, {}), Some((0, 0)), 1);
    assert s1.instances[0].pending + {0} == {0};
    Then(s1, Acquire(0), s2);
    Then(s2, Notice(0), Alone(Instance(Cancelled(0), false, None, {0}, map[], {0}, {}, {}), Some((0, 0)), 1));
  }

  /** The start then runs, after stop and after the connection is closed, and turns the flag on. */
  lemma FlagLeftOn()
    ensures Reachable(Alone(Instance(Following, false, Some(0), {}, map[0 := false], {0}, {0}, {}), None, 1))
  {
    LostBeforeStart();
    var s3 := Alone(Instance(Cancelled(0), false, None, {0}, map[], {0}, {}, {}), Some((0, 0)), 1);
    var s4 := Alone(Instance(Closing(0), false, None, {0}, map[], {0}, {}, {}), Some((0, 0)), 1);
    Then(s3, StopBegin(0), s4);
    var s5 := Alone(Instance(Following, false, None, {0}, map[], {0}, {}, {}), None, 1);
    Then(s4, Close(0), s5);
    assert s5.instances[0].late + {0} == {0} && s5.instances[0].pending - {0} == {};
    Then(s5, RunStart(0, 0), Alone(Instance(Following, false, Some(0), {}, map[0 := false], {0}, {0}, {}), None, 1));
  }

  /** In term 1 the instance holds the lock, its start has run, and nothing is scheduled. */
  lemma LateStartCanIdleALeader()
    ensures exists s, i :: Reachable(s) && i in s.instances && s.instances[i].phase.Leading? && !s.instances[i].down
                           && s.instances[i].phase.term !in s.instances[i].pending && !Active(s, i)
  {
    FlagLeftOn();
    var s1 := Alone(Instance(Following, false, Some(0), {}, map[0 := false], {0}, {0}, {}), None, 1);
    var s2 := Alone(Instance(Following, false, Some(0), {}, map[], {0}, {0}, {}), None, 1);
    Then(s1, DutyExit(0, 0), s2);
    var s3 := Alone(Instance(Leading(1), false, Some(0), {1}, map[], {0}, {0}, {}), Some((0, 1)), 2);
    assert s2.instances[0].pending + {1} == {1};
    Then(s2, Acquire(0), s3);
    var s4 := Alone(Instance(Leading(1), false, Some(0), {}, map[], {0}, {0}, {1}), Some((0, 1)), 2);
    Then(s3, RunStart(0, 1), s4);
    assert Reachable(s4) && !Active(s4, 0);
  }

  function At(phase: Phase, runner: Option<Term>, pending: set<Term>, duties: map<Term, bool>): Instance {
    Instance(phase, false, runner, pending, duties, {}, {}, {})
  }

  /** Until a leader notices that the server gave its connection up, a second one can be active. */
  lemma DroppedConnectionAllowsTwo()
    ensures exists s :: Reachable(s) && Active(s, 0) && Active(s, 1)
  {
    assert ValidRun(INIT, []) && Final(INIT, []) == INIT;
    var idle, lead := At(Following, None, {}, map[]), At(Leading(0), Some(0), {}, map[0 := false]);
    var s1 := State(map[0 := idle], None, {}, 0);
    Then(INIT, Join(0), s1);
    var s2 := State(map[0 := idle, 1 := idle], None, {}, 0);
    Then(s1, Join(1), s2);
    var s3 := State(map[0 := At(Leading(0), None, {0}, map[]), 1 := idle], Some((0, 0)), {}, 1);
    assert idle.pending + {0} == {0} && idle.pending + {1} == {1};
    Then(s2, Acquire(0), s3);
    var s4 := State(map[0 := lead, 1 := idle], Some((0, 0)), {}, 1);
    Then(s3, RunStart(0, 0), s4);
    var s5 := State(map[0 := lead, 1 := idle], None, {0}, 1);
    Then(s4, ServerDrops, s5);
    SecondLeader(s5, idle, lead);
  }

  lemma SecondLeader(s5: State, idle: Instance, lead: Instance)
    requires idle == At(Following, None, {}, map[]) && lead == At(Leading(0), Some(0), {}, map[0 := false])
    requires s5 == State(map[0 := lead, 1 := idle], None, {0}, 1) && Reachable(s5)
    ensures exists s :: Reachable(s) && Active(s, 0) && Active(s, 1)
  {
    assert idle.pending + {1} == {1};
    var s6 := State(map[0 := lead, 1 := At(Leading(1), None, {1}, map[])], Some((1, 1)), {0}, 2);
    Then(s5, Acquire(1), s6);
    var s7 := State(map[0 := lead, 1 := At(Leading(1), Some(1), {}, map[1 := false])], Some((1, 1)), {0}, 2);
    Then(s6, RunStart(1, 1), s7);
    assert Live(s7.instances[0], 0) && Live(s7.instances[1], 1);
    assert Reachable(s7) && Active(s7, 0) && Active(s7, 1);
  }
}
