/**
 Counting a job's slots from the start of its first window, instead of from the base of `GapFree`:
 which first windows there are, and exactly when no slot after them can be missing.
 */
module FirstWindow {
  import opened Common
  import opened Cron
  import opened Executions
  import opened Scheduler
  import opened GapFree

  /**
   The first window of a job can start at a watermark older than the job, at its creation, or, for a
   leader whose clock is behind the creation time, one interval before that clock.
   */
  predicate Possible(w: World, f: int, b: Option<int>)
    requires w.job.created.Some?
  {
    || (b.Some? && f <= b.value)
    || f == w.job.created.value
    || f < w.job.created.value - w.cfg.Interval()
  }

  // ---------- no other first window ----------

  ghost predicate Unopened(w: World, s: State) {
    && s.anchor.None?
    && (forall i :: 0 <= i < |s.log| && s.log[i].job == w.job.id ==> s.log[i].trigger == Manual)
    && (forall l :: l in s.leaders ==> !s.leaders[l].met)
  }

  ghost predicate FirstOk(w: World, s: State)
    requires w.Valid()
  {
    if s.first.None? then Unopened(w, s) else Possible(w, s.first.value, s.anchor)
  }

  lemma OpensOk(w: World, s: State, l: LeaderId, lookupFails: bool)
    requires w.Valid() && Inv(w, s) && FirstOk(w, s) && Enabled(w, s, BeginJob(l, lookupFails))
    ensures FirstOk(w, Apply(w, s, BeginJob(l, lookupFails)))
  {
    hide Schedule.Valid, UniqueKeys, RowsCovered, Covered, Newest;
    var leader := s.leaders[l];
    assert LeaderOk(w, s, leader) && TickOk(w, s, leader, leader.tick.value);
    NewestIsGreatest(s.log, w.job.id);
  }

  lemma FirstStep(w: World, s: State, ev: Event)
    requires w.Valid() && Inv(w, s) && FirstOk(w, s) && Enabled(w, s, ev)
    ensures FirstOk(w, Apply(w, s, ev))
  {
    hide Schedule.Valid, UniqueKeys, RowsCovered, Covered, Newest, IsPage;
    if ev.BeginJob? {
      OpensOk(w, s, ev.leader, ev.lookupFails);
    } else if ev.Fire? {
      var leader := s.leaders[ev.leader];
      assert LeaderOk(w, s, leader) && TickOk(w, s, leader, leader.tick.value);
    }
  }

  lemma {:induction false} FirstRun(w: World, s: State, evs: seq<Event>)
    requires w.Valid() && Inv(w, s) && FirstOk(w, s) && ValidRun(w, s, evs)
    ensures FirstOk(w, Final(w, s, evs))
    decreases |evs|
  {
    hide Inv, FirstOk, Apply, Enabled;
    if evs != [] {
      InvStep(w, s, evs[0]);
      FirstStep(w, s, evs[0]);
      FirstRun(w, Apply(w, s, evs[0]), evs[1..]);
    }
  }

  // ---------- every such first window, and the slots it loses ----------

  function Table(w: World): map<JobId, Job> {
    map[w.job.id := w.job]
  }

  function Early(t: int): Leader {
    Leader(Some(t), None, true, false)
  }

  const NEW: Leader := Leader(None, None, false, false)

  lemma OneJobPage(w: World)
    requires w.Valid()
    ensures IsPage(Table(w), 0, [w.job])
  {
    assert [w.job][0] == w.job;
    assert Visits([w.job], w.job.id);
  }

  /** A leader starts and finishes a tick at time t while there are no jobs. */
  lemma StartsEarly(w: World, leaders: map<LeaderId, Leader>, l: LeaderId, t: int)
    requires Reachable(w, State(map[], [], leaders, None, None)) && l !in leaders
    ensures Reachable(w, State(map[], [], leaders[l := Early(t)], None, None))
  {
    hide Reachable;
    var s0 := State(map[], [], leaders, None, None);
    var s1 := s0.(leaders := leaders[l := Leader(None, None, true, false)]);
    Then(w, s0, Start(l), s1);
    var s2 := s0.(leaders := leaders[l := Leader(None, Some(Tick(t, t, 0, true, [], None, false)), true, false)]);
    assert SetTick(s1, l, Tick(t, t, 0, true, [], None, false)) == s2;
    Then(w, s1, BeginTick(l, t), s2);
    var s3 := s0.(leaders := leaders[l := Leader(None, Some(Tick(t, t, 0, false, [], None, false)), true, false)]);
    assert SetTick(s2, l, Tick(t, t, 0, false, [], None, false)) == s3;
    assert IsPage(map[], 0, []);
    Then(w, s2, LoadPage(l, []), s3);
    var s4 := s0.(leaders := leaders[l := Early(t)]);
    assert s3.leaders[l := Early(t)] == s4.leaders;
    Then(w, s3, EndTick(l), s4);
  }

  /** The window that leader l opens at time `now`. */
  function Window(w: World, s: State, l: LeaderId, now: int): int
    requires l in s.leaders
  {
    WindowStart(w.cfg, w.job.created, s.leaders[l].lastTick, now, Looked(Newest(s.log, w.job.id)))
  }

  /** The state once leader l, at time `now`, has opened the window of the only job. */
  function Opened(w: World, s: State, l: LeaderId, now: int): State
    requires w.job.schedule.Some? && l in s.leaders
  {
    var leader, ws := s.leaders[l], Window(w, s, l, now);
    var scan := Some((w.job, Begin(w.job.schedule.value, ws, now)));
    s.(leaders := s.leaders[l := leader.(tick := Some(Tick(now, now, 0, false, [], scan, true)), met := true)],
       anchor := if !leader.met && leader.lastTick.Some? then Some(Raise(s.anchor, leader.lastTick.value))
                 else s.anchor,
       first := if s.first.None? then Some(ws) else s.first)
  }

  lemma Opens(w: World, s: State, l: LeaderId, now: int)
    requires w.Valid() && Reachable(w, s) && s.jobs == Table(w) && l in s.leaders && s.leaders[l].tick.None?
    ensures Reachable(w, Opened(w, s, l, now))
  {
    hide Reachable, IsPage, Newest, Schedule.Valid, WindowStart;
    var leader := s.leaders[l];
    var s1 := SetTick(s, l, Tick(now, now, 0, true, [], None, false));
    Then(w, s, BeginTick(l, now), s1);
    OneJobPage(w);
    var s2 := SetTick(s1, l, Tick(now, now, 0, false, [w.job], None, false));
    Then(w, s1, LoadPage(l, [w.job]), s2);
    assert [w.job][1..] == [];
    assert s2.leaders[l := leader] == s.leaders;
    assert BeginJobIn(w, s2, l, false) == Opened(w, s, l, now);
    Then(w, s2, BeginJob(l, false), Opened(w, s, l, now));
  }

  /** It crashes before the first insert. */
  lemma OpensAndCrashes(w: World, s: State, l: LeaderId, now: int)
    requires w.Valid() && Reachable(w, s) && s.jobs == Table(w) && l in s.leaders && s.leaders[l].tick.None?
    ensures Reachable(w, Opened(w, s, l, now).(leaders := s.leaders - {l}))
  {
    hide Reachable, Newest, Schedule.Valid, WindowStart;
    Opens(w, s, l, now);
    var s1 := Opened(w, s, l, now);
    assert s1.leaders - {l} == s.leaders - {l};
    Then(w, s1, Crash(l), s1.(leaders := s.leaders - {l}));
  }

  /** It inserts the first slot of its window, and that is all there is. */
  lemma OpensAndInserts(w: World, s: State, l: LeaderId) returns (s': State)
    requires w.Valid() && Reachable(w, s) && s.jobs == Table(w) && l in s.leaders && s.leaders[l].tick.None?
    requires s.log == []
    requires var from := if s.leaders[l].lastTick.Some? then s.leaders[l].lastTick.value else w.job.created.value;
             Window(w, s, l, w.job.schedule.value.next(from)) == from
    ensures var from := if s.leaders[l].lastTick.Some? then s.leaders[l].lastTick.value else w.job.created.value;
            var now := w.job.schedule.value.next(from);
            && Reachable(w, s') && s'.log == [Exec(w.job.id, now, Scheduled)]
            && s'.anchor == Opened(w, s, l, now).anchor && s'.first == Opened(w, s, l, now).first
  {
    hide Reachable, Newest, WindowStart, TruncateMinute, Schedule.Valid;
    var from := if s.leaders[l].lastTick.Some? then s.leaders[l].lastTick.value else w.job.created.value;
    var now := w.job.schedule.value.next(from);
    w.job.schedule.value.NextIsLeastDue(from);
    Opens(w, s, l, now);
    var s1 := Opened(w, s, l, now);
    s' := Apply(w, s1, Fire(l, true));
    Then(w, s1, Fire(l, true), s');
    assert s'.log == [Exec(w.job.id, now, Scheduled)];
  }

  /** The early leaders there are when the job appears: 1 with watermark b, and 0 with watermark f. */
  function EarlyLeaders(f: int, b: Option<int>): map<LeaderId, Leader> {
    if b.None? then map[]
    else if f <= b.value then map[1 := Early(b.value), 0 := Early(f)]
    else map[1 := Early(b.value)]
  }

  lemma JobAppears(w: World, f: int, b: Option<int>)
    requires w.Valid()
    ensures Reachable(w, State(Table(w), [], EarlyLeaders(f, b), None, None))
  {
    assert Leads(w, INIT, [], INIT);
    hide Reachable;
    if b.Some? {
      StartsEarly(w, map[], 1, b.value);
      if f <= b.value {
        StartsEarly(w, map[1 := Early(b.value)], 0, f);
      }
    }
    var s := State(map[], [], EarlyLeaders(f, b), None, None);
    Then(w, s, ChangeJobs(Table(w)), s.(jobs := Table(w)));
  }

  /** Leader 0 opens the first window at f and crashes before it inserts anything. */
  lemma FirstWindowAt(w: World, f: int, b: Option<int>) returns (s: State)
    requires w.Valid() && Possible(w, f, b)
    ensures Reachable(w, s) && s.jobs == Table(w) && s.log == [] && s.first == Some(f)
    ensures s.leaders == if b.Some? then map[1 := Early(b.value)] else map[]
    ensures s.anchor.Some? ==> b.Some? && s.anchor.value <= b.value
  {
    hide Reachable, Schedule.Valid;
    JobAppears(w, f, b);
    var c := w.job.created.value;
    var s0 := State(Table(w), [], EarlyLeaders(f, b), None, None);
    var now := f;
    if !(b.Some? && f <= b.value) {
      var s1 := s0.(leaders := s0.leaders[0 := NEW]);
      Then(w, s0, Start(0), s1);
      s0 := s1;
      now := if f == c then c else f + w.cfg.Interval();
    }
    assert Window(w, s0, 0, now) == f;
    OpensAndCrashes(w, s0, 0, now);
    s := Opened(w, s0, 0, now).(leaders := s0.leaders - {0});
    assert s.leaders == if b.Some? then map[1 := Early(b.value)] else map[];
  }

  /** Leader 1, whose watermark is past the creation time, goes on from there. */
  lemma SecondLeaderSkips(w: World, s: State, b: int) returns (s': State)
    requires w.Valid() && Reachable(w, s) && s.jobs == Table(w) && s.log == [] && s.leaders == map[1 := Early(b)]
    requires s.first.Some? && (s.anchor.Some? ==> s.anchor.value <= b)
    ensures Reachable(w, s') && s'.first == s.first && s'.anchor == Some(b)
    ensures s'.log == [Exec(w.job.id, w.job.schedule.value.next(b), Scheduled)]
  {
    hide Reachable, Schedule.Valid;
    s' := OpensAndInserts(w, s, 1);
  }

  /** Otherwise all early leaders are gone, and a new one goes on from the creation time. */
  lemma SuccessorSkips(w: World, s: State, b: Option<int>) returns (s': State)
    requires w.Valid() && Reachable(w, s) && s.jobs == Table(w) && s.log == []
    requires s.leaders == if b.Some? then map[1 := Early(b.value)] else map[]
    requires s.first.Some? && (s.anchor.Some? ==> b.Some? && s.anchor.value <= b.value)
    ensures Reachable(w, s') && s'.first == s.first && s'.anchor == b
    ensures s'.log == [Exec(w.job.id, w.job.schedule.value.next(w.job.created.value), Scheduled)]
  {
    hide Reachable, Schedule.Valid;
    var s0 := s;
    if b.Some? {
      OpensAndCrashes(w, s, 1, b.value);
      s0 := Opened(w, s, 1, b.value).(leaders := s.leaders - {1});
      assert s0.leaders == map[];
    }
    var s1 := s0.(leaders := map[0 := NEW]);
    Then(w, s0, Start(0), s1);
    w.job.schedule.value.NextIsLeastDue(w.job.created.value);
    s' := OpensAndInserts(w, s1, 0);
  }

  /** With first window f and anchor b, some run has no row but the first slot that is owed. */
  lemma Skips(w: World, f: int, b: Option<int>) returns (s: State)
    requires w.Valid() && Possible(w, f, b)
    ensures Reachable(w, s) && s.first == Some(f) && s.anchor == b
    ensures s.log == [Exec(w.job.id, w.job.schedule.value.next(From(w, b)), Scheduled)]
  {
    hide Reachable, Schedule.Valid;
    var s0 := FirstWindowAt(w, f, b);
    if b.Some? && b.value >= w.job.created.value {
      s := SecondLeaderSkips(w, s0, b.value);
    } else {
      s := SuccessorSkips(w, s0, b);
    }
  }

  /** Exactly these first windows and anchors occur. */
  lemma FirstWindowsAreExact(w: World, f: int, b: Option<int>)
    requires w.Valid()
    ensures (exists s :: Reachable(w, s) && s.first == Some(f) && s.anchor == b) <==> Possible(w, f, b)
  {
    hide Possible;
    if Possible(w, f, b) {
      var s := Skips(w, f, b);
    }
    forall s | Reachable(w, s) && s.first == Some(f) && s.anchor == b ensures Possible(w, f, b) {
      var evs :| Leads(w, INIT, evs, s);
      InitOk(w);
      FirstRun(w, INIT, evs);
    }
  }

  // ---------- when counting from the first window is enough ----------

  /** Slot d has a row if it is not after the newest row, or not after some watermark that covers the job. */
  ghost predicate Present(w: World, s: State, d: int) {
    && (Newest(s.log, w.job.id).Some? && d <= Newest(s.log, w.job.id).value ==> Has(s.log, w.job.id, d))
    && (forall l | l in s.leaders && s.leaders[l].met && s.leaders[l].lastTick.Some? ::
          d <= s.leaders[l].lastTick.value ==> Has(s.log, w.job.id, d))
  }

  /** In every run whose first window started at f and whose anchor is b, no slot after f is missing. */
  ghost predicate GapFreeFrom(w: World, f: int, b: Option<int>)
    requires w.Valid()
  {
    forall s, d | Reachable(w, s) && s.first == Some(f) && s.anchor == b && w.job.schedule.value.Due(d) && f < d ::
      Present(w, s, d)
  }

  ghost predicate NothingDue(w: World, after: int, upTo: int)
    requires w.Valid()
  {
    forall d :: after < d <= upTo ==> !w.job.schedule.value.Due(d)
  }

  /**
   For every first window that occurs: no slot after it is missing in any run, exactly when the job
   has no due minute between it and the later of the creation time and the anchor.
   */
  lemma GapFreeFromFirstWindowIff(w: World, f: int, b: Option<int>)
    requires w.Valid()
    ensures GapFreeFrom(w, f, b) <==> (Possible(w, f, b) ==> NothingDue(w, f, From(w, b)))
  {
    hide Possible;
    if !Possible(w, f, b) {
      FirstWindowsAreExact(w, f, b);
    } else if NothingDue(w, f, From(w, b)) {
      NothingSkipped(w, f, b);
    } else {
      var d :| f < d <= From(w, b) && w.job.schedule.value.Due(d);
      SkippedSlot(w, f, b, d);
    }
  }

  /** Each due minute in between is missing in some run, below the newest row. */
  lemma SkippedSlot(w: World, f: int, b: Option<int>, d: int)
    requires w.Valid() && Possible(w, f, b) && f < d <= From(w, b) && w.job.schedule.value.Due(d)
    ensures exists s :: Reachable(w, s) && s.first == Some(f) && s.anchor == b && !Present(w, s, d)
  {
    hide Reachable, Possible, Schedule.Valid;
    var s := Skips(w, f, b);
    w.job.schedule.value.NextIsLeastDue(From(w, b));
    assert s.log[..0] == [] && Newest(s.log, w.job.id) == Some(s.log[0].at);
    assert !Has(s.log, w.job.id, d);
  }

  lemma NothingSkipped(w: World, f: int, b: Option<int>)
    requires w.Valid() && NothingDue(w, f, From(w, b))
    ensures GapFreeFrom(w, f, b)
  {
    hide Has, Newest, Schedule.Valid;
    forall s, d | Reachable(w, s) && s.first == Some(f) && s.anchor == b && w.job.schedule.value.Due(d) && f < d
      ensures Present(w, s, d)
    {
      var evs :| Leads(w, INIT, evs, s);
      NoGaps(w, evs, d);
    }
  }

  // ---------- a concrete job ----------

  const EVERY_MINUTE: Schedule := Schedule(t => TruncateMinute(t) + MINUTE)

  /** A job created at minute 20 that runs every minute. */
  const WORLD: World := World(Config(MINUTE, 1), Job(1, Some(20 * MINUTE), Some(EVERY_MINUTE)))

  lemma TruncateBetween(k: int, t: int)
    requires k * MINUTE <= t < k * MINUTE + MINUTE
    ensures TruncateMinute(t) == k * MINUTE
  {
    assert t / MINUTE == k;
  }

  lemma TruncateQuotient(t: int)
    ensures TruncateMinute(t) == t / MINUTE * MINUTE
  {
  }

  lemma EveryMinuteIsDue(k: int)
    ensures EVERY_MINUTE.Due(k * MINUTE)
  {
    hide TruncateMinute;
    TruncateBetween(k - 1, k * MINUTE - 1);
  }

  lemma EveryMinute()
    ensures EVERY_MINUTE.Valid()
  {
    hide TruncateMinute;
    forall t ensures EVERY_MINUTE.next(t) > t && TruncateMinute(EVERY_MINUTE.next(t)) == EVERY_MINUTE.next(t) {
      TruncateQuotient(t);
      TruncateBetween(t / MINUTE + 1, EVERY_MINUTE.next(t));
    }
    forall t, u | t <= u < EVERY_MINUTE.next(t) ensures EVERY_MINUTE.next(u) == EVERY_MINUTE.next(t) {
      TruncateQuotient(t);
      TruncateBetween(t / MINUTE, u);
    }
  }

  /**
   Slots are lost with an early leader at minute 10, with two early leaders on either side of the
   creation, and with a leader whose clock is more than an interval behind it.
   */
  lemma SlotsCanBeSkipped()
    ensures WORLD.Valid()
    ensures !GapFreeFrom(WORLD, 10 * MINUTE, Some(10 * MINUTE))
    ensures !GapFreeFrom(WORLD, 20 * MINUTE, Some(30 * MINUTE))
    ensures !GapFreeFrom(WORLD, 15 * MINUTE, None)
  {
    hide Schedule.Valid, Schedule.Due;
    EveryMinute();
    EveryMinuteIsDue(12);
    EveryMinuteIsDue(18);
    EveryMinuteIsDue(25);
    SkippedSlot(WORLD, 10 * MINUTE, Some(10 * MINUTE), 12 * MINUTE);
    SkippedSlot(WORLD, 20 * MINUTE, Some(30 * MINUTE), 25 * MINUTE);
    SkippedSlot(WORLD, 15 * MINUTE, None, 18 * MINUTE);
  }
}
