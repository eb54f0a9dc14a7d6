/**
 Schedulers as a step system: any number of leaders, current and stale, each inside its own tick,
 over one jobs table and one executions table.  A leader may crash between any two steps, also
 between two inserts of one job, and a new one starts with no watermark.

 The theorem follows one job.  It stays enabled once it is, its creation time is known, its schedule
 parses, and each of its inserts succeeds or is a duplicate; the other jobs are arbitrary.
 */
module GapFree {
  import opened Common
  import opened Cron
  import opened Executions
  import opened Scheduler

  type LeaderId = nat

  datatype World = World(cfg: Config, job: Job) {
    ghost predicate Valid() {
      job.Valid() && job.schedule.Some? && job.created.Some?
    }
  }

  /** A tick in progress.  `visited`: the followed job has had its turn in this tick. */
  datatype Tick = Tick(
    now: int,
    nextLast: int,
    after: JobId,
    more: bool,
    queue: seq<Job>,
    scan: Option<(Job, Scan)>,
    visited: bool)

  /** `late`: started before the followed job appeared.  `met`: has visited the followed job. */
  datatype Leader = Leader(lastTick: Option<int>, tick: Option<Tick>, late: bool, met: bool)

  /**
   `anchor`: the highest watermark with which a leader met the followed job for the first time.
   `first`: where the very first window of the followed job started, whoever opened it.
   */
  datatype State = State(
    jobs: map<JobId, Job>,
    log: Log,
    leaders: map<LeaderId, Leader>,
    anchor: Option<int>,
    first: Option<int>)

  datatype Event =
    | ChangeJobs(jobs: map<JobId, Job>)
    | TriggerManually(exec: Exec)
    | Start(leader: LeaderId)
    | Crash(leader: LeaderId)
    | BeginTick(leader: LeaderId, now: int)
    | LoadPage(leader: LeaderId, page: seq<Job>)
    | FailPage(leader: LeaderId)
    | BeginJob(leader: LeaderId, lookupFails: bool)
    | Fire(leader: LeaderId, ok: bool)
    | EndJob(leader: LeaderId)
    | EndTick(leader: LeaderId)

  const INIT: State := State(map[], [], map[], None, None)

  predicate Ticking(s: State, l: LeaderId) {
    l in s.leaders && s.leaders[l].tick.Some?
  }

  predicate Scanning(s: State, l: LeaderId) {
    Ticking(s, l) && s.leaders[l].tick.value.scan.Some? && s.leaders[l].tick.value.scan.value.0.schedule.Some?
  }

  predicate BetweenJobs(s: State, l: LeaderId) {
    Ticking(s, l) && s.leaders[l].tick.value.scan.None?
  }

  ghost predicate Enabled(w: World, s: State, ev: Event) {
    match ev
    case ChangeJobs(jobs) =>
      && (w.job.id in s.jobs ==> w.job.id in jobs) && (w.job.id in jobs ==> jobs[w.job.id] == w.job)
    case TriggerManually(e) => e.trigger == Manual
    case Start(l) => l !in s.leaders
    case Crash(l) => l in s.leaders
    case BeginTick(l, _) => l in s.leaders && s.leaders[l].tick.None?
    case LoadPage(l, page) =>
      BetweenJobs(s, l) && var tk := s.leaders[l].tick.value;
      tk.more && tk.queue == [] && IsPage(s.jobs, tk.after, page)
    case FailPage(l) => BetweenJobs(s, l)
    case BeginJob(l, _) => BetweenJobs(s, l) && s.leaders[l].tick.value.queue != []
    case Fire(l, ok) =>
      Scanning(s, l) && var tk := s.leaders[l].tick.value;
      tk.scan.value.1.Going(w.cfg.Cap(), tk.now) && (tk.scan.value.0.id == w.job.id ==> ok)
    case EndJob(l) =>
      Scanning(s, l) && var tk := s.leaders[l].tick.value; !tk.scan.value.1.Going(w.cfg.Cap(), tk.now)
    case EndTick(l) =>
      BetweenJobs(s, l) && var tk := s.leaders[l].tick.value; !tk.more && tk.queue == []
  }

  function SetTick(s: State, l: LeaderId, tk: Tick): State
    requires l in s.leaders
  {
    s.(leaders := s.leaders[l := s.leaders[l].(tick := Some(tk))])
  }

  function Raise(anchor: Option<int>, t: int): int {
    if anchor.Some? then Max(anchor.value, t) else t
  }

  function BeginJobIn(w: World, s: State, l: LeaderId, lookupFails: bool): State
    requires BetweenJobs(s, l) && s.leaders[l].tick.value.queue != []
  {
    var leader := s.leaders[l];
    var tk := leader.tick.value;
    var job, rest := tk.queue[0], tk.queue[1..];
    if job.schedule.None? then SetTick(s, l, tk.(queue := rest))
    else
      var lookup := if lookupFails then LookupFailed else Looked(Newest(s.log, job.id));
      var ws := WindowStart(w.cfg, job.created, leader.lastTick, tk.now, lookup);
      var scan := Some((job, Begin(job.schedule.value, ws, tk.now)));
      var mine := job.id == w.job.id;
      var tk' := tk.(queue := rest, scan := scan, visited := tk.visited || mine);
      var anchor' := if mine && !leader.met && leader.lastTick.Some?
                     then Some(Raise(s.anchor, leader.lastTick.value))
                     else s.anchor;
      var first' := if mine && s.first.None? then Some(ws) else s.first;
      s.(leaders := s.leaders[l := leader.(tick := Some(tk'), met := leader.met || mine)],
         anchor := anchor',
         first := first')
  }

  ghost function Apply(w: World, s: State, ev: Event): State
    requires Enabled(w, s, ev)
  {
    match ev
    case ChangeJobs(jobs) => s.(jobs := jobs)
    case TriggerManually(e) => s.(log := Insert(s.log, e))
    case Start(l) => s.(leaders := s.leaders[l := Leader(None, None, w.job.id !in s.jobs, false)])
    case Crash(l) => s.(leaders := s.leaders - {l})
    case BeginTick(l, now) => SetTick(s, l, Tick(now, now, 0, true, [], None, false))
    case LoadPage(l, page) =>
      var tk, full := s.leaders[l].tick.value, |page| == PAGE;
      SetTick(s, l, tk.(queue := page, more := full, after := if full then page[PAGE - 1].id else tk.after))
    case FailPage(l) => s.(leaders := s.leaders[l := s.leaders[l].(tick := None)])
    case BeginJob(l, lookupFails) => BeginJobIn(w, s, l, lookupFails)
    case Fire(l, ok) =>
      var tk := s.leaders[l].tick.value;
      var (job, sc) := tk.scan.value;
      var s' := SetTick(s, l, tk.(scan := Some((job, sc.Step(job.schedule.value)))));
      if ok then s'.(log := Insert(s.log, Exec(job.id, TruncateMinute(sc.t), Scheduled))) else s'
    case EndJob(l) =>
      var tk := s.leaders[l].tick.value;
      var sc := tk.scan.value.1;
      SetTick(s, l, tk.(scan := None, nextLast := Lower(tk.nextLast, JobResult(0, sc.t <= tk.now, Some(sc.cursor)))))
    case EndTick(l) =>
      s.(leaders := s.leaders[l := s.leaders[l].(tick := None, lastTick := Some(s.leaders[l].tick.value.nextLast))])
  }

  ghost predicate ValidRun(w: World, s: State, evs: seq<Event>)
    decreases |evs|
  {
    evs == [] || (Enabled(w, s, evs[0]) && ValidRun(w, Apply(w, s, evs[0]), evs[1..]))
  }

  ghost function Final(w: World, s: State, evs: seq<Event>): State
    requires ValidRun(w, s, evs)
    decreases |evs|
  {
    if evs == [] then s else Final(w, Apply(w, s, evs[0]), evs[1..])
  }

  ghost predicate Leads(w: World, s: State, evs: seq<Event>, s': State) {
    ValidRun(w, s, evs) && Final(w, s, evs) == s'
  }

  ghost predicate Reachable(w: World, s: State) {
    exists evs :: Leads(w, INIT, evs, s)
  }

  lemma OneStep(w: World, s: State, ev: Event)
    requires Enabled(w, s, ev)
    ensures Leads(w, s, [ev], Apply(w, s, ev))
  {
    hide Enabled, Apply;
    var s' := Apply(w, s, ev);
    assert [ev][1..] == [] && ValidRun(w, s', []) && Final(w, s', []) == s';
  }

  lemma {:induction false} Chain(w: World, s: State, a: seq<Event>, s1: State, b: seq<Event>, s2: State)
    requires Leads(w, s, a, s1) && Leads(w, s1, b, s2)
    ensures Leads(w, s, a + b, s2)
    decreases |a|
  {
    hide Enabled, Apply;
    if a == [] {
      assert a + b == b;
    } else {
      Chain(w, Apply(w, s, a[0]), a[1..], s1, b, s2);
      assert (a + b)[0] == a[0] && (a + b)[1..] == a[1..] + b;
    }
  }

  lemma Then(w: World, s: State, ev: Event, s': State)
    requires Reachable(w, s) && Enabled(w, s, ev) && Apply(w, s, ev) == s'
    ensures Reachable(w, s')
  {
    hide Enabled, Apply, Leads;
    var evs :| Leads(w, INIT, evs, s);
    OneStep(w, s, ev);
    Chain(w, INIT, evs, s, [ev], s');
  }

  // ---------- the invariant ----------

  /** Where slots are owed from: the job's creation, or the anchor if that is later. */
  function From(w: World, anchor: Option<int>): int
    requires w.job.created.Some?
  {
    if anchor.Some? then Max(w.job.created.value, anchor.value) else w.job.created.value
  }

  function Base(w: World, s: State): int
    requires w.job.created.Some?
  {
    From(w, s.anchor)
  }

  /** Every due minute of the followed job after the base and up to `x` has a row. */
  ghost predicate Covered(w: World, s: State, x: int)
    requires w.Valid()
  {
    forall d :: Base(w, s) < d <= x && w.job.schedule.value.Due(d) ==> Has(s.log, w.job.id, d)
  }

  predicate Mine(w: World, scan: Option<(Job, Scan)>) {
    scan.Some? && scan.value.0.id == w.job.id
  }

  ghost predicate ScanOk(w: World, s: State, scan: Option<(Job, Scan)>)
    requires w.Valid()
  {
    && (scan.Some? ==> scan.value.0.schedule.Some?)
    && (Mine(w, scan) ==>
          var (job, sc) := scan.value;
          && job == w.job
          && TruncateMinute(sc.t) == sc.t
          && Covered(w, s, sc.t - 1)
          && (sc.count > 0 ==> sc.cursor < sc.t))
  }

  ghost predicate TickOk(w: World, s: State, leader: Leader, tk: Tick)
    requires w.Valid()
  {
    && tk.nextLast <= tk.now
    && (forall i :: 0 <= i < |tk.queue| && tk.queue[i].id == w.job.id ==> tk.queue[i] == w.job && w.job.id in s.jobs)
    && (tk.visited ==> leader.met) && (Mine(w, tk.scan) ==> tk.visited)
    && (leader.met || !leader.late ==> tk.visited || Visits(tk.queue, w.job.id) || (tk.more && tk.after < w.job.id))
    && ScanOk(w, s, tk.scan)
    && (tk.visited && !Mine(w, tk.scan) ==> Covered(w, s, tk.nextLast))
  }

  ghost predicate LeaderOk(w: World, s: State, leader: Leader)
    requires w.Valid()
  {
    && (leader.met || !leader.late ==> w.job.id in s.jobs)
    && (!leader.late && leader.lastTick.Some? ==> leader.met)
    && (leader.met && leader.lastTick.Some? ==> Covered(w, s, leader.lastTick.value))
    && (leader.tick.Some? ==> TickOk(w, s, leader, leader.tick.value))
  }

  ghost predicate RowsCovered(w: World, s: State)
    requires w.Valid()
  {
    forall i :: 0 <= i < |s.log| && s.log[i].job == w.job.id && s.log[i].trigger == Scheduled ==>
      Covered(w, s, s.log[i].at)
  }

  ghost predicate Inv(w: World, s: State)
    requires w.Valid()
  {
    && UniqueKeys(s.log)
    && (w.job.id in s.jobs ==> s.jobs[w.job.id] == w.job)
    && RowsCovered(w, s)
    && (forall l :: l in s.leaders ==> LeaderOk(w, s, s.leaders[l]))
  }

  // ---------- steps ----------

  /** Rows are never removed and the base never moves down. */
  ghost predicate Grows(w: World, s: State, s': State)
    requires w.Valid()
  {
    && (forall d :: Has(s.log, w.job.id, d) ==> Has(s'.log, w.job.id, d))
    && Base(w, s) <= Base(w, s')
    && (w.job.id in s.jobs ==> w.job.id in s'.jobs)
  }

  lemma CoveredGrows(w: World, s: State, s': State, x: int)
    requires w.Valid() && Grows(w, s, s') && Covered(w, s, x)
    ensures Covered(w, s', x)
  {
    hide Has, Base;
  }

  lemma LeaderGrows(w: World, s: State, s': State, leader: Leader)
    requires w.Valid() && Grows(w, s, s') && LeaderOk(w, s, leader)
    ensures LeaderOk(w, s', leader)
  {
    hide Covered;
    if leader.lastTick.Some? && leader.met { CoveredGrows(w, s, s', leader.lastTick.value); }
    if leader.tick.Some? {
      var tk := leader.tick.value;
      if Mine(w, tk.scan) { CoveredGrows(w, s, s', tk.scan.value.1.t - 1); }
      if tk.visited && !Mine(w, tk.scan) { CoveredGrows(w, s, s', tk.nextLast); }
    }
  }

  lemma StepGrows(w: World, s: State, ev: Event)
    requires w.Valid() && Enabled(w, s, ev)
    ensures Grows(w, s, Apply(w, s, ev))
  {
    hide Has;
    match ev
    case TriggerManually(e) => InsertKeeps(s.log, e);
    case Fire(l, ok) =>
      var (job, sc) := s.leaders[l].tick.value.scan.value;
      InsertKeeps(s.log, Exec(job.id, TruncateMinute(sc.t), Scheduled));
    case _ =>
  }

  /** Nothing is due between a time and the next due time. */
  lemma CoveredToNext(w: World, s: State, x: int)
    requires w.Valid() && Covered(w, s, x)
    ensures Covered(w, s, w.job.schedule.value.next(x) - 1)
  {
    hide Has, Base, Schedule.Valid;
    w.job.schedule.value.NextIsLeastDue(x);
  }

  lemma RowsStayCovered(w: World, s: State, s': State)
    requires w.Valid() && Grows(w, s, s') && RowsCovered(w, s) && s.log == s'.log
    ensures RowsCovered(w, s')
  {
    hide Has, Base, Covered;
    forall i | 0 <= i < |s.log| && s.log[i].job == w.job.id && s.log[i].trigger == Scheduled
      ensures Covered(w, s', s.log[i].at)
    {
      CoveredGrows(w, s, s', s.log[i].at);
    }
  }

  /** Wherever a leader starts scanning the followed job, everything owed before that is there. */
  lemma WindowCoveredIn(w: World, s: State, leader: Leader, now: int, lookupFails: bool)
    requires w.Valid() && RowsCovered(w, s) && (leader.lastTick.Some? ==> Covered(w, s, leader.lastTick.value))
    ensures var lookup := if lookupFails then LookupFailed else Looked(Newest(s.log, w.job.id));
            Covered(w, s, WindowStart(w.cfg, w.job.created, leader.lastTick, now, lookup))
  {
    hide Has, Newest, Schedule.Valid;
    NewestIsGreatest(s.log, w.job.id);
  }

  lemma BeginJobOk(w: World, s: State, l: LeaderId, lookupFails: bool)
    requires w.Valid() && Inv(w, s) && Enabled(w, s, BeginJob(l, lookupFails))
    ensures LeaderOk(w, Apply(w, s, BeginJob(l, lookupFails)), Apply(w, s, BeginJob(l, lookupFails)).leaders[l])
  {
    hide Covered, Has, RowsCovered, UniqueKeys, Base, Visits;
    var s' := Apply(w, s, BeginJob(l, lookupFails));
    var leader := s.leaders[l];
    var tk := leader.tick.value;
    var job := tk.queue[0];
    assert LeaderOk(w, s, leader) && TickOk(w, s, leader, tk);
    StepGrows(w, s, BeginJob(l, lookupFails));
    LeaderGrows(w, s, s', leader);
    if job.id == w.job.id {
      BeginMineOk(w, s, l, lookupFails);
    } else {
      QueueTail(tk.queue, w.job.id);
    }
  }

  lemma QueueTail(queue: seq<Job>, id: JobId)
    requires queue != [] && queue[0].id != id
    ensures Visits(queue, id) ==> Visits(queue[1..], id)
  {
    if Visits(queue, id) {
      var i :| 0 <= i < |queue| && queue[i].id == id;
      assert queue[1..][i - 1].id == id;
    }
  }

  lemma BeginMineOk(w: World, s: State, l: LeaderId, lookupFails: bool)
    requires w.Valid() && Inv(w, s) && Enabled(w, s, BeginJob(l, lookupFails))
    requires s.leaders[l].tick.value.queue[0].id == w.job.id
    ensures LeaderOk(w, Apply(w, s, BeginJob(l, lookupFails)), Apply(w, s, BeginJob(l, lookupFails)).leaders[l])
  {
    hide Has, Schedule.Valid, UniqueKeys;
    var ev := BeginJob(l, lookupFails);
    var s' := Apply(w, s, ev);
    var leader := s.leaders[l];
    var tk := leader.tick.value;
    assert LeaderOk(w, s, leader) && TickOk(w, s, leader, tk) && tk.queue[0] == w.job;
    StepGrows(w, s, ev);
    if leader.lastTick.Some? && leader.met { CoveredGrows(w, s, s', leader.lastTick.value); }
    assert leader.lastTick.Some? ==> Covered(w, s', leader.lastTick.value);
    RowsStayCovered(w, s, s');
    WindowCoveredIn(w, s', leader, tk.now, lookupFails);
    var lookup := if lookupFails then LookupFailed else Looked(Newest(s.log, w.job.id));
    var ws := WindowStart(w.cfg, w.job.created, leader.lastTick, tk.now, lookup);
    CoveredToNext(w, s', ws);
    w.job.schedule.value.NextIsLeastDue(ws);
  }

  /** Emitting the next slot of the followed job extends what is covered by that slot. */
  lemma FireCovers(w: World, s: State, s': State, t: int)
    requires w.Valid() && Grows(w, s, s') && Covered(w, s, t - 1) && Has(s'.log, w.job.id, t)
    ensures Covered(w, s', t)
  {
    hide Has, Schedule.Valid;
    CoveredGrows(w, s, s', t - 1);
  }

  lemma FireOk(w: World, s: State, l: LeaderId, ok: bool)
    requires w.Valid() && Inv(w, s) && Enabled(w, s, Fire(l, ok))
    ensures LeaderOk(w, Apply(w, s, Fire(l, ok)), Apply(w, s, Fire(l, ok)).leaders[l])
  {
    hide Has, Schedule.Valid, UniqueKeys, Base, RowsCovered;
    var ev := Fire(l, ok);
    var s' := Apply(w, s, ev);
    var leader := s.leaders[l];
    var tk := leader.tick.value;
    var (job, sc) := tk.scan.value;
    assert LeaderOk(w, s, leader) && TickOk(w, s, leader, tk);
    StepGrows(w, s, ev);
    LeaderGrows(w, s, s', leader);
    if Mine(w, tk.scan) {
      InsertKeeps(s.log, Exec(job.id, TruncateMinute(sc.t), Scheduled));
      FireCovers(w, s, s', sc.t);
      CoveredToNext(w, s', sc.t);
      w.job.schedule.value.NextIsLeastDue(sc.t);
    }
  }

  lemma EndJobOk(w: World, s: State, l: LeaderId)
    requires w.Valid() && Inv(w, s) && Enabled(w, s, EndJob(l))
    ensures LeaderOk(w, Apply(w, s, EndJob(l)), Apply(w, s, EndJob(l)).leaders[l])
  {
    hide Has, Schedule.Valid, UniqueKeys, RowsCovered, Visits;
    var s' := Apply(w, s, EndJob(l));
    var leader := s.leaders[l];
    var tk := leader.tick.value;
    assert LeaderOk(w, s, leader) && TickOk(w, s, leader, tk);
    StepGrows(w, s, EndJob(l));
    LeaderGrows(w, s, s', leader);
    if Mine(w, tk.scan) {
      CoveredGrows(w, s, s', tk.scan.value.1.t - 1);
    }
  }

  lemma LoadPageOk(w: World, s: State, l: LeaderId, page: seq<Job>)
    requires w.Valid() && Inv(w, s) && Enabled(w, s, LoadPage(l, page))
    ensures LeaderOk(w, Apply(w, s, LoadPage(l, page)), Apply(w, s, LoadPage(l, page)).leaders[l])
  {
    hide Has, Covered, UniqueKeys, RowsCovered, Base;
    var s' := Apply(w, s, LoadPage(l, page));
    var leader := s.leaders[l];
    assert LeaderOk(w, s, leader) && TickOk(w, s, leader, leader.tick.value);
    StepGrows(w, s, LoadPage(l, page));
    LeaderGrows(w, s, s', leader);
  }

  lemma OtherEventOk(w: World, s: State, ev: Event)
    requires w.Valid() && Inv(w, s) && Enabled(w, s, ev)
    requires ev.Start? || ev.BeginTick? || ev.FailPage? || ev.EndTick?
    ensures LeaderOk(w, Apply(w, s, ev), Apply(w, s, ev).leaders[ev.leader])
  {
    hide Has, Covered, UniqueKeys, RowsCovered, Base;
    var s' := Apply(w, s, ev);
    StepGrows(w, s, ev);
    if !ev.Start? {
      assert LeaderOk(w, s, s.leaders[ev.leader]);
      LeaderGrows(w, s, s', s.leaders[ev.leader]);
    }
  }

  /** A new scheduled row of the followed job extends the covered range by one slot. */
  lemma RowsStep(w: World, s: State, ev: Event)
    requires w.Valid() && Inv(w, s) && Enabled(w, s, ev)
    ensures RowsCovered(w, Apply(w, s, ev)) && UniqueKeys(Apply(w, s, ev).log)
  {
    hide Has, Schedule.Valid, UniqueKeys, LeaderOk, TickOk;
    var s' := Apply(w, s, ev);
    StepGrows(w, s, ev);
    if ev.TriggerManually? { InsertKeeps(s.log, ev.exec); }
    if ev.Fire? {
      var (job, sc) := s.leaders[ev.leader].tick.value.scan.value;
      InsertKeeps(s.log, Exec(job.id, TruncateMinute(sc.t), Scheduled));
    }
    forall i | 0 <= i < |s'.log| && s'.log[i].job == w.job.id && s'.log[i].trigger == Scheduled
      ensures Covered(w, s', s'.log[i].at)
    {
      if i < |s.log| {
        assert s'.log[i] == s.log[i];
        CoveredGrows(w, s, s', s.log[i].at);
      } else {
        assert ev.Fire?;
        NewRowCovered(w, s, ev.leader);
      }
    }
  }

  lemma NewRowCovered(w: World, s: State, l: LeaderId)
    requires w.Valid() && Inv(w, s) && Enabled(w, s, Fire(l, true))
    requires s.leaders[l].tick.value.scan.value.0.id == w.job.id
    ensures Covered(w, Apply(w, s, Fire(l, true)), TruncateMinute(s.leaders[l].tick.value.scan.value.1.t))
  {
    hide Has, Schedule.Valid, UniqueKeys, RowsCovered;
    var (job, sc) := s.leaders[l].tick.value.scan.value;
    assert LeaderOk(w, s, s.leaders[l]) && TickOk(w, s, s.leaders[l], s.leaders[l].tick.value);
    StepGrows(w, s, Fire(l, true));
    InsertKeeps(s.log, Exec(job.id, TruncateMinute(sc.t), Scheduled));
    FireCovers(w, s, Apply(w, s, Fire(l, true)), sc.t);
  }

  lemma InvStep(w: World, s: State, ev: Event)
    requires w.Valid() && Inv(w, s) && Enabled(w, s, ev)
    ensures Inv(w, Apply(w, s, ev))
  {
    hide LeaderOk, RowsCovered, UniqueKeys, IsPage;
    var s' := Apply(w, s, ev);
    RowsStep(w, s, ev);
    StepGrows(w, s, ev);
    forall l | l in s'.leaders ensures LeaderOk(w, s', s'.leaders[l]) {
      if l in s.leaders && s.leaders[l] == s'.leaders[l] {
        LeaderGrows(w, s, s', s.leaders[l]);
      } else if ev.LoadPage? {
        LoadPageOk(w, s, l, ev.page);
      } else if ev.BeginJob? {
        BeginJobOk(w, s, l, ev.lookupFails);
      } else if ev.Fire? {
        FireOk(w, s, l, ev.ok);
      } else if ev.EndJob? {
        EndJobOk(w, s, l);
      } else {
        OtherEventOk(w, s, ev);
      }
    }
  }

  lemma InitOk(w: World)
    requires w.Valid()
    ensures Inv(w, INIT)
  {
  }

  lemma {:induction false} InvRun(w: World, s: State, evs: seq<Event>)
    requires w.Valid() && Inv(w, s) && ValidRun(w, s, evs)
    ensures Inv(w, Final(w, s, evs))
    decreases |evs|
  {
    hide Inv, Apply, Enabled;
    if evs != [] {
      InvStep(w, s, evs[0]);
      InvRun(w, Apply(w, s, evs[0]), evs[1..]);
    }
  }

  /**
   After any run, with any number of leaders, crashes at any step, restarts and failed ticks: every
   due minute after the base and up to the newest scheduled row, and up to the watermark of every
   leader that has met the job, has exactly one row.
   */
  lemma NoGaps(w: World, evs: seq<Event>, d: int)
    requires w.Valid() && ValidRun(w, INIT, evs) && w.job.schedule.value.Due(d) && Base(w, Final(w, INIT, evs)) < d
    ensures var s := Final(w, INIT, evs);
            && UniqueKeys(s.log)
            && (Newest(s.log, w.job.id).Some? && d <= Newest(s.log, w.job.id).value ==> Has(s.log, w.job.id, d))
            && (forall l | l in s.leaders && s.leaders[l].met && s.leaders[l].lastTick.Some? ::
                  d <= s.leaders[l].lastTick.value ==> Has(s.log, w.job.id, d))
  {
    hide Has, UniqueKeys, Schedule.Valid, Newest;
    InitOk(w);
    InvRun(w, INIT, evs);
    var s := Final(w, INIT, evs);
    NewestIsGreatest(s.log, w.job.id);
    forall l | l in s.leaders && s.leaders[l].met && s.leaders[l].lastTick.Some? && d <= s.leaders[l].lastTick.value
      ensures Has(s.log, w.job.id, d)
    {
      assert LeaderOk(w, s, s.leaders[l]);
    }
  }

  /**
   The anchor moves only when a leader that was already running when the job appeared visits it for
   the first time: a leader started later has no watermark before it has met the job.
   */
  lemma OnlyEarlierLeadersAnchor(w: World, evs: seq<Event>, ev: Event)
    requires w.Valid() && ValidRun(w, INIT, evs) && Enabled(w, Final(w, INIT, evs), ev)
    ensures var s := Final(w, INIT, evs);
            Apply(w, s, ev).anchor != s.anchor ==>
              ev.BeginJob? && s.leaders[ev.leader].late && !s.leaders[ev.leader].met
  {
    InvRun(w, INIT, evs);
    var s := Final(w, INIT, evs);
    if ev.BeginJob? {
      assert LeaderOk(w, s, s.leaders[ev.leader]);
    }
  }
}
