/**
 A tick of the `Scheduler` class, seen as a run of the step system of `GapFree`: the events of one
 undisturbed tick leave the same table and the same watermark as `TickEffect`, which is what
 `Scheduler.ProcessTick` is proved to do.
 */
module TickRefinement {
  import opened Common
  import opened Cron
  import opened Executions
  import opened Scheduler
  import opened GapFree

  // ---------- one job ----------

  /** What is left of a scan: its remaining inserts and its part in the watermark. */
  function Scanned(w: World, s: State, l: LeaderId, ok: int -> bool): State
    requires Scanning(s, l)
  {
    var tk := s.leaders[l].tick.value;
    var (job, sc) := tk.scan.value;
    var schedule, cap := job.schedule.value, w.cfg.Cap();
    var end := Finish(schedule, sc, cap, tk.now);
    var tk' := tk.(scan := None, nextLast := Lower(tk.nextLast, JobResult(0, end.t <= tk.now, Some(end.cursor))));
    SetTick(s, l, tk').(log := InsertAll(s.log, Attempts(job.id, Slots(schedule, sc, cap, tk.now), ok)))
  }

  ghost predicate CanScan(w: World, s: State, l: LeaderId, ok: int -> bool) {
    Scanning(s, l) && (s.leaders[l].tick.value.scan.value.0.id == w.job.id ==> forall t :: ok(t))
  }

  lemma FireStep(w: World, s: State, l: LeaderId, ok: int -> bool)
    requires CanScan(w, s, l, ok)
    requires s.leaders[l].tick.value.scan.value.1.Going(w.cfg.Cap(), s.leaders[l].tick.value.now)
    ensures var ev := Fire(l, ok(TruncateMinute(s.leaders[l].tick.value.scan.value.1.t)));
            && Enabled(w, s, ev)
            && var s' := Apply(w, s, ev);
            && CanScan(w, s', l, ok)
            && s'.leaders[l].tick.value.scan.value.1.count == s.leaders[l].tick.value.scan.value.1.count + 1
            && Scanned(w, s', l, ok) == Scanned(w, s, l, ok)
  {
    hide Slots, Finish, Attempts, InsertAll, Insert, TruncateMinute;
    var tk := s.leaders[l].tick.value;
    var (job, sc) := tk.scan.value;
    var s' := Apply(w, s, Fire(l, ok(TruncateMinute(sc.t))));
    NextSlot(job.schedule.value, sc, w.cfg.Cap(), tk.now, job.id, ok, s.log);
    assert s'.leaders[l].tick.value == tk.(scan := Some((job, sc.Step(job.schedule.value))));
    assert s'.leaders[l := s.leaders[l]] == s.leaders;
    var a, b := Scanned(w, s', l, ok), Scanned(w, s, l, ok);
    assert a.log == b.log;
    assert a.leaders == b.leaders;
  }

  lemma LastStep(w: World, s: State, l: LeaderId, ok: int -> bool)
    requires CanScan(w, s, l, ok)
    requires !s.leaders[l].tick.value.scan.value.1.Going(w.cfg.Cap(), s.leaders[l].tick.value.now)
    ensures Enabled(w, s, EndJob(l)) && Apply(w, s, EndJob(l)) == Scanned(w, s, l, ok)
  {
  }

  /** The loop over due times: one Fire each, and the EndJob. */
  lemma {:induction false} ScanRuns(w: World, s: State, l: LeaderId, ok: int -> bool) returns (evs: seq<Event>)
    requires CanScan(w, s, l, ok)
    ensures Leads(w, s, evs, Scanned(w, s, l, ok))
    decreases w.cfg.Cap() - s.leaders[l].tick.value.scan.value.1.count
  {
    hide Leads, Scanned, Apply, Enabled;
    var tk := s.leaders[l].tick.value;
    var sc := tk.scan.value.1;
    if sc.Going(w.cfg.Cap(), tk.now) {
      FireStep(w, s, l, ok);
      var ev := Fire(l, ok(TruncateMinute(sc.t)));
      var s' := Apply(w, s, ev);
      OneStep(w, s, ev);
      var rest := ScanRuns(w, s', l, ok);
      Chain(w, s, [ev], s', rest, Scanned(w, s, l, ok));
      evs := [ev] + rest;
    } else {
      LastStep(w, s, l, ok);
      OneStep(w, s, EndJob(l));
      evs := [EndJob(l)];
    }
  }

  /** The tick has moved on: `queue` is left of the page, and `mark` is the watermark so far. */
  ghost predicate Advanced(s: State, s': State, l: LeaderId, queue: seq<Job>, log: Log, mark: int)
    requires BetweenJobs(s, l)
  {
    && BetweenJobs(s', l) && s'.jobs == s.jobs && s'.log == log && s'.leaders[l].lastTick == s.leaders[l].lastTick
    && var tk, tk' := s.leaders[l].tick.value, s'.leaders[l].tick.value;
    && tk'.now == tk.now && tk'.after == tk.after && tk'.more == tk.more && tk'.queue == queue && tk'.nextLast == mark
  }

  /** The inserts of the followed job do not fail. */
  ghost predicate Fits(w: World, env: TickEnv) {
    forall t :: env.insertOk(w.job.id, t)
  }

  lemma JobRuns(w: World, s: State, l: LeaderId, env: TickEnv) returns (evs: seq<Event>, s': State)
    requires Fits(w, env) && BetweenJobs(s, l)
    requires s.leaders[l].tick.value.queue != [] && s.leaders[l].tick.value.now == env.now
    ensures Leads(w, s, evs, s')
    ensures var tk := s.leaders[l].tick.value;
            var (log, r) := JobEffect(w.cfg, s.leaders[l].lastTick, env, tk.queue[0], s.log);
            Advanced(s, s', l, tk.queue[1..], log, Lower(tk.nextLast, r))
  {
    hide Leads, Slots, Finish, Attempts, InsertAll;
    var job := s.leaders[l].tick.value.queue[0];
    var ev := BeginJob(l, env.lookupFails(job.id));
    var s1 := Apply(w, s, ev);
    OneStep(w, s, ev);
    if job.schedule.None? {
      evs, s' := [ev], s1;
    } else {
      var ok := t => env.insertOk(job.id, t);
      var rest := ScanRuns(w, s1, l, ok);
      s' := Scanned(w, s1, l, ok);
      evs := [ev] + rest;
      Chain(w, s, [ev], s1, rest, s');
    }
  }

  // ---------- the whole tick ----------

  /** The jobs `visited` so far account for the table and the watermark of the tick. */
  ghost predicate Accounts(w: World, s: State, l: LeaderId, env: TickEnv, visited: seq<Job>, log0: Log)
  {
    && BetweenJobs(s, l) && s.leaders[l].tick.value.now == env.now
    && (s.log, s.leaders[l].tick.value.nextLast) == TickEffect(w.cfg, s.leaders[l].lastTick, env, visited, log0)
  }

  lemma {:induction false} QueueRuns(w: World, s: State, l: LeaderId, env: TickEnv, visited: seq<Job>, log0: Log)
    returns (evs: seq<Event>, s': State)
    requires Fits(w, env) && Accounts(w, s, l, env, visited, log0)
    ensures Leads(w, s, evs, s')
    ensures Accounts(w, s', l, env, visited + s.leaders[l].tick.value.queue, log0)
    ensures Advanced(s, s', l, [], s'.log, s'.leaders[l].tick.value.nextLast)
    decreases |s.leaders[l].tick.value.queue|
  {
    hide Leads, JobEffect, TickEffect, Lower;
    var queue := s.leaders[l].tick.value.queue;
    if queue == [] {
      evs, s' := [], s;
      NoStep(w, s);
      assert visited + queue == visited;
    } else {
      var first, s1 := JobRuns(w, s, l, env);
      OneMoreEffect(w.cfg, s.leaders[l].lastTick, env, visited, queue[0], log0);
      var rest;
      rest, s' := QueueRuns(w, s1, l, env, visited + [queue[0]], log0);
      assert visited + [queue[0]] + queue[1..] == visited + queue;
      evs := first + rest;
      Chain(w, s, first, s1, rest, s');
    }
  }

  lemma NoStep(w: World, s: State)
    ensures Leads(w, s, [], s)
  {
  }

  /** The followed job stays enabled once it is, and does not change. */
  ghost predicate Follows(w: World, s: State, jobs: nat -> map<JobId, Job>, k: nat) {
    && (forall i :: k <= i && w.job.id in s.jobs ==> w.job.id in jobs(i))
    && (forall i, j :: k <= i <= j && w.job.id in jobs(i) ==> w.job.id in jobs(j))
    && (forall i :: w.job.id in jobs(i) ==> jobs(i)[w.job.id] == w.job)
  }

  /** The table the page query meets, and the page. */
  lemma PageRuns(w: World, s: State, l: LeaderId, jobs: map<JobId, Job>, page: seq<Job>)
    returns (evs: seq<Event>, s': State)
    requires BetweenJobs(s, l) && s.leaders[l].tick.value.more && s.leaders[l].tick.value.queue == []
    requires IsPage(jobs, s.leaders[l].tick.value.after, page) && Enabled(w, s, ChangeJobs(jobs))
    ensures Leads(w, s, evs, s')
    ensures s' == Apply(w, s.(jobs := jobs), LoadPage(l, page))
  {
    hide Leads, IsPage;
    var s1 := s.(jobs := jobs);
    OneStep(w, s, ChangeJobs(jobs));
    OneStep(w, s1, LoadPage(l, page));
    s' := Apply(w, s1, LoadPage(l, page));
    evs := [ChangeJobs(jobs)] + [LoadPage(l, page)];
    Chain(w, s, [ChangeJobs(jobs)], s1, [LoadPage(l, page)], s');
  }

  /** What `Scheduler.ProcessTick` promises of its table and watermark, read off a leader that is done. */
  ghost predicate Ticked(w: World, s: State, l: LeaderId, env: TickEnv, lastTick: Option<int>, log0: Log,
                         sweep: (bool, seq<Job>)) {
    && l in s.leaders && s.leaders[l].tick.None?
    && var effect := TickEffect(w.cfg, lastTick, env, sweep.1, log0);
    && s.log == effect.0 && s.leaders[l].lastTick == if sweep.0 then Some(effect.1) else lastTick
  }

  /** Before a page query: nothing queued, and the visit so far accounted for. */
  ghost predicate Paging(w: World, s: State, l: LeaderId, env: TickEnv, visited: seq<Job>, log0: Log) {
    && Accounts(w, s, l, env, visited, log0)
    && s.leaders[l].tick.value.more && s.leaders[l].tick.value.queue == [] && s.leaders[l].tick.value.after <= MAX_ID
  }

  lemma FailsRun(w: World, s: State, l: LeaderId, env: TickEnv, visited: seq<Job>, log0: Log)
    requires Paging(w, s, l, env, visited, log0)
    ensures Leads(w, s, [FailPage(l)], Apply(w, s, FailPage(l)))
    ensures Ticked(w, Apply(w, s, FailPage(l)), l, env, s.leaders[l].lastTick, log0, (false, visited))
  {
    hide Leads, TickEffect;
    OneStep(w, s, FailPage(l));
  }

  /** One page: the query, and every job on it. */
  lemma PageThenQueue(w: World, s: State, l: LeaderId, env: TickEnv, visited: seq<Job>, log0: Log,
                      jobs: map<JobId, Job>, page: seq<Job>)
    returns (evs: seq<Event>, s': State)
    requires Fits(w, env) && Paging(w, s, l, env, visited, log0)
    requires IsPage(jobs, s.leaders[l].tick.value.after, page) && Enabled(w, s, ChangeJobs(jobs))
    ensures Leads(w, s, evs, s') && Accounts(w, s', l, env, visited + page, log0)
    ensures s'.jobs == jobs && s'.leaders[l].lastTick == s.leaders[l].lastTick
    ensures var tk' := s'.leaders[l].tick.value;
            tk'.queue == [] && tk'.more == (|page| == PAGE) && (|page| == PAGE ==> tk'.after == page[PAGE - 1].id)
  {
    hide Leads, IsPage, TickEffect;
    var load, s1 := PageRuns(w, s, l, jobs, page);
    var work;
    work, s' := QueueRuns(w, s1, l, env, visited, log0);
    evs := load + work;
    Chain(w, s, load, s1, work, s');
  }

  lemma EndsRun(w: World, s: State, l: LeaderId, env: TickEnv, visited: seq<Job>, log0: Log)
    requires Accounts(w, s, l, env, visited, log0) && !s.leaders[l].tick.value.more
             && s.leaders[l].tick.value.queue == []
    ensures Leads(w, s, [EndTick(l)], Apply(w, s, EndTick(l)))
    ensures Ticked(w, Apply(w, s, EndTick(l)), l, env, s.leaders[l].lastTick, log0, (true, visited))
  {
    hide Leads, TickEffect;
    OneStep(w, s, EndTick(l));
  }

  lemma {:induction false} PagesRun(w: World, s: State, l: LeaderId, env: TickEnv, visited: seq<Job>, log0: Log,
                                    jobs: nat -> map<JobId, Job>, pages: (nat, JobId) -> seq<Job>,
                                    pageFails: nat -> bool, k: nat)
    returns (evs: seq<Event>, s': State)
    requires Fits(w, env) && Paging(w, s, l, env, visited, log0) && Follows(w, s, jobs, k)
    requires forall k, after :: IsPage(jobs(k), after, pages(k, after))
    ensures Leads(w, s, evs, s')
    ensures var (completed, rest) := Sweep(jobs, pages, pageFails, k, s.leaders[l].tick.value.after);
            Ticked(w, s', l, env, s.leaders[l].lastTick, log0, (completed, visited + rest))
    decreases MAX_ID - s.leaders[l].tick.value.after
  {
    hide Leads, TickEffect, Apply, IsPage, Ticked;
    var after := s.leaders[l].tick.value.after;
    if pageFails(k) {
      FailsRun(w, s, l, env, visited, log0);
      evs, s' := [FailPage(l)], Apply(w, s, FailPage(l));
      assert visited + [] == visited;
    } else {
      var page := pages(k, after);
      FullPage(jobs(k), after, page);
      var first, s1 := PageThenQueue(w, s, l, env, visited, log0, jobs(k), page);
      var rest;
      if |page| < PAGE {
        EndsRun(w, s1, l, env, visited + page, log0);
        rest, s' := [EndTick(l)], Apply(w, s1, EndTick(l));
      } else {
        rest, s' := PagesRun(w, s1, l, env, visited + page, log0, jobs, pages, pageFails, k + 1);
        var later := Sweep(jobs, pages, pageFails, k + 1, page[PAGE - 1].id).1;
        assert visited + page + later == visited + (page + later);
      }
      evs := first + rest;
      Chain(w, s, first, s1, rest, s');
    }
  }

  lemma FullPage(jobs: map<JobId, Job>, after: JobId, page: seq<Job>)
    requires IsPage(jobs, after, page)
    ensures |page| <= PAGE && (|page| == PAGE ==> after < page[PAGE - 1].id <= MAX_ID)
  {
    assert |page| == PAGE ==> page[PAGE - 1].Valid();
  }

  /**
   Every tick that `Scheduler.ProcessTick` can make, completed or cut short by a failing page query,
   is a run of the step system that leaves the same table and the same watermark.
   */
  lemma TickRuns(w: World, s: State, l: LeaderId, env: TickEnv, jobs: nat -> map<JobId, Job>,
                 pages: (nat, JobId) -> seq<Job>, pageFails: nat -> bool)
    returns (evs: seq<Event>)
    requires Fits(w, env) && l in s.leaders && s.leaders[l].tick.None? && Follows(w, s, jobs, 0)
    requires forall k, after :: IsPage(jobs(k), after, pages(k, after))
    ensures ValidRun(w, s, evs)
    ensures Ticked(w, Final(w, s, evs), l, env, s.leaders[l].lastTick, s.log, Sweep(jobs, pages, pageFails, 0, 0))
  {
    hide TickEffect, IsPage, Ticked;
    var ev := BeginTick(l, env.now);
    var s1 := Apply(w, s, ev);
    OneStep(w, s, ev);
    NoEffect(w.cfg, s.leaders[l].lastTick, env, s.log);
    var rest, s2 := PagesRun(w, s1, l, env, [], s.log, jobs, pages, pageFails, 0);
    assert [] + Sweep(jobs, pages, pageFails, 0, 0).1 == Sweep(jobs, pages, pageFails, 0, 0).1;
    evs := [ev] + rest;
    Chain(w, s, [ev], s1, rest, s2);
  }
}
