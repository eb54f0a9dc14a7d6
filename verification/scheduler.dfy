/**
 One scheduler tick (internal/scheduler/scheduler.go): keyset paging over the enabled jobs, and for
 each job the capped scan of the due times since the watermark.
 */
module Scheduler {
  import opened Common
  import opened Cron
  import opened Executions

  const PAGE: nat := 100
  const MAX_ID: nat := 0xFFFF_FFFF_FFFF_FFFF_FFFF_FFFF_FFFF_FFFF

  /** A missing creation time is Go's zero time; a missing schedule is one that cannot be parsed. */
  datatype Job = Job(id: JobId, created: Option<int>, schedule: Option<Schedule>) {
    ghost predicate Valid() {
      0 < id <= MAX_ID && (schedule.Some? ==> schedule.value.Valid())
    }
  }

  datatype Config = Config(interval: int, maxFires: int) {
    function Cap(): (n: nat)
      ensures n >= 1
    {
      if maxFires <= 0 then 1000 else maxFires
    }

    function Interval(): (d: int)
      ensures d > 0
    {
      if interval > 0 then interval else MINUTE
    }
  }

  datatype Lookup = LookupFailed | Looked(newest: Option<int>)

  function WindowStart(cfg: Config, created: Option<int>, lastTick: Option<int>, now: int, lookup: Lookup): int {
    if lastTick.Some? then lastTick.value
    else
      var cursor := if created.None? || created.value > now then now - cfg.Interval() else created.value;
      if lookup.Looked? && lookup.newest.Some? && lookup.newest.value > cursor then lookup.newest.value else cursor
  }

  // ---------- the scan of one job ----------

  /** The loop variables of processJobWithProgress. */
  datatype Scan = Scan(t: int, count: nat, cursor: int) {
    predicate Going(cap: nat, now: int) {
      count < cap && t <= now
    }

    function Step(s: Schedule): Scan {
      Scan(s.next(t), count + 1, TruncateMinute(t))
    }
  }

  function Begin(s: Schedule, windowStart: int, now: int): Scan {
    Scan(s.next(windowStart), 0, now)
  }

  function Finish(s: Schedule, sc: Scan, cap: nat, now: int): Scan
    decreases cap - sc.count
  {
    if sc.Going(cap, now) then Finish(s, sc.Step(s), cap, now) else sc
  }

  /** The due times the scan emits. */
  function Slots(s: Schedule, sc: Scan, cap: nat, now: int): seq<int>
    decreases cap - sc.count
  {
    if sc.Going(cap, now) then [TruncateMinute(sc.t)] + Slots(s, sc.Step(s), cap, now) else []
  }

  /** Executions for the slots whose insert does not fail outright. */
  function Attempts(job: JobId, slots: seq<int>, ok: int -> bool): seq<Exec> {
    if slots == [] then []
    else (if ok(slots[0]) then [Exec(job, slots[0], Scheduled)] else []) + Attempts(job, slots[1..], ok)
  }

  datatype JobResult = JobResult(triggered: nat, capped: bool, cursor: Option<int>)

  /** The scan emits, in order, at most `cap` due times; it stops early only past `now`. */
  lemma {:induction false} SlotsAscend(s: Schedule, sc: Scan, cap: nat, now: int, from: int)
    requires s.Valid() && sc.t == s.next(from) && sc.count <= cap
    ensures var slots, end := Slots(s, sc, cap, now), Finish(s, sc, cap, now);
            && sc.t <= end.t && end.count == sc.count + |slots| <= cap
            && (end.t <= now ==> end.count == cap)
            && (forall i :: 0 <= i < |slots| ==> from < slots[i] <= now && slots[i] < end.t)
            && (forall i, j :: 0 <= i < j < |slots| ==> slots[i] < slots[j])
            && end.cursor == (if slots == [] then sc.cursor else slots[|slots| - 1])
            && (slots != [] ==> end.t == s.next(end.cursor))
    decreases cap - sc.count
  {
    hide TruncateMinute, Schedule.Valid;
    s.NextIsLeastDue(from);
    s.NextIsLeastDue(sc.t);
    if sc.Going(cap, now) {
      SlotsAscend(s, sc.Step(s), cap, now, sc.t);
    }
  }

  /** A time is emitted exactly when it is due, in the window, and before where the scan stopped. */
  lemma {:induction false} SlotsAreDue(s: Schedule, sc: Scan, cap: nat, now: int, from: int, d: int)
    requires s.Valid() && sc.t == s.next(from) && sc.count <= cap
    ensures d in Slots(s, sc, cap, now) <==> s.Due(d) && from < d < Finish(s, sc, cap, now).t && d <= now
    decreases cap - sc.count
  {
    hide TruncateMinute, Schedule.Valid;
    s.NextIsLeastDue(from);
    SlotsAscend(s, sc, cap, now, from);
    if sc.Going(cap, now) {
      SlotsAreDue(s, sc.Step(s), cap, now, sc.t, d);
      s.NextIsLeastDue(sc.t);
      SlotsAscend(s, sc.Step(s), cap, now, sc.t);
    }
  }

  /** Each slot takes one due time off the backlog. */
  lemma {:induction false} SlotsConsumeBacklog(s: Schedule, sc: Scan, cap: nat, now: int, from: int)
    requires s.Valid() && sc.t == s.next(from) && sc.count <= cap
    ensures s.Backlog(from, now) == |Slots(s, sc, cap, now)| + s.Backlog(Finish(s, sc, cap, now).t - 1, now)
    decreases cap - sc.count
  {
    hide TruncateMinute, Schedule.Valid;
    s.NextIsLeastDue(from);
    if sc.Going(cap, now) {
      SlotsConsumeBacklog(s, sc.Step(s), cap, now, sc.t);
    } else {
      s.BacklogBetween(from, sc.t - 1, now);
    }
  }

  /**
   One job contributes exactly its first `cap` due times in (windowStart, now]; it is capped exactly
   when there are more, and then its cursor is the last one emitted.
   */
  lemma JobScan(s: Schedule, windowStart: int, cap: nat, now: int)
    requires s.Valid() && cap >= 1
    ensures var sc := Begin(s, windowStart, now);
            var slots, end := Slots(s, sc, cap, now), Finish(s, sc, cap, now);
            && |slots| == Min(cap, s.Backlog(windowStart, now))
            && (end.t <= now <==> s.Backlog(windowStart, now) > cap)
            && (end.t <= now ==> && windowStart < end.cursor < now
                                 && s.Backlog(windowStart, now) == cap + s.Backlog(end.cursor, now))
            && (forall d :: d in slots <==> s.Due(d) && windowStart < d <= now && (end.t <= now ==> d <= end.cursor))
  {
    hide TruncateMinute, Schedule.Valid;
    var sc := Begin(s, windowStart, now);
    var slots, end := Slots(s, sc, cap, now), Finish(s, sc, cap, now);
    SlotsAscend(s, sc, cap, now, windowStart);
    SlotsConsumeBacklog(s, sc, cap, now, windowStart);
    if end.t <= now {
      s.NextIsLeastDue(end.cursor);
      s.BacklogBetween(end.cursor, end.t - 1, now);
      assert s.Backlog(end.cursor, now) >= 1;
    } else {
      s.NextIsLeastDue(if slots == [] then windowStart else end.cursor);
      s.BacklogBetween(if slots == [] then windowStart else end.cursor, end.t - 1, now);
    }
    forall d ensures d in slots <==> s.Due(d) && windowStart < d <= now && (end.t <= now ==> d <= end.cursor) {
      SlotsAreDue(s, sc, cap, now, windowStart, d);
    }
  }

  // ---------- the tick ----------

  /** What a tick meets besides the jobs: the clock, failing lookups and failing inserts. */
  datatype TickEnv = TickEnv(now: int, lookupFails: JobId -> bool, insertOk: (JobId, int) -> bool)

  function LookUp(env: TickEnv, log: Log, id: JobId): Lookup {
    if env.lookupFails(id) then LookupFailed else Looked(Newest(log, id))
  }

  function JobEffect(cfg: Config, lastTick: Option<int>, env: TickEnv, job: Job, log: Log): (Log, JobResult) {
    if job.schedule.None? then (log, JobResult(0, false, None))
    else
      var s := job.schedule.value;
      var ws := WindowStart(cfg, job.created, lastTick, env.now, LookUp(env, log, job.id));
      var sc := Begin(s, ws, env.now);
      var attempts := Attempts(job.id, Slots(s, sc, cfg.Cap(), env.now), t => env.insertOk(job.id, t));
      var end := Finish(s, sc, cfg.Cap(), env.now);
      (InsertAll(log, attempts), JobResult(|attempts|, end.t <= env.now, Some(end.cursor)))
  }

  function Lower(watermark: int, r: JobResult): int {
    if r.capped && r.cursor.Some? && r.cursor.value < watermark then r.cursor.value else watermark
  }

  /** The table and the watermark after the jobs `visited`. */
  function TickEffect(cfg: Config, lastTick: Option<int>, env: TickEnv, visited: seq<Job>, log: Log): (Log, int) {
    if visited == [] then (log, env.now)
    else
      var n := |visited| - 1;
      var (log1, w) := TickEffect(cfg, lastTick, env, visited[..n], log);
      var (log2, r) := JobEffect(cfg, lastTick, env, visited[n], log1);
      (log2, Lower(w, r))
  }

  predicate Visits(visited: seq<Job>, id: JobId) {
    exists i :: 0 <= i < |visited| && visited[i].id == id
  }

  /** One GetEnabledJobs result: the first PAGE enabled jobs after a key, by key. */
  ghost predicate IsPage(jobs: map<JobId, Job>, after: JobId, page: seq<Job>) {
    && |page| <= PAGE
    && (forall i :: 0 <= i < |page| ==> page[i].id in jobs && jobs[page[i].id] == page[i] && page[i].Valid()
                                        && after < page[i].id)
    && (forall i, j :: 0 <= i < j < |page| ==> page[i].id < page[j].id)
    && (forall id :: id in jobs && after < id ==>
          Visits(page, id) || (|page| == PAGE && page[PAGE - 1].id < id))
  }

  predicate Ascending(jobs: seq<Job>) {
    forall i, j :: 0 <= i < j < |jobs| ==> jobs[i].id < jobs[j].id
  }

  /** The job is enabled at each of the first n page queries. */
  ghost predicate StaysEnabled(jobs: nat -> map<JobId, Job>, id: JobId, n: nat) {
    forall k :: 0 <= k < n ==> id in jobs(k)
  }

  ghost predicate EnabledAtSome(jobs: nat -> map<JobId, Job>, job: Job, n: nat) {
    exists k :: 0 <= k < n && job.id in jobs(k) && jobs(k)[job.id] == job
  }

  /** After n page queries the visit is complete up to the key `upTo`. */
  ghost predicate Swept(jobs: nat -> map<JobId, Job>, visited: seq<Job>, n: nat, upTo: JobId) {
    && Ascending(visited)
    && (forall i :: 0 <= i < |visited| ==>
                      visited[i].Valid() && visited[i].id <= upTo && EnabledAtSome(jobs, visited[i], n))
    && (forall id :: 0 < id <= upTo && StaysEnabled(jobs, id, n) ==> Visits(visited, id))
  }

  /** The jobs visited from the k-th page query on, and whether no page query fails. */
  ghost function Sweep(jobs: nat -> map<JobId, Job>, pages: (nat, JobId) -> seq<Job>, pageFails: nat -> bool, k: nat,
                       after: JobId): (bool, seq<Job>)
    requires after <= MAX_ID && forall k, after :: IsPage(jobs(k), after, pages(k, after))
    decreases MAX_ID - after
  {
    if pageFails(k) then (false, [])
    else
      var page := pages(k, after);
      assert IsPage(jobs(k), after, page);
      if |page| < PAGE then (true, page)
      else
        assert page[PAGE - 1].Valid();
        var (completed, rest) := Sweep(jobs, pages, pageFails, k + 1, page[PAGE - 1].id);
        (completed, page + rest)
  }

  lemma SweepOn(jobs: nat -> map<JobId, Job>, pages: (nat, JobId) -> seq<Job>, pageFails: nat -> bool, k: nat,
                after: JobId, visited: seq<Job>)
    requires after <= MAX_ID && forall k, after :: IsPage(jobs(k), after, pages(k, after))
    ensures var here, page := Sweep(jobs, pages, pageFails, k, after), pages(k, after);
            if pageFails(k) then !here.0 && visited + here.1 == visited
            else if |page| < PAGE then here == (true, page)
            else |page| == PAGE && after < page[PAGE - 1].id <= MAX_ID
                 && var later := Sweep(jobs, pages, pageFails, k + 1, page[PAGE - 1].id);
                 here.0 == later.0 && visited + here.1 == visited + page + later.1
  {
    var page := pages(k, after);
    assert IsPage(jobs(k), after, page);
    if !pageFails(k) && |page| == PAGE {
      assert page[PAGE - 1].Valid();
      var later := Sweep(jobs, pages, pageFails, k + 1, page[PAGE - 1].id).1;
      assert visited + (page + later) == visited + page + later;
    }
  }

  class Scheduler {
    const cfg: Config
    const store: Table
    var lastTick: Option<int>

    constructor (cfg: Config, store: Table)
      ensures this.cfg == cfg && this.store == store && lastTick == None
    {
      this.cfg := cfg;
      this.store := store;
      lastTick := None;
    }

    method ProcessJob(env: TickEnv, job: Job) returns (result: JobResult)
      modifies store
      ensures (store.rows, result) == JobEffect(cfg, lastTick, env, job, old(store.rows))
    {
      if job.schedule.None? {
        return JobResult(0, false, None);
      }
      var s := job.schedule.value;
      var ws := WindowStart(cfg, job.created, lastTick, env.now, LookUp(env, store.rows, job.id));
      var t := s.next(ws);
      var cursor, triggered := env.now, 0;
      var i := 0;
      ghost var sc := Begin(s, ws, env.now);
      ghost var ok := t => env.insertOk(job.id, t);
      ghost var all := Attempts(job.id, Slots(s, sc, cfg.Cap(), env.now), ok);
      while i < cfg.Cap() && t <= env.now
        invariant sc == Scan(t, i, cursor) && i <= cfg.Cap()
        invariant Finish(s, sc, cfg.Cap(), env.now) == Finish(s, Begin(s, ws, env.now), cfg.Cap(), env.now)
        invariant triggered + |Attempts(job.id, Slots(s, sc, cfg.Cap(), env.now), ok)| == |all|
        invariant InsertAll(store.rows, Attempts(job.id, Slots(s, sc, cfg.Cap(), env.now), ok)) ==
                  InsertAll(old(store.rows), all)
      {
        NextSlot(s, sc, cfg.Cap(), env.now, job.id, ok, store.rows);
        cursor := TruncateMinute(t);
        if env.insertOk(job.id, cursor) {
          var duplicate := store.TryInsert(Exec(job.id, cursor, Scheduled));
          triggered := triggered + 1;
        }
        sc := sc.Step(s);
        t := s.next(t);
        i := i + 1;
      }
      result := JobResult(triggered, t <= env.now, Some(cursor));
    }

    /**
     `pages(k, after)` answers the k-th page query, made while the enabled jobs are `jobs(k)`;
     between two pages the jobs may change in any way.  `pageFails(k)` is a failing query.  `loads`
     counts the pages read.  The visit is in strictly ascending key order, so no job comes twice.
     */
    method ProcessTick(env: TickEnv, ghost jobs: nat -> map<JobId, Job>, pages: (nat, JobId) -> seq<Job>,
                       pageFails: nat -> bool)
      returns (completed: bool, visited: seq<Job>, loads: nat)
      requires forall k, after :: IsPage(jobs(k), after, pages(k, after))
      modifies this`lastTick, store
      ensures (completed, visited) == Sweep(jobs, pages, pageFails, 0, 0)
      ensures if completed then Swept(jobs, visited, loads, MAX_ID)
              else exists upTo :: Swept(jobs, visited, loads, upTo)
      ensures var effect := TickEffect(cfg, old(lastTick), env, visited, old(store.rows));
              store.rows == effect.0 && lastTick == if completed then Some(effect.1) else old(lastTick)
    {
      hide Swept, TickEffect, JobEffect, IsPage, Sweep;
      ghost var sweep := Sweep(jobs, pages, pageFails, 0, 0);
      assert [] + sweep.1 == sweep.1;
      var nextLastTick, afterId := env.now, 0;
      visited, loads := [], 0;
      NothingSwept(jobs);
      NoEffect(cfg, lastTick, env, store.rows);
      while true
        invariant afterId <= MAX_ID && lastTick == old(lastTick)
        invariant Swept(jobs, visited, loads, afterId)
        invariant var rest := Sweep(jobs, pages, pageFails, loads, afterId);
                  sweep.0 == rest.0 && sweep.1 == visited + rest.1
        invariant (store.rows, nextLastTick) == TickEffect(cfg, lastTick, env, visited, old(store.rows))
        decreases MAX_ID - afterId
      {
        SweepOn(jobs, pages, pageFails, loads, afterId, visited);
        if pageFails(loads) {
          return false, visited, loads;
        }
        var page := pages(loads, afterId);
        ghost var before := visited;
        for j := 0 to |page|
          invariant visited == before + page[..j] && lastTick == old(lastTick)
          invariant (store.rows, nextLastTick) == TickEffect(cfg, lastTick, env, visited, old(store.rows))
        {
          var result := ProcessJob(env, page[j]);
          OneMoreEffect(cfg, lastTick, env, visited, page[j], old(store.rows));
          visited := visited + [page[j]];
          nextLastTick := Lower(nextLastTick, result);
        }
        assert visited == before + page;
        PageSweeps(jobs, before, loads, afterId, page);
        loads := loads + 1;
        if |page| < PAGE {
          break;
        }
        afterId := page[|page| - 1].id;
      }
      lastTick := Some(nextLastTick);
      completed := true;
    }
  }

  lemma NoEffect(cfg: Config, lastTick: Option<int>, env: TickEnv, log: Log)
    ensures TickEffect(cfg, lastTick, env, [], log) == (log, env.now)
  {
  }

  lemma OneMoreEffect(cfg: Config, lastTick: Option<int>, env: TickEnv, visited: seq<Job>, job: Job, log: Log)
    ensures var (log1, w) := TickEffect(cfg, lastTick, env, visited, log);
            var (log2, r) := JobEffect(cfg, lastTick, env, job, log1);
            TickEffect(cfg, lastTick, env, visited + [job], log) == (log2, Lower(w, r))
  {
    hide JobEffect;
    assert (visited + [job])[..|visited|] == visited;
  }

  lemma NothingSwept(jobs: nat -> map<JobId, Job>)
    ensures Swept(jobs, [], 0, 0)
  {
  }

  /** A page continues the ascending visit, and skips no job that stays enabled. */
  lemma PageSweeps(jobs: nat -> map<JobId, Job>, before: seq<Job>, n: nat, after: JobId, page: seq<Job>)
    requires IsPage(jobs(n), after, page) && after <= MAX_ID && Swept(jobs, before, n, after)
    ensures |page| <= PAGE && (|page| == PAGE ==> after < page[PAGE - 1].id <= MAX_ID)
    ensures Swept(jobs, before + page, n + 1, if |page| == PAGE then page[PAGE - 1].id else MAX_ID)
  {
    var visited := before + page;
    var upTo := if |page| == PAGE then page[PAGE - 1].id else MAX_ID;
    forall i | 0 <= i < |visited|
      ensures visited[i].Valid() && visited[i].id <= upTo && EnabledAtSome(jobs, visited[i], n + 1)
    {
      if i < |before| {
        var k :| 0 <= k < n && before[i].id in jobs(k) && jobs(k)[before[i].id] == before[i];
      } else {
        assert visited[i] == page[i - |before|];
      }
    }
    forall id | 0 < id <= upTo && StaysEnabled(jobs, id, n + 1) ensures Visits(visited, id) {
      PageVisits(jobs, before, n, after, page, id);
    }
  }

  lemma PageVisits(jobs: nat -> map<JobId, Job>, before: seq<Job>, n: nat, after: JobId, page: seq<Job>, id: JobId)
    requires IsPage(jobs(n), after, page) && Swept(jobs, before, n, after)
    requires 0 < id && StaysEnabled(jobs, id, n + 1) && (|page| == PAGE ==> id <= page[PAGE - 1].id)
    ensures Visits(before + page, id)
  {
    var visited := before + page;
    if id <= after {
      assert StaysEnabled(jobs, id, n);
      var i :| 0 <= i < |before| && before[i].id == id;
      assert visited[i].id == id;
    } else {
      assert id in jobs(n);
      var i :| 0 <= i < |page| && page[i].id == id;
      assert visited[|before| + i].id == id;
    }
  }

  lemma NextSlot(s: Schedule, sc: Scan, cap: nat, now: int, id: JobId, ok: int -> bool, log: Log)
    requires sc.Going(cap, now)
    ensures Finish(s, sc, cap, now) == Finish(s, sc.Step(s), cap, now)
    ensures var later := Attempts(id, Slots(s, sc.Step(s), cap, now), ok);
            var here := Attempts(id, Slots(s, sc, cap, now), ok);
            var at := TruncateMinute(sc.t);
            if ok(at)
            then |here| == 1 + |later| && InsertAll(log, here) == InsertAll(Insert(log, Exec(id, at, Scheduled)), later)
            else here == later
  {
    var slots := Slots(s, sc, cap, now);
    assert slots[1..] == Slots(s, sc.Step(s), cap, now);
    var here := Attempts(id, slots, ok);
    if ok(slots[0]) {
      assert here[1..] == Attempts(id, slots[1..], ok);
    }
  }
}
