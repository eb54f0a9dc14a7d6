/**
 What one job contributes to a tick, in terms of its rows, its creation and its schedule alone, and
 how a leader that starts without a watermark resumes from the newest stored row.
 */
module Restart {
  import opened Common
  import opened Cron
  import opened Executions
  import opened Scheduler
  import opened CatchUp

  predicate IsScheduledRow(e: Exec, job: JobId) {
    e.job == job && e.trigger == Scheduled
  }

  /** The creation time, or one tick interval before a clock that has not reached it. */
  function Floor(cfg: Config, job: Job, now: int): int {
    if job.created.Some? && job.created.value <= now then job.created.value
    else now - (if cfg.interval > 0 then cfg.interval else 60 * SECOND)
  }

  /**
   Where the window of a job starts: at the watermark if there is one; otherwise at the floor, or at
   the latest scheduled row if that is later and can be looked up.
   */
  ghost predicate Resumes(cfg: Config, lastTick: Option<int>, env: TickEnv, job: Job, log: Log, from: int) {
    if lastTick.Some? then from == lastTick.value
    else if env.lookupFails(job.id) then from == Floor(cfg, job, env.now)
    else
      && Floor(cfg, job, env.now) <= from
      && (forall i :: 0 <= i < |log| && IsScheduledRow(log[i], job.id) ==> log[i].at <= from)
      && (from == Floor(cfg, job, env.now) || Exec(job.id, from, Scheduled) in log)
  }

  lemma WindowResumes(cfg: Config, lastTick: Option<int>, env: TickEnv, job: Job, log: Log)
    ensures Resumes(cfg, lastTick, env, job, log,
                    WindowStart(cfg, job.created, lastTick, env.now, LookUp(env, log, job.id)))
  {
    NewestIsGreatest(log, job.id);
  }

  /** Due minute d is one of the first n in (from, now]. */
  ghost predicate IsSlot(s: Schedule, from: int, now: int, n: nat, d: int)
    requires s.Valid()
  {
    s.Due(d) && from < d <= now && s.Backlog(from, d) <= n
  }

  lemma BacklogCountsDue(s: Schedule, from: int, d: int)
    requires s.Valid() && s.Due(d) && from < d
    ensures s.Backlog(from, d) >= 1
  {
    hide TruncateMinute;
    s.NextIsLeastDue(from);
  }

  lemma SlotsAreTheFirst(s: Schedule, from: int, cap: nat, now: int, d: int)
    requires s.Valid() && cap >= 1
    ensures d in Slots(s, Begin(s, from, now), cap, now) <==> IsSlot(s, from, now, cap, d)
  {
    hide Schedule.Valid, TruncateMinute;
    JobScan(s, from, cap, now);
    var end := Finish(s, Begin(s, from, now), cap, now);
    if s.Due(d) && from < d <= now {
      BacklogSplits(s, from, d, now);
      if end.t <= now {
        BacklogSplits(s, from, end.cursor, now);
        if d <= end.cursor {
          BacklogSplits(s, from, d, end.cursor);
        } else {
          BacklogSplits(s, from, end.cursor, d);
          BacklogCountsDue(s, end.cursor, d);
        }
      }
    }
  }

  // ---------- inserting an ascending list ----------

  predicate Rising(log: Log, from: nat) {
    forall i, j :: from <= i < j < |log| ==> log[i].at < log[j].at
  }

  lemma {:induction false} InsertRising(log: Log, attempts: seq<Exec>)
    requires Rising(attempts, 0)
    ensures var log' := InsertAll(log, attempts);
            && log <= log' && Rising(log', |log|)
            && (forall i :: |log| <= i < |log'| ==> log'[i] in attempts && !Has(log, log'[i].job, log'[i].at))
            && (forall job, at :: Has(log', job, at) <==> Has(log, job, at) || Tried(attempts, job, at))
    decreases |attempts|
  {
    if attempts != [] {
      var log1 := Insert(log, attempts[0]);
      InsertKeeps(log, attempts[0]);
      InsertRising(log1, attempts[1..]);
      var log' := InsertAll(log, attempts);
      forall i | |log| <= i < |log'| ensures log'[i] in attempts && !Has(log, log'[i].job, log'[i].at) {
        assert i < |log1| ==> log'[i] == log1[i];
      }
      forall i, j | |log| <= i < j < |log'| ensures log'[i].at < log'[j].at {
        assert log'[j] in attempts[1..];
        assert i < |log1| ==> log'[i] == log1[i] == attempts[0];
      }
      forall job, at ensures Has(log', job, at) <==> Has(log, job, at) || Tried(attempts, job, at) {
        InsertHas(log, attempts[0], job, at);
        AttemptsHead(attempts, job, at);
      }
    }
  }

  predicate Tried(attempts: seq<Exec>, job: JobId, at: int) {
    exists i :: 0 <= i < |attempts| && attempts[i].job == job && attempts[i].at == at
  }

  lemma AttemptsHead(attempts: seq<Exec>, job: JobId, at: int)
    requires attempts != []
    ensures Tried(attempts, job, at) <==>
            (attempts[0].job == job && attempts[0].at == at) || Tried(attempts[1..], job, at)
  {
    if Tried(attempts[1..], job, at) {
      var i :| 0 <= i < |attempts[1..]| && attempts[1..][i].job == job && attempts[1..][i].at == at;
      assert attempts[i + 1] == attempts[1..][i];
    }
    if Tried(attempts, job, at) {
      var i :| 0 <= i < |attempts| && attempts[i].job == job && attempts[i].at == at;
      assert i > 0 ==> attempts[1..][i - 1] == attempts[i];
    }
  }

  lemma InsertHas(log: Log, e: Exec, job: JobId, at: int)
    ensures Has(Insert(log, e), job, at) <==> Has(log, job, at) || (e.job == job && e.at == at)
  {
    InsertKeeps(log, e);
  }

  lemma {:induction false} AttemptsRise(job: JobId, slots: seq<int>, ok: int -> bool)
    requires forall i, j :: 0 <= i < j < |slots| ==> slots[i] < slots[j]
    ensures var all := Attempts(job, slots, ok);
            && Rising(all, 0)
            && (forall e :: e in all <==> e == Exec(job, e.at, Scheduled) && e.at in slots && ok(e.at))
            && ((forall t :: ok(t)) ==> |all| == |slots|)
  {
    if slots != [] {
      AttemptsRise(job, slots[1..], ok);
      var all, rest := Attempts(job, slots, ok), Attempts(job, slots[1..], ok);
      assert forall e :: e in rest ==> slots[0] < e.at;
      assert all == (if ok(slots[0]) then [Exec(job, slots[0], Scheduled)] else []) + rest;
    }
  }

  // ---------- one job ----------

  /** The table `log'` and the result `r` of one job whose window starts at `from`. */
  ghost predicate Contributes(cfg: Config, env: TickEnv, job: Job, log: Log, from: int, log': Log, r: JobResult)
    requires job.Valid() && job.schedule.Some?
  {
    var s, n, now := job.schedule.value, if cfg.maxFires <= 0 then 1000 else cfg.maxFires, env.now;
    && log <= log' && Rising(log', |log|)
    && (forall i :: |log| <= i < |log'| ==> IsScheduledRow(log'[i], job.id) && !Has(log, job.id, log'[i].at))
    && (forall id, d :: Has(log', id, d) <==>
          Has(log, id, d) || (id == job.id && IsSlot(s, from, now, n, d) && env.insertOk(id, d)))
    && (r.capped <==> s.Backlog(from, now) > n)
    && ((forall t :: env.insertOk(job.id, t)) ==> r.triggered == Min(n, s.Backlog(from, now)))
    && r.cursor.Some?
    && (if s.Backlog(from, now) == 0 then r.cursor.value == now
        else IsSlot(s, from, now, n, r.cursor.value) && forall d :: IsSlot(s, from, now, n, d) ==> d <= r.cursor.value)
  }

  lemma ScanContributes(cfg: Config, env: TickEnv, job: Job, log: Log, from: int)
    requires job.Valid() && job.schedule.Some?
    ensures var s := job.schedule.value;
            var sc := Begin(s, from, env.now);
            var attempts := Attempts(job.id, Slots(s, sc, cfg.Cap(), env.now), t => env.insertOk(job.id, t));
            var end := Finish(s, sc, cfg.Cap(), env.now);
            Contributes(cfg, env, job, log, from, InsertAll(log, attempts),
                        JobResult(|attempts|, end.t <= env.now, Some(end.cursor)))
  {
    hide Schedule.Valid, TruncateMinute, InsertAll, Attempts, Slots, Finish, Schedule.Due, IsSlot;
    var s, now, cap := job.schedule.value, env.now, cfg.Cap();
    var sc := Begin(s, from, now);
    var slots, end := Slots(s, sc, cap, now), Finish(s, sc, cap, now);
    var ok := t => env.insertOk(job.id, t);
    var attempts := Attempts(job.id, slots, ok);
    JobScan(s, from, cap, now);
    SlotsAscend(s, sc, cap, now, from);
    AttemptsRise(job.id, slots, ok);
    InsertRising(log, attempts);
    forall d ensures d in slots <==> IsSlot(s, from, now, cap, d) {
      SlotsAreTheFirst(s, from, cap, now, d);
    }
    forall id, d
      ensures Tried(attempts, id, d) <==> id == job.id && IsSlot(s, from, now, cap, d) && env.insertOk(id, d)
    {
      assert id == job.id && d in slots && ok(d) ==> Exec(id, d, Scheduled) in attempts;
    }
  }

  /**
   One job, seen from outside: it inserts, in order, the first MaxFiresPerTick due minutes since the
   point where it resumes, except those whose insert fails; it is capped exactly when there are
   more; and its cursor is the last of them, or now if there are none.
   */
  lemma JobContract(cfg: Config, lastTick: Option<int>, env: TickEnv, job: Job, log: Log) returns (from: int)
    requires job.Valid() && job.schedule.Some?
    ensures Resumes(cfg, lastTick, env, job, log, from)
    ensures var (log', r) := JobEffect(cfg, lastTick, env, job, log); Contributes(cfg, env, job, log, from, log', r)
  {
    hide Contributes, Resumes;
    WindowResumes(cfg, lastTick, env, job, log);
    from := WindowStart(cfg, job.created, lastTick, env.now, LookUp(env, log, job.id));
    ScanContributes(cfg, env, job, log, from);
  }

  /**
   A leader without a watermark resumes after the newest row n: nothing it inserts is at or before a
   scheduled row, and its first row is the least due minute after n, unless that key is taken.
   */
  lemma RestartResumes(cfg: Config, env: TickEnv, job: Job, log: Log, n: int)
    requires job.Valid() && job.schedule.Some? && !env.lookupFails(job.id)
    requires Newest(log, job.id) == Some(n) && job.created.Some? && job.created.value <= n
    ensures var log', next := JobEffect(cfg, None, env, job, log).0, job.schedule.value.next(n);
            && log <= log'
            && (forall i :: |log| <= i < |log'| ==> n < log'[i].at <= env.now)
            && (next <= env.now && env.insertOk(job.id, next) && !Has(log, job.id, next) ==>
                  |log| < |log'| && log'[|log|] == Exec(job.id, next, Scheduled))
  {
    hide Schedule.Valid, Newest, JobEffect, TruncateMinute;
    var s, cap := job.schedule.value, if cfg.maxFires <= 0 then 1000 else cfg.maxFires;
    var from := JobContract(cfg, None, env, job, log);
    NewestIsGreatest(log, job.id);
    assert from == n;
    var log', next := JobEffect(cfg, None, env, job, log).0, s.next(n);
    s.NextIsLeastDue(n);
    forall i | |log| <= i < |log'| ensures n < log'[i].at <= env.now && next <= log'[i].at {
      NewRowIsSlot(cfg, env, job, log, from, log', JobEffect(cfg, None, env, job, log).1, i);
    }
    if next <= env.now && env.insertOk(job.id, next) && !Has(log, job.id, next) {
      FirstIsSlot(s, n, env.now, cap);
      var i :| 0 <= i < |log'| && log'[i].job == job.id && log'[i].at == next;
      assert forall k :: 0 <= k < |log| ==> log'[k] == log[k];
      assert |log| <= i && log'[|log|].at == next;
    }
  }

  lemma FirstIsSlot(s: Schedule, from: int, now: int, n: nat)
    requires s.Valid() && n >= 1 && s.next(from) <= now
    ensures IsSlot(s, from, now, n, s.next(from))
  {
    hide TruncateMinute;
    s.NextIsLeastDue(from);
    s.NextIsLeastDue(s.next(from));
    assert s.Backlog(s.next(from), s.next(from)) == 0;
  }

  /** A row that was not there before is a slot. */
  lemma NewRowIsSlot(cfg: Config, env: TickEnv, job: Job, log: Log, from: int, log': Log, r: JobResult, i: nat)
    requires job.Valid() && job.schedule.Some? && Contributes(cfg, env, job, log, from, log', r)
    requires |log| <= i < |log'|
    ensures IsSlot(job.schedule.value, from, env.now, if cfg.maxFires <= 0 then 1000 else cfg.maxFires, log'[i].at)
  {
    assert Has(log', job.id, log'[i].at);
  }

  // ---------- catching up after a restart ----------

  /** The job resumes at m or later: it has a scheduled row there, or its floor is there. */
  ghost predicate ResumesFrom(cfg: Config, env: TickEnv, job: Job, log: Log, m: int) {
    m <= Floor(cfg, job, env.now) || exists i :: 0 <= i < |log| && IsScheduledRow(log[i], job.id) && m <= log[i].at
  }

  lemma {:induction false} InsertAllGrows(log: Log, attempts: seq<Exec>)
    ensures log <= InsertAll(log, attempts)
    decreases |attempts|
  {
    if attempts != [] {
      InsertKeeps(log, attempts[0]);
      InsertAllGrows(Insert(log, attempts[0]), attempts[1..]);
    }
  }

  lemma {:induction false} TickGrows(cfg: Config, lastTick: Option<int>, env: TickEnv, jobs: seq<Job>, log: Log)
    ensures log <= TickEffect(cfg, lastTick, env, jobs, log).0
  {
    hide Slots, Attempts, InsertAll, Finish, WindowStart;
    if jobs != [] {
      var n := |jobs| - 1;
      TickGrows(cfg, lastTick, env, jobs[..n], log);
      var log1 := TickEffect(cfg, lastTick, env, jobs[..n], log).0;
      EffectGrows(cfg, lastTick, env, jobs[n], log1);
    }
  }

  lemma EffectGrows(cfg: Config, lastTick: Option<int>, env: TickEnv, job: Job, log: Log)
    ensures log <= JobEffect(cfg, lastTick, env, job, log).0
  {
    if job.schedule.Some? {
      var s := job.schedule.value;
      var ws := WindowStart(cfg, job.created, lastTick, env.now, LookUp(env, log, job.id));
      var slots := Slots(s, Begin(s, ws, env.now), cfg.Cap(), env.now);
      InsertAllGrows(log, Attempts(job.id, slots, t => env.insertOk(job.id, t)));
    }
  }

  /** Without a watermark, a capped job's cursor is past the point where it resumes. */
  lemma CappedPast(cfg: Config, env: TickEnv, job: Job, log: Log, m: int) returns (from: int)
    requires job.Valid() && !env.lookupFails(job.id) && ResumesFrom(cfg, env, job, log, m)
    requires JobEffect(cfg, None, env, job, log).1.capped
    ensures var r := JobEffect(cfg, None, env, job, log).1;
            && m <= from && r.cursor.Some? && from < r.cursor.value < env.now
            && CappedAt(cfg, from, env, job, r.cursor.value)
  {
    hide Schedule.Valid, Newest;
    WindowResumes(cfg, None, env, job, log);
    from := WindowStart(cfg, job.created, None, env.now, LookUp(env, log, job.id));
    JobScan(job.schedule.value, from, cfg.Cap(), env.now);
  }

  ghost predicate CappedAfter(cfg: Config, m: int, env: TickEnv, job: Job, w: int) {
    exists from :: m <= from < w && CappedAt(cfg, from, env, job, w)
  }

  /** The first watermark is now, or the cursor of a capped job past the point where it resumed. */
  lemma {:induction false} FirstWatermark(cfg: Config, m: int, env: TickEnv, jobs: seq<Job>, log: Log)
    requires Schedulable(jobs)
    requires forall i :: 0 <= i < |jobs| ==>
                           !env.lookupFails(jobs[i].id) && ResumesFrom(cfg, env, jobs[i], log, m)
    ensures var w := TickEffect(cfg, None, env, jobs, log).1;
            w == env.now || (w < env.now && exists i :: 0 <= i < |jobs| && CappedAfter(cfg, m, env, jobs[i], w))
  {
    hide CappedAt, JobEffect, Schedule.Valid;
    if jobs != [] {
      var n := |jobs| - 1;
      var (log1, w1) := TickEffect(cfg, None, env, jobs[..n], log);
      FirstWatermark(cfg, m, env, jobs[..n], log);
      TickGrows(cfg, None, env, jobs[..n], log);
      var w := TickEffect(cfg, None, env, jobs, log).1;
      if w != w1 {
        assert ResumesFrom(cfg, env, jobs[n], log1, m);
        var from := CappedPast(cfg, env, jobs[n], log1, m);
        assert CappedAfter(cfg, m, env, jobs[n], w);
      } else if w != env.now {
        var i :| 0 <= i < n && CappedAfter(cfg, m, env, jobs[..n][i], w);
        assert jobs[i] == jobs[..n][i];
      }
    }
  }

  lemma FirstTickDrains(cfg: Config, m: int, env: TickEnv, jobs: seq<Job>, log: Log, horizon: int)
    requires Schedulable(jobs) && horizon <= env.now
    requires forall i :: 0 <= i < |jobs| ==>
                           !env.lookupFails(jobs[i].id) && ResumesFrom(cfg, env, jobs[i], log, m)
    ensures var w := TickEffect(cfg, None, env, jobs, log).1;
            w >= horizon || TotalBacklog(jobs, w, horizon) + cfg.Cap() <= TotalBacklog(jobs, m, horizon)
  {
    hide TickEffect, TotalBacklog, CappedAt, ResumesFrom;
    FirstWatermark(cfg, m, env, jobs, log);
    var w := TickEffect(cfg, None, env, jobs, log).1;
    if w < horizon {
      var i :| 0 <= i < |jobs| && CappedAfter(cfg, m, env, jobs[i], w);
      var from :| m <= from < w && CappedAt(cfg, from, env, jobs[i], w);
      CappedJobDrainsTotal(cfg, env, jobs, i, from, w, horizon);
      BacklogFalls(jobs, m, from, horizon);
    }
  }

  /**
   A restarted leader catches up within backlog / MaxFiresPerTick + 1 ticks, where the backlog is
   counted from a time m at or before which every job resumes; for a single job with rows, that is
   its backlog after its newest row.
   */
  lemma RestartCatchesUp(cfg: Config, m: int, envs: seq<TickEnv>, jobs: seq<Job>, log: Log, horizon: int)
    requires Schedulable(jobs) && forall i :: 0 <= i < |envs| ==> horizon <= envs[i].now
    requires |envs| >= TotalBacklog(jobs, m, horizon) / cfg.Cap() + 1
    requires forall i :: 0 <= i < |jobs| ==>
                           !envs[0].lookupFails(jobs[i].id) && ResumesFrom(cfg, envs[0], jobs[i], log, m)
    ensures var (log1, w) := TickEffect(cfg, None, envs[0], jobs, log);
            Ticks(cfg, w, envs[1..], jobs, log1) >= horizon
  {
    hide TickEffect, TotalBacklog, Ticks, ResumesFrom;
    MoreThanQuotient(|envs|, TotalBacklog(jobs, m, horizon), cfg.Cap());
    var (log1, w) := TickEffect(cfg, None, envs[0], jobs, log);
    FirstTickDrains(cfg, m, envs[0], jobs, log, horizon);
    assert |envs| * cfg.Cap() == cfg.Cap() + |envs[1..]| * cfg.Cap();
    CatchesUp(cfg, w, envs[1..], jobs, log1, horizon);
  }
}
