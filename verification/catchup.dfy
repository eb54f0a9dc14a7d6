/** Catching up after downtime: the watermark rises, and every capped tick drains the backlog. */
module CatchUp {
  import opened Common
  import opened Cron
  import opened Executions
  import opened Scheduler

  ghost predicate Schedulable(jobs: seq<Job>) {
    forall i :: 0 <= i < |jobs| ==> jobs[i].Valid()
  }

  /** Due times in (t, horizon] over all jobs. */
  ghost function TotalBacklog(jobs: seq<Job>, t: int, horizon: int): nat
    requires Schedulable(jobs)
  {
    if jobs == [] then 0
    else
      var n := |jobs| - 1;
      TotalBacklog(jobs[..n], t, horizon) +
      (if jobs[n].schedule.None? then 0 else jobs[n].schedule.value.Backlog(t, horizon))
  }

  lemma {:induction false} BacklogSplits(s: Schedule, t: int, m: int, horizon: int)
    requires s.Valid() && t <= m <= horizon
    ensures s.Backlog(t, horizon) == s.Backlog(t, m) + s.Backlog(m, horizon)
    decreases m - t
  {
    hide TruncateMinute;
    if s.next(t) <= m {
      BacklogSplits(s, s.next(t), m, horizon);
    } else {
      s.BacklogBetween(t, m, horizon);
    }
  }

  /** A capped job consumes exactly `cap` of its backlog, whatever horizon it is measured to. */
  lemma CappedJobDrains(s: Schedule, t: int, cap: nat, now: int, horizon: int)
    requires s.Valid() && cap >= 1 && s.Backlog(t, now) > cap
    requires Finish(s, Begin(s, t, now), cap, now).cursor <= horizon <= now
    ensures s.Backlog(t, horizon) == cap + s.Backlog(Finish(s, Begin(s, t, now), cap, now).cursor, horizon)
  {
    hide Schedule.Valid;
    var cursor := Finish(s, Begin(s, t, now), cap, now).cursor;
    JobScan(s, t, cap, now);
    BacklogSplits(s, t, cursor, now);
    BacklogSplits(s, t, cursor, horizon);
  }

  /** The result of one job in a tick that has a watermark does not depend on the table. */
  lemma ResultWithWatermark(cfg: Config, t: int, env: TickEnv, job: Job, log: Log)
    requires job.Valid()
    ensures var r := JobEffect(cfg, Some(t), env, job, log).1;
            && (r.capped <==> job.schedule.Some? && job.schedule.value.Backlog(t, env.now) > cfg.Cap())
            && (r.capped ==> r.cursor.Some? && t < r.cursor.value < env.now
                             && var s := job.schedule.value;
                             r.cursor.value == Finish(s, Begin(s, t, env.now), cfg.Cap(), env.now).cursor)
  {
    hide Schedule.Valid;
    if job.schedule.Some? {
      JobScan(job.schedule.value, t, cfg.Cap(), env.now);
    }
  }

  ghost predicate CappedAt(cfg: Config, t: int, env: TickEnv, job: Job, w: int) {
    && job.schedule.Some? && job.schedule.value.Valid()
    && job.schedule.value.Backlog(t, env.now) > cfg.Cap()
    && w == Finish(job.schedule.value, Begin(job.schedule.value, t, env.now), cfg.Cap(), env.now).cursor
  }

  /** The new watermark is the tick's time, or the cursor of some capped job; it never falls back. */
  lemma {:induction false} WatermarkRises(cfg: Config, t: int, env: TickEnv, jobs: seq<Job>, log: Log)
    requires Schedulable(jobs)
    ensures var w := TickEffect(cfg, Some(t), env, jobs, log).1;
            && w <= env.now
            && (w == env.now || (t < w && exists i :: 0 <= i < |jobs| && CappedAt(cfg, t, env, jobs[i], w)))
  {
    if jobs != [] {
      var n := |jobs| - 1;
      var (log1, w1) := TickEffect(cfg, Some(t), env, jobs[..n], log);
      WatermarkRises(cfg, t, env, jobs[..n], log);
      ResultWithWatermark(cfg, t, env, jobs[n], log1);
      var w := TickEffect(cfg, Some(t), env, jobs, log).1;
      if w != w1 {
        assert CappedAt(cfg, t, env, jobs[n], w);
      } else if w != env.now {
        var i :| 0 <= i < n && CappedAt(cfg, t, env, jobs[..n][i], w);
        assert jobs[i] == jobs[..n][i];
      }
    }
  }

  lemma {:induction false} BacklogFalls(jobs: seq<Job>, t: int, w: int, horizon: int)
    requires Schedulable(jobs) && t <= w <= horizon
    ensures TotalBacklog(jobs, w, horizon) <= TotalBacklog(jobs, t, horizon)
  {
    if jobs != [] {
      var n := |jobs| - 1;
      BacklogFalls(jobs[..n], t, w, horizon);
      if jobs[n].schedule.Some? {
        BacklogSplits(jobs[n].schedule.value, t, w, horizon);
      }
    }
  }

  lemma {:induction false} CappedJobDrainsTotal(cfg: Config, env: TickEnv, jobs: seq<Job>, k: nat, t: int, w: int,
                                                horizon: int)
    requires Schedulable(jobs) && k < |jobs| && t <= w <= horizon <= env.now && CappedAt(cfg, t, env, jobs[k], w)
    ensures TotalBacklog(jobs, w, horizon) + cfg.Cap() <= TotalBacklog(jobs, t, horizon)
    decreases |jobs|
  {
    var n := |jobs| - 1;
    if k == n {
      BacklogFalls(jobs[..n], t, w, horizon);
      CappedJobDrains(jobs[n].schedule.value, t, cfg.Cap(), env.now, horizon);
    } else {
      CappedJobDrainsTotal(cfg, env, jobs[..n], k, t, w, horizon);
      if jobs[n].schedule.Some? {
        BacklogSplits(jobs[n].schedule.value, t, w, horizon);
      }
    }
  }

  /**
   A tick past the horizon either moves the watermark to the horizon, or strictly raises it and
   takes at least MaxFiresPerTick slots off the total backlog before the horizon.
   */
  lemma TickDrains(cfg: Config, t: int, env: TickEnv, jobs: seq<Job>, log: Log, horizon: int)
    requires Schedulable(jobs) && horizon <= env.now
    ensures var w := TickEffect(cfg, Some(t), env, jobs, log).1;
            w >= horizon || (t < w && TotalBacklog(jobs, w, horizon) + cfg.Cap() <= TotalBacklog(jobs, t, horizon))
  {
    hide TickEffect, TotalBacklog, CappedAt;
    WatermarkRises(cfg, t, env, jobs, log);
    var w := TickEffect(cfg, Some(t), env, jobs, log).1;
    if w < horizon {
      var i :| 0 <= i < |jobs| && CappedAt(cfg, t, env, jobs[i], w);
      CappedJobDrainsTotal(cfg, env, jobs, i, t, w, horizon);
    }
  }

  /** The watermark after a run of completed ticks over the same jobs. */
  function Ticks(cfg: Config, t: int, envs: seq<TickEnv>, jobs: seq<Job>, log: Log): int
    decreases |envs|
  {
    if envs == [] then t
    else
      var (log', w) := TickEffect(cfg, Some(t), envs[0], jobs, log);
      Ticks(cfg, w, envs[1..], jobs, log')
  }

  lemma {:induction false} CatchesUp(cfg: Config, t: int, envs: seq<TickEnv>, jobs: seq<Job>, log: Log, horizon: int)
    requires Schedulable(jobs) && forall i :: 0 <= i < |envs| ==> horizon <= envs[i].now
    requires t >= horizon || |envs| * cfg.Cap() > TotalBacklog(jobs, t, horizon)
    ensures Ticks(cfg, t, envs, jobs, log) >= horizon
    decreases |envs|
  {
    hide TickEffect, TotalBacklog;
    if envs != [] {
      var (log', w) := TickEffect(cfg, Some(t), envs[0], jobs, log);
      TickDrains(cfg, t, envs[0], jobs, log, horizon);
      WatermarkRises(cfg, t, envs[0], jobs, log);
      assert |envs| * cfg.Cap() == cfg.Cap() + |envs[1..]| * cfg.Cap();
      CatchesUp(cfg, w, envs[1..], jobs, log', horizon);
    }
  }

  /** Catching up takes at most backlog / MaxFiresPerTick + 1 ticks. */
  lemma CatchUpIsBounded(cfg: Config, t: int, envs: seq<TickEnv>, jobs: seq<Job>, log: Log, horizon: int)
    requires Schedulable(jobs) && forall i :: 0 <= i < |envs| ==> horizon <= envs[i].now
    requires |envs| >= TotalBacklog(jobs, t, horizon) / cfg.Cap() + 1
    ensures Ticks(cfg, t, envs, jobs, log) >= horizon
  {
    hide TickEffect, TotalBacklog;
    MoreThanQuotient(|envs|, TotalBacklog(jobs, t, horizon), cfg.Cap());
    CatchesUp(cfg, t, envs, jobs, log, horizon);
  }
}
