/**
 The executions table as an insert-only log with the constraint UNIQUE (job_id, scheduled_at), and
 the two writers that fill it: schedulers and manual triggers.
 */
module Executions {
  import opened Common

  /** Job identifiers in UUID order; 0 is the nil UUID, which no job has. */
  type JobId = nat

  datatype Trigger = Scheduled | Manual

  datatype Exec = Exec(job: JobId, at: int, trigger: Trigger)

  type Log = seq<Exec>

  predicate Has(log: Log, job: JobId, at: int) {
    exists i :: 0 <= i < |log| && log[i].job == job && log[i].at == at
  }

  /** INSERT: a row whose key is taken is refused as a duplicate. */
  function Insert(log: Log, e: Exec): Log {
    if Has(log, e.job, e.at) then log else log + [e]
  }

  predicate UniqueKeys(log: Log) {
    forall i, j :: 0 <= i < j < |log| ==> log[i].job != log[j].job || log[i].at != log[j].at
  }

  lemma InsertKeeps(log: Log, e: Exec)
    ensures log <= Insert(log, e) && |Insert(log, e)| <= |log| + 1
    ensures Has(Insert(log, e), e.job, e.at)
    ensures forall job, at :: Has(log, job, at) ==> Has(Insert(log, e), job, at)
    ensures UniqueKeys(log) ==> UniqueKeys(Insert(log, e))
  {
    if !Has(log, e.job, e.at) {
      var log' := log + [e];
      assert log'[|log|] == e;
      forall job, at | Has(log, job, at) ensures Has(log', job, at) {
        var i :| 0 <= i < |log| && log[i].job == job && log[i].at == at;
        assert log'[i] == log[i];
      }
    }
  }

  function InsertAll(log: Log, attempts: seq<Exec>): Log
    decreases |attempts|
  {
    if attempts == [] then log else InsertAll(Insert(log, attempts[0]), attempts[1..])
  }

  /**
   Whatever leaders and manual triggers attempt, in whatever order: nothing stored is lost or
   changed, no key ever has two rows, and every attempted key ends with exactly one.
   */
  lemma {:induction false} ExactlyOneRowPerKey(log: Log, attempts: seq<Exec>)
    requires UniqueKeys(log)
    ensures log <= InsertAll(log, attempts) && UniqueKeys(InsertAll(log, attempts))
    ensures forall i :: 0 <= i < |attempts| ==> Has(InsertAll(log, attempts), attempts[i].job, attempts[i].at)
    ensures forall i :: |log| <= i < |InsertAll(log, attempts)| ==> InsertAll(log, attempts)[i] in attempts
    decreases |attempts|
  {
    if attempts != [] {
      var e, log' := attempts[0], Insert(log, attempts[0]);
      InsertKeeps(log, e);
      ExactlyOneRowPerKey(log', attempts[1..]);
      var all := InsertAll(log, attempts);
      var k :| 0 <= k < |log'| && log'[k].job == e.job && log'[k].at == e.at;
      assert all[k] == log'[k];
      forall i | 0 <= i < |attempts| ensures Has(all, attempts[i].job, attempts[i].at) {
        if i > 0 { assert attempts[i] == attempts[1..][i - 1]; }
      }
    }
  }

  /** scheduled_at of the newest scheduled row of a job. */
  function Newest(log: Log, job: JobId): Option<int> {
    if log == [] then None
    else
      var older, e := Newest(log[..|log| - 1], job), log[|log| - 1];
      if e.job != job || e.trigger == Manual then older
      else if older.Some? && older.value >= e.at then older
      else Some(e.at)
  }

  lemma {:induction false} NewestIsGreatest(log: Log, job: JobId)
    ensures Newest(log, job).Some? ==> Exec(job, Newest(log, job).value, Scheduled) in log
    ensures forall i :: 0 <= i < |log| && log[i].job == job && log[i].trigger == Scheduled ==>
                          Newest(log, job).Some? && log[i].at <= Newest(log, job).value
  {
    if log != [] {
      NewestIsGreatest(log[..|log| - 1], job);
    }
  }

  const MICROSECOND: int := 1000
  const MAX_INSERT_ATTEMPTS: nat := 5

  function TruncateMicro(t: int): int {
    t - t % MICROSECOND
  }

  datatype Triggered = Inserted(at: int) | Exhausted | Broken

  /** The table on attempt k of a trigger that has inserted nothing yet. */
  function Meanwhile(log: Log, others: nat -> seq<Exec>, k: nat): Log {
    InsertAll(if k == 0 then log else Meanwhile(log, others, k - 1), others(k))
  }

  /** The surroundings of a manual trigger, by attempt; `broken` is a failure other than a duplicate. */
  datatype Surroundings = Surroundings(clock: nat -> int, others: nat -> seq<Exec>, broken: nat -> bool)

  /** A whole number of microseconds. */
  predicate Whole(t: int) {
    t % 1000 == 0
  }

  lemma MicroFacts(t: int)
    ensures Whole(TruncateMicro(t)) && t - 1000 < TruncateMicro(t) <= t
    ensures Whole(t) ==> Whole(t + MICROSECOND)
  {
  }

  /** Strictly later and later timestamps, each of them taken when it was tried. */
  predicate Taken(job: JobId, env: Surroundings, log: Log, tried: seq<int>) {
    && (forall i, j :: 0 <= i < j < |tried| ==> tried[i] < tried[j])
    && (forall i :: 0 <= i < |tried| ==>
          && Whole(tried[i]) && tried[i] > env.clock(i) - 1000 && !env.broken(i)
          && (tried[i] <= env.clock(i) || (i > 0 && tried[i] == tried[i - 1] + 1000))
          && Has(Meanwhile(log, env.others, i), job, tried[i]))
  }

  /** The timestamp of the next attempt. */
  function NextTry(env: Surroundings, tried: seq<int>): int {
    var n, now := |tried|, TruncateMicro(env.clock(|tried|));
    if n > 0 && now <= tried[n - 1] then tried[n - 1] + MICROSECOND else now
  }

  lemma NextIsLater(job: JobId, env: Surroundings, log: Log, tried: seq<int>)
    requires Taken(job, env, log, tried)
    ensures var at := NextTry(env, tried);
            && Whole(at) && at > env.clock(|tried|) - 1000
            && (at <= env.clock(|tried|) || (tried != [] && at == tried[|tried| - 1] + 1000))
            && (forall i :: 0 <= i < |tried| ==> tried[i] < at)
            && (!env.broken(|tried|) && Has(Meanwhile(log, env.others, |tried|), job, at) ==>
                  Taken(job, env, log, tried + [at]))
  {
    hide Has, Meanwhile, TruncateMicro, Whole;
    var n := |tried|;
    MicroFacts(env.clock(n));
    if n > 0 { MicroFacts(tried[n - 1]); }
    assert forall i :: 0 <= i < n ==> tried[i] <= tried[n - 1];
  }

  class Table {
    var rows: Log

    constructor ()
      ensures rows == []
    {
      rows := [];
    }

    method TryInsert(e: Exec) returns (duplicate: bool)
      modifies this
      ensures duplicate <==> Has(old(rows), e.job, e.at)
      ensures rows == Insert(old(rows), e)
    {
      duplicate := Has(rows, e.job, e.at);
      if !duplicate {
        rows := rows + [e];
      }
    }

    /**
     A manual trigger tries up to five distinct microsecond timestamps, while others insert rows.
     `tried` lists the timestamps that were taken.
     */
    method TriggerNow(job: JobId, env: Surroundings) returns (result: Triggered, tried: seq<int>)
      modifies this
      ensures Taken(job, env, old(rows), tried)
      ensures result != Exhausted ==> |tried| < MAX_INSERT_ATTEMPTS && (result == Broken <==> env.broken(|tried|))
      ensures match result
              case Inserted(at) =>
                var before := Meanwhile(old(rows), env.others, |tried|);
                && rows == before + [Exec(job, at, Manual)] && !Has(before, job, at)
                && Whole(at) && at > env.clock(|tried|) - 1000
                && (at <= env.clock(|tried|) || (tried != [] && at == tried[|tried| - 1] + 1000))
                && forall i :: 0 <= i < |tried| ==> tried[i] < at
              case Exhausted =>
                |tried| == MAX_INSERT_ATTEMPTS && rows == Meanwhile(old(rows), env.others, MAX_INSERT_ATTEMPTS - 1)
              case Broken => rows == Meanwhile(old(rows), env.others, |tried|)
    {
      hide InsertAll, Has, TruncateMicro, Taken;
      tried := [];
      NothingTaken(job, env, rows);
      var last: Option<int> := None;
      for attempt := 0 to MAX_INSERT_ATTEMPTS
        invariant |tried| == attempt && Taken(job, env, old(rows), tried)
        invariant rows == if attempt == 0 then old(rows) else Meanwhile(old(rows), env.others, attempt - 1)
        invariant last == if attempt == 0 then None else Some(tried[attempt - 1])
      {
        rows := InsertAll(rows, env.others(attempt));
        var now := TruncateMicro(env.clock(attempt));
        if last.Some? && now <= last.value {
          now := last.value + MICROSECOND;
        }
        last := Some(now);
        NextIsLater(job, env, old(rows), tried);
        if env.broken(attempt) {
          return Broken, tried;
        }
        var duplicate := TryInsert(Exec(job, now, Manual));
        if !duplicate {
          return Inserted(now), tried;
        }
        tried := tried + [now];
      }
      return Exhausted, tried;
    }
  }

  lemma NothingTaken(job: JobId, env: Surroundings, log: Log)
    ensures Taken(job, env, log, [])
  {
  }
}
