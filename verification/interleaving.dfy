/**
 Every insert that leaders and manual triggers attempt, over whole runs of `GapFree`, for all jobs.
 A world puts no restriction on runs when no job has the followed job's id, as with id 0.
 */
module Interleaving {
  import opened Common
  import opened Cron
  import opened Executions
  import opened Scheduler
  import opened GapFree

  /** What one step tries to insert; a failing insert reaches no table. */
  ghost function Attempt(w: World, s: State, ev: Event): seq<Exec>
    requires Enabled(w, s, ev)
  {
    match ev
    case TriggerManually(e) => [e]
    case Fire(l, ok) =>
      var (job, sc) := s.leaders[l].tick.value.scan.value;
      if ok then [Exec(job.id, TruncateMinute(sc.t), Scheduled)] else []
    case _ => []
  }

  ghost function Attempted(w: World, s: State, evs: seq<Event>): seq<Exec>
    requires ValidRun(w, s, evs)
    decreases |evs|
  {
    if evs == [] then [] else Attempt(w, s, evs[0]) + Attempted(w, Apply(w, s, evs[0]), evs[1..])
  }

  lemma StepInserts(w: World, s: State, ev: Event)
    requires Enabled(w, s, ev)
    ensures Apply(w, s, ev).log == InsertAll(s.log, Attempt(w, s, ev)) && |Attempt(w, s, ev)| <= 1
  {
    hide Insert;
    var attempt := Attempt(w, s, ev);
    if attempt != [] {
      assert attempt[1..] == [] && InsertAll(Insert(s.log, attempt[0]), []) == Insert(s.log, attempt[0]);
    }
  }

  lemma InsertFront(log: Log, a: seq<Exec>, b: seq<Exec>)
    requires |a| <= 1
    ensures InsertAll(log, a + b) == InsertAll(InsertAll(log, a), b)
  {
    if a == [] {
      assert a + b == b;
    } else {
      assert (a + b)[1..] == b && a[1..] == [];
    }
  }

  /** The table at the end of a run is what its attempts, in their order, make of the first one. */
  lemma {:induction false} RunInserts(w: World, s: State, evs: seq<Event>)
    requires ValidRun(w, s, evs)
    ensures Final(w, s, evs).log == InsertAll(s.log, Attempted(w, s, evs))
    decreases |evs|
  {
    hide Enabled, Apply, Attempt, InsertAll;
    if evs == [] {
      assert InsertAll(s.log, []) == s.log by { InsertNothing(s.log); }
    } else {
      var s' := Apply(w, s, evs[0]);
      StepInserts(w, s, evs[0]);
      RunInserts(w, s', evs[1..]);
      InsertFront(s.log, Attempt(w, s, evs[0]), Attempted(w, s', evs[1..]));
    }
  }

  lemma InsertNothing(log: Log)
    ensures InsertAll(log, []) == log
  {
  }

  ghost predicate ExactlyOne(log: Log, job: JobId, at: int) {
    exists i :: 0 <= i < |log| && log[i].job == job && log[i].at == at
                && forall k :: 0 <= k < |log| && log[k].job == job && log[k].at == at ==> k == i
  }

  lemma OneRow(log: Log, job: JobId, at: int)
    requires UniqueKeys(log) && Has(log, job, at)
    ensures ExactlyOne(log, job, at)
  {
  }

  /** A scan position that some step of the run fires is among the attempts. */
  lemma {:induction false} ScannedIsAttempted(w: World, s: State, evs: seq<Event>, i: nat)
    requires ValidRun(w, s, evs) && i < |evs|
    ensures ValidRun(w, s, evs[..i]) && Enabled(w, Final(w, s, evs[..i]), evs[i])
    ensures forall e :: e in Attempt(w, Final(w, s, evs[..i]), evs[i]) ==> e in Attempted(w, s, evs)
    decreases |evs|
  {
    hide Enabled, Apply, Attempt;
    if i == 0 {
      assert evs[..0] == [];
    } else {
      ScannedIsAttempted(w, Apply(w, s, evs[0]), evs[1..], i - 1);
      assert evs[..i][0] == evs[0] && evs[..i][1..] == evs[1..][..i - 1] && evs[1..][i - 1] == evs[i];
    }
  }

  /**
   However stale and current leaders and manual triggers interleave: no key ever has two rows, each
   row was attempted, and each (job, minute) that any leader fired at any step, for any job, and each
   manual key, has exactly one row at the end.
   */
  lemma EveryScannedSlotHasOneRow(w: World, evs: seq<Event>)
    requires ValidRun(w, INIT, evs)
    ensures var log := Final(w, INIT, evs).log;
            && UniqueKeys(log)
            && (forall i :: 0 <= i < |log| ==> log[i] in Attempted(w, INIT, evs))
    ensures forall i | 0 <= i < |evs| ::
              && ValidRun(w, INIT, evs[..i])
              && var s := Final(w, INIT, evs[..i]);
              && Enabled(w, s, evs[i])
              && forall e :: e in Attempt(w, s, evs[i]) ==> ExactlyOne(Final(w, INIT, evs).log, e.job, e.at)
  {
    hide Enabled, Apply, Attempt, UniqueKeys, Has, ExactlyOne, InsertAll;
    var log, attempts := Final(w, INIT, evs).log, Attempted(w, INIT, evs);
    RunInserts(w, INIT, evs);
    assert UniqueKeys([]) by { NoRows(); }
    ExactlyOneRowPerKey([], attempts);
    forall i | 0 <= i < |evs|
      ensures ValidRun(w, INIT, evs[..i]) && Enabled(w, Final(w, INIT, evs[..i]), evs[i])
      ensures forall e :: e in Attempt(w, Final(w, INIT, evs[..i]), evs[i]) ==> ExactlyOne(log, e.job, e.at)
    {
      ScannedIsAttempted(w, INIT, evs, i);
      forall e | e in Attempt(w, Final(w, INIT, evs[..i]), evs[i]) ensures ExactlyOne(log, e.job, e.at) {
        OneRow(log, e.job, e.at);
      }
    }
  }

  lemma NoRows()
    ensures UniqueKeys([])
  {
  }
}
