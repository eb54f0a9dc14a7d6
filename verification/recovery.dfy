/**
 Recovery of claimed rows: what the reconciler's requeue guarantees, on top of `Lifecycle`, with
 no assumption at all about how long workers take.
 */
module Recovery {
  import opened Common
  import opened Dispatch
  import opened Lifecycle

  predicate InFlight(s: State, e: ExecId, c: int) {
    e in s.rows && s.rows[e] == Row(InProgress, Some(c))
  }

  predicate IsAhead(s: State, e: ExecId, c: int, x: ExecId) {
    && x in s.rows && x != e
    && (if x in s.locks then s.locks[x] in s.workers && s.workers[s.locks[x]].Selecting?
                             && s.workers[s.locks[x]].txStart <= c
        else s.rows[x].status == InProgress && s.rows[x].claimedAt.Some? && s.rows[x].claimedAt.value <= c)
  }

  /** Rows whose claim, made or being made, may sort before the claim `c` of row `e`. */
  function Ahead(s: State, e: ExecId, c: int): set<ExecId> {
    set x | x in s.rows && IsAhead(s, e, c, x)
  }

  function Cycles(evs: seq<Event>): nat {
    if evs == [] then 0 else (if evs[0].Requeue? then 1 else 0) + Cycles(evs[1..])
  }

  /** Nothing that happens later gets in front of an older claim. */
  lemma AheadShrinks(p: Params, s: State, ev: Event, e: ExecId, c: int)
    requires Inv(s) && Enabled(p, s, ev) && InFlight(s, e, c) && c < s.now
    ensures Ahead(Apply(p, s, ev), e, c) <= Ahead(s, e, c)
  {
    var s' := Apply(p, s, ev);
    forall x | x in Ahead(s', e, c) ensures x in Ahead(s, e, c) {
      if x in s.rows { assert RowOk(s, x); }
      if x in s.locks { assert LockOk(s, x); }
      if ev.Claim? || ev.Leave? { assert WorkerOk(s, ev.worker); }
      assert IsAhead(s, e, c, x);
    }
  }

  /** A full batch that leaves row `e` behind consists of rows that were ahead of it. */
  lemma CycleShrinks(p: Params, s: State, cutoff: int, picked: set<ExecId>, e: ExecId, c: int)
    requires Inv(s) && Enabled(p, s, Requeue(cutoff, picked)) && InFlight(s, e, c) && c < s.now && c < cutoff
    requires e !in picked
    ensures |Ahead(Apply(p, s, Requeue(cutoff, picked)), e, c)| + p.batch <= |Ahead(s, e, c)|
  {
    var s' := Apply(p, s, Requeue(cutoff, picked));
    assert forall x :: x in s.locks ==> LockOk(s, x);
    assert Stale(s, e, cutoff);
    forall x | x in picked ensures x in Ahead(s, e, c) && x !in Ahead(s', e, c) {
      assert Stale(s, x, cutoff);
    }
    AheadShrinks(p, s, Requeue(cutoff, picked), e, c);
    Disjoint(Ahead(s', e, c), picked, Ahead(s, e, c));
  }

  lemma Disjoint(a: set<ExecId>, b: set<ExecId>, all: set<ExecId>)
    requires a <= all && b <= all && a !! b
    ensures |a| + |b| <= |all|
  {
    assert |a + b| == |a| + |b|;
    Subset(a + b, all);
  }

  lemma Subset(a: set<ExecId>, b: set<ExecId>)
    requires a <= b
    ensures |a| <= |b|
  {
    assert b == a + (b - a);
  }

  lemma OneMore(p: Params, s: State, evs: seq<Event>, i: nat)
    requires evs != [] && Enabled(p, s, evs[0]) && i <= |evs| - 1
    requires ValidRun(p, Apply(p, s, evs[0]), evs[1..][..i])
    ensures ValidRun(p, s, evs[..i + 1])
    ensures Final(p, s, evs[..i + 1]) == Final(p, Apply(p, s, evs[0]), evs[1..][..i])
  {
    assert evs[..i + 1][0] == evs[0] && evs[..i + 1][1..] == evs[1..][..i];
  }

  /** While row `e` stays claimed, every late enough cycle uses up a whole batch of the rows ahead. */
  lemma StillAhead(p: Params, s: State, evs: seq<Event>, e: ExecId, c: int)
    requires Inv(s) && c < s.now && evs != [] && Enabled(p, s, evs[0])
    requires InFlight(s, e, c) && InFlight(Apply(p, s, evs[0]), e, c)
    requires evs[0].Requeue? ==> c < evs[0].cutoff
    requires Cycles(evs) * p.batch > |Ahead(s, e, c)|
    ensures Cycles(evs[1..]) * p.batch > |Ahead(Apply(p, s, evs[0]), e, c)|
  {
    hide Inv, Enabled, Ahead;
    var ev, n := evs[0], Cycles(evs[1..]);
    if ev.Requeue? {
      assert e !in ev.picked;
      CycleShrinks(p, s, ev.cutoff, ev.picked, e, c);
      assert Cycles(evs) == 1 + n;
      assert (1 + n) * p.batch == p.batch + n * p.batch;
    } else {
      assert Cycles(evs) == n;
      AheadShrinks(p, s, ev, e, c);
      Subset(Ahead(Apply(p, s, ev), e, c), Ahead(s, e, c));
    }
  }

  predicate Out(s: State, e: ExecId) {
    e in s.rows && s.rows[e].status != InProgress
  }

  /** A claim ends by requeue or by a terminal write, never by another claim. */
  lemma OneWayOut(p: Params, s: State, ev: Event, e: ExecId, c: int)
    requires Inv(s) && Enabled(p, s, ev) && InFlight(s, e, c) && !InFlight(Apply(p, s, ev), e, c)
    ensures Out(Apply(p, s, ev), e)
  {
    hide Limit;
    assert ev.Claim? ==> WorkerOk(s, ev.worker) && LockOk(s, s.workers[ev.worker].exec);
  }

  lemma {:induction false} LeavesEventually(p: Params, s: State, evs: seq<Event>, e: ExecId, c: int) returns (i: nat)
    requires Inv(s) && c < s.now && ValidRun(p, s, evs) && InFlight(s, e, c)
    requires forall j | 0 <= j < |evs| && evs[j].Requeue? :: c < evs[j].cutoff
    requires Cycles(evs) * p.batch > |Ahead(s, e, c)|
    ensures i <= |evs| && ValidRun(p, s, evs[..i]) && Out(Final(p, s, evs[..i]), e)
    decreases |evs|
  {
    hide Inv, Enabled, Ahead, InFlight, Out;
    assert evs != [];
    var s' := Apply(p, s, evs[0]);
    InvStep(p, s, evs[0]);
    if InFlight(s', e, c) {
      StillAhead(p, s, evs, e, c);
      i := LeavesEventually(p, s', evs[1..], e, c);
    } else {
      i := 0;
      OneWayOut(p, s, evs[0], e, c);
      assert evs[1..][..0] == [] && ValidRun(p, s', []) && Final(p, s', []) == s';
    }
    OneMore(p, s, evs, i);
    i := i + 1;
  }

  /**
   Requeue is fair: a stale claim with k claims ahead of it leaves in_progress within k / batch + 1
   successful cycles, whatever else happens meanwhile and however many newer claims arrive.
   */
  lemma RequeueIsFair(p: Params, s: State, evs: seq<Event>, e: ExecId, c: int)
    requires Inv(s) && c < s.now && ValidRun(p, s, evs) && InFlight(s, e, c) && p.batch >= 1
    requires forall j | 0 <= j < |evs| && evs[j].Requeue? :: c < evs[j].cutoff
    requires Cycles(evs) >= |Ahead(s, e, c)| / p.batch + 1
    ensures exists i :: 0 <= i <= |evs| && ValidRun(p, s, evs[..i]) && Out(Final(p, s, evs[..i]), e)
  {
    MoreThanQuotient(Cycles(evs), |Ahead(s, e, c)|, p.batch);
    var i := LeavesEventually(p, s, evs, e, c);
  }

  // ---------- nothing is beyond recovery ----------

  lemma {:induction false} OldestOf(s: State, xs: set<ExecId>) returns (m: ExecId)
    requires xs != {} && forall x :: x in xs ==> x in s.rows && s.rows[x].claimedAt.Some?
    ensures m in xs && forall x :: x in xs ==> s.rows[m].claimedAt.value <= s.rows[x].claimedAt.value
    decreases |xs|
  {
    m :| m in xs;
    if xs != {m} {
      var n := OldestOf(s, xs - {m});
      if s.rows[n].claimedAt.value < s.rows[m].claimedAt.value {
        m := n;
      }
    }
  }

  lemma {:induction false} PickOldest(s: State, xs: set<ExecId>, n: nat) returns (picked: set<ExecId>)
    requires forall x :: x in xs ==> x in s.rows && s.rows[x].claimedAt.Some?
    ensures picked <= xs && |picked| <= n && (|picked| < n ==> picked == xs)
    ensures forall a, b :: a in picked && b in xs - picked ==> s.rows[a].claimedAt.value <= s.rows[b].claimedAt.value
    decreases n
  {
    if n == 0 || xs == {} {
      picked := {};
    } else {
      var m := OldestOf(s, xs);
      var rest := PickOldest(s, xs - {m}, n - 1);
      picked := rest + {m};
      assert xs - picked == xs - {m} - rest;
    }
  }

  /** A requeue cycle can always run. */
  lemma CycleExists(p: Params, s: State, cutoff: int) returns (picked: set<ExecId>)
    requires cutoff <= s.now + p.skew - p.threshold
    ensures Enabled(p, s, Requeue(cutoff, picked))
  {
    picked := PickOldest(s, StaleRows(s, cutoff), p.batch);
  }

  predicate Claimable(s: State, e: ExecId) {
    e in s.rows && s.rows[e] == Row(Emitted, None) && e !in s.locks
  }

  ghost predicate CanReclaim(p: Params, s: State, e: ExecId) {
    exists evs :: ValidRun(p, s, evs) && Claimable(Final(p, s, evs), e)
  }

  lemma ReclaimAfter(p: Params, s: State, ev: Event, e: ExecId)
    requires Enabled(p, s, ev) && CanReclaim(p, Apply(p, s, ev), e)
    ensures CanReclaim(p, s, e)
  {
    var evs :| ValidRun(p, Apply(p, s, ev), evs) && Claimable(Final(p, Apply(p, s, ev), evs), e);
    var all := [ev] + evs;
    assert all[0] == ev && all[1..] == evs;
    assert ValidRun(p, s, all) && Final(p, s, all) == Final(p, Apply(p, s, ev), evs);
  }

  lemma {:induction false} RequeueReaches(p: Params, s: State, e: ExecId, cutoff: int)
    requires Inv(s) && p.batch >= 1 && cutoff <= s.now + p.skew - p.threshold
    requires Stale(s, e, cutoff)
    ensures CanReclaim(p, s, e)
    decreases |StaleRows(s, cutoff)|
  {
    var picked := CycleExists(p, s, cutoff);
    var ev := Requeue(cutoff, picked);
    var s' := Apply(p, s, ev);
    InvStep(p, s, ev);
    if e in picked {
      assert ValidRun(p, s', []) && Final(p, s', []) == s';
    } else {
      assert e in StaleRows(s, cutoff) && |picked| == p.batch;
      assert StaleRows(s', cutoff) == StaleRows(s, cutoff) - picked;
      RequeueReaches(p, s', e, cutoff);
    }
    ReclaimAfter(p, s, ev, e);
  }

  /**
   No unfinished execution is ever beyond recovery: from every reachable state, after any crashes,
   lost commits and deferrals, some continuation makes the row claimable again.
   */
  lemma NothingIsLost(p: Params, evs: seq<Event>, e: ExecId)
    requires p.batch >= 1 && ValidRun(p, INIT, evs)
    requires e in Final(p, INIT, evs).rows && !Final(p, INIT, evs).rows[e].status.Finished?
    ensures CanReclaim(p, Final(p, INIT, evs), e)
  {
    InvRun(p, INIT, evs);
    var s := Final(p, INIT, evs);
    assert RowOk(s, e);
    if e in s.locks {
      assert LockOk(s, e);
      var ev := Leave(s.locks[e]);
      var s' := Apply(p, s, ev);
      assert ValidRun(p, s', []) && Final(p, s', []) == s' && Claimable(s', e);
      ReclaimAfter(p, s, ev, e);
    } else if s.rows[e].status == Emitted {
      assert ValidRun(p, s, []) && Final(p, s, []) == s;
    } else {
      var cutoff := s.rows[e].claimedAt.value + 1;
      var ev := Tick(Max(0, cutoff + p.threshold - p.skew - s.now));
      InvStep(p, s, ev);
      var s' := Apply(p, s, ev);
      assert Stale(s', e, cutoff);
      RequeueReaches(p, s', e, cutoff);
      ReclaimAfter(p, s, ev, e);
    }
  }
}
