/**
 The statements of the Postgres store on executions, as methods that change the table, and the steps
 of `Lifecycle` that they are.
 */
module ExecutionStore {
  import opened Common
  import opened Dispatch
  import opened Lifecycle

  type Rows = map<ExecId, Row>

  function Claimed(rows: Rows, e: ExecId, now: int): Rows {
    rows[e := Row(InProgress, Some(now))]
  }

  function Written(rows: Rows, e: ExecId, status: Terminal): Rows {
    if e in rows && !rows[e].status.Finished? then rows[e := rows[e].(status := Finished(status))] else rows
  }

  function Requeued(rows: Rows, picked: set<ExecId>): Rows {
    map e | e in rows :: if e in picked then Row(Emitted, None) else rows[e]
  }

  /** ORDER BY key ASC LIMIT 1. */
  method Oldest(key: map<ExecId, int>, xs: set<ExecId>) returns (m: ExecId)
    requires xs != {} && xs <= key.Keys
    ensures m in xs && forall x :: x in xs ==> key[m] <= key[x]
  {
    m :| m in xs;
    var todo := xs - {m};
    while todo != {}
      invariant todo <= xs && m in xs
      invariant forall x :: x in xs - todo ==> key[m] <= key[x]
      decreases todo
    {
      var x :| x in todo;
      if key[x] < key[m] {
        m := x;
      }
      todo := todo - {x};
    }
  }

  /** ORDER BY key ASC LIMIT limit. */
  method OldestFirst(key: map<ExecId, int>, xs: set<ExecId>, limit: nat) returns (picked: set<ExecId>)
    requires xs <= key.Keys
    ensures picked <= xs && |picked| <= limit && (|picked| < limit ==> picked == xs)
    ensures forall a, b :: a in picked && b in xs - picked ==> key[a] <= key[b]
  {
    var rest := xs;
    picked := {};
    while |picked| < limit && rest != {}
      invariant rest == xs - picked && picked <= xs && |picked| <= limit
      invariant forall a, b :: a in picked && b in rest ==> key[a] <= key[b]
      decreases rest
    {
      var e := Oldest(key, rest);
      picked, rest := picked + {e}, rest - {e};
    }
  }

  datatype Reply = Updated | TransitionDenied | NotFound

  /** `created` is created_at; `locks` are the row locks of other transactions. */
  class Store {
    var rows: Rows
    var created: map<ExecId, int>
    var locks: map<ExecId, WorkerId>

    ghost predicate Valid()
      reads this
    {
      rows.Keys <= created.Keys
    }

    constructor ()
      ensures Valid() && rows == map[] && locks == map[]
    {
      rows, created, locks := map[], map[], map[];
    }

    /** The two statements of the claiming transaction, which nothing comes between. */
    method DequeueExecution(now: int) returns (claimed: Option<ExecId>)
      requires Valid()
      modifies this`rows
      ensures Valid()
      ensures claimed.None? ==> rows == old(rows) && forall e :: e in rows && rows[e].status == Emitted ==> e in locks
      ensures claimed.Some? ==>
                var e := claimed.value;
                && e in old(rows) && old(rows)[e].status == Emitted && e !in locks
                && (forall x :: x in old(rows) && old(rows)[x].status == Emitted && x !in locks ==>
                                  created[e] <= created[x])
                && rows == old(rows)[e := Row(InProgress, Some(now))]
    {
      var waiting := set e | e in rows && rows[e].status == Emitted && e !in locks;
      if waiting == {} {
        assert forall e :: e in rows && rows[e].status == Emitted && e !in locks ==> e in waiting;
        return None;
      }
      var e := Oldest(created, waiting);
      rows := rows[e := Row(InProgress, Some(now))];
      return Some(e);
    }

    /** A guarded UPDATE; when it changes nothing, a second query tells why. */
    method UpdateExecutionStatus(e: ExecId, status: Terminal) returns (reply: Reply)
      requires Valid()
      modifies this`rows
      ensures Valid()
      ensures if e in old(rows) && !old(rows)[e].status.Finished?
              then rows == old(rows)[e := Row(Finished(status), old(rows)[e].claimedAt)]
              else rows == old(rows)
      ensures reply == NotFound <==> e !in old(rows)
      ensures reply == TransitionDenied <==> e in old(rows) && old(rows)[e].status.Finished?
    {
      var affected := 0;
      if e in rows && !rows[e].status.Finished? {
        rows := rows[e := rows[e].(status := Finished(status))];
        affected := 1;
      }
      if affected == 0 {
        return if e !in rows then NotFound else TransitionDenied;
      }
      return Updated;
    }

    /** Requeues the oldest stale claims, at most `limit` of them. */
    method RequeueStaleExecutions(cutoff: int, limit: nat) returns (affected: nat, picked: set<ExecId>)
      requires Valid()
      modifies this`rows
      ensures Valid() && affected == |picked| && rows.Keys == old(rows).Keys
      ensures forall e :: e in rows ==> rows[e] == if e in picked then Row(Emitted, None) else old(rows)[e]
      ensures OldestBatch(State(0, old(rows), locks, map[]), cutoff, limit, picked)
    {
      ghost var s := State(0, rows, locks, map[]);
      var claims := map e | e in rows && rows[e].claimedAt.Some? :: rows[e].claimedAt.value;
      var stale := set e | e in claims && rows[e].status == InProgress && claims[e] < cutoff && e !in locks;
      assert stale == StaleRows(s, cutoff);
      picked := OldestFirst(claims, stale, limit);
      assert OldestBatch(s, cutoff, limit, picked);
      rows := Requeued(rows, picked);
      assert rows.Keys == s.rows.Keys;
      affected := |picked|;
    }
  }

  /** What each statement leaves behind is what its steps leave behind. */
  lemma DequeueIsSelectThenClaim(p: Params, s: State, w: WorkerId, e: ExecId)
    requires w !in s.workers && e in s.rows && s.rows[e].status == Emitted && e !in s.locks
    ensures Enabled(p, s, Select(w, e)) && Enabled(p, Apply(p, s, Select(w, e)), Claim(w, true))
    ensures Apply(p, Apply(p, s, Select(w, e)), Claim(w, true)) ==
            s.(rows := Claimed(s.rows, e, s.now),
               workers := s.workers[w := Delivering(e, s.now, Loading, s.now + p.limits.op)])
  {
    var s1 := Apply(p, s, Select(w, e));
    assert s1.locks - {e} == s.locks;
    assert s1.workers - {w} == s.workers;
  }

  /** For every limit and cutoff, one call of the reconciler is one step of the run. */
  lemma RequeueIsOneStep(p: Params, s: State, cutoff: int, picked: set<ExecId>)
    requires cutoff <= s.now + p.skew - p.threshold
             && OldestBatch(State(0, s.rows, s.locks, map[]), cutoff, p.batch, picked)
    ensures Enabled(p, s, Requeue(cutoff, picked))
    ensures Apply(p, s, Requeue(cutoff, picked)) == s.(rows := Requeued(s.rows, picked))
  {
    assert StaleRows(State(0, s.rows, s.locks, map[]), cutoff) == StaleRows(s, cutoff);
  }

  /** The terminal write of a delivery, whether or not the row is already final. */
  lemma UpdateIsWrite(p: Params, s: State, w: WorkerId)
    requires Enabled(p, s, Write(w))
    ensures Apply(p, s, Write(w)) ==
            s.(rows := Written(s.rows, s.workers[w].exec, s.workers[w].phase.status), workers := s.workers - {w})
  {
    var e := s.workers[w].exec;
    assert s.rows[e := s.rows[e]] == s.rows;
  }
}
