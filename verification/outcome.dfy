/**
 What the final status of an execution says: over every run of `Lifecycle`, it is the verdict of the
 last response that the delivery which wrote it had got.
 */
module Outcomes {
  import opened Common
  import opened Dispatch
  import opened Lifecycle

  /** The state after the first i steps of a run. */
  ghost function StateAt(p: Params, h: seq<Event>, i: nat): State
    requires ValidRun(p, INIT, h) && i <= |h|
  {
    PrefixIsValid(p, INIT, h, i);
    Final(p, INIT, h[..i])
  }

  lemma {:induction false} PrefixIsValid(p: Params, s: State, h: seq<Event>, i: nat)
    requires ValidRun(p, s, h) && i <= |h|
    ensures ValidRun(p, s, h[..i])
    ensures i < |h| ==> Enabled(p, Final(p, s, h[..i]), h[i])
    ensures i < |h| ==> ValidRun(p, s, h[..i + 1]) && Final(p, s, h[..i + 1]) == Apply(p, Final(p, s, h[..i]), h[i])
    decreases i
  {
    hide Enabled, Apply;
    if i > 0 {
      PrefixIsValid(p, Apply(p, s, h[0]), h[1..], i - 1);
      assert h[..i][1..] == h[1..][..i - 1];
    }
    if i < |h| {
      assert h[..i + 1][1..] == h[1..][..i];
      assert i == 0 ==> h[1..][..0] == [];
    }
  }

  lemma NextState(p: Params, h: seq<Event>, i: nat)
    requires ValidRun(p, INIT, h) && i < |h|
    ensures Enabled(p, StateAt(p, h, i), h[i]) && StateAt(p, h, i + 1) == Apply(p, StateAt(p, h, i), h[i])
    ensures Inv(StateAt(p, h, i))
  {
    hide Enabled, Apply, Inv;
    PrefixIsValid(p, INIT, h, i);
    assert Inv(INIT) by { InitOk(); }
    InvRun(p, INIT, h[..i]);
  }

  lemma InitOk()
    ensures Inv(INIT)
  {
  }

  /** Worker w gets an answer, or starts over with a new claim. */
  predicate Touches(ev: Event, w: WorkerId) {
    (ev.SendDone? || ev.Claim?) && ev.worker == w
  }

  /** Step j is where worker w, before step i, got the last response of its delivery of e. */
  ghost predicate LastResponse(p: Params, h: seq<Event>, i: nat, w: WorkerId, e: ExecId, j: nat)
    requires ValidRun(p, INIT, h) && i <= |h|
  {
    && j < i && h[j].SendDone? && h[j].worker == w
    && w in StateAt(p, h, j).workers && StateAt(p, h, j).workers[w].exec == e
    && (forall k :: j < k < i ==> !Touches(h[k], w))
  }

  /** Delivered for an answer in 200..299, failed for anything else. */
  function Verdict(r: WebhookResult): Terminal {
    if !r.failed && 200 <= r.statusCode < 300 then Delivered else Failed
  }

  predicate Answered(ph: Phase) {
    ph.Recording? || ph.Writing?
  }

  /** What a worker has decided is what its last response says. */
  predicate Decided(ph: Phase, r: WebhookResult) {
    (ph.Recording? ==> ph.result == r) && (ph.Writing? ==> ph.status == Verdict(r))
  }

  lemma {:induction false} DecisionsFollowResponses(p: Params, h: seq<Event>, i: nat, w: WorkerId) returns (j: nat)
    requires ValidRun(p, INIT, h) && i <= |h|
    requires At(StateAt(p, h, i), w) && Answered(StateAt(p, h, i).workers[w].phase)
    ensures LastResponse(p, h, i, w, StateAt(p, h, i).workers[w].exec, j)
    ensures Decided(StateAt(p, h, i).workers[w].phase, h[j].result)
    decreases i
  {
    hide Limit, Inv, StateAt, ValidRun;
    if i == 0 {
      StartsEmpty(p, h);
    } else {
      var s, ev := StateAt(p, h, i - 1), h[i - 1];
      NextState(p, h, i - 1);
      if ev.SendDone? && ev.worker == w {
        j := i - 1;
      } else {
        AnsweredBefore(p, s, ev, w);
        j := DecisionsFollowResponses(p, h, i - 1, w);
      }
    }
  }

  lemma StartsEmpty(p: Params, h: seq<Event>)
    requires ValidRun(p, INIT, h)
    ensures StateAt(p, h, 0) == INIT
  {
    assert h[..0] == [];
  }

  /** Only an answer puts a worker where it has one; after that it decides by that answer. */
  lemma AnsweredBefore(p: Params, s: State, ev: Event, w: WorkerId)
    requires Enabled(p, s, ev) && !(ev.SendDone? && ev.worker == w)
    requires var s' := Apply(p, s, ev); At(s', w) && Answered(s'.workers[w].phase)
    ensures At(s, w) && Answered(s.workers[w].phase) && !Touches(ev, w)
    ensures s.workers[w].exec == Apply(p, s, ev).workers[w].exec
    ensures forall r :: Decided(s.workers[w].phase, r) ==> Decided(Apply(p, s, ev).workers[w].phase, r)
  {
    hide Limit;
  }

  /** Step i is a terminal write on e that finds the row unfinished. */
  ghost predicate AcceptedWrite(p: Params, h: seq<Event>, i: nat, e: ExecId)
    requires ValidRun(p, INIT, h) && i < |h|
  {
    var s := StateAt(p, h, i);
    && h[i].Write? && h[i].worker in s.workers && s.workers[h[i].worker].exec == e
    && e in s.rows && !s.rows[e].status.Finished?
  }

  /** The accepted write of step i, by a worker whose last response came at step j. */
  ghost predicate WrittenAt(p: Params, h: seq<Event>, e: ExecId, i: nat, j: nat)
    requires ValidRun(p, INIT, h)
  {
    i < |h| && AcceptedWrite(p, h, i, e) && LastResponse(p, h, i, h[i].worker, e, j)
  }

  lemma WriteStep(p: Params, h: seq<Event>, i: nat, e: ExecId)
    requires ValidRun(p, INIT, h) && i < |h|
    ensures var s, s' := StateAt(p, h, i), StateAt(p, h, i + 1);
            && (e in s.rows && s.rows[e].status.Finished? ==> e in s'.rows && s'.rows[e] == s.rows[e])
            && (!AcceptedWrite(p, h, i, e) && !(e in s.rows && s.rows[e].status.Finished?) ==>
                  !(e in s'.rows && s'.rows[e].status.Finished?))
            && (AcceptedWrite(p, h, i, e) ==>
                  && At(s, h[i].worker) && s.workers[h[i].worker].phase.Writing?
                  && e in s'.rows && s'.rows[e].claimedAt == s.rows[e].claimedAt
                  && s'.rows[e].status == Finished(s.workers[h[i].worker].phase.status))
  {
    hide Limit, StateAt;
    NextState(p, h, i);
    var s, ev := StateAt(p, h, i), h[i];
    assert ev.Claim? ==> WorkerOk(s, ev.worker) && LockOk(s, s.workers[ev.worker].exec);
    assert ev.Requeue? ==> forall f :: f in ev.picked ==> Stale(s, f, ev.cutoff);
  }

  /** A row is unfinished as long as nobody's write on it has been accepted. */
  ghost predicate Unwritten(p: Params, h: seq<Event>, n: nat, e: ExecId)
    requires ValidRun(p, INIT, h) && n <= |h|
  {
    forall i :: 0 <= i < n ==> !AcceptedWrite(p, h, i, e)
  }

  lemma {:induction false} UnwrittenIsUnfinished(p: Params, h: seq<Event>, n: nat, e: ExecId)
    requires ValidRun(p, INIT, h) && n <= |h| && Unwritten(p, h, n, e)
    ensures !(e in StateAt(p, h, n).rows && StateAt(p, h, n).rows[e].status.Finished?)
    decreases n
  {
    hide StateAt, AcceptedWrite;
    if n == 0 {
      StartsEmpty(p, h);
    } else {
      UnwrittenIsUnfinished(p, h, n - 1, e);
      WriteStep(p, h, n - 1, e);
    }
  }

  lemma {:induction false} StaysWritten(p: Params, h: seq<Event>, i: nat, n: nat, e: ExecId)
    requires ValidRun(p, INIT, h) && i <= n <= |h|
    requires e in StateAt(p, h, i).rows && StateAt(p, h, i).rows[e].status.Finished?
    ensures e in StateAt(p, h, n).rows && StateAt(p, h, n).rows[e] == StateAt(p, h, i).rows[e]
    decreases n - i
  {
    hide StateAt;
    if i < n {
      WriteStep(p, h, i, e);
      StaysWritten(p, h, i + 1, n, e);
    }
  }

  /** An accepted write has a response behind it, and its verdict is the row's status from then on. */
  lemma AcceptedWriteDecides(p: Params, h: seq<Event>, i: nat, e: ExecId) returns (j: nat)
    requires ValidRun(p, INIT, h) && i < |h| && AcceptedWrite(p, h, i, e)
    ensures WrittenAt(p, h, e, i, j)
    ensures e in Final(p, INIT, h).rows && Final(p, INIT, h).rows[e].status == Finished(Verdict(h[j].result))
  {
    WriteStep(p, h, i, e);
    j := DecisionsFollowResponses(p, h, i, h[i].worker);
    StaysWritten(p, h, i + 1, |h|, e);
    assert h[..|h|] == h;
  }

  /** At most one write on a row is accepted. */
  lemma OneAcceptedWrite(p: Params, h: seq<Event>, e: ExecId, i: nat, k: nat)
    requires ValidRun(p, INIT, h) && i < k < |h| && AcceptedWrite(p, h, i, e)
    ensures !AcceptedWrite(p, h, k, e)
  {
    WriteStep(p, h, i, e);
    StaysWritten(p, h, i + 1, k, e);
  }

  /**
   After any run, a row is delivered (or failed) if and only if the one accepted write on it came from
   a delivery of that row whose last response was (or was not) a success.
   */
  lemma StatusIsTheVerdict(p: Params, h: seq<Event>, e: ExecId, t: Terminal)
    requires ValidRun(p, INIT, h)
    ensures e in Final(p, INIT, h).rows && Final(p, INIT, h).rows[e].status == Finished(t) <==>
            exists i: nat, j: nat :: WrittenAt(p, h, e, i, j) && Verdict(h[j].result) == t
  {
    hide AcceptedWrite, StateAt;
    if Unwritten(p, h, |h|, e) {
      UnwrittenIsUnfinished(p, h, |h|, e);
      WholeRun(p, h);
    } else {
      var i :| 0 <= i < |h| && AcceptedWrite(p, h, i, e);
      var j := AcceptedWriteDecides(p, h, i, e);
      forall i': nat, j': nat | WrittenAt(p, h, e, i', j') ensures Verdict(h[j'].result) == Verdict(h[j].result) {
        OnlyOne(p, h, e, i, j, i', j');
      }
    }
  }

  lemma WholeRun(p: Params, h: seq<Event>)
    requires ValidRun(p, INIT, h)
    ensures StateAt(p, h, |h|) == Final(p, INIT, h)
  {
    assert h[..|h|] == h;
  }

  lemma OnlyOne(p: Params, h: seq<Event>, e: ExecId, i: nat, j: nat, i': nat, j': nat)
    requires ValidRun(p, INIT, h) && WrittenAt(p, h, e, i, j) && WrittenAt(p, h, e, i', j')
    ensures i == i' && j == j'
  {
    hide StateAt, ValidRun;
    if i < i' { OneAcceptedWrite(p, h, e, i, i'); }
    if i' < i { OneAcceptedWrite(p, h, e, i', i); }
    assert Touches(h[j], h[i].worker) && Touches(h[j'], h[i'].worker);
  }

  /** In particular nothing is marked delivered unless some request for it was answered with 2xx. */
  lemma DeliveredWasAnswered(p: Params, h: seq<Event>, e: ExecId)
    requires ValidRun(p, INIT, h)
    requires e in Final(p, INIT, h).rows && Final(p, INIT, h).rows[e].status == Finished(Delivered)
    ensures exists j :: && 0 <= j < |h| && h[j].SendDone? && !h[j].result.failed && 200 <= h[j].result.statusCode < 300
                        && h[j].worker in StateAt(p, h, j).workers && StateAt(p, h, j).workers[h[j].worker].exec == e
  {
    hide StateAt, AcceptedWrite;
    StatusIsTheVerdict(p, h, e, Delivered);
    var i: nat, j: nat :| WrittenAt(p, h, e, i, j) && Verdict(h[j].result) == Delivered;
  }

  // ---------- the life of a row ----------

  /** The only ways in which a row comes into being or changes. */
  predicate Transition(s: State, ev: Event, e: ExecId, before: Option<Row>, after: Option<Row>) {
    match ev
    case Insert(x) => x == e && before == None && after == Some(Row(Emitted, None))
    case Claim(w, _) =>
      && w in s.workers && s.workers[w].Selecting? && s.workers[w].exec == e
      && before == Some(Row(Emitted, None)) && after == Some(Row(InProgress, Some(s.workers[w].txStart)))
    case Write(w) =>
      && At(s, w) && s.workers[w].exec == e && s.workers[w].phase.Writing?
      && before.Some? && !before.value.status.Finished?
      && after == Some(Row(Finished(s.workers[w].phase.status), before.value.claimedAt))
    case Requeue(cutoff, picked) =>
      && e in picked && before.Some? && before.value.status == InProgress
      && before.value.claimedAt.Some? && before.value.claimedAt.value < cutoff
      && after == Some(Row(Emitted, None))
    case _ => false
  }

  function RowOf(s: State, e: ExecId): Option<Row> {
    if e in s.rows then Some(s.rows[e]) else None
  }

  /**
   In every run a row is inserted as emitted, claimed with the start of the claiming transaction,
   finished with its claim time kept, or requeued once stale, and nothing else ever touches it: not a
   deferral by an open circuit, a job without a URL, a cancellation or a crash.
   */
  lemma RowsChangeOnlySo(p: Params, h: seq<Event>, i: nat, e: ExecId)
    requires ValidRun(p, INIT, h) && i < |h|
    ensures var before, after := RowOf(StateAt(p, h, i), e), RowOf(StateAt(p, h, i + 1), e);
            before != after ==> Transition(StateAt(p, h, i), h[i], e, before, after)
  {
    hide Limit, StateAt, ValidRun;
    NextState(p, h, i);
    var s, ev := StateAt(p, h, i), h[i];
    assert ev.Claim? ==> WorkerOk(s, ev.worker) && LockOk(s, s.workers[ev.worker].exec);
    assert ev.Claim? ==> RowOk(s, s.workers[ev.worker].exec);
    assert ev.Requeue? ==> forall f :: f in ev.picked ==> Stale(s, f, ev.cutoff);
  }
}
