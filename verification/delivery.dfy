/**
 Deliveries inside the runs of `Lifecycle` are deliveries of the retry loop: whatever the other
 workers, the reconciler and the clock do in between, the actions of one delivery are those of
 `Dispatch.Follow` in some environment, which is what `Dispatcher.Dispatch` is proved to perform.
 */
module DeliveryRefinement {
  import opened Common
  import opened Dispatch
  import opened Lifecycle

  predicate IsMove(ev: Event, w: WorkerId) {
    (ev.JobLoaded? || ev.SendDone? || ev.AttemptRecorded? || ev.WaitOver? || ev.Write?) && ev.worker == w
  }

  /** The reply of the guarded UPDATE, read off the table. */
  function ReplyTo(s: State, w: WorkerId): StoreReply
    requires w in s.workers && s.workers[w].exec in s.rows
  {
    if s.rows[s.workers[w].exec].status.Finished? then Denied else Accepted
  }

  /** What worker w is seen to do in one step. */
  function Deed(breaker: bool, p: Params, s: State, ev: Event, w: WorkerId): seq<Action>
    requires Enabled(p, s, ev) && At(s, w)
  {
    if !IsMove(ev, w) then []
    else
      var ph := s.workers[w].phase;
      match ev
      case JobLoaded(_, _) => [Loaded]
      case SendDone(_, r) => [Sent(ph.attempt, r)]
      case AttemptRecorded(_) => [Recorded(ph.attempt)]
      case WaitOver(_) => [Waited(ph.attempt, BACKOFF[ph.attempt - 1])]
      case Write(_) =>
        var reply := ReplyTo(s, w);
        [Wrote(ph.status, reply)] + (if breaker && reply == Accepted then [ToldBreaker(ph.status == Delivered)] else [])
      case _ => []
  }

  /** Everything worker w does in its present delivery. */
  function Deeds(breaker: bool, p: Params, s: State, evs: seq<Event>, w: WorkerId): seq<Action>
    requires ValidRun(p, s, evs)
    decreases |evs|
  {
    if evs == [] || !At(s, w) then []
    else Deed(breaker, p, s, evs[0], w) + Deeds(breaker, p, Apply(p, s, evs[0]), evs[1..], w)
  }

  /** The environment `env`, with what the step shows about it. */
  function Shown(env: Environment, p: Params, s: State, ev: Event, w: WorkerId): Environment
    requires Enabled(p, s, ev) && At(s, w) && IsMove(ev, w)
  {
    var ph := s.workers[w].phase;
    match ev
    case JobLoaded(_, go) => env.(job := if go then Found else NoUrl, circuitAllows := true)
    case SendDone(_, r) => env.(result := (n: nat) => if n == ph.attempt then r else env.result(n))
    case WaitOver(_) => env.(cancelled := (n: nat) => n != ph.attempt && env.cancelled(n))
    case Write(_) => env.(reply := ReplyTo(s, w))
    case _ => env
  }

  /** Each move goes where the loop goes, and does what the loop does there. */
  lemma MoveIsStep(breaker: bool, env: Environment, p: Params, s: State, ev: Event, w: WorkerId)
    requires Inv(s) && Enabled(p, s, ev) && At(s, w) && IsMove(ev, w)
    ensures var ph, s' := s.workers[w].phase, Apply(p, s, ev);
            var (actions, next) := Step(breaker, Shown(env, p, s, ev, w), ph);
            && Deed(breaker, p, s, ev, w) == actions
            && (if next.Go? then At(s', w) && s'.workers[w].phase == next.phase else w !in s'.workers)
  {
    hide Limit;
    assert WorkerOk(s, w);
  }

  /** Nobody else moves a worker on. */
  lemma OthersKeep(p: Params, s: State, ev: Event, w: WorkerId)
    requires Enabled(p, s, ev) && At(s, w) && !IsMove(ev, w)
    ensures var s' := Apply(p, s, ev); w in s'.workers ==> s'.workers[w] == s.workers[w]
  {
    hide Limit;
  }

  /** Two environments look the same from phase `ph` on. */
  ghost predicate Alike(a: Environment, b: Environment, ph: Phase) {
    match ph
    case Loading => a == b
    case Waiting(n) =>
      a.reply == b.reply && forall m :: m >= n ==> a.result(m) == b.result(m) && a.cancelled(m) == b.cancelled(m)
    case Sending(n) =>
      && a.reply == b.reply
      && (forall m :: m >= n ==> a.result(m) == b.result(m)) && (forall m :: m > n ==> a.cancelled(m) == b.cancelled(m))
    case Recording(n, _) =>
      a.reply == b.reply && forall m :: m > n ==> a.result(m) == b.result(m) && a.cancelled(m) == b.cancelled(m)
    case Writing(_) => a.reply == b.reply
  }

  lemma {:induction false} AlikeFollow(breaker: bool, a: Environment, b: Environment, ph: Phase)
    requires ph.Valid() && Alike(a, b, ph)
    ensures Follow(breaker, a, ph) == Follow(breaker, b, ph)
    decreases ph.Rank()
  {
    hide Follow;
    Unfold(breaker, a, ph);
    Unfold(breaker, b, ph);
    var next := Step(breaker, a, ph).1;
    if next.Go? {
      AlikeFollow(breaker, a, b, next.phase);
    }
  }

  /** What a step shows concerns only that step. */
  lemma ShownIsPast(breaker: bool, env: Environment, p: Params, s: State, ev: Event, w: WorkerId)
    requires Inv(s) && Enabled(p, s, ev) && At(s, w) && IsMove(ev, w)
    requires Step(breaker, Shown(env, p, s, ev, w), s.workers[w].phase).1.Go?
    ensures Alike(Shown(env, p, s, ev, w), env, Step(breaker, Shown(env, p, s, ev, w), s.workers[w].phase).1.phase)
  {
  }

  const ANY: Environment := Environment(NoUrl, false, n => WebhookResult(0, true), n => false, Accepted)

  /**
   In every run, the actions of a delivery that stands in some phase are those of the retry loop
   from that phase on, in some environment: all of them if the worker finished by itself, and the
   first ones if it has not finished, crashed or lost its database.
   */
  lemma {:induction false} DeliveryFollows(breaker: bool, p: Params, s: State, evs: seq<Event>, w: WorkerId)
    returns (env: Environment)
    requires Inv(s) && ValidRun(p, s, evs) && At(s, w)
    ensures Deeds(breaker, p, s, evs, w) <= Follow(breaker, env, s.workers[w].phase).0
    ensures Finishes(p, s, evs, w) ==> Deeds(breaker, p, s, evs, w) == Follow(breaker, env, s.workers[w].phase).0
    decreases |evs|
  {
    hide Follow, Step, Apply, Enabled, Inv, Deed, Shown;
    env := ANY;
    if evs != [] {
      var ev, s' := evs[0], Apply(p, s, evs[0]);
      InvStep(p, s, ev);
      if IsMove(ev, w) {
        if At(s', w) {
          env := DeliveryFollows(breaker, p, s', evs[1..], w);
        }
        env := MoveOn(breaker, env, p, s, evs, w);
      } else {
        OthersKeep(p, s, ev, w);
        DeedOfOthers(breaker, p, s, ev, w);
        if At(s', w) {
          env := DeliveryFollows(breaker, p, s', evs[1..], w);
        }
      }
    }
  }

  /** Worker w leaves its delivery by a move of its own. */
  predicate Finishes(p: Params, s: State, evs: seq<Event>, w: WorkerId)
    requires ValidRun(p, s, evs)
    decreases |evs|
  {
    evs != [] && At(s, w) &&
    var s' := Apply(p, s, evs[0]);
    if At(s', w) then Finishes(p, s', evs[1..], w) else IsMove(evs[0], w)
  }

  lemma DeedOfOthers(breaker: bool, p: Params, s: State, ev: Event, w: WorkerId)
    requires Enabled(p, s, ev) && At(s, w) && !IsMove(ev, w)
    ensures Deed(breaker, p, s, ev, w) == []
  {
  }

  lemma MoveOn(breaker: bool, env': Environment, p: Params, s: State, evs: seq<Event>, w: WorkerId)
    returns (env: Environment)
    requires Inv(s) && ValidRun(p, s, evs) && At(s, w) && evs != [] && IsMove(evs[0], w)
    requires var s' := Apply(p, s, evs[0]);
             At(s', w) ==>
               && Deeds(breaker, p, s', evs[1..], w) <= Follow(breaker, env', s'.workers[w].phase).0
               && (Finishes(p, s', evs[1..], w) ==>
                     Deeds(breaker, p, s', evs[1..], w) == Follow(breaker, env', s'.workers[w].phase).0)
    ensures Deeds(breaker, p, s, evs, w) <= Follow(breaker, env, s.workers[w].phase).0
    ensures Finishes(p, s, evs, w) ==> Deeds(breaker, p, s, evs, w) == Follow(breaker, env, s.workers[w].phase).0
  {
    hide Follow, Step, Apply, Enabled, Inv, Deed, Shown, Alike;
    var ev, ph := evs[0], s.workers[w].phase;
    env := Shown(env', p, s, ev, w);
    MoveIsStep(breaker, env', p, s, ev, w);
    Unfold(breaker, env, ph);
    var next := Step(breaker, env, ph).1;
    if next.Go? {
      ShownIsPast(breaker, env', p, s, ev, w);
      AlikeFollow(breaker, env, env', next.phase);
    }
  }

  // ---------- what this says about every run ----------

  lemma {:induction false} SendsOfPrefix(a: seq<Action>, b: seq<Action>)
    requires a <= b
    ensures Sends(a) <= Sends(b)
  {
    if a != [] {
      SendsOfPrefix(a[1..], b[1..]);
    }
  }

  predicate WorthRetrying(r: WebhookResult) {
    r.failed || r.statusCode == 429 || r.statusCode >= 500
  }

  /**
   In every run, the requests that a worker sends on one claim are numbered 1, 2, ... and are at
   most four, and all but the last of them failed in a way that is worth a retry.
   */
  lemma FourSendsPerClaim(breaker: bool, p: Params, s: State, evs: seq<Event>, w: WorkerId)
    requires Inv(s) && ValidRun(p, s, evs) && At(s, w) && s.workers[w].phase == Loading
    ensures var sends := Sends(Deeds(breaker, p, s, evs, w));
            && |sends| <= MAX_ATTEMPTS
            && (forall i :: 0 <= i < |sends| ==> sends[i].Sent? && sends[i].attempt == i + 1)
            && (forall i :: 0 <= i < |sends| - 1 ==> WorthRetrying(sends[i].result))
  {
    hide Follow, Deeds, Sends, Writes, BreakerCalls;
    var env := DeliveryFollows(breaker, p, s, evs, w);
    var tr := Follow(breaker, env, Loading).0;
    if env.job == Found && !(breaker && !env.circuitAllows) {
      DeliveryConforms(breaker, env);
    } else {
      DispatchContract(breaker, env);
    }
    SendsOfPrefix(Deeds(breaker, p, s, evs, w), tr);
    NoSends();
    var sends, all := Sends(Deeds(breaker, p, s, evs, w)), Sends(tr);
    assert forall i :: 0 <= i < |sends| ==> sends[i] == all[i];
    forall i | 0 <= i < |sends| - 1 ensures WorthRetrying(sends[i].result) {
      assert Retries(env, i + 1);
    }
  }

  lemma NoSends()
    ensures Sends([Loaded]) == []
  {
    Project(Loaded, []);
    assert [Loaded] + [] == [Loaded];
  }
}
