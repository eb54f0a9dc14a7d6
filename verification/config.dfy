/**
 The reconciler's part of configuration validation (internal/config/validate.go) and what it buys:
 the premise of the exclusion theorem of `Lifecycle`.
 */
module Config {
  import opened Common
  import opened Dispatch
  import Lifecycle

  const MAX_RETRY: int := 990 * SECOND
  const SAFETY_MARGIN: int := 150 * SECOND
  const DEFAULT_OP: nat := 5 * SECOND

  datatype Reconcile = Reconcile(
    enabled: bool,
    benchmark: bool,
    interval: int, intervalSet: bool,
    threshold: int, thresholdSet: bool,
    requeue: int, requeueSet: bool)
  {
    /** The age at which runCycle requeues: a zero requeue threshold falls back to the other one. */
    function Effective(): int {
      if requeue == 0 then threshold else requeue
    }
  }

  datatype Problem = IntervalNotPositive | ThresholdNotPositive | RequeueNotPositive | ThresholdShort | RequeueShort

  method Validate(cfg: Reconcile) returns (errs: seq<Problem>)
    ensures errs == [] <==> Accepts(cfg)
    ensures IntervalNotPositive in errs <==> cfg.enabled && cfg.interval <= 0 && cfg.intervalSet
    ensures ThresholdNotPositive in errs <==> cfg.enabled && cfg.threshold <= 0 && cfg.thresholdSet
    ensures RequeueNotPositive in errs <==> cfg.enabled && cfg.requeue <= 0 && cfg.requeueSet
    ensures ThresholdShort in errs <==> cfg.enabled && 0 < cfg.threshold < 990 * SECOND
    ensures RequeueShort in errs <==> cfg.enabled && 0 < cfg.requeue < 990 * SECOND && !cfg.benchmark
  {
    errs := [];
    if cfg.enabled {
      if cfg.interval <= 0 && cfg.intervalSet {
        errs := errs + [IntervalNotPositive];
      }
      if cfg.threshold <= 0 && cfg.thresholdSet {
        errs := errs + [ThresholdNotPositive];
      }
      if cfg.requeue <= 0 && cfg.requeueSet {
        errs := errs + [RequeueNotPositive];
      }
      var maxRetry := MaxRetryDuration();
      if cfg.threshold > 0 && cfg.threshold < maxRetry {
        errs := errs + [ThresholdShort];
      }
      if !cfg.benchmark && cfg.requeue > 0 && cfg.requeue < maxRetry {
        errs := errs + [RequeueShort];
      }
    }
  }

  /** No given duration is non-positive, and no positive threshold cuts a retry sequence short. */
  predicate Accepts(cfg: Reconcile) {
    cfg.enabled ==>
      && (cfg.intervalSet ==> cfg.interval > 0)
      && (cfg.thresholdSet ==> cfg.threshold > 0)
      && (cfg.requeueSet ==> cfg.requeue > 0)
      && !(0 < cfg.threshold < MAX_RETRY)
      && (cfg.benchmark || !(0 < cfg.requeue < MAX_RETRY))
  }

  /**
   For an accepted configuration outside the benchmark environment, and webhook timeouts of at most
   60 seconds, exclusion holds as soon as seven database operations and the clock skew fit in what
   the threshold leaves above the retry window.
   */
  lemma AcceptedIsExclusive(cfg: Reconcile, l: Limits, skew: nat, batch: nat)
    requires Accepts(cfg) && cfg.enabled && !cfg.benchmark && cfg.thresholdSet && cfg.requeue >= 0
    requires l.send <= 60 * SECOND && batch >= 1
    ensures cfg.Effective() == if cfg.requeue > 0 then cfg.requeue else cfg.threshold
    ensures 990 * SECOND <= cfg.Effective()
    ensures 7 * l.op + skew <= cfg.Effective() - 990 * SECOND ==>
              Lifecycle.AlwaysExclusive(Lifecycle.Params(l, cfg.Effective(), skew, batch))
  {
    HoldClosedForm(l);
    Lifecycle.ExclusionIsExact(Lifecycle.Params(l, cfg.Effective(), skew, batch));
  }

  /** The defaults leave room for five-second operations and almost two minutes of skew. */
  lemma DefaultsAreExclusive(send: nat, skew: nat, batch: nat)
    requires send <= 60 * SECOND && skew <= 115 * SECOND && batch >= 1
    ensures MAX_RETRY + SAFETY_MARGIN == 1140 * SECOND
    ensures Lifecycle.AlwaysExclusive(Lifecycle.Params(Limits(5 * SECOND, send), 1140 * SECOND, skew, batch))
  {
    var threshold := MAX_RETRY + SAFETY_MARGIN;
    var cfg := Reconcile(true, false, 300 * SECOND, true, threshold, true, threshold, true);
    AcceptedIsExclusive(cfg, Limits(DEFAULT_OP, send), skew, batch);
  }

  /**
   Validation alone does not promise exclusion: the smallest accepted threshold leaves nothing for
   the database, so any positive operation time lets two workers deliver one execution.
   */
  lemma SmallestAcceptedIsNotEnough(op: nat, skew: nat, batch: nat)
    requires batch >= 1
    ensures var cfg := Reconcile(true, false, 300 * SECOND, true, MAX_RETRY, true, MAX_RETRY, true);
            && Accepts(cfg)
            && (Lifecycle.AlwaysExclusive(Lifecycle.Params(Limits(op, MAX_SEND), cfg.Effective(), skew, batch))
                <==> op == 0 && skew == 0)
  {
    HoldClosedForm(Limits(op, MAX_SEND));
    Lifecycle.ExclusionIsExact(Lifecycle.Params(Limits(op, MAX_SEND), MAX_RETRY, skew, batch));
  }
}
