/** The circuit breaker of internal/circuitbreaker/breaker.go against its call history. */
module Breaker {
  import opened Common

  datatype Circuit = Closed | Open | HalfOpen

  datatype UrlState = UrlState(state: Circuit, failures: nat, openedAt: int, probes: nat)

  /** One call to the breaker, with the answer that `Allow` gave. */
  datatype Call =
    | Asked(url: string, at: int, passed: bool)
    | Succeeded(url: string)
    | Failed(url: string, at: int)

  // ---------- the history specification ----------

  function FailuresSinceSuccess(h: seq<Call>, url: string): nat {
    if h == [] then 0
    else
      var earlier, last := h[..|h| - 1], h[|h| - 1];
      if last == Succeeded(url) then 0
      else FailuresSinceSuccess(earlier, url) + (if last.Failed? && last.url == url then 1 else 0)
  }

  function PassesSinceFailure(h: seq<Call>, url: string): nat {
    if h == [] then 0
    else
      var earlier, last := h[..|h| - 1], h[|h| - 1];
      if last.Failed? && last.url == url then 0
      else PassesSinceFailure(earlier, url) + (if last.Asked? && last.url == url && last.passed then 1 else 0)
  }

  function LastFailure(h: seq<Call>, url: string): Option<int> {
    if h == [] then None
    else
      var earlier, last := h[..|h| - 1], h[|h| - 1];
      if last.Failed? && last.url == url then Some(last.at) else LastFailure(earlier, url)
  }

  /**
   A call passes when there have been fewer than `threshold` failures since the last success; or the
   cooldown since the last failure is over and nothing has passed since; or between 1 and probes - 1
   calls have passed since.
   */
  predicate Passes(threshold: nat, cooldown: int, probes: nat, h: seq<Call>, url: string, now: int) {
    var passed, failedAt := PassesSinceFailure(h, url), LastFailure(h, url);
    || FailuresSinceSuccess(h, url) < threshold
    || (passed == 0 && failedAt.Some? && now - failedAt.value >= cooldown)
    || 1 <= passed < probes
  }

  function Only(h: seq<Call>, url: string): seq<Call> {
    if h == [] then []
    else Only(h[..|h| - 1], url) + (if h[|h| - 1].url == url then [h[|h| - 1]] else [])
  }

  lemma Snoc(h: seq<Call>, c: Call, url: string)
    ensures FailuresSinceSuccess(h + [c], url) ==
            if c == Succeeded(url) then 0
            else FailuresSinceSuccess(h, url) + (if c.Failed? && c.url == url then 1 else 0)
    ensures PassesSinceFailure(h + [c], url) ==
            if c.Failed? && c.url == url then 0
            else PassesSinceFailure(h, url) + (if c.Asked? && c.url == url && c.passed then 1 else 0)
    ensures LastFailure(h + [c], url) == if c.Failed? && c.url == url then Some(c.at) else LastFailure(h, url)
  {
    assert (h + [c])[..|h|] == h;
  }

  lemma OnlySnoc(h: seq<Call>, c: Call, url: string)
    ensures Only(h + [c], url) == if c.url == url then Only(h, url) + [c] else Only(h, url)
  {
    assert (h + [c])[..|h|] == h;
  }

  lemma {:induction false} OnlyKeeps(h: seq<Call>, url: string)
    ensures FailuresSinceSuccess(h, url) == FailuresSinceSuccess(Only(h, url), url)
    ensures PassesSinceFailure(h, url) == PassesSinceFailure(Only(h, url), url)
    ensures LastFailure(h, url) == LastFailure(Only(h, url), url)
  {
    if h == [] {
      assert Only(h, url) == [];
    } else {
      hide FailuresSinceSuccess, PassesSinceFailure, LastFailure, Only;
      var earlier, last := h[..|h| - 1], h[|h| - 1];
      assert h == earlier + [last];
      OnlyKeeps(earlier, url);
      OnlySnoc(earlier, last, url);
      Snoc(earlier, last, url);
      Snoc(Only(earlier, url), last, url);
    }
  }

  /** The answer for a URL depends on the calls for that URL alone. */
  lemma UrlsAreIndependent(threshold: nat, cooldown: int, probes: nat, h: seq<Call>, g: seq<Call>, url: string,
                           now: int)
    requires Only(h, url) == Only(g, url)
    ensures Passes(threshold, cooldown, probes, h, url, now) == Passes(threshold, cooldown, probes, g, url, now)
  {
    OnlyKeeps(h, url);
    OnlyKeeps(g, url);
  }

  // ---------- the breaker ----------

  /** The state kept for a URL says what its history says. */
  ghost predicate Agrees(threshold: nat, states: map<string, UrlState>, h: seq<Call>, url: string) {
    var failures, passed := FailuresSinceSuccess(h, url), PassesSinceFailure(h, url);
    if url !in states then failures == 0
    else
      var s := states[url];
      && s.failures == failures
      && (failures < threshold ==> s.state == Closed)
      && (failures >= threshold ==>
            && LastFailure(h, url) == Some(s.openedAt)
            && (if passed == 0 then s.state == Open else s.state == HalfOpen && s.probes == passed))
  }

  /** A call for one URL leaves every other URL in agreement. */
  lemma OthersAgree(threshold: nat, before: map<string, UrlState>, after: map<string, UrlState>, h: seq<Call>, c: Call)
    requires forall u :: Agrees(threshold, before, h, u)
    requires forall u :: u != c.url ==> (u in before <==> u in after) && (u in before ==> before[u] == after[u])
    ensures forall u :: u != c.url ==> Agrees(threshold, after, h + [c], u)
  {
    forall u | u != c.url ensures Agrees(threshold, after, h + [c], u) {
      Snoc(h, c, u);
      assert Agrees(threshold, before, h, u);
    }
  }

  class CircuitBreaker {
    const threshold: nat
    const cooldown: int
    const maxProbes: nat
    var states: map<string, UrlState>
    ghost var history: seq<Call>

    ghost predicate Valid()
      reads this
    {
      threshold >= 1 && maxProbes >= 1 && forall url :: Agrees(threshold, states, history, url)
    }

    /** A threshold of zero disables the breaker before one is made. */
    constructor (threshold: nat, cooldown: int, probes: int)
      requires threshold >= 1
      ensures Valid() && history == [] && this.threshold == threshold && this.cooldown == cooldown
      ensures maxProbes == if probes < 1 then 1 else probes
    {
      this.threshold := threshold;
      this.cooldown := cooldown;
      maxProbes := if probes < 1 then 1 else probes;
      states := map[];
      history := [];
    }

    method Allow(url: string, now: int) returns (ok: bool)
      requires Valid()
      modifies this
      ensures Valid()
      ensures ok == Passes(threshold, cooldown, maxProbes, old(history), url, now)
      ensures history == old(history) + [Asked(url, now, ok)]
    {
      assert Agrees(threshold, states, history, url);
      if url !in states {
        ok := true;
      } else {
        var s := states[url];
        match s.state
        case Closed => ok := true;
        case Open =>
          ok := now - s.openedAt >= cooldown;
          if ok {
            states := states[url := s.(state := HalfOpen, probes := 1)];
          }
        case HalfOpen =>
          ok := s.probes < maxProbes;
          if ok {
            states := states[url := s.(probes := s.probes + 1)];
          }
      }
      history := history + [Asked(url, now, ok)];
      Snoc(old(history), Asked(url, now, ok), url);
      OthersAgree(threshold, old(states), states, old(history), Asked(url, now, ok));
    }

    method RecordSuccess(url: string)
      requires Valid()
      modifies this
      ensures Valid() && history == old(history) + [Succeeded(url)]
    {
      if url in states {
        states := states[url := states[url].(state := Closed, failures := 0, probes := 0)];
      }
      history := history + [Succeeded(url)];
      Snoc(old(history), Succeeded(url), url);
      OthersAgree(threshold, old(states), states, old(history), Succeeded(url));
    }

    method RecordFailure(url: string, now: int)
      requires Valid()
      modifies this
      ensures Valid() && history == old(history) + [Failed(url, now)]
    {
      assert Agrees(threshold, states, history, url);
      var s := if url in states then states[url] else UrlState(Closed, 0, 0, 0);
      s := s.(failures := s.failures + 1);
      if s.failures >= threshold {
        s := s.(state := Open, openedAt := now);
      }
      states := states[url := s];
      history := history + [Failed(url, now)];
      Snoc(old(history), Failed(url, now), url);
      OthersAgree(threshold, old(states), states, old(history), Failed(url, now));
    }
  }
}
