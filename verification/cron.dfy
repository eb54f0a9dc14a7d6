/** Schedules as unbounded sets of due minutes, given by the library's Next. */
module Cron {
  import opened Common

  function TruncateMinute(t: int): int {
    t - t % MINUTE
  }

  /** `next(t)` is the first due time after t; every due time is a whole minute. */
  datatype Schedule = Schedule(next: int -> int) {
    ghost predicate Valid() {
      && (forall t :: next(t) > t && TruncateMinute(next(t)) == next(t))
      && (forall t, u :: t <= u < next(t) ==> next(u) == next(t))
    }

    predicate Due(d: int) {
      next(d - 1) == d
    }

    lemma NextIsLeastDue(t: int)
      requires Valid()
      ensures t < next(t) && Due(next(t)) && TruncateMinute(next(t)) == next(t)
      ensures forall d :: t < d < next(t) ==> !Due(d)
    {
      hide TruncateMinute;
      assert next(next(t) - 1) == next(t);
      forall d | t < d < next(t) ensures !Due(d) {
        assert next(d - 1) == next(t);
      }
    }

    /** The number of due times in (t, horizon]. */
    ghost function Backlog(t: int, horizon: int): nat
      requires Valid()
      decreases horizon - t
    {
      if next(t) > horizon then 0 else 1 + Backlog(next(t), horizon)
    }

    lemma BacklogBetween(t: int, u: int, horizon: int)
      requires Valid() && t <= u < next(t)
      ensures Backlog(t, horizon) == Backlog(u, horizon)
    {
      hide TruncateMinute;
    }
  }
}
