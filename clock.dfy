// Elapsed time as the service measures it. Instants are microseconds; the rate
// limiters read an age through `timedelta.seconds`, the seconds field of a
// normalised timedelta, which leaves out whole days.
module Clock {
  import opened Models

  const Second: int := 1_000_000
  const SecondsPerDay: int := 86400

  /**
   * `(now - then).seconds` for a difference of `delta` microseconds. A
   * timedelta is normalised to days, seconds in [0, 86400) and microseconds,
   * which is floor division, as Dafny's `/` and `%` are for a positive divisor.
   */
  function TimedeltaSeconds(delta: int): (s: int)
    ensures 0 <= s < SecondsPerDay
  {
    (delta / Second) % SecondsPerDay
  }

  /** Within a day the field is the whole number of seconds elapsed. */
  lemma TimedeltaSecondsWithinDay(delta: int)
    requires 0 <= delta < SecondsPerDay * Second
    ensures TimedeltaSeconds(delta) == delta / Second
  {
  }

  /** Whole days do not show in the field: an age and the same age a day later read alike. */
  lemma TimedeltaSecondsIgnoresDays(delta: int)
    ensures TimedeltaSeconds(delta + SecondsPerDay * Second) == TimedeltaSeconds(delta)
  {
    assert (delta + SecondsPerDay * Second) / Second == delta / Second + SecondsPerDay;
  }

  /** `[t for t in times if (now - t).seconds < window]` */
  function Prune(times: seq<Instant>, now: Instant, window: int): (r: seq<Instant>)
    ensures |r| <= |times|
    ensures forall t :: t in r ==> t in times && TimedeltaSeconds(now - t) < window
    ensures forall t :: t in times && TimedeltaSeconds(now - t) < window ==> t in r
  {
    if times == [] then []
    else (if TimedeltaSeconds(now - times[0]) < window then [times[0]] else []) + Prune(times[1..], now, window)
  }

  /** Pruning twice at the same instant removes nothing more. */
  lemma {:induction false} PruneIdempotent(times: seq<Instant>, now: Instant, window: int)
    ensures Prune(Prune(times, now, window), now, window) == Prune(times, now, window)
  {
    if times != [] {
      var rest := Prune(times[1..], now, window);
      PruneIdempotent(times[1..], now, window);
      if TimedeltaSeconds(now - times[0]) < window {
        var p := [times[0]] + rest;
        assert Prune(times, now, window) == p;
        assert p[0] == times[0] && p[1..] == rest;
        assert Prune(p, now, window) == [times[0]] + Prune(rest, now, window);
      } else {
        assert Prune(times, now, window) == rest;
      }
    }
  }

  /**
   * A request made exactly one day earlier still counts as recent for any
   * positive window, because its age reads as 0 seconds.
   */
  lemma DayOldRequestKept(now: Instant, window: int)
    requires window > 0
    ensures Prune([now - SecondsPerDay * Second], now, window) == [now - SecondsPerDay * Second]
  {
    TimedeltaSecondsIgnoresDays(0);
  }
}
