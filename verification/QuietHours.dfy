/**
 Quiet hours of follow-up callbacks (api/services/callbacks.py).

 Instants are microseconds since a UTC midnight; a zone is a fixed offset from UTC in
 microseconds, looked up by name in a zone database.
 */
module QuietHours {
  import opened Wrappers
  import opened Time

  type Instant = int

  const QUIET_START_HOUR: int := 22
  const QUIET_END_HOUR: int := 8
  const MAX_SCHEDULE_DAYS: int := 60

  /** Unknown, empty and missing names all mean UTC. */
  function ResolveOffset(zones: map<string, int>, name: Option<string>): int {
    if name.Some? && name.value != "" && name.value in zones then zones[name.value] else 0
  }

  /** Microseconds since local midnight. */
  function TimeOfDay(t: Instant, offset: int): int {
    (t + offset) % DAY
  }

  predicate IsQuiet(t: Instant, offset: int) {
    var hour := TimeOfDay(t, offset) / HOUR;
    hour >= QUIET_START_HOUR || hour < QUIET_END_HOUR
  }

  function RollForward(t: Instant, offset: int): Instant {
    if IsQuiet(t, offset) then
      var local := t + offset;
      var target := local - TimeOfDay(t, offset) + QUIET_END_HOUR * HOUR;
      if TimeOfDay(t, offset) / HOUR >= QUIET_START_HOUR then target + DAY - offset else target - offset
    else
      t
  }

  function Normalize(requested: Instant, now: Instant, offset: int): Option<Instant> {
    if requested <= now then None
    else if requested > now + MAX_SCHEDULE_DAYS * DAY then None
    else Some(RollForward(requested, offset))
  }

  /** u is the earliest instant from t on at which calling is allowed. */
  ghost predicate IsEarliestAllowed(u: Instant, t: Instant, offset: int) {
    && t <= u
    && !IsQuiet(u, offset)
    && forall v :: t <= v < u ==> IsQuiet(v, offset)
  }

  /** Within one local day the time of day advances with the instant. */
  lemma TimeOfDayAdvances(t: Instant, v: Instant, offset: int)
    requires t <= v
    ensures TimeOfDay(t, offset) + (v - t) < DAY ==> TimeOfDay(v, offset) == TimeOfDay(t, offset) + (v - t)
    ensures DAY <= TimeOfDay(t, offset) + (v - t) < 2 * DAY ==>
              TimeOfDay(v, offset) == TimeOfDay(t, offset) + (v - t) - DAY
  {
    var q, r := (t + offset) / DAY, (t + offset) % DAY;
    var d := r + (v - t);
    assert v + offset == q * DAY + d;
    if d < DAY {
      DivModUnique(v + offset, q, d);
    } else if d < 2 * DAY {
      DivModUnique(v + offset, q + 1, d - DAY);
    }
  }

  lemma DivModUnique(x: int, q: int, r: int)
    requires x == q * DAY + r && 0 <= r < DAY
    ensures x % DAY == r
  {
  }

  /** Rolling forward lands on the earliest allowed instant, at most ten hours on. */
  lemma RollForwardIsEarliest(t: Instant, offset: int)
    ensures IsEarliestAllowed(RollForward(t, offset), t, offset)
    ensures RollForward(t, offset) <= t + 10 * HOUR
  {
    var u := RollForward(t, offset);
    TimeOfDayAdvances(t, u, offset);
    forall v | t <= v < u ensures IsQuiet(v, offset) {
      TimeOfDayAdvances(t, v, offset);
    }
  }

  /** Earliest allowed instants are unique, ordered as their starting points, and fixed by rolling again. */
  lemma RollForwardIsMonotoneClosure(s: Instant, t: Instant, u: Instant, offset: int)
    requires s <= t
    ensures IsEarliestAllowed(u, t, offset) <==> u == RollForward(t, offset)
    ensures RollForward(s, offset) <= RollForward(t, offset)
    ensures RollForward(RollForward(t, offset), offset) == RollForward(t, offset)
  {
    RollForwardIsEarliest(s, offset);
    RollForwardIsEarliest(t, offset);
  }

  /** In microseconds of the local day, calls are allowed from 08:00 to before 22:00, and rolling out of
      quiet hours ends at 08:00. */
  lemma QuietFromTenToEight(t: Instant, offset: int)
    ensures IsQuiet(t, offset) <==> !(28_800_000_000 <= (t + offset) % 86_400_000_000 < 79_200_000_000)
    ensures IsQuiet(t, offset) ==> (RollForward(t, offset) + offset) % 86_400_000_000 == 28_800_000_000
    ensures !IsQuiet(t, offset) ==> RollForward(t, offset) == t
  {
    RollForwardIsEarliest(t, offset);
    TimeOfDayAdvances(t, RollForward(t, offset), offset);
  }

  /** A request is kept exactly when it lies in the next sixty days, and is then moved to the
      earliest allowed instant, after now and within sixty days and ten hours. */
  lemma NormalizeKeepsTheHorizon(requested: Instant, now: Instant, offset: int)
    ensures Normalize(requested, now, offset).Some? <==> now < requested <= now + 5_184_000_000_000
    ensures Normalize(requested, now, offset).Some? ==>
              var u := Normalize(requested, now, offset).value;
              && IsEarliestAllowed(u, requested, offset)
              && now < u <= now + 5_220_000_000_000
  {
    RollForwardIsEarliest(requested, offset);
  }
}
