/**
 Instants are integer microseconds and dates are integers. A zone maps an instant to its local
 date and a date to the instant at which it starts locally. Nothing else about time zones is used.
 */
module Calendar {

  datatype ZoneTable = ZoneTable(dateOf: int -> int, startOf: int -> int)

  /** An instant is on or after a local date exactly when it is not before that date's start. */
  ghost predicate IsZone(z: ZoneTable) {
    forall t: int, d: int :: z.startOf(d) <= t <==> d <= z.dateOf(t)
  }

  const MICROSECONDS_PER_DAY := 86_400_000_000

  type Zone = z: ZoneTable | IsZone(z)
    witness ZoneTable(t => t / MICROSECONDS_PER_DAY, d => d * MICROSECONDS_PER_DAY)

  /** A date that contains an instant starts on that date and no later than the instant. */
  lemma StartOfOwnDate(z: Zone, t: int)
    ensures z.startOf(z.dateOf(t)) <= t
    ensures z.dateOf(z.startOf(z.dateOf(t))) == z.dateOf(t)
  {
    var d := z.dateOf(t);
    assert z.startOf(d) <= t < z.startOf(d + 1);
  }

  /** Local dates follow the order of instants. */
  lemma DatesFollowInstants(z: Zone, t: int, u: int)
    requires t <= u
    ensures z.dateOf(t) <= z.dateOf(u)
  {
    assert z.startOf(z.dateOf(t)) <= t;
  }
}
