/** The granularity ladder: `TimePeriod.Duration`, ordered from the finest
    (SECONDS) to the coarsest (YEARS), and the ordered list of durations an
    aggregation is configured with (`incrementalDurations`). */
module TimePeriod {

  datatype Duration = Seconds | Minutes | Hours | Days | Months | Years

  /** `Duration.ordinal()`: the position of the constant in the enum. */
  function Ordinal(d: Duration): (r: nat)
    ensures r < 6
    ensures FromOrdinal(r) == d
  {
    match d
    case Seconds => 0
    case Minutes => 1
    case Hours => 2
    case Days => 3
    case Months => 4
    case Years => 5
  }

  /** `Duration.values()[i]`. */
  function FromOrdinal(i: nat): (d: Duration)
    requires i < 6
  {
    if i == 0 then Seconds
    else if i == 1 then Minutes
    else if i == 2 then Hours
    else if i == 3 then Days
    else if i == 4 then Months
    else Years
  }

  /** `Duration.toString()`: the enum constant's name. */
  function Name(d: Duration): string {
    match d
    case Seconds => "SECONDS"
    case Minutes => "MINUTES"
    case Hours => "HOURS"
    case Days => "DAYS"
    case Months => "MONTHS"
    case Years => "YEARS"
  }

  /** The set of durations a list contains (the key set of the maps built from it). */
  function Members(ds: seq<Duration>): (s: set<Duration>)
    ensures forall d :: d in s <==> d in ds
  {
    set d | d in ds
  }

  /** A configured ladder: at least one duration, ordered strictly from finer
      to coarser, so the finest configured duration comes first. */
  ghost predicate WellFormedLadder(ds: seq<Duration>) {
    && |ds| >= 1
    && forall i, j :: 0 <= i < j < |ds| ==> Ordinal(ds[i]) < Ordinal(ds[j])
  }

  /** `List.indexOf`: the first index holding `d`, or -1 when there is none. */
  function IndexOf(ds: seq<Duration>, d: Duration): (r: int)
    ensures -1 <= r < |ds|
    ensures r == -1 <==> d !in ds
    ensures r >= 0 ==> ds[r] == d && d !in ds[..r]
  {
    if |ds| == 0 then -1
    else if ds[0] == d then 0
    else
      var k := IndexOf(ds[1..], d);
      assert k >= 0 ==> ds[..k + 1] == [ds[0]] + ds[1..][..k];
      if k == -1 then -1 else k + 1
  }

  /** In a well-formed ladder every duration listed before `d` is strictly
      finer than `d`, and every finer configured duration is listed before it. */
  lemma FinerAreListedBefore(ds: seq<Duration>, d: Duration)
    requires WellFormedLadder(ds) && d in ds
    ensures var k := IndexOf(ds, d);
      && (forall i :: 0 <= i < k ==> Ordinal(ds[i]) < Ordinal(d))
      && (forall i :: k <= i < |ds| ==> Ordinal(d) <= Ordinal(ds[i]))
  {
    var k := IndexOf(ds, d);
    forall i | k <= i < |ds| ensures Ordinal(d) <= Ordinal(ds[i]) {
      if i > k { assert Ordinal(ds[k]) < Ordinal(ds[i]); }
    }
  }
}
