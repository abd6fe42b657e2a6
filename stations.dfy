/**
 * The monitoring-station topology of the environmental uploader
 * (`generate_stations`): from a generator seeded with a fixed seed, every
 * district of Beijing gets between 3 and 5 stations, named after the district
 * and a 1-based index.
 */
module Stations {

  /** The districts, in the order the uploader walks them. */
  const DISTRICTS: seq<string> := [
    "东城区", "西城区", "朝阳区", "丰台区", "石景山区",
    "海淀区", "顺义区", "通州区", "大兴区", "房山区",
    "门头沟区", "昌平区", "平谷区", "密云区", "怀柔区", "延庆区"
  ]

  /** The seed of the topology's private generator. */
  const SEED: nat := 42

  /** The word between a district and a station's index: "monitoring station". */
  const STATION_INFIX := "监测站"

  const MIN_STATIONS := 3
  const MAX_STATIONS := 5

  /**
   * The state of the private generator `random.Random(SEED)`. The model uses
   * a linear congruential step in place of the Mersenne Twister; what it keeps
   * is that the generator is deterministic and that each draw advances it.
   */
  datatype Rng = Rng(state: nat)

  function Seeded(seed: nat): Rng {
    Rng(seed)
  }

  function Advance(g: Rng): Rng {
    Rng((g.state * 1103515245 + 12345) % 2147483648)
  }

  /** `randint(lo, hi)` on the generator's current state. */
  function RandInt(g: Rng, lo: int, hi: int): (v: int)
    requires lo <= hi
    ensures lo <= v <= hi
  {
    lo + g.state % (hi - lo + 1)
  }

  /** One item of the dict `generate_stations` returns: a district and its station names. */
  datatype Entry = Entry(district: string, stations: seq<string>)

  /** `str(n)`: the decimal digits of a natural number. */
  function NatToString(n: nat): (s: string)
    ensures |s| >= 1
    ensures forall k :: 0 <= k < |s| ==> '0' <= s[k] <= '9'
    decreases n
  {
    if n < 10 then [DigitChar(n)] else NatToString(n / 10) + [DigitChar(n % 10)]
  }

  function DigitChar(d: nat): (c: char)
    requires d < 10
    ensures '0' <= c <= '9'
  {
    ('0' as int + d) as char
  }

  /** The value of a string of decimal digits: the inverse of `NatToString`. */
  function DigitsValue(s: string): nat
    requires forall k :: 0 <= k < |s| ==> '0' <= s[k] <= '9'
  {
    if s == [] then 0
    else DigitsValue(s[..|s| - 1]) * 10 + (s[|s| - 1] as int - '0' as int)
  }

  lemma {:induction false} NatToStringRoundTrip(n: nat)
    ensures DigitsValue(NatToString(n)) == n
    decreases n
  {
    var s := NatToString(n);
    if n >= 10 {
      NatToStringRoundTrip(n / 10);
      assert s[..|s| - 1] == NatToString(n / 10);
    }
  }

  /** Different numbers have different decimal strings. */
  lemma NatToStringInjective(m: nat, n: nat)
    ensures NatToString(m) == NatToString(n) <==> m == n
  {
    NatToStringRoundTrip(m);
    NatToStringRoundTrip(n);
  }

  /** The name of station `index` (0-based) of a district: district, infix, `index + 1`. */
  function StationName(district: string, index: nat): string {
    district + STATION_INFIX + NatToString(index + 1)
  }

  /** The list comprehension that names a district's `count` stations. */
  function StationNames(district: string, count: nat): (names: seq<string>)
    ensures |names| == count
  {
    seq(count, i requires 0 <= i => StationName(district, i))
  }

  /** Station names of one district are prefixed by the district and pairwise distinct. */
  lemma {:induction false} StationNamesDistinct(district: string, count: nat, i: nat, j: nat)
    requires i < count && j < count
    ensures StationNames(district, count)[i][..|district|] == district
    ensures StationNames(district, count)[i] == StationNames(district, count)[j] <==> i == j
  {
    var names := StationNames(district, count);
    var prefix := district + STATION_INFIX;
    assert names[i] == prefix + NatToString(i + 1);
    assert names[j] == prefix + NatToString(j + 1);
    if names[i] == names[j] {
      assert NatToString(i + 1) == names[i][|prefix|..];
      assert NatToString(j + 1) == names[j][|prefix|..];
      NatToStringInjective(i + 1, j + 1);
    }
  }

  /**
   * The topology a generator in state `g` gives to `districts`: each district
   * draws its station count in turn, advancing the generator.
   */
  function Topology(g: Rng, districts: seq<string>): (entries: seq<Entry>)
    ensures |entries| == |districts|
    ensures forall k :: 0 <= k < |entries| ==> entries[k].district == districts[k]
    decreases |districts|
  {
    if districts == [] then []
    else
      var count := RandInt(g, MIN_STATIONS, MAX_STATIONS);
      [Entry(districts[0], StationNames(districts[0], count))] + Topology(Advance(g), districts[1..])
  }

  /** What every topology looks like: one entry per district, in order, each with 3 to 5 named stations. */
  predicate WellShaped(entries: seq<Entry>, districts: seq<string>) {
    && |entries| == |districts|
    && forall k :: 0 <= k < |entries| ==>
         && entries[k].district == districts[k]
         && MIN_STATIONS <= |entries[k].stations| <= MAX_STATIONS
         && entries[k].stations == StationNames(districts[k], |entries[k].stations|)
  }

  lemma {:induction false} TopologyWellShaped(g: Rng, districts: seq<string>)
    ensures WellShaped(Topology(g, districts), districts)
    decreases |districts|
  {
    if districts != [] {
      TopologyWellShaped(Advance(g), districts[1..]);
      var t := Topology(g, districts);
      forall k | 0 <= k < |t|
        ensures t[k].district == districts[k]
        ensures MIN_STATIONS <= |t[k].stations| <= MAX_STATIONS
        ensures t[k].stations == StationNames(districts[k], |t[k].stations|)
      {
        if k > 0 {
          assert t[k] == Topology(Advance(g), districts[1..])[k - 1];
        }
      }
    }
  }

  /** The districts are pairwise distinct, so the dict has exactly one key per district. */
  lemma DistrictsDistinct()
    ensures forall i, j :: 0 <= i < j < |DISTRICTS| ==> DISTRICTS[i] != DISTRICTS[j]
  {
  }

  /** The topology of the seeded generator: what every call of `generate_stations` returns. */
  function StationTopology(): seq<Entry> {
    Topology(Seeded(SEED), DISTRICTS)
  }

  /**
   * The loop of `generate_stations`: walks `districts` in order with the
   * generator `g`, drawing each district's station count and naming its
   * stations.
   */
  method DrawStations(g: Rng, districts: seq<string>) returns (stations: seq<Entry>)
    ensures stations == Topology(g, districts)
    ensures WellShaped(stations, districts)
  {
    var rng := g;
    stations := [];
    var i := 0;
    while i < |districts|
      invariant 0 <= i <= |districts|
      invariant stations + Topology(rng, districts[i..]) == Topology(g, districts)
    {
      var district := districts[i];
      var count := RandInt(rng, MIN_STATIONS, MAX_STATIONS);
      assert districts[i..][1..] == districts[i + 1..];
      stations := stations + [Entry(district, StationNames(district, count))];
      rng := Advance(rng);
      i := i + 1;
    }
    TopologyWellShaped(g, districts);
  }

  /**
   * `generate_stations`: a private generator seeded with `SEED` walks the
   * districts. The result depends on nothing but the seed, so every call
   * returns the same topology.
   */
  method GenerateStations() returns (stations: seq<Entry>)
    ensures stations == StationTopology()
    ensures WellShaped(stations, DISTRICTS)
  {
    stations := DrawStations(Seeded(SEED), DISTRICTS);
  }
}
