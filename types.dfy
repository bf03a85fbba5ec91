/** The enumerations of include/lmgd/device/types.hpp and their fixed wire codes. */
module Types {
  import opened Wrappers

  /** `ChannelSignalCoupling`; GND exists only on the LMG670. */
  datatype Coupling = ACDC | AC | GND

  /** `MetricType`, whose underlying value is the instrument's command letter. */
  datatype MetricType = Current | Power | Voltage

  /** `MetricBandwidth`. */
  datatype Bandwidth = Cycle | Narrow | Wide

  /** `MeasurementMode`: exactly two values. */
  datatype MeasurementMode = CycleMode | Gapless

  function CouplingCode(c: Coupling): (code: int)
    ensures code in {0, 1, 9}
  {
    match c
    case ACDC => 0
    case AC => 1
    case GND => 9
  }

  function TypeChar(t: MetricType): (c: char)
    ensures c in {'I', 'P', 'U'}
  {
    match t
    case Current => 'I'
    case Power => 'P'
    case Voltage => 'U'
  }

  function BandwidthCode(b: Bandwidth): (code: int)
    ensures 0 <= code <= 2
  {
    match b
    case Cycle => 0
    case Narrow => 1
    case Wide => 2
  }

  /** The wire codes identify their values: decoding a code gives back the value. */
  function CouplingOfCode(code: int): (c: Option<Coupling>)
    ensures c.Some? <==> code in {0, 1, 9}
    ensures c.Some? ==> CouplingCode(c.value) == code
  {
    if code == 0 then Some(ACDC) else if code == 1 then Some(AC) else if code == 9 then Some(GND) else None
  }

  function TypeOfChar(ch: char): (t: Option<MetricType>)
    ensures t.Some? <==> ch in {'I', 'P', 'U'}
    ensures t.Some? ==> TypeChar(t.value) == ch
  {
    if ch == 'I' then Some(Current) else if ch == 'P' then Some(Power) else if ch == 'U' then Some(Voltage) else None
  }

  function BandwidthOfCode(code: int): (b: Option<Bandwidth>)
    ensures b.Some? <==> 0 <= code <= 2
    ensures b.Some? ==> BandwidthCode(b.value) == code
  {
    if code == 0 then Some(Cycle) else if code == 1 then Some(Narrow) else if code == 2 then Some(Wide) else None
  }

  lemma CodesRoundTrip(c: Coupling, t: MetricType, b: Bandwidth)
    ensures CouplingOfCode(CouplingCode(c)) == Some(c)
    ensures TypeOfChar(TypeChar(t)) == Some(t)
    ensures BandwidthOfCode(BandwidthCode(b)) == Some(b)
  {
  }

  /** The order `std::set<std::pair<MetricType, MetricBandwidth>>` keeps: by letter, then bandwidth code. */
  predicate MetricLess(a: (MetricType, Bandwidth), b: (MetricType, Bandwidth))
  {
    TypeChar(a.0) < TypeChar(b.0) || (TypeChar(a.0) == TypeChar(b.0) && BandwidthCode(a.1) < BandwidthCode(b.1))
  }

  /** That order is a strict total order on (type, bandwidth) pairs. */
  lemma MetricLessTotal(a: (MetricType, Bandwidth), b: (MetricType, Bandwidth))
    ensures !MetricLess(a, a)
    ensures a != b ==> MetricLess(a, b) || MetricLess(b, a)
    ensures !(MetricLess(a, b) && MetricLess(b, a))
  {
  }
}
