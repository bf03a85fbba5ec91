/**
 * src/device/channel.cpp: how a channel's configuration is read. The
 * coupling must be ACDC; each metric string is `<type>[@<bandwidth>]`, and
 * the metrics of a channel form a set ordered as `std::set` orders
 * (type, bandwidth) pairs, so duplicates are dropped. `SetupCommands` are
 * the checked commands the channel constructor sends after it has found the
 * channel; the constructor itself, which also adds the tracks to the device,
 * is `Devices.Device.AddChannel`.
 */
module Channels {
  import opened Wrappers
  import opened Numbers
  import opened Types

  /** A metric of a channel: an element of `Channel::MetricSetType`. */
  type MetricKey = (MetricType, Bandwidth)

  // ---------------------------------------------------------------------------
  // Coupling

  /** The configuration name of each coupling, in upper or in lower case. */
  function CouplingName(c: Coupling, lower: bool): string
  {
    match c
    case ACDC => if lower then "acdc" else "ACDC"
    case AC => if lower then "ac" else "AC"
    case GND => if lower then "gnd" else "GND"
  }

  /** `parse_coupling`: only ACDC is accepted; AC and GND are known but not implemented. */
  function ParseCoupling(config: string, channel: string): (r: Result<Coupling>)
    ensures r.Ok? <==> config == "ACDC" || config == "acdc"
    ensures r.Ok? ==> r.value == ACDC
  {
    if config == "ACDC" || config == "acdc" then Ok(ACDC)
    else if config == "AC" || config == "ac" then Err("AC coupling not implemented yet.")
    else if config == "GND" || config == "gnd" then Err("GND coupling not implemented yet.")
    else Err("Unknown coupling requested: " + config + " for channel: " + channel)
  }

  /**
   * Each coupling's name, in upper or lower case, is recognised: ACDC is
   * accepted, AC and GND are refused as not implemented, never as unknown.
   */
  lemma CouplingNamesRecognised(c: Coupling, lower: bool, channel: string)
    ensures ParseCoupling(CouplingName(c, lower), channel) ==
        match c
        case ACDC => Ok(ACDC)
        case AC => Err("AC coupling not implemented yet.")
        case GND => Err("GND coupling not implemented yet.")
  {
  }

  /** Any other text is an unknown coupling, and the message names it and the channel. */
  lemma OtherCouplingUnknown(config: string, channel: string)
    requires forall c: Coupling, lower: bool :: config != CouplingName(c, lower)
    ensures ParseCoupling(config, channel) == Err("Unknown coupling requested: " + config + " for channel: " + channel)
  {
    assert config != CouplingName(ACDC, false) && config != CouplingName(ACDC, true);
    assert config != CouplingName(AC, false) && config != CouplingName(AC, true);
    assert config != CouplingName(GND, false) && config != CouplingName(GND, true);
  }

  // ---------------------------------------------------------------------------
  // Metric strings

  function MetricName(t: MetricType): string
  {
    match t
    case Power => "power"
    case Voltage => "voltage"
    case Current => "current"
  }

  /** The bandwidth names a configuration may give; a cycle bandwidth has none. */
  function BandwidthName(b: Bandwidth): string
    requires b != Cycle
  {
    if b == Wide then "wide" else "narrow"
  }

  /** The text `getline(str, metric, '@')` finds: everything before the first `@`. */
  function MetricPart(s: string): (m: string)
    ensures |m| <= |s| && m == s[..|m|] && '@' !in m
    ensures |m| < |s| ==> s[|m|] == '@'
  {
    s[..IndexOf(s, '@')]
  }

  /**
   * The text the following `getline(str, bandwidth)` finds: what follows the
   * first `@` up to the first line break, and nothing when there is no `@`.
   */
  function BandwidthPart(s: string): (b: string)
    ensures '\n' !in b
    ensures '@' !in s ==> b == ""
    ensures var i := IndexOf(s, '@'); i < |s| ==> i + 1 + |b| <= |s| && b == s[i + 1..i + 1 + |b|]
  {
    var i := IndexOf(s, '@');
    var rest := if i < |s| then s[i + 1..] else "";
    rest[..IndexOf(rest, '\n')]
  }

  /** The metric string of one `parse_metrics` iteration, or the exception it raises. */
  function ParseMetric(s: string, channel: string): (r: Result<MetricKey>)
    ensures r.Ok? ==> r.value.1 != Cycle
    ensures r.Ok? ==> MetricPart(s) == MetricName(r.value.0)
  {
    var m := MetricPart(s);
    var t: Option<MetricType> :=
      if m == "power" then Some(Power)
      else if m == "voltage" then Some(Voltage)
      else if m == "current" then Some(Current)
      else None;
    if t.None? then Err("Got unknown metric type '" + s + "' for channel " + channel)
    else
      var b := BandwidthPart(s);
      if b == "narrow" || b == "" then Ok((t.value, Narrow))
      else if b == "wide" then Ok((t.value, Wide))
      else Err("Got unknown bandwidth '" + s + "' for channel " + channel)
  }

  /** `<type>@<bandwidth>`, as a configuration writes a metric. */
  function MetricString(k: MetricKey): string
    requires k.1 != Cycle
  {
    MetricName(k.0) + "@" + BandwidthName(k.1)
  }

  lemma MetricPieces(t: MetricType, tail: string)
    requires '@' !in MetricName(t)
    ensures MetricPart(MetricName(t) + "@" + tail) == MetricName(t)
    ensures BandwidthPart(MetricName(t) + "@" + tail) == tail[..IndexOf(tail, '\n')]
  {
    IndexAfter(MetricName(t), '@', tail);
  }

  lemma NoAtInNames(t: MetricType)
    ensures '@' !in MetricName(t) && '\n' !in MetricName(t)
  {
  }

  lemma NoBreakInNames(b: Bandwidth)
    requires b != Cycle
    ensures '\n' !in BandwidthName(b) && IndexOf(BandwidthName(b), '\n') == |BandwidthName(b)|
  {
  }

  /** Every metric a configuration can name reads back as that metric. */
  lemma MetricStringRoundTrip(k: MetricKey, channel: string)
    requires k.1 != Cycle
    ensures ParseMetric(MetricString(k), channel).Ok? && ParseMetric(MetricString(k), channel).value == k
  {
    var w := BandwidthName(k.1);
    NoBreakInNames(k.1);
    assert w[..|w|] == w;
    BandwidthTail(k.0, w, channel);
  }

  /** A type without `@` is a narrow metric. */
  lemma BareTypeIsNarrow(t: MetricType, channel: string)
    ensures ParseMetric(MetricName(t), channel).Ok? && ParseMetric(MetricName(t), channel).value == (t, Narrow)
  {
    NoAtInNames(t);
    var n := MetricName(t);
    assert IndexOf(n, '@') == |n|;
    assert n[..|n|] == n;
  }

  /**
   * After `<type>@`, the bandwidth is read up to the first line break: it
   * is accepted exactly when that part is empty, `narrow` or `wide`. So a
   * second `@` is refused, while anything after a line break is ignored.
   */
  lemma BandwidthTail(t: MetricType, tail: string, channel: string)
    ensures var b := tail[..IndexOf(tail, '\n')];
      ParseMetric(MetricName(t) + "@" + tail, channel).Ok? <==> b == "" || b == "narrow" || b == "wide"
    ensures var b := tail[..IndexOf(tail, '\n')];
      ParseMetric(MetricName(t) + "@" + tail, channel).Ok? ==>
        ParseMetric(MetricName(t) + "@" + tail, channel).value == (t, if b == "wide" then Wide else Narrow)
  {
    NoAtInNames(t);
    MetricPieces(t, tail);
  }

  /** A line break ends the bandwidth: `<type>@<bandwidth>\n<anything>` is read as `<type>@<bandwidth>`. */
  lemma LineBreakEndsBandwidth(k: MetricKey, junk: string, channel: string)
    requires k.1 != Cycle
    ensures var r := ParseMetric(MetricString(k) + "\n" + junk, channel); r.Ok? && r.value == k
  {
    var n, w := MetricName(k.0), BandwidthName(k.1);
    var tail := w + "\n" + junk;
    NoBreakInNames(k.1);
    IndexAfter(w, '\n', junk);
    BandwidthTail(k.0, tail, channel);
    Associative(n + "@" + w, "\n", junk);
    Associative(n + "@", w, "\n" + junk);
    Associative(w, "\n", junk);
  }

  // ---------------------------------------------------------------------------
  // The metric set

  /** Ordered as `std::set` keeps its elements, without repetition. */
  predicate StrictlySorted(xs: seq<MetricKey>)
  {
    forall i, j | 0 <= i < j < |xs| :: MetricLess(xs[i], xs[j])
  }

  /** `std::set::emplace`: the element goes to its place in the order, unless it is there already. */
  function Insert(xs: seq<MetricKey>, p: MetricKey): (r: seq<MetricKey>)
    requires StrictlySorted(xs)
    ensures StrictlySorted(r)
    ensures forall q :: q in r <==> q in xs || q == p
    ensures p in xs ==> r == xs
    ensures p !in xs ==> |r| == |xs| + 1
  {
    if xs == [] then [p]
    else if xs[0] == p then xs
    else if MetricLess(p, xs[0]) then
      assert p !in xs by {
        forall j | 0 <= j < |xs| ensures xs[j] != p {
          if j > 0 { assert MetricLess(xs[0], xs[j]); MetricLessTotal(xs[j], p); }
        }
      }
      [p] + xs
    else
      MetricLessTotal(p, xs[0]);
      var rest := Insert(xs[1..], p);
      assert forall q | q in rest :: MetricLess(xs[0], q) by {
        forall q | q in rest ensures MetricLess(xs[0], q) {
          if q != p {
            var j :| 0 <= j < |xs[1..]| && xs[1..][j] == q;
            assert xs[j + 1] == q;
          }
        }
      }
      assert p in xs <==> p in xs[1..] by { assert xs == [xs[0]] + xs[1..]; }
      [xs[0]] + rest
  }

  /**
   * The `parse_metrics` loop from the set `acc` on: each string is parsed and
   * inserted in turn; the first string that does not parse raises.
   */
  function Collect(acc: seq<MetricKey>, ss: seq<string>, channel: string): (r: Result<seq<MetricKey>>)
    requires StrictlySorted(acc)
    ensures r.Ok? ==> StrictlySorted(r.value) && |r.value| <= |acc| + |ss|
    decreases |ss|
  {
    if ss == [] then Ok(acc)
    else match ParseMetric(ss[0], channel)
      case Err(e) => Err(e)
      case Ok(p) => Collect(Insert(acc, p), ss[1..], channel)
  }

  /** The reference reading of a metric list: every string parsed, in order, or the first failure. */
  function ParseAll(ss: seq<string>, channel: string): (r: Result<seq<MetricKey>>)
    ensures r.Ok? ==> |r.value| == |ss|
  {
    if ss == [] then Ok([])
    else match ParseMetric(ss[0], channel)
      case Err(e) => Err(e)
      case Ok(p) =>
        match ParseAll(ss[1..], channel)
        case Err(e) => Err(e)
        case Ok(ps) => Ok([p] + ps)
  }

  /**
   * Collecting into a set fails exactly where parsing the list fails, with
   * the same message; otherwise the set holds what was there and exactly
   * the parsed metrics, duplicates dropped.
   */
  lemma {:induction false} CollectIsSetOfParsed(acc: seq<MetricKey>, ss: seq<string>, channel: string)
    requires StrictlySorted(acc)
    ensures Collect(acc, ss, channel).Ok? <==> ParseAll(ss, channel).Ok?
    ensures Collect(acc, ss, channel).Err? ==> Collect(acc, ss, channel) == ParseAll(ss, channel)
    ensures Collect(acc, ss, channel).Ok? ==>
      forall q :: q in Collect(acc, ss, channel).value <==> q in acc || q in ParseAll(ss, channel).value
    decreases |ss|
  {
    if ss != [] {
      var r := ParseMetric(ss[0], channel);
      if r.Ok? {
        var acc' := Insert(acc, r.value);
        CollectIsSetOfParsed(acc', ss[1..], channel);
      }
    }
  }

  /**
   * `parse_metrics` over the strings of a configuration: the metric set, in
   * set order, or the message of the first string that does not parse. An
   * empty list is an empty set.
   */
  method ParseMetrics(ss: seq<string>, channel: string) returns (r: Result<seq<MetricKey>>)
    ensures r == Collect([], ss, channel)
    ensures ss == [] ==> r == Ok([])
  {
    var metrics: seq<MetricKey> := [];
    var i := 0;
    while i < |ss|
      invariant 0 <= i <= |ss| && StrictlySorted(metrics)
      invariant Collect([], ss, channel) == Collect(metrics, ss[i..], channel)
    {
      assert ss[i..][0] == ss[i] && ss[i..][1..] == ss[i + 1..];
      var parsed := ParseMetric(ss[i], channel);
      if parsed.Err? {
        return Err(parsed.message);
      }
      metrics := Insert(metrics, parsed.value);
      i := i + 1;
    }
    return Ok(metrics);
  }

  /** The configuration strings of a list of metrics. */
  function MetricStrings(ks: seq<MetricKey>): (ss: seq<string>)
    requires forall i | 0 <= i < |ks| :: ks[i].1 != Cycle
    ensures |ss| == |ks|
  {
    if ks == [] then [] else [MetricString(ks[0])] + MetricStrings(ks[1..])
  }

  /** Every metric a configuration names once or more ends up in the set, once. */
  lemma ConfiguredMetrics(ks: seq<MetricKey>, channel: string)
    requires forall i | 0 <= i < |ks| :: ks[i].1 != Cycle
    ensures Collect([], MetricStrings(ks), channel).Ok?
    ensures forall q :: q in Collect([], MetricStrings(ks), channel).value <==> q in ks
  {
    ParseAllOfStrings(ks, channel);
    CollectIsSetOfParsed([], MetricStrings(ks), channel);
  }

  lemma {:induction false} ParseAllOfStrings(ks: seq<MetricKey>, channel: string)
    requires forall i | 0 <= i < |ks| :: ks[i].1 != Cycle
    ensures var r := ParseAll(MetricStrings(ks), channel); r.Ok? && r.value == ks
    decreases |ks|
  {
    if ks != [] {
      var ss := MetricStrings(ks);
      assert ss[0] == MetricString(ks[0]) && ss[1..] == MetricStrings(ks[1..]);
      MetricStringRoundTrip(ks[0], channel);
      ParseAllOfStrings(ks[1..], channel);
      assert ks == [ks[0]] + ks[1..];
    }
  }

  // ---------------------------------------------------------------------------
  // Channel setup

  /** The instrument nodes the setup addresses, in the order the constructor sends them. */
  const SetupNodes: seq<string> := ["SCPL", "IAUTO", "IRNG", "UAUTO", "URNG"]

  /**
   * The checked commands of the channel constructor after `CTYP<id>?`:
   * coupling by its code, current auto-range off, current range, voltage
   * auto-range off, voltage range. The ranges are floats, given here as the
   * text `std::to_string` makes of them.
   */
  function SetupCommands(id: int, c: Coupling, currentRange: string, voltageRange: string): (cmds: seq<string>)
    ensures |cmds| == |SetupNodes|
  {
    var n := IntToString(id);
    [
      SetupNodes[0] + n + " " + IntToString(CouplingCode(c)),
      SetupNodes[1] + n + " " + "0",
      SetupNodes[2] + n + " " + currentRange,
      SetupNodes[3] + n + " " + "0",
      SetupNodes[4] + n + " " + voltageRange
    ]
  }

  /** Each setup command addresses its node of this channel: the node, the channel id, then a space. */
  lemma SetupCommandsAddressChannel(id: int, c: Coupling, currentRange: string, voltageRange: string)
    ensures var cmds := SetupCommands(id, c, currentRange, voltageRange);
      forall k | 0 <= k < |cmds| ::
        |SetupNodes[k]| + |IntToString(id)| + 1 <= |cmds[k]|
        && cmds[k][..|SetupNodes[k]| + |IntToString(id)| + 1] == SetupNodes[k] + IntToString(id) + " "
  {
    var cmds := SetupCommands(id, c, currentRange, voltageRange);
    var n := IntToString(id);
    forall k | 0 <= k < |cmds|
      ensures |SetupNodes[k]| + |n| + 1 <= |cmds[k]| && cmds[k][..|SetupNodes[k]| + |n| + 1] == SetupNodes[k] + n + " "
    {
      var tail := if k == 0 then IntToString(CouplingCode(c)) else if k == 2 then currentRange
        else if k == 4 then voltageRange else "0";
      assert cmds[k] == SetupNodes[k] + n + " " + tail;
    }
  }

  /** The coupling command carries the coupling's code, which the instrument decodes back to the coupling. */
  lemma SetupCouplingRoundTrip(id: int, c: Coupling, currentRange: string, voltageRange: string)
    ensures var cmd := SetupCommands(id, c, currentRange, voltageRange)[0];
      var arg := cmd[|SetupNodes[0]| + |IntToString(id)| + 1..];
      Stoi(arg).Some? && CouplingOfCode(Stoi(arg).value) == Some(c)
  {
    var n := IntToString(id);
    var code := IntToString(CouplingCode(c));
    var cmd := SetupNodes[0] + n + " " + code;
    assert cmd[|SetupNodes[0]| + |n| + 1..] == code;
    StollOfIntToString(CouplingCode(c));
    CodesRoundTrip(c, Current, Narrow);
  }
}
