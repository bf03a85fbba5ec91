/**
 * src/device/device.cpp: `Device`, which sets the instrument up from the
 * configuration, holds its channels and tracks, and starts and stops the
 * continuous measurement. The channel constructor of src/device/channel.cpp,
 * which sends its commands on the device's connection and adds its tracks
 * to the device, is `Device.AddChannel`.
 *
 * Floats (the channel ranges, the sampling rate the instrument reports)
 * are left out: a range is the text `std::to_string` makes of it, and the
 * reply to `GLPSR?` is read and dropped. The local clock reading sent with
 * `SYSDATE` is a parameter.
 */
module Devices {
  import opened Wrappers
  import opened Numbers
  import opened Types
  import opened Tracks
  import opened Channels
  import opened Session
  import opened AsyncReader

  /** The most tracks the instrument can record. */
  const MaxTracks: nat := 16

  const TooManyTracks: string := "Trying to add more than 16 tracks, which is not supported."
  const SocketOnly: string := "Sorry, I can only connect over sockets to my LMG device :("

  // ---------------------------------------------------------------------------
  // Configuration

  /** One entry of the `channels` array; the ranges as the text of the floats. */
  datatype ChannelConfig = ChannelConfig(name: string, metrics: seq<string>, coupling: string, currentRange: string, voltageRange: string)

  /** The parts of the configuration the device reads. */
  datatype DeviceConfig = DeviceConfig(connection: string, channels: seq<ChannelConfig>, samplingRate: int)

  /** A constructed `Channel`: its id, name, metric set, coupling and ranges. */
  datatype ChannelInfo = ChannelInfo(id: int, name: string, metrics: seq<MetricKey>, coupling: Coupling, currentRange: string, voltageRange: string)

  function Ref(c: ChannelInfo): (r: ChannelRef)
    ensures r.id == c.id && r.name == c.name
  {
    ChannelRef(c.id, c.name)
  }

  /** The connection type check of the constructor: only a network socket is supported. */
  function ConnectionAllowed(connection: string): (o: Outcome)
    ensures o.Pass? <==> connection == "socket"
    ensures o.Fail? ==> o.message == SocketOnly
  {
    if connection != "socket" then Fail(SocketOnly) else Pass
  }

  // ---------------------------------------------------------------------------
  // The channel count in the reply to `GROUP?`

  /** The `getline(str, group, ',')` loop from `total` on: each field through `std::stoll`, added in `size_t`. */
  function SumFrom(total: nat, fields: seq<string>): (r: Result<nat>)
    requires total < TWO64
    ensures r.Ok? ==> r.value < TWO64
    decreases |fields|
  {
    if fields == [] then Ok(total)
    else match Stoll(fields[0])
      case None => Err("std::stoll")
      case Some(v) => SumFrom((total + v) % TWO64, fields[1..])
  }

  /** The device's channel count: the sum of the comma-separated group sizes. */
  function ChannelCountOf(reply: string): (r: Result<nat>)
    ensures r.Ok? ==> r.value < TWO64
  {
    SumFrom(0, GetlineFields(reply, ','))
  }

  /** The summing loop over the fields of the `GROUP?` reply. */
  method ChannelCount(reply: string) returns (r: Result<nat>)
    ensures r == ChannelCountOf(reply)
  {
    var fields := GetlineFields(reply, ',');
    var total: nat := 0;
    var i := 0;
    while i < |fields|
      invariant 0 <= i <= |fields| && total < TWO64
      invariant SumFrom(0, fields) == SumFrom(total, fields[i..])
    {
      assert fields[i..][0] == fields[i] && fields[i..][1..] == fields[i + 1..];
      var group := Stoll(fields[i]);
      if group.None? {
        return Err("std::stoll");
      }
      total := (total + group.value) % TWO64;
      i := i + 1;
    }
    assert fields[i..] == [];
    return Ok(total);
  }

  function Sum(ns: seq<nat>): nat
  {
    if ns == [] then 0 else ns[0] + Sum(ns[1..])
  }

  /** The decimal numerals of counts. */
  function Numerals(ns: seq<nat>): (ds: seq<string>)
    ensures |ds| == |ns| && forall i | 0 <= i < |ns| :: ds[i] == NatToString(ns[i])
  {
    if ns == [] then [] else [NatToString(ns[0])] + Numerals(ns[1..])
  }

  /** The `GROUP?` reply of an instrument with groups of the given sizes. */
  function GroupReply(ns: seq<nat>): string
    requires |ns| > 0
  {
    Join(Numerals(ns), ',')
  }

  lemma NoCommaInNumerals(ns: seq<nat>)
    ensures forall i | 0 <= i < |ns| :: ',' !in Numerals(ns)[i]
  {
    forall i | 0 <= i < |ns| ensures ',' !in Numerals(ns)[i] {
      var d := NatToString(ns[i]);
      assert forall j | 0 <= j < |d| :: d[j] != ',' by {
        forall j | 0 <= j < |d| ensures d[j] != ',' { assert IsDigit(d[j]); }
      }
    }
  }

  lemma StollOfNumeral(v: nat)
    requires v < TWO63
    ensures Stoll(NatToString(v)) == Some(v)
  {
    StollOfIntToString(v);
  }

  lemma SumFitsWord(x: nat)
    requires x < TWO64
    ensures x % TWO64 == x
  {
  }

  lemma {:induction false} SumOfNumerals(total: nat, ns: seq<nat>)
    requires forall i | 0 <= i < |ns| :: ns[i] < TWO63
    requires total + Sum(ns) < TWO64
    ensures SumFrom(total, Numerals(ns)).Ok? && SumFrom(total, Numerals(ns)).value == total + Sum(ns)
    decreases |ns|
  {
    if ns != [] {
      var ds := Numerals(ns);
      var v := ns[0];
      StollOfNumeral(v);
      SumFitsWord(total + v);
      assert ds[1..] == Numerals(ns[1..]);
      SumOfNumerals(total + v, ns[1..]);
    }
  }

  /** The channel count of a `GROUP?` reply is the total of its group sizes. */
  lemma GroupReplyCount(ns: seq<nat>)
    requires |ns| > 0 && forall i | 0 <= i < |ns| :: ns[i] < TWO63
    requires Sum(ns) < TWO64
    ensures ChannelCountOf(GroupReply(ns)).Ok? && ChannelCountOf(GroupReply(ns)).value == Sum(ns)
  {
    GroupReplyFields(ns);
    SumOfNumerals(0, ns);
  }

  /** The fields read from a `GROUP?` reply are the numerals of the group sizes. */
  lemma GroupReplyFields(ns: seq<nat>)
    requires |ns| > 0
    ensures GetlineFields(GroupReply(ns), ',') == Numerals(ns)
  {
    var ds := Numerals(ns);
    NoCommaInNumerals(ns);
    SplitOfJoin(ds, ',');
    assert ds[|ds| - 1] != "";
  }

  // ---------------------------------------------------------------------------
  // The action command

  const ActionHead: string := "ACTN; TSCYCL?; DURCYCL?"

  /** The query of track `i`'s gapless values, indices 0 to `gap_length - 1`. */
  function GapQuery(i: nat, gapLength: int): string
  {
    " GLPVAL? " + NatToString(i) + ", (0:" + IntToString(gapLength - 1) + ")"
  }

  /** The action string for `n` tracks: the cycle time stamp and duration, then each track's values. */
  function ActionString(n: nat, gapLength: int): (a: string)
    ensures |a| >= |ActionHead| && a[..|ActionHead|] == ActionHead
  {
    if n == 0 then ActionHead else ActionString(n - 1, gapLength) + ";" + GapQuery(n - 1, gapLength)
  }

  /** The string the constructor's loop builds. */
  method BuildAction(n: nat, gapLength: int) returns (action: string)
    ensures action == ActionString(n, gapLength)
  {
    action := ActionHead;
    var i := 0;
    while i < n
      invariant 0 <= i <= n && action == ActionString(i, gapLength)
    {
      var query := " GLPVAL? " + NatToString(i) + ", (0:" + IntToString(gapLength - 1) + ")";
      action := action + ";" + query;
      i := i + 1;
    }
  }

  /** The queries of tracks 0 to n - 1, in order. */
  function Queries(n: nat, gapLength: int): (qs: seq<string>)
    ensures |qs| == n && forall i | 0 <= i < n :: qs[i] == GapQuery(i, gapLength)
  {
    if n == 0 then [] else Queries(n - 1, gapLength) + [GapQuery(n - 1, gapLength)]
  }

  lemma NoSemicolonInQuery(i: nat, gapLength: int)
    ensures ';' !in GapQuery(i, gapLength)
  {
    var a, b := NatToString(i), NatToString(if gapLength - 1 < 0 then 1 - gapLength else gapLength - 1);
    assert forall j | 0 <= j < |a| :: a[j] != ';' by {
      forall j | 0 <= j < |a| ensures a[j] != ';' { assert IsDigit(a[j]); }
    }
    assert forall j | 0 <= j < |b| :: b[j] != ';' by {
      forall j | 0 <= j < |b| ensures b[j] != ';' { assert IsDigit(b[j]); }
    }
  }

  /** The head of the action string: the action and two queries. */
  lemma HeadCommands()
    ensures Split(ActionHead, ';') == ["ACTN", " TSCYCL?", " DURCYCL?"]
  {
    assert ActionHead == "ACTN" + [';'] + " TSCYCL?" + [';'] + " DURCYCL?";
    SplitThree("ACTN", " TSCYCL?", " DURCYCL?", ';');
  }

  lemma SplitThree(a: string, b: string, c: string, d: char)
    requires d !in a && d !in b && d !in c
    ensures Split(a + [d] + b + [d] + c, d) == [a, b, c]
  {
    SplitWithout(c, d);
    SplitCons(b, d, c);
    Associative(a + [d], b, [d]);
    Associative(a + [d], b + [d], c);
    SplitCons(a, d, b + [d] + c);
  }

  /**
   * The instrument reads the action string as `n + 3` commands separated by
   * `;`: the action, the time stamp and duration queries, then the query of
   * each track's values, track `i` in place `3 + i`.
   */
  lemma {:induction false} ActionCommands(n: nat, gapLength: int)
    ensures Split(ActionString(n, gapLength), ';') == ["ACTN", " TSCYCL?", " DURCYCL?"] + Queries(n, gapLength)
  {
    if n == 0 {
      HeadCommands();
    } else {
      var prev, q := ActionString(n - 1, gapLength), GapQuery(n - 1, gapLength);
      var head := ["ACTN", " TSCYCL?", " DURCYCL?"];
      assert ActionString(n, gapLength) == prev + [';'] + q;
      assert Queries(n, gapLength) == Queries(n - 1, gapLength) + [q];
      ActionCommands(n - 1, gapLength);
      NoSemicolonInQuery(n - 1, gapLength);
      SplitSnoc(prev, ';', q);
      Associative(head, Queries(n - 1, gapLength), [q]);
    }
  }

  // ---------------------------------------------------------------------------
  // What the device sends

  /** The tracks a channel adds from track id `base` on: one per metric, in set order. */
  function ChannelTracks(ch: ChannelRef, ms: seq<MetricKey>, base: nat): (ts: seq<Track>)
    ensures |ts| == |ms|
  {
    if ms == [] then []
    else ChannelTracks(ch, ms[..|ms| - 1], base) + [NewTrack(ch, base + |ms| - 1, ms[|ms| - 1].0, ms[|ms| - 1].1)]
  }

  /** The k-th track of a channel has id `base + k` and the k-th metric. */
  lemma {:induction false} ChannelTracksAt(ch: ChannelRef, ms: seq<MetricKey>, base: nat)
    ensures var ts := ChannelTracks(ch, ms, base);
      forall k | 0 <= k < |ms| :: ts[k] == NewTrack(ch, base + k, ms[k].0, ms[k].1)
    decreases |ms|
  {
    if ms != [] {
      ChannelTracksAt(ch, ms[..|ms| - 1], base);
    }
  }

  lemma ChannelTracksNext(ch: ChannelRef, ms: seq<MetricKey>, k: nat, base: nat)
    requires k < |ms|
    ensures ChannelTracks(ch, ms[..k + 1], base) == ChannelTracks(ch, ms[..k], base) + [NewTrack(ch, base + k, ms[k].0, ms[k].1)]
  {
    assert ms[..k + 1][..k] == ms[..k];
  }

  lemma AppendFour<T>(s: seq<T>, a: T, b: T, xs: seq<T>, ys: seq<T>)
    ensures s + [a, b] + xs + ys == s + ([a, b] + xs + ys)
  {
    Associative(s, [a, b], xs);
    Associative(s, [a, b] + xs, ys);
  }

  lemma SnocThree<T>(s: seq<T>, a: T, b: T, c: T)
    ensures s + [a] + [b] + [c] == s + [a, b, c]
  {
    assert [a] + [b] == [a, b];
    Associative(s, [a], [b]);
    assert [a, b] + [c] == [a, b, c];
    Associative(s, [a, b], [c]);
  }

  lemma SnocFour<T>(s: seq<T>, a: T, b: T, c: T, d: T)
    ensures s + [a] + [b, c, d] == s + [a, b, c, d]
  {
    assert [a] + [b, c, d] == [a, b, c, d];
    Associative(s, [a], [b, c, d]);
  }

  lemma LastTwo<T>(s: seq<T>, a: T, b: T, c: T, d: T)
    ensures |s + [a, b, c, d]| >= 2 && (s + [a, b, c, d])[|s| + 2..] == [c, d]
  {
  }

  /** Checked commands as written to the socket. */
  function Checked(cmds: seq<string>): (ws: seq<string>)
    ensures |ws| == |cmds|
  {
    if cmds == [] then [] else Checked(cmds[..|cmds| - 1]) + [Line(CheckText(cmds[|cmds| - 1]))]
  }

  lemma CheckedNext(s0: seq<string>, cmds: seq<string>, i: nat)
    requires i < |cmds|
    ensures s0 + Checked(cmds[..i]) + [Line(CheckText(cmds[i]))] == s0 + Checked(cmds[..i + 1])
  {
    assert cmds[..i + 1][..i] == cmds[..i];
    Associative(s0, Checked(cmds[..i]), [Line(CheckText(cmds[i]))]);
  }

  /** The binding commands of tracks, as `add_track` checks them. */
  function Bindings(ts: seq<Track>): (cmds: seq<string>)
    ensures |cmds| == |ts|
  {
    if ts == [] then [] else Bindings(ts[..|ts| - 1]) + [ActionCommand(ts[|ts| - 1], Gapless)]
  }

  lemma CheckedSnoc(cmds: seq<string>, cmd: string)
    ensures Checked(cmds + [cmd]) == Checked(cmds) + [Line(CheckText(cmd))]
  {
    assert (cmds + [cmd])[..|cmds|] == cmds;
  }

  lemma BindingsSnoc(ts: seq<Track>, t: Track)
    ensures Bindings(ts + [t]) == Bindings(ts) + [ActionCommand(t, Gapless)]
  {
    assert (ts + [t])[..|ts|] == ts;
  }

  /**
   * The invariant of the loop over a channel's metrics: the tracks added
   * after `t0` are those of the metrics so far, with ids from `|t0|` on, and
   * the writes after `s0` are their checked bindings.
   */
  ghost predicate BindingLoop(t0: seq<Track>, s0: seq<string>, ch: ChannelRef, ms: seq<MetricKey>, base: nat, ts: seq<Track>, ss: seq<string>)
  {
    ts == t0 + ChannelTracks(ch, ms, base) && ss == s0 + Checked(Bindings(ChannelTracks(ch, ms, base)))
  }

  /** Adding the track of metric `k`, numbered next, extends the channel's tracks by one. */
  lemma TrackStep(t0: seq<Track>, ch: ChannelRef, ms: seq<MetricKey>, k: nat, base: nat, n: nat, t1: seq<Track>, t2: seq<Track>)
    requires k < |ms| && n == base + k && t1 == t0 + ChannelTracks(ch, ms[..k], base)
    requires t2 == t1 + [NewTrack(ch, n, ms[k].0, ms[k].1)]
    ensures t2 == t0 + ChannelTracks(ch, ms[..k + 1], base)
  {
    ChannelTracksNext(ch, ms, k, base);
    Associative(t0, ChannelTracks(ch, ms[..k], base), [NewTrack(ch, n, ms[k].0, ms[k].1)]);
  }

  lemma SnocStep<T>(s0: seq<T>, s1: seq<T>, s2: seq<T>, xs: seq<T>, x: T, ys: seq<T>)
    requires s1 == s0 + xs && s2 == s1 + [x] && ys == xs + [x]
    ensures s2 == s0 + ys
  {
    Associative(s0, xs, [x]);
  }

  /** Checking the binding of the track of metric `k` extends the channel's writes by one. */
  lemma BindingsNext(ch: ChannelRef, ms: seq<MetricKey>, k: nat, base: nat)
    requires k < |ms|
    ensures Checked(Bindings(ChannelTracks(ch, ms[..k + 1], base)))
      == Checked(Bindings(ChannelTracks(ch, ms[..k], base))) + [Line(CheckText(ActionCommand(NewTrack(ch, base + k, ms[k].0, ms[k].1), Gapless)))]
  {
    var before, tr := ChannelTracks(ch, ms[..k], base), NewTrack(ch, base + k, ms[k].0, ms[k].1);
    ChannelTracksNext(ch, ms, k, base);
    BindingsSnoc(before, tr);
    CheckedSnoc(Bindings(before), ActionCommand(tr, Gapless));
  }

  /** What the channel constructor writes when every step succeeds. */
  function ChannelLog(c: ChannelInfo, base: nat): seq<string>
  {
    [Line("CTYP" + IntToString(c.id) + "?"), Line(CheckText(""))]
    + Checked(SetupCommands(c.id, c.coupling, c.currentRange, c.voltageRange))
    + Checked(Bindings(ChannelTracks(Ref(c), c.metrics, base)))
  }

  /** The tracks of channels constructed one after the other, with track ids from `base` on. */
  function AllTracks(cs: seq<ChannelInfo>, base: nat): (ts: seq<Track>)
    ensures cs == [] ==> ts == []
    decreases |cs|
  {
    if cs == [] then []
    else
      var front := AllTracks(cs[..|cs| - 1], base);
      front + ChannelTracks(Ref(cs[|cs| - 1]), cs[|cs| - 1].metrics, base + |front|)
  }

  /**
   * What channels constructed one after the other write, `log(c, k)` for
   * each channel `c` whose first track id is `k`, with track ids from `base` on.
   */
  function Writes(cs: seq<ChannelInfo>, base: nat, log: (ChannelInfo, nat) -> seq<string>): (ws: seq<string>)
    ensures cs == [] ==> ws == []
    decreases |cs|
  {
    if cs == [] then []
    else Writes(cs[..|cs| - 1], base, log) + log(cs[|cs| - 1], base + |AllTracks(cs[..|cs| - 1], base)|)
  }

  /** What the channel constructors write, one after the other, with track ids from `base` on. */
  function AllLogs(cs: seq<ChannelInfo>, base: nat): seq<string>
  {
    Writes(cs, base, ChannelLog)
  }

  /** One more channel adds its own tracks, numbered after the others. */
  lemma AllTracksSnoc(cs: seq<ChannelInfo>, c: ChannelInfo, base: nat, next: nat)
    requires next == base + |AllTracks(cs, base)|
    ensures AllTracks(cs + [c], base) == AllTracks(cs, base) + ChannelTracks(Ref(c), c.metrics, next)
  {
    assert (cs + [c])[..|cs|] == cs;
  }

  /** One more channel adds its own writes, with its track ids after the others. */
  lemma WritesSnoc(cs: seq<ChannelInfo>, c: ChannelInfo, base: nat, log: (ChannelInfo, nat) -> seq<string>, next: nat)
    requires next == base + |AllTracks(cs, base)|
    ensures Writes(cs + [c], base, log) == Writes(cs, base, log) + log(c, next)
  {
    assert (cs + [c])[..|cs|] == cs;
  }

  /** The tracks after one more channel, from the tracks before it and the ones that channel added. */
  lemma TracksStep(t0: seq<Track>, cs: seq<ChannelInfo>, c: ChannelInfo, t1: seq<Track>, t2: seq<Track>)
    requires t1 == t0 + AllTracks(cs, |t0|) && t2 == t1 + ChannelTracks(Ref(c), c.metrics, |t1|)
    ensures t2 == t0 + AllTracks(cs + [c], |t0|)
  {
    AllTracksSnoc(cs, c, |t0|, |t1|);
    Associative(t0, AllTracks(cs, |t0|), ChannelTracks(Ref(c), c.metrics, |t1|));
  }

  /** The writes after one more channel, from the writes before it and what that channel wrote. */
  lemma WritesStep(s0: seq<string>, cs: seq<ChannelInfo>, c: ChannelInfo, base: nat, log: (ChannelInfo, nat) -> seq<string>,
                   next: nat, s1: seq<string>, s2: seq<string>)
    requires next == base + |AllTracks(cs, base)|
    requires s1 == s0 + Writes(cs, base, log) && s2 == s1 + log(c, next)
    ensures s2 == s0 + Writes(cs + [c], base, log)
  {
    WritesSnoc(cs, c, base, log, next);
    Associative(s0, Writes(cs, base, log), log(c, next));
  }

  /** The channels are the first entries of a configuration parsed in order, each with its position plus one as its id. */
  ghost predicate ConfiguredAs(configs: seq<ChannelConfig>, chs: seq<ChannelInfo>)
    decreases |chs|
  {
    |chs| <= |configs|
    && (chs != [] ==>
          ConfiguredAs(configs, chs[..|chs| - 1]) && Configured(configs[|chs| - 1], |chs|) == Ok(chs[|chs| - 1]))
  }

  /** Each channel is its configuration entry, parsed. */
  lemma {:induction false} ConfiguredEach(configs: seq<ChannelConfig>, chs: seq<ChannelInfo>)
    requires ConfiguredAs(configs, chs)
    ensures forall j | 0 <= j < |chs| :: Configured(configs[j], j + 1) == Ok(chs[j])
    decreases |chs|
  {
    if chs != [] {
      var front := chs[..|chs| - 1];
      ConfiguredEach(configs, front);
      assert forall j | 0 <= j < |front| :: chs[j] == front[j];
    }
  }

  lemma ConfiguredSnoc(configs: seq<ChannelConfig>, chs: seq<ChannelInfo>, c: ChannelInfo)
    requires ConfiguredAs(configs, chs) && |chs| < |configs| && Configured(configs[|chs|], |chs| + 1) == Ok(c)
    ensures ConfiguredAs(configs, chs + [c])
  {
    var after := chs + [c];
    assert |after| == |chs| + 1 && after[|chs|] == c;
    assert after[..|chs|] == chs;
  }

  /**
   * The invariant of the channel loop: the channels so far come from the
   * first entries of the configuration, and account for every track added
   * after `t0` and every write after `s0`, `log(c, k)` for each channel.
   */
  ghost predicate ChannelLoop(configs: seq<ChannelConfig>, t0: seq<Track>, s0: seq<string>, log: (ChannelInfo, nat) -> seq<string>,
                              chs: seq<ChannelInfo>, ts: seq<Track>, ss: seq<string>)
  {
    ConfiguredAs(configs, chs) && ts == t0 + AllTracks(chs, |t0|) && ss == s0 + Writes(chs, |t0|, log)
  }

  /** One more channel, constructed from the next entry, keeps the invariant of the channel loop. */
  lemma NextChannel(configs: seq<ChannelConfig>, t0: seq<Track>, s0: seq<string>, log: (ChannelInfo, nat) -> seq<string>,
                    before: seq<ChannelInfo>, t1: seq<Track>, s1: seq<string>,
                    c: ChannelInfo, after: seq<ChannelInfo>, t2: seq<Track>, s2: seq<string>)
    requires ChannelLoop(configs, t0, s0, log, before, t1, s1)
    requires |before| < |configs| && Configured(configs[|before|], |before| + 1) == Ok(c) && after == before + [c]
    requires t2 == t1 + ChannelTracks(Ref(c), c.metrics, |t1|)
    requires s2 == s1 + log(c, |t1|)
    ensures ChannelLoop(configs, t0, s0, log, after, t2, s2)
  {
    ConfiguredSnoc(configs, before, c);
    TracksStep(t0, before, c, t1, t2);
    WritesStep(s0, before, c, |t0|, log, |t1|, s1, s2);
  }

  /**
   * The channel a configuration entry describes, or the first error parsing
   * it: the metrics first, then the coupling.
   */
  function Configured(cfg: ChannelConfig, id: int): (r: Result<ChannelInfo>)
    ensures Collect([], cfg.metrics, cfg.name).Err? ==> r == Err(Collect([], cfg.metrics, cfg.name).message)
    ensures r.Ok? <==> Collect([], cfg.metrics, cfg.name).Ok? && ParseCoupling(cfg.coupling, cfg.name).Ok?
    ensures r.Ok? ==> r.value == ChannelInfo(id, cfg.name, Collect([], cfg.metrics, cfg.name).value, ACDC, cfg.currentRange, cfg.voltageRange)
  {
    match Collect([], cfg.metrics, cfg.name)
    case Err(e) => Err(e)
    case Ok(metrics) =>
      match ParseCoupling(cfg.coupling, cfg.name)
      case Err(e) => Err(e)
      case Ok(coupling) => Ok(ChannelInfo(id, cfg.name, metrics, coupling, cfg.currentRange, cfg.voltageRange))
  }

  /** The parsing part of the channel constructor: the metrics, then the coupling. */
  method ParseConfigured(cfg: ChannelConfig, id: int) returns (r: Result<ChannelInfo>)
    ensures r == Configured(cfg, id)
  {
    var metrics := ParseMetrics(cfg.metrics, cfg.name);
    if metrics.Err? {
      return Err(metrics.message);
    }
    var coupling := ParseCoupling(cfg.coupling, cfg.name);
    if coupling.Err? {
      return Err(coupling.message);
    }
    r := Ok(ChannelInfo(id, cfg.name, metrics.value, coupling.value, cfg.currentRange, cfg.voltageRange));
  }

  /** The checked commands of the constructor once the channels are in place. */
  function AcquisitionCommands(channels: nat, samplingRate: int): seq<string>
  {
    ["GROUP " + NatToString(channels), "PROC 1", "GLCSR " + IntToString(samplingRate), "CYCLMOD SCOPE", "ZSUP 0", "INIM"]
  }

  /** The writes of `Prologue`. */
  function PrologueLog(now: string): seq<string>
  {
    [Line("ERRALL?"), Line("CONT OFF"), Line("SYSDATE?"), Line(CheckText("SYSDATE " + now)), Line("SYSDATE?")]
  }

  /** The writes of `ConfigureAcquisition` when it succeeds with `tracks` tracks in place and the given gap length. */
  function AcquisitionLog(channels: nat, tracks: nat, samplingRate: int, gapLength: int): seq<string>
  {
    Checked(AcquisitionCommands(channels, samplingRate))
    + [Line("GLPTLEN?"), Line("GLPSR?"), Line(ActionString(tracks, gapLength)), Line(ModeCommand(Binary))]
  }

  /** What the device constructor writes when every step succeeds, for the channels `chs` and the gap length the instrument reports. */
  function ConstructorLog(now: string, chs: seq<ChannelInfo>, samplingRate: int, gapLength: int): seq<string>
  {
    PrologueLog(now) + ConfigureLog(chs, samplingRate, gapLength)
  }

  /** The writes of `Configure`: the channel count query, the channels, the acquisition. */
  function ConfigureLog(chs: seq<ChannelInfo>, samplingRate: int, gapLength: int): seq<string>
  {
    [Line("GROUP?")] + AllLogs(chs, 0) + AcquisitionLog(|chs|, |AllTracks(chs, 0)|, samplingRate, gapLength)
  }

  /** The constructor's writes end with the action, then the switch to binary mode. */
  lemma ConstructorLogEnds(now: string, chs: seq<ChannelInfo>, samplingRate: int, gapLength: int)
    ensures var log := ConstructorLog(now, chs, samplingRate, gapLength);
      |log| >= 8 && log[|log| - 2..] == [Line(ActionString(|AllTracks(chs, 0)|, gapLength)), Line(ModeCommand(Binary))]
  {
    var mid := [Line("GROUP?")] + AllLogs(chs, 0) + Checked(AcquisitionCommands(|chs|, samplingRate));
    var tail := [Line("GLPTLEN?"), Line("GLPSR?"), Line(ActionString(|AllTracks(chs, 0)|, gapLength)), Line(ModeCommand(Binary))];
    Associative([Line("GROUP?")] + AllLogs(chs, 0), Checked(AcquisitionCommands(|chs|, samplingRate)), tail);
    Associative(PrologueLog(now), mid, tail);
    LastTwo(PrologueLog(now) + mid, tail[0], tail[1], tail[2], tail[3]);
  }

  lemma TwoSteps<T>(s0: seq<T>, s1: seq<T>, s2: seq<T>, a: seq<T>, b: seq<T>, ab: seq<T>)
    requires s1 == s0 + a && s2 == s1 + b && ab == a + b
    ensures s2 == s0 + ab
  {
    Associative(s0, a, b);
  }

  // ---------------------------------------------------------------------------
  // What the device reads: the outcome of each step of the constructor and
  // where the instrument's replies then stand. A step that raises ends the
  // constructor with the exception's text.

  /** A `read_ascii()` whose reply is dropped: it fails only when the read raises. */
  function ReadRun(s: seq<Byte>, i: nat): (r: (Outcome, nat))
    requires i <= |s|
    ensures r.1 == ReplyAt(s, i).1
    ensures r.0.Pass? <==> ReplyAt(s, i).0.Ok?
    ensures r.0.Fail? ==> r.0.message == ReplyAt(s, i).0.message
  {
    (if ReplyAt(s, i).0.Err? then Fail(ReplyAt(s, i).0.message) else Pass, ReplyAt(s, i).1)
  }

  /** `check_command` on `n` commands in turn: the first reply that is not the clean one ends the run. */
  function CheckRun(s: seq<Byte>, i: nat, n: nat): (r: (Outcome, nat))
    requires i <= |s|
    ensures i <= r.1 <= |s|
    decreases n
  {
    if n == 0 then (Pass, i)
    else
      var (o, next) := CheckAt(s, i);
      if o.Fail? then (o, next) else CheckRun(s, next, n - 1)
  }

  /** One more checked command: a reply that is not clean ends the run, a clean one leaves the rest to run. */
  lemma CheckRunNext(s: seq<Byte>, i: nat, n: nat, o: Outcome, next: nat)
    requires i <= |s| && n > 0 && (o, next) == CheckAt(s, i)
    ensures o.Fail? ==> CheckRun(s, i, n) == (o, next)
    ensures o.Pass? ==> CheckRun(s, i, n) == CheckRun(s, next, n - 1)
  {
  }

  /** An instrument's replies, each ended by a line feed. */
  function Replies(rs: seq<seq<Byte>>): seq<Byte>
  {
    if rs == [] then [] else rs[0] + "\n" + Replies(rs[1..])
  }

  /**
   * Checked commands pass exactly when every reply is the clean one, and
   * then the run has read all the replies.
   */
  lemma {:induction false} CheckRunReplies(p: seq<Byte>, rs: seq<seq<Byte>>, t: seq<Byte>)
    requires forall j | 0 <= j < |rs| :: '\n' !in rs[j]
    ensures var r := CheckRun(p + Replies(rs) + t, |p|, |rs|);
      (r.0.Pass? <==> forall j | 0 <= j < |rs| :: rs[j] == NoError)
      && (r.0.Pass? ==> r.1 == |p| + |Replies(rs)|)
    decreases |rs|
  {
    if rs != [] {
      var tail := Replies(rs[1..]);
      var rest := tail + t;
      var q := p + rs[0] + "\n";
      var s := p + Replies(rs) + t;
      calc {
        s;
        p + (rs[0] + "\n" + tail) + t;
        { Associative(p, rs[0] + "\n" + tail, t); Associative(rs[0] + "\n", tail, t); }
        p + (rs[0] + "\n" + rest);
        { Associative(p, rs[0], "\n"); Associative(p + rs[0] + "\n", tail, t); }
        q + tail + t;
      }
      assert s == p + rs[0] + "\n" + rest;
      LineRoundTrip(p, rs[0], rest);
      assert CheckAt(s, |p|) == (CheckOutcome(rs[0]), |q|);
      CheckRunReplies(q, rs[1..], t);
      assert forall j | 0 <= j < |rs| - 1 :: rs[1..][j] == rs[j + 1];
    }
  }

  /** `add_track` for `n` metrics in turn with `count` tracks in place: a 17th track is refused before anything is read. */
  function TrackRun(s: seq<Byte>, i: nat, count: nat, n: nat): (r: (Outcome, nat))
    requires i <= |s|
    ensures i <= r.1 <= |s|
    decreases n
  {
    if n == 0 then (Pass, i)
    else if count >= MaxTracks then (Fail(TooManyTracks), i)
    else
      var (o, next) := CheckAt(s, i);
      if o.Fail? then (o, next) else TrackRun(s, next, count + 1, n - 1)
  }

  /** One more track: refused at the limit, otherwise its binding checked; `count'` and `n'` are the counts after it. */
  lemma TrackRunNext(s: seq<Byte>, i: nat, count: nat, n: nat, o: Outcome, next: nat, count': nat, n': nat)
    requires i <= |s| && n > 0 && count' == count + 1 && n' == n - 1
    requires count >= MaxTracks ==> o == Fail(TooManyTracks) && next == i
    requires count < MaxTracks ==> (o, next) == CheckAt(s, i)
    ensures o.Fail? ==> TrackRun(s, i, count, n) == (o, next)
    ensures o.Pass? ==> next <= |s| && TrackRun(s, i, count, n) == TrackRun(s, next, count', n')
  {
  }

  /** Within the limit of 16 tracks, adding tracks is checking their bindings. */
  lemma {:induction false} TrackRunWithin(s: seq<Byte>, i: nat, count: nat, n: nat)
    requires i <= |s| && count + n <= MaxTracks
    ensures TrackRun(s, i, count, n) == CheckRun(s, i, n)
    decreases n
  {
    if n > 0 && CheckAt(s, i).0.Pass? {
      TrackRunWithin(s, CheckAt(s, i).1, count + 1, n - 1);
    }
  }

  /** Past the limit of 16 tracks, adding tracks fails, whatever the replies. */
  lemma {:induction false} TrackRunOver(s: seq<Byte>, i: nat, count: nat, n: nat)
    requires i <= |s| && count <= MaxTracks < count + n
    ensures TrackRun(s, i, count, n).0.Fail?
    decreases n
  {
    if count < MaxTracks && CheckAt(s, i).0.Pass? {
      TrackRunOver(s, CheckAt(s, i).1, count + 1, n - 1);
    }
  }

  /** The channel type query, refused for an id outside 1 to 7 or an empty type, then the error log check. */
  function FindRun(s: seq<Byte>, i: nat, id: int): (r: (Outcome, nat))
    requires i <= |s|
    ensures i <= r.1 <= |s|
    ensures r.0.Pass? <==>
      0 < id < 8 && ReplyAt(s, i).0.Ok? && ReplyAt(s, i).0.value != "\"\"" && ReplyAt(s, ReplyAt(s, i).1).0 == Ok(NoError)
  {
    if !(0 < id < 8) then (Fail("assertion 0 < id_ && id_ < 8"), i)
    else
      var (channelType, next) := ReplyAt(s, i);
      if channelType.Err? then (Fail(channelType.message), next)
      else if channelType.value == "\"\"" then (Fail("Can't configure invalid LMG device channel " + IntToString(id)), next)
      else CheckAt(s, next)
  }

  /** The channel constructor: the channel found, its setup commands checked, then its tracks added. */
  function ChannelRun(s: seq<Byte>, i: nat, c: ChannelInfo, count: nat): (r: (Outcome, nat))
    requires i <= |s|
    ensures i <= r.1 <= |s|
  {
    var (found, afterFind) := FindRun(s, i, c.id);
    if found.Fail? then (found, afterFind)
    else
      var (setUp, afterSetup) := CheckRun(s, afterFind, |SetupNodes|);
      if setUp.Fail? then (setUp, afterSetup) else TrackRun(s, afterSetup, count, |c.metrics|)
  }

  /** `ChannelRun` wherever the cursor stands; past the end of the replies, which no cursor reaches, it passes. */
  function ChannelStep(s: seq<Byte>, i: nat, c: ChannelInfo, count: nat): (r: (Outcome, nat))
    ensures i <= |s| ==> i <= r.1 <= |s|
  {
    if i <= |s| then ChannelRun(s, i, c, count) else (Pass, i)
  }

  /**
   * The configuration's entries from the `k`-th on, each parsed and then
   * constructed by `construct`, with `count` tracks in place. Taking the
   * channel constructor as a parameter keeps the facts about the loop over
   * the entries apart from what constructing one channel reads.
   */
  function EntriesRun(construct: (seq<Byte>, nat, ChannelInfo, nat) -> (Outcome, nat), s: seq<Byte>, i: nat,
                      configs: seq<ChannelConfig>, k: nat, count: nat): (r: (Outcome, nat))
    decreases |configs| - k
  {
    if k >= |configs| then (Pass, i)
    else match Configured(configs[k], k + 1)
      case Err(e) => (Fail(e), i)
      case Ok(c) =>
        var (o, next) := construct(s, i, c, count);
        if o.Fail? then (o, next) else EntriesRun(construct, s, next, configs, k + 1, count + |c.metrics|)
  }

  /** One more entry, parsed as `c` and constructed; `k'` and `count'` are the position and track count after it. */
  lemma EntriesRunNext(construct: (seq<Byte>, nat, ChannelInfo, nat) -> (Outcome, nat), s: seq<Byte>, i: nat,
                       configs: seq<ChannelConfig>, k: nat, count: nat, c: ChannelInfo, o: Outcome, next: nat, k': nat, count': nat)
    requires k < |configs| && Configured(configs[k], k + 1) == Ok(c)
    requires (o, next) == construct(s, i, c, count) && k' == k + 1 && count' == count + |c.metrics|
    ensures o.Fail? ==> EntriesRun(construct, s, i, configs, k, count) == (o, next)
    ensures o.Pass? ==> EntriesRun(construct, s, i, configs, k, count) == EntriesRun(construct, s, next, configs, k', count')
  {
    match Configured(configs[k], k + 1)
    case Ok(c0) =>
      assert c0 == c;
  }

  /** The channel loop of the constructor: `EntriesRun` with the channel constructor itself. */
  function ChannelsRun(s: seq<Byte>, i: nat, configs: seq<ChannelConfig>, k: nat, count: nat): (r: (Outcome, nat))
    requires i <= |s|
    ensures i <= r.1 <= |s|
  {
    EntriesRunWithin(ChannelStep, s, i, configs, k, count);
    EntriesRun(ChannelStep, s, i, configs, k, count)
  }

  /** The loop over the entries reads forward and stays within the replies, as each constructor does. */
  lemma {:induction false} EntriesRunWithin(construct: (seq<Byte>, nat, ChannelInfo, nat) -> (Outcome, nat), s: seq<Byte>, i: nat,
                                            configs: seq<ChannelConfig>, k: nat, count: nat)
    requires i <= |s| && forall j: nat, c: ChannelInfo, n: nat | j <= |s| :: j <= construct(s, j, c, n).1 <= |s|
    ensures i <= EntriesRun(construct, s, i, configs, k, count).1 <= |s|
    decreases |configs| - k
  {
    if k < |configs| && Configured(configs[k], k + 1).Ok? {
      var c := Configured(configs[k], k + 1).value;
      var (o, next) := construct(s, i, c, count);
      if o.Pass? {
        EntriesRunWithin(construct, s, next, configs, k + 1, count + |c.metrics|);
      }
    }
  }

  /** `EntriesRunNext` for the channel constructor. */
  lemma ChannelsRunNext(s: seq<Byte>, i: nat, configs: seq<ChannelConfig>, k: nat, count: nat, c: ChannelInfo,
                        o: Outcome, next: nat, k': nat, count': nat)
    requires i <= |s| && k < |configs| && Configured(configs[k], k + 1) == Ok(c)
    requires (o, next) == ChannelRun(s, i, c, count) && k' == k + 1 && count' == count + |c.metrics|
    ensures o.Fail? ==> ChannelsRun(s, i, configs, k, count) == (o, next)
    ensures o.Pass? ==> next <= |s| && ChannelsRun(s, i, configs, k, count) == ChannelsRun(s, next, configs, k', count')
  {
    EntriesRunNext(ChannelStep, s, i, configs, k, count, c, o, next, k', count');
  }

  /** The error raised when the configuration does not name every channel of the instrument. */
  function ChannelCountMismatch(count: nat, configured: nat): string
  {
    "This device has exactly " + NatToString(count) + " channels, but " + NatToString(configured) + " are configured."
  }

  /** `GROUP?`, the configured channels, then the comparison of their number with the instrument's. */
  function SetupChannelsRun(s: seq<Byte>, i: nat, configs: seq<ChannelConfig>, count: nat): (r: (Outcome, nat))
    requires i <= |s|
    ensures i <= r.1 <= |s|
  {
    var (reply, next) := ReplyAt(s, i);
    if reply.Err? then (Fail(reply.message), next)
    else match ChannelCountOf(reply.value)
      case Err(e) => (Fail(e), next)
      case Ok(n) =>
        var (o, end) := ChannelsRun(s, next, configs, 0, count);
        if o.Fail? then (o, end)
        else if |configs| != n then (Fail(ChannelCountMismatch(n, |configs|)), end)
        else (Pass, end)
  }

  /** The clock read, set (checked) and read back. */
  function ClockRun(s: seq<Byte>, i: nat): (r: (Outcome, nat))
    requires i <= |s|
    ensures i <= r.1 <= |s|
  {
    var (before, n1) := ReadRun(s, i);
    if before.Fail? then (before, n1)
    else
      var (checked, n2) := CheckAt(s, n1);
      if checked.Fail? then (checked, n2) else ReadRun(s, n2)
  }

  /** The error log read, then the clock set. */
  function PrologueRun(s: seq<Byte>, i: nat): (r: (Outcome, nat))
    requires i <= |s|
    ensures i <= r.1 <= |s|
  {
    var (errors, next) := ReadRun(s, i);
    if errors.Fail? then (errors, next) else ClockRun(s, next)
  }

  /** The `GLPTLEN?` reply through `std::stoi`. */
  function GapRun(s: seq<Byte>, i: nat): (r: (Outcome, nat))
    requires i <= |s|
    ensures r.1 == ReplyAt(s, i).1
    ensures r.0.Pass? <==> ReplyAt(s, i).0.Ok? && Stoi(ReplyAt(s, i).0.value).Some?
  {
    var (gap, next) := ReplyAt(s, i);
    (if gap.Err? then Fail(gap.message) else if Stoi(gap.value).None? then Fail("std::stoi") else Pass, next)
  }

  /** The gap length, then the sampling rate read. */
  function PrepareRun(s: seq<Byte>, i: nat): (r: (Outcome, nat))
    requires i <= |s|
    ensures i <= r.1 <= |s|
  {
    var (gap, next) := GapRun(s, i);
    if gap.Fail? then (gap, next) else ReadRun(s, next)
  }

  /** The six checked acquisition commands, then the action's preparation. */
  function AcquisitionRun(s: seq<Byte>, i: nat): (r: (Outcome, nat))
    requires i <= |s|
    ensures i <= r.1 <= |s|
  {
    var (o, next) := CheckRun(s, i, 6);
    if o.Fail? then (o, next) else PrepareRun(s, next)
  }

  /** The acquisition commands' run, then the action's preparation from where it ends. */
  lemma AcquisitionRunSteps(s: seq<Byte>, i: nat, n: nat, o: Outcome, next: nat)
    requires i <= |s| && n == 6 && (o, next) == CheckRun(s, i, n)
    ensures o.Fail? ==> AcquisitionRun(s, i) == (o, next)
    ensures o.Pass? ==> next <= |s| && AcquisitionRun(s, i) == PrepareRun(s, next)
  {
  }

  /** The channels with `count` tracks in place, then the acquisition. */
  function ConfigureRun(s: seq<Byte>, i: nat, configs: seq<ChannelConfig>, count: nat): (r: (Outcome, nat))
    requires i <= |s|
    ensures i <= r.1 <= |s|
  {
    var (o, next) := SetupChannelsRun(s, i, configs, count);
    if o.Fail? then (o, next) else AcquisitionRun(s, next)
  }

  /** The constructor after the connection is made: the prologue, then the channels and the acquisition. */
  function SetupRun(s: seq<Byte>, i: nat, configs: seq<ChannelConfig>): (r: (Outcome, nat))
    requires i <= |s|
    ensures i <= r.1 <= |s|
  {
    var (o, next) := PrologueRun(s, i);
    if o.Fail? then (o, next) else ConfigureRun(s, next, configs, 0)
  }

  /** Two steps, the second from where the first ended when it passed. */
  lemma ConfigureRunSteps(s: seq<Byte>, i: nat, configs: seq<ChannelConfig>, count: nat, o1: Outcome, n1: nat, o2: Outcome, n2: nat)
    requires i <= |s| && (o1, n1) == SetupChannelsRun(s, i, configs, count)
    requires o1.Pass? ==> (o2, n2) == AcquisitionRun(s, n1)
    ensures ConfigureRun(s, i, configs, count) == if o1.Fail? then (o1, n1) else (o2, n2)
  {
  }

  lemma SetupRunSteps(s: seq<Byte>, i: nat, configs: seq<ChannelConfig>, o1: Outcome, n1: nat, count: nat, o2: Outcome, n2: nat)
    requires i <= |s| && (o1, n1) == PrologueRun(s, i) && count == 0
    requires o1.Pass? ==> (o2, n2) == ConfigureRun(s, n1, configs, count)
    ensures SetupRun(s, i, configs) == if o1.Fail? then (o1, n1) else (o2, n2)
  {
  }

  /** Whether the whole constructor succeeds: a socket, the reset, the identification read, then the setup. */
  function ConnectOutcome(config: DeviceConfig, input: seq<Byte>, resetReply: string): Outcome
  {
    if config.connection != "socket" then Fail(SocketOnly)
    else if ResetOutcome(resetReply).Fail? then ResetOutcome(resetReply)
    else match ReplyAt(input, 0).0
      case Err(e) => Fail(e)
      case Ok(_) => SetupRun(input, ReplyAt(input, 0).1, config.channels).0
  }

  /** The constructor's outcome once the socket is reset and the identification reply `(read, at)` is in. */
  lemma ConnectOutcomeSteps(config: DeviceConfig, input: seq<Byte>, resetReply: string, read: Result<string>, at: nat,
                            o: Outcome)
    requires config.connection == "socket" && ResetOutcome(resetReply).Pass? && (read, at) == ReplyAt(input, 0)
    requires read.Ok? ==> o == SetupRun(input, at, config.channels).0
    ensures ConnectOutcome(config, input, resetReply) == if read.Err? then Fail(read.message) else o
  {
  }

  // ---------------------------------------------------------------------------
  // The device

  class Device {
    /** `connection_`. */
    const conn: Connection
    /** `channels_`. */
    var channels: seq<ChannelInfo>
    /** `tracks_`. */
    var tracks: seq<Track>
    /** `recording_`. */
    var recording: bool
    /** `gap_length_`. */
    var gapLength: int

    /** At most 16 tracks, numbered from 0 in the order they were added. */
    ghost predicate Valid()
      reads this`tracks, conn
    {
      conn.Valid() && |tracks| <= MaxTracks && forall i | 0 <= i < |tracks| :: tracks[i].id == i
    }

    constructor (conn: Connection)
      requires conn.Valid()
      ensures Valid() && this.conn == conn
      ensures channels == [] && tracks == [] && !recording && gapLength == 0
    {
      this.conn := conn;
      channels := [];
      tracks := [];
      recording := false;
      gapLength := 0;
    }

    /**
     * `add_track(channel, type, bandwidth)`: refused once 16 tracks exist;
     * otherwise the track gets the next id and its binding command is
     * checked.
     */
    method AddTrack(ch: ChannelRef, t: MetricType, bw: Bandwidth) returns (o: Outcome)
      requires Valid() && conn.open && conn.mode == Ascii
      modifies this`tracks, conn
      ensures Valid() && conn.open && conn.mode == Ascii
      ensures |old(tracks)| >= MaxTracks ==>
        o == Fail(TooManyTracks) && tracks == old(tracks) && conn.sent == old(conn.sent) && conn.cursor == old(conn.cursor)
      ensures |old(tracks)| < MaxTracks ==>
        var tr := NewTrack(ch, |old(tracks)|, t, bw);
        tracks == old(tracks) + [tr] && conn.sent == old(conn.sent) + [Line(CheckText(ActionCommand(tr, Gapless)))]
        && (o, conn.cursor) == CheckAt(conn.input, old(conn.cursor))
    {
      if |tracks| >= MaxTracks {
        return Fail(TooManyTracks);
      }
      var tr := NewTrack(ch, |tracks|, t, bw);
      tracks := tracks + [tr];
      o := conn.CheckCommand(ActionCommand(tr, Gapless));
    }

    /** `check_command` on each command in turn, stopping at the first that fails. */
    method CheckAll(cmds: seq<string>) returns (o: Outcome)
      requires conn.Valid() && conn.open && conn.mode == Ascii
      modifies conn
      ensures conn.Valid() && conn.open && conn.mode == Ascii
      ensures (o, conn.cursor) == CheckRun(conn.input, old(conn.cursor), |cmds|)
      ensures o.Pass? ==> conn.sent == old(conn.sent) + Checked(cmds)
    {
      o := Pass;
      var i := 0;
      while i < |cmds|
        invariant 0 <= i <= |cmds| && conn.Valid() && conn.open && conn.mode == Ascii && o == Pass
        invariant conn.sent == old(conn.sent) + Checked(cmds[..i])
        invariant CheckRun(conn.input, old(conn.cursor), |cmds|) == CheckRun(conn.input, conn.cursor, |cmds| - i)
      {
        ghost var at := conn.cursor;
        o := conn.CheckCommand(cmds[i]);
        CheckRunNext(conn.input, at, |cmds| - i, o, conn.cursor);
        if o.Fail? {
          return;
        }
        CheckedNext(old(conn.sent), cmds, i);
        i := i + 1;
      }
      assert cmds[..i] == cmds;
    }

    /** The channel's loop over its metric set: `add_track` for each, in set order. */
    method AddTracks(ch: ChannelRef, ms: seq<MetricKey>) returns (o: Outcome)
      requires Valid() && conn.open && conn.mode == Ascii
      modifies this`tracks, conn
      ensures Valid() && conn.open && conn.mode == Ascii
      ensures (o, conn.cursor) == TrackRun(conn.input, old(conn.cursor), |old(tracks)|, |ms|)
      ensures o.Pass? ==>
        |old(tracks)| + |ms| <= MaxTracks
        && tracks == old(tracks) + ChannelTracks(ch, ms, |old(tracks)|)
        && conn.sent == old(conn.sent) + Checked(Bindings(ChannelTracks(ch, ms, |old(tracks)|)))
    {
      var base := |tracks|;
      ghost var run := TrackRun(conn.input, conn.cursor, base, |ms|);
      ghost var count, left := base, |ms|;
      o := Pass;
      var k := 0;
      while k < |ms|
        invariant 0 <= k <= |ms| && Valid() && conn.open && conn.mode == Ascii && o == Pass
        invariant |tracks| == base + k && count == base + k && left == |ms| - k
        invariant BindingLoop(old(tracks), old(conn.sent), ch, ms[..k], base, tracks, conn.sent)
        invariant run == TrackRun(conn.input, conn.cursor, count, left)
      {
        o, count, left := AddMetricTrack(ch, ms, k, base, old(tracks), old(conn.sent), run, count, left);
        if o.Fail? {
          return;
        }
        k := k + 1;
      }
      assert ms[..k] == ms;
    }

    /**
     * One round of the loop over a channel's metrics: the next metric
     * becomes the next track, and its binding is checked. `run` is what the
     * rest of the loop comes to, `count` and `left` the tracks in place and
     * the metrics still to add; `count'` and `left'` are the same after this
     * round.
     */
    method AddMetricTrack(ch: ChannelRef, ms: seq<MetricKey>, k: nat, ghost base: nat, ghost t0: seq<Track>, ghost s0: seq<string>,
                          ghost run: (Outcome, nat), ghost count: nat, ghost left: nat)
      returns (o: Outcome, ghost count': nat, ghost left': nat)
      requires Valid() && conn.open && conn.mode == Ascii && k < |ms| && |tracks| == base + k
      requires BindingLoop(t0, s0, ch, ms[..k], base, tracks, conn.sent)
      requires count == |tracks| && left == |ms| - k && run == TrackRun(conn.input, conn.cursor, count, left)
      modifies this`tracks, conn
      ensures Valid() && conn.open && conn.mode == Ascii
      ensures o.Pass? ==> |tracks| == base + k + 1 && BindingLoop(t0, s0, ch, ms[..k + 1], base, tracks, conn.sent)
      ensures count' == count + 1 && left' == left - 1
      ensures o.Fail? ==> run == (o, conn.cursor)
      ensures o.Pass? ==> run == TrackRun(conn.input, conn.cursor, count', left')
    {
      count', left' := count + 1, left - 1;
      ghost var at := conn.cursor;
      o := BindMetricTrack(ch, ms, k, base, t0, s0);
      TrackRunNext(conn.input, at, count, left, o, conn.cursor, count', left');
    }

    /** One step of `AddMetricTrack`: add the track and keep the bindings. */
    method BindMetricTrack(ch: ChannelRef, ms: seq<MetricKey>, k: nat, ghost base: nat, ghost t0: seq<Track>, ghost s0: seq<string>)
      returns (o: Outcome)
      requires Valid() && conn.open && conn.mode == Ascii && k < |ms| && |tracks| == base + k
      requires BindingLoop(t0, s0, ch, ms[..k], base, tracks, conn.sent)
      modifies this`tracks, conn
      ensures Valid() && conn.open && conn.mode == Ascii
      ensures |old(tracks)| >= MaxTracks ==> o == Fail(TooManyTracks) && conn.cursor == old(conn.cursor)
      ensures |old(tracks)| < MaxTracks ==> (o, conn.cursor) == CheckAt(conn.input, old(conn.cursor))
      ensures o.Pass? ==> |tracks| == base + k + 1 && BindingLoop(t0, s0, ch, ms[..k + 1], base, tracks, conn.sent)
    {
      ghost var t1, s1 := tracks, conn.sent;
      o := AddTrack(ch, ms[k].0, ms[k].1);
      if o.Fail? {
        return;
      }
      TrackStep(t0, ch, ms, k, base, |t1|, t1, tracks);
      BindingsNext(ch, ms, k, base);
      SnocStep(s0, s1, conn.sent, Checked(Bindings(ChannelTracks(ch, ms[..k], base))),
        Line(CheckText(ActionCommand(NewTrack(ch, |t1|, ms[k].0, ms[k].1), Gapless))), Checked(Bindings(ChannelTracks(ch, ms[..k + 1], base))));
    }

    /**
     * The first steps of the channel constructor: ask for the channel's
     * type, which an invalid channel answers with `""`, then check the
     * instrument's error log.
     */
    method FindChannel(id: int) returns (o: Outcome)
      requires conn.Valid() && conn.open && conn.mode == Ascii
      modifies conn
      ensures conn.Valid() && conn.open && conn.mode == Ascii
      ensures (o, conn.cursor) == FindRun(conn.input, old(conn.cursor), id)
      ensures o.Pass? ==>
        0 < id < 8
        && conn.sent == old(conn.sent) + [Line("CTYP" + IntToString(id) + "?"), Line(CheckText(""))]
        && var (channelType, next) := ReplyAt(conn.input, old(conn.cursor));
           channelType.Ok? && channelType.value != "\"\"" && CheckAt(conn.input, next) == (Pass, conn.cursor)
    {
      conn.SendCommand("CTYP" + IntToString(id) + "?");
      if !(0 < id < 8) {
        return Fail("assertion 0 < id_ && id_ < 8");
      }
      var channelType := conn.ReadAscii();
      if channelType.Err? {
        return Fail(channelType.message);
      }
      if channelType.value == "\"\"" {
        return Fail("Can't configure invalid LMG device channel " + IntToString(id));
      }
      o := conn.CheckCommand("");
    }

    /**
     * The channel constructor: find the channel, check the reply of each
     * setup command, then add one track per metric, in set order. Any step
     * that raises ends it, and the channel is then not added.
     */
    method AddChannel(c: ChannelInfo) returns (o: Outcome)
      requires Valid() && conn.open && conn.mode == Ascii
      modifies this`channels, this`tracks, conn
      ensures Valid() && conn.open && conn.mode == Ascii
      ensures (o, conn.cursor) == ChannelRun(conn.input, old(conn.cursor), c, |old(tracks)|)
      ensures o.Fail? ==> channels == old(channels)
      ensures o.Pass? ==>
        0 < c.id < 8 && |old(tracks)| + |c.metrics| <= MaxTracks
        && channels == old(channels) + [c]
        && tracks == old(tracks) + ChannelTracks(Ref(c), c.metrics, |old(tracks)|)
        && conn.sent == old(conn.sent) + ChannelLog(c, |old(tracks)|)
    {
      o := FindChannel(c.id);
      if o.Fail? {
        return;
      }
      ghost var found := conn.sent;
      o := CheckAll(SetupCommands(c.id, c.coupling, c.currentRange, c.voltageRange));
      if o.Fail? {
        return;
      }
      ghost var setUp := conn.sent;
      o := AddTracks(Ref(c), c.metrics);
      if o.Fail? {
        return;
      }
      AppendFour(old(conn.sent), Line("CTYP" + IntToString(c.id) + "?"), Line(CheckText("")),
        Checked(SetupCommands(c.id, c.coupling, c.currentRange, c.voltageRange)),
        Checked(Bindings(ChannelTracks(Ref(c), c.metrics, |old(tracks)|))));
      channels := channels + [c];
    }

    /** `start_recording()`. */
    method StartRecording()
      requires conn.open
      modifies this`recording, conn
      ensures recording && conn.sent == old(conn.sent) + [Line("CONT ON")]
      ensures conn.open && conn.mode == old(conn.mode) && conn.cursor == old(conn.cursor)
    {
      conn.SendCommand("CONT ON");
      recording := true;
    }

    /** `stop_recording()`. */
    method StopRecording()
      requires conn.open
      modifies this`recording, conn
      ensures !recording && conn.sent == old(conn.sent) + [Line("CONT OFF")]
      ensures conn.open && conn.mode == old(conn.mode) && conn.cursor == old(conn.cursor)
    {
      conn.SendCommand("CONT OFF");
      recording := false;
    }

    /** The destructor: stops the measurement only while recording, then closes the connection. */
    method Close()
      requires conn.open
      modifies this`recording, conn
      ensures !recording && !conn.open
      ensures old(recording) ==> conn.sent == old(conn.sent) + [Line("CONT OFF"), Line("*rst"), Line("gtl")]
      ensures !old(recording) ==> conn.sent == old(conn.sent) + [Line("*rst"), Line("gtl")]
    {
      if recording {
        StopRecording();
      }
      conn.Close();
    }

    /** `fetch_data(cb)`: an asynchronous binary read on the connection. */
    method FetchData() returns (reader: AsyncBinaryLineReader)
      requires conn.open && conn.mode == Binary
      ensures fresh(reader) && reader.Valid() && reader.pending == MarkerRead && reader.data.buffer == []
    {
      reader := conn.ReadBinaryAsync();
    }

    /** The first exchange: the error log read, the measurement stopped, then the clock set. */
    method Prologue(now: string) returns (o: Outcome)
      requires conn.Valid() && conn.open && conn.mode == Ascii
      modifies conn
      ensures conn.Valid() && conn.open && conn.mode == Ascii
      ensures (o, conn.cursor) == PrologueRun(conn.input, old(conn.cursor))
      ensures o.Pass? ==> conn.sent == old(conn.sent) + PrologueLog(now)
    {
      conn.SendCommand("ERRALL?");
      var errors := conn.ReadAscii();
      if errors.Err? {
        return Fail(errors.message);
      }
      conn.SendCommand("CONT OFF");
      ghost var stopped := conn.sent;
      o := SetClock(now);
      if o.Fail? {
        return;
      }
      assert stopped == old(conn.sent) + [Line("ERRALL?"), Line("CONT OFF")];
    }

    /** The clock read, set to the local time `now` (checked), and read back. */
    method SetClock(now: string) returns (o: Outcome)
      requires conn.Valid() && conn.open && conn.mode == Ascii
      modifies conn
      ensures conn.Valid() && conn.open && conn.mode == Ascii
      ensures (o, conn.cursor) == ClockRun(conn.input, old(conn.cursor))
      ensures o.Pass? ==> conn.sent == old(conn.sent) + [Line("SYSDATE?"), Line(CheckText("SYSDATE " + now)), Line("SYSDATE?")]
    {
      conn.SendCommand("SYSDATE?");
      var oldTime := conn.ReadAscii();
      if oldTime.Err? {
        return Fail(oldTime.message);
      }
      o := conn.CheckCommand("SYSDATE " + now);
      if o.Fail? {
        return;
      }
      conn.SendCommand("SYSDATE?");
      var newTime := conn.ReadAscii();
      if newTime.Err? {
        return Fail(newTime.message);
      }
      SnocThree(old(conn.sent), Line("SYSDATE?"), Line(CheckText("SYSDATE " + now)), Line("SYSDATE?"));
    }

    /** `GROUP?`, and the channel count summed from its reply. */
    method QueryChannelCount() returns (r: Result<nat>, ghost grouping: string)
      requires conn.Valid() && conn.open && conn.mode == Ascii
      modifies conn
      ensures conn.Valid() && conn.open && conn.mode == Ascii
      ensures conn.sent == old(conn.sent) + [Line("GROUP?")] && conn.cursor == ReplyAt(conn.input, old(conn.cursor)).1
      ensures ReplyAt(conn.input, old(conn.cursor)).0.Err? ==> r == Err(ReplyAt(conn.input, old(conn.cursor)).0.message)
      ensures ReplyAt(conn.input, old(conn.cursor)).0.Ok? ==>
        grouping == ReplyAt(conn.input, old(conn.cursor)).0.value && r == ChannelCountOf(grouping)
    {
      conn.SendCommand("GROUP?");
      var reply := conn.ReadAscii();
      if reply.Err? {
        return Err(reply.message), "";
      }
      grouping := reply.value;
      r := ChannelCount(reply.value);
    }

    /**
     * The channels of the configuration, in order, with ids from 1: each
     * one's metrics and coupling are parsed, then it is constructed.
     */
    method AddChannels(configs: seq<ChannelConfig>) returns (o: Outcome)
      requires Valid() && conn.open && conn.mode == Ascii && channels == []
      modifies this`channels, this`tracks, conn
      ensures Valid() && conn.open && conn.mode == Ascii
      ensures (o, conn.cursor) == ChannelsRun(conn.input, old(conn.cursor), configs, 0, |old(tracks)|)
      ensures o.Pass? ==>
        |channels| == |configs|
        && (forall j | 0 <= j < |configs| :: Configured(configs[j], j + 1) == Ok(channels[j]))
        && tracks == old(tracks) + AllTracks(channels, |old(tracks)|)
        && conn.sent == old(conn.sent) + AllLogs(channels, |old(tracks)|)
    {
      ghost var run := ChannelsRun(conn.input, conn.cursor, configs, 0, |tracks|);
      ghost var k, count := 0, |tracks|;
      var i := 0;
      while i < |configs|
        invariant 0 <= i <= |configs| && Valid() && conn.open && conn.mode == Ascii
        invariant |channels| == i && ChannelLoop(configs, old(tracks), old(conn.sent), ChannelLog, channels, tracks, conn.sent)
        invariant k == i && count == |tracks| && run == ChannelsRun(conn.input, conn.cursor, configs, k, count)
      {
        o, k, count := EmplaceChannel(configs, old(tracks), old(conn.sent), run, k, count);
        if o.Fail? {
          return;
        }
        i := i + 1;
      }
      ConfiguredEach(configs, channels);
      o := Pass;
    }

    /**
     * `channels_.emplace_back(*this, id, config)` for the next entry of the
     * configuration, with its position plus one as the id: an entry that
     * fails to parse raises its error; otherwise its channel is constructed,
     * and the channels so far still account for every track and every write
     * since `t0` and `s0`. `run` is what the rest of the loop comes to from
     * entry `k` with `count` tracks in place; `k'` and `count'` are the same
     * after this entry.
     */
    method EmplaceChannel(configs: seq<ChannelConfig>, ghost t0: seq<Track>, ghost s0: seq<string>,
                          ghost run: (Outcome, nat), ghost k: nat, ghost count: nat)
      returns (o: Outcome, ghost k': nat, ghost count': nat)
      requires Valid() && conn.open && conn.mode == Ascii && |channels| < |configs|
      requires ChannelLoop(configs, t0, s0, ChannelLog, channels, tracks, conn.sent)
      requires k == |channels| && count == |tracks| && run == ChannelsRun(conn.input, conn.cursor, configs, k, count)
      modifies this`channels, this`tracks, conn
      ensures Valid() && conn.open && conn.mode == Ascii
      ensures var r := Configured(configs[|old(channels)|], |old(channels)| + 1); r.Err? ==> o == Fail(r.message)
      ensures k' == k + 1
      ensures o.Fail? ==> run == (o, conn.cursor)
      ensures o.Pass? ==>
        |channels| == |old(channels)| + 1 && ChannelLoop(configs, t0, s0, ChannelLog, channels, tracks, conn.sent)
        && count' == |tracks| && run == ChannelsRun(conn.input, conn.cursor, configs, k', count')
    {
      var i := |channels|;
      var parsed := ParseConfigured(configs[i], i + 1);
      if parsed.Err? {
        return Fail(parsed.message), k + 1, count;
      }
      o, k', count' := AddNextChannel(configs, t0, s0, parsed.value, run, k, count);
    }

    /** The channel constructor for the next entry, once it has parsed as `c`. */
    method AddNextChannel(configs: seq<ChannelConfig>, ghost t0: seq<Track>, ghost s0: seq<string>, c: ChannelInfo,
                          ghost run: (Outcome, nat), ghost k: nat, ghost count: nat)
      returns (o: Outcome, ghost k': nat, ghost count': nat)
      requires Valid() && conn.open && conn.mode == Ascii && |channels| < |configs|
      requires ChannelLoop(configs, t0, s0, ChannelLog, channels, tracks, conn.sent)
      requires Configured(configs[|channels|], |channels| + 1) == Ok(c)
      requires k == |channels| && count == |tracks| && run == ChannelsRun(conn.input, conn.cursor, configs, k, count)
      modifies this`channels, this`tracks, conn
      ensures Valid() && conn.open && conn.mode == Ascii
      ensures k' == k + 1
      ensures o.Fail? ==> run == (o, conn.cursor)
      ensures o.Pass? ==>
        |channels| == |old(channels)| + 1 && ChannelLoop(configs, t0, s0, ChannelLog, channels, tracks, conn.sent)
        && count' == |tracks| && run == ChannelsRun(conn.input, conn.cursor, configs, k', count')
    {
      k', count' := k + 1, count + |c.metrics|;
      ghost var before, t1, s1 := channels, tracks, conn.sent;
      ghost var at := conn.cursor;
      o := AddChannel(c);
      ChannelsRunNext(conn.input, at, configs, k, count, c, o, conn.cursor, k', count');
      if o.Fail? {
        return;
      }
      assert ChannelLog(c, |t1|) == (ChannelLog)(c, |t1|);
      NextChannel(configs, t0, s0, ChannelLog, before, t1, s1, c, channels, tracks, conn.sent);
    }

    /**
     * The rest of the constructor: one group of all channels, dual-path
     * processing, the sampling rate, scope mode, no zero suppression, then
     * the action.
     */
    method ConfigureAcquisition(samplingRate: int) returns (o: Outcome)
      requires Valid() && conn.open && conn.mode == Ascii
      modifies this`gapLength, conn
      ensures Valid() && conn.open
      ensures (o, conn.cursor) == AcquisitionRun(conn.input, old(conn.cursor))
      ensures o.Pass? ==>
        conn.mode == Binary && IsInt32(gapLength)
        && conn.sent == old(conn.sent) + AcquisitionLog(|channels|, |tracks|, samplingRate, gapLength)
    {
      var commands := AcquisitionCommands(|channels|, samplingRate);
      assert |commands| == 6;
      o := CheckAll(commands);
      AcquisitionRunSteps(conn.input, old(conn.cursor), |commands|, o, conn.cursor);
      if o.Fail? {
        return;
      }
      ghost var checked := conn.sent;
      o := PrepareAction();
      if o.Pass? {
        TwoSteps(old(conn.sent), checked, conn.sent, Checked(commands),
          [Line("GLPTLEN?"), Line("GLPSR?"), Line(ActionString(|tracks|, gapLength)), Line(ModeCommand(Binary))],
          AcquisitionLog(|channels|, |tracks|, samplingRate, gapLength));
      }
    }

    /** The gap length and sampling rate the instrument reports, then the action string and binary mode. */
    method PrepareAction() returns (o: Outcome)
      requires Valid() && conn.open && conn.mode == Ascii
      modifies this`gapLength, conn
      ensures Valid() && conn.open
      ensures (o, conn.cursor) == PrepareRun(conn.input, old(conn.cursor))
      ensures o.Pass? ==>
        conn.mode == Binary && IsInt32(gapLength)
        && conn.sent == old(conn.sent)
          + [Line("GLPTLEN?"), Line("GLPSR?"), Line(ActionString(|tracks|, gapLength)), Line(ModeCommand(Binary))]
    {
      o := ReadGapLength();
      if o.Fail? {
        return;
      }
      o := SendAction();
      if o.Fail? {
        return;
      }
      SnocFour(old(conn.sent), Line("GLPTLEN?"), Line("GLPSR?"), Line(ActionString(|tracks|, gapLength)), Line(ModeCommand(Binary)));
    }

    /** `gap_length_`: the instrument's reply to `GLPTLEN?` through `std::stoi`. */
    method ReadGapLength() returns (o: Outcome)
      requires conn.Valid() && conn.open && conn.mode == Ascii
      modifies this`gapLength, conn
      ensures conn.Valid() && conn.open && conn.mode == Ascii
      ensures conn.sent == old(conn.sent) + [Line("GLPTLEN?")]
      ensures (o, conn.cursor) == GapRun(conn.input, old(conn.cursor))
      ensures o.Pass? ==> Stoi(ReplyAt(conn.input, old(conn.cursor)).0.value) == Some(gapLength) && IsInt32(gapLength)
    {
      conn.SendCommand("GLPTLEN?");
      var reply := conn.ReadAscii();
      if reply.Err? {
        return Fail(reply.message);
      }
      var gap := Stoi(reply.value);
      if gap.None? {
        return Fail("std::stoi");
      }
      gapLength := gap.value;
      o := Pass;
    }

    /** The sampling rate read (and, being a float, dropped), the action string sent, binary mode set. */
    method SendAction() returns (o: Outcome)
      requires conn.Valid() && conn.open && conn.mode == Ascii
      modifies conn
      ensures conn.Valid() && conn.open
      ensures (o, conn.cursor) == ReadRun(conn.input, old(conn.cursor))
      ensures o.Pass? ==>
        conn.mode == Binary
        && conn.sent == old(conn.sent) + [Line("GLPSR?"), Line(ActionString(|tracks|, gapLength)), Line(ModeCommand(Binary))]
    {
      conn.SendCommand("GLPSR?");
      var rate := conn.ReadAscii();
      if rate.Err? {
        return Fail(rate.message);
      }
      var action := BuildAction(|tracks|, gapLength);
      conn.SendCommand(action);
      conn.SetMode(Binary);
      o := Pass;
    }

    /**
     * The constructor after the connection is made: the prologue, then the
     * channels and the acquisition setup. `grouping` is the instrument's
     * reply to `GROUP?`.
     */
    method Setup(config: DeviceConfig, now: string) returns (o: Outcome, ghost grouping: string)
      requires Valid() && conn.open && conn.mode == Ascii && channels == [] && tracks == []
      modifies this`channels, this`tracks, this`gapLength, conn
      ensures Valid() && conn.open
      ensures (o, conn.cursor) == SetupRun(conn.input, old(conn.cursor), config.channels)
      ensures o.Pass? ==>
        conn.mode == Binary && |channels| == |config.channels|
        && ChannelCountOf(grouping) == Ok(|channels|)
        && (forall j | 0 <= j < |channels| :: Configured(config.channels[j], j + 1) == Ok(channels[j]))
        && tracks == AllTracks(channels, 0)
        && conn.sent == old(conn.sent) + ConstructorLog(now, channels, config.samplingRate, gapLength)
    {
      grouping := "";
      o := Prologue(now);
      ghost var o1, n1 := o, conn.cursor;
      if o.Fail? {
        SetupRunSteps(conn.input, old(conn.cursor), config.channels, o1, n1, 0, o1, n1);
        return;
      }
      ghost var started, none := conn.sent, tracks;
      o, grouping := Configure(config);
      SetupRunSteps(conn.input, old(conn.cursor), config.channels, o1, n1, |none|, o, conn.cursor);
      if o.Pass? {
        TwoSteps(old(conn.sent), started, conn.sent, PrologueLog(now), ConfigureLog(channels, config.samplingRate, gapLength),
          ConstructorLog(now, channels, config.samplingRate, gapLength));
      }
    }

    /** The channels of the configuration, then the acquisition setup. */
    method Configure(config: DeviceConfig) returns (o: Outcome, ghost grouping: string)
      requires Valid() && conn.open && conn.mode == Ascii && channels == [] && tracks == []
      modifies this`channels, this`tracks, this`gapLength, conn
      ensures Valid() && conn.open
      ensures (o, conn.cursor) == ConfigureRun(conn.input, old(conn.cursor), config.channels, |old(tracks)|)
      ensures o.Pass? ==>
        conn.mode == Binary && |channels| == |config.channels|
        && ChannelCountOf(grouping) == Ok(|channels|)
        && (forall j | 0 <= j < |channels| :: Configured(config.channels[j], j + 1) == Ok(channels[j]))
        && tracks == AllTracks(channels, 0)
        && conn.sent == old(conn.sent) + ConfigureLog(channels, config.samplingRate, gapLength)
    {
      o, grouping := SetupChannels(config.channels);
      ghost var o1, n1 := o, conn.cursor;
      if o.Fail? {
        ConfigureRunSteps(conn.input, old(conn.cursor), config.channels, |old(tracks)|, o1, n1, o1, n1);
        return;
      }
      ghost var configured := conn.sent;
      o := ConfigureAcquisition(config.samplingRate);
      ConfigureRunSteps(conn.input, old(conn.cursor), config.channels, |old(tracks)|, o1, n1, o, conn.cursor);
      if o.Pass? {
        Associative(old(conn.sent), [Line("GROUP?")], AllLogs(channels, 0));
        TwoSteps(old(conn.sent), configured, conn.sent, [Line("GROUP?")] + AllLogs(channels, 0),
          AcquisitionLog(|channels|, |tracks|, config.samplingRate, gapLength), ConfigureLog(channels, config.samplingRate, gapLength));
      }
    }

    /**
     * The channel count the instrument reports, then the configured
     * channels, which must be exactly as many.
     */
    method SetupChannels(configs: seq<ChannelConfig>) returns (o: Outcome, ghost grouping: string)
      requires Valid() && conn.open && conn.mode == Ascii && channels == []
      modifies this`channels, this`tracks, conn
      ensures Valid() && conn.open && conn.mode == Ascii
      ensures (o, conn.cursor) == SetupChannelsRun(conn.input, old(conn.cursor), configs, |old(tracks)|)
      ensures o.Pass? ==>
        |channels| == |configs| && ChannelCountOf(grouping) == Ok(|channels|)
        && (forall j | 0 <= j < |channels| :: Configured(configs[j], j + 1) == Ok(channels[j]))
        && tracks == old(tracks) + AllTracks(channels, |old(tracks)|)
        && conn.sent == old(conn.sent) + [Line("GROUP?")] + AllLogs(channels, |old(tracks)|)
    {
      var count;
      count, grouping := QueryChannelCount();
      if count.Err? {
        return Fail(count.message), grouping;
      }
      o := AddChannels(configs);
      if o.Fail? {
        return;
      }
      if |channels| != count.value {
        return Fail(ChannelCountMismatch(count.value, |channels|)), grouping;
      }
    }
  }

  /**
   * `Device(io_service, config)`: only a socket connection is accepted;
   * the connection is made (reset, start), then the device set up. When
   * the setup raises, the connection is destroyed, which stops it.
   */
  method Connect(config: DeviceConfig, input: seq<Byte>, resetReply: string, now: string) returns (r: Result<Device>)
    ensures config.connection != "socket" ==> r == Err(SocketOnly)
    ensures r.Ok? <==> ConnectOutcome(config, input, resetReply).Pass?
    ensures r.Err? ==> r.message == ConnectOutcome(config, input, resetReply).message
    ensures r.Ok? ==>
      fresh(r.value) && fresh(r.value.conn) && r.value.Valid()
      && r.value.conn.open && r.value.conn.mode == Binary && !r.value.recording
      && |r.value.channels| == |config.channels|
      && (forall j | 0 <= j < |config.channels| :: Configured(config.channels[j], j + 1) == Ok(r.value.channels[j]))
      && r.value.tracks == AllTracks(r.value.channels, 0)
      && r.value.conn.sent
         == [Line("*rst"), Line("*idn?")] + ConstructorLog(now, r.value.channels, config.samplingRate, r.value.gapLength)
  {
    var allowed := ConnectionAllowed(config.connection);
    if allowed.Fail? {
      return Err(allowed.message);
    }
    var conn := new Connection(Socket, input);
    var started := conn.Connect(resetReply);
    if started.Err? {
      if ResetOutcome(resetReply).Pass? {
        ConnectOutcomeSteps(config, input, resetReply, started, conn.cursor, Pass);
      }
      return Err(started.message);
    }
    ghost var at := conn.cursor;
    r := Start(conn, config, now);
    ConnectOutcomeSteps(config, input, resetReply, started, at, SetupRun(input, at, config.channels).0);
  }

  /**
   * The rest of `Device::Device` once the analyser has answered `*idn?`: builds the device over the
   * open connection and runs `setup`; on a failure the connection is closed again.
   */
  method Start(conn: Connection, config: DeviceConfig, now: string) returns (r: Result<Device>)
    requires conn.Valid() && conn.open && conn.mode == Ascii
    modifies conn
    ensures r.Ok? <==> SetupRun(conn.input, old(conn.cursor), config.channels).0.Pass?
    ensures r.Err? ==> r.message == SetupRun(conn.input, old(conn.cursor), config.channels).0.message && !conn.open
    ensures r.Ok? ==>
      fresh(r.value) && r.value.conn == conn && r.value.Valid()
      && conn.open && conn.mode == Binary && !r.value.recording
      && |r.value.channels| == |config.channels|
      && (forall j | 0 <= j < |config.channels| :: Configured(config.channels[j], j + 1) == Ok(r.value.channels[j]))
      && r.value.tracks == AllTracks(r.value.channels, 0)
      && conn.sent == old(conn.sent) + ConstructorLog(now, r.value.channels, config.samplingRate, r.value.gapLength)
  {
    var device := new Device(conn);
    var o, grouping := device.Setup(config, now);
    assert !device.recording;
    if o.Fail? {
      conn.Close();
      return Err(o.message);
    }
    return Ok(device);
  }
}
