/**
 * src/device/track.cpp: a `Track` is one data slot of the instrument,
 * bound to one channel, one metric type and one bandwidth. It is never
 * changed after construction. It refers to its channel by the channel's id
 * and name rather than by reference.
 *
 * `ActionCommand` builds the command that binds the slot (gapless mode) or
 * fetches the value (cycle mode); `ParseSlotCommand` and `ParseFetchCommand`
 * read those commands back, which shows that each command names its track's
 * slot unambiguously. `Name` is the public name of the track.
 */
module Tracks {
  import opened Wrappers
  import opened Numbers
  import opened Types

  /** The channel a track belongs to: its id and its name. */
  datatype ChannelRef = ChannelRef(id: int, name: string)

  datatype Track = Track(channel: ChannelRef, id: int, metric: MetricType, group: int, phase: int, bandwidth: Bandwidth)

  /** `Track(channel, id, type, bandwidth)` (src/device/track.cpp:7-9): the group is always 1, as the constructor assumes exactly one channel group, and the phase is the channel. */
  function NewTrack(channel: ChannelRef, id: int, t: MetricType, bw: Bandwidth): (tr: Track)
    ensures tr.group == 1 && tr.phase == channel.id
    ensures tr.channel == channel && tr.id == id && tr.metric == t && tr.bandwidth == bw
  {
    Track(channel, id, t, 1, channel.id, bw)
  }

  // ---------------------------------------------------------------------------
  // Commands

  const SlotPrefix: string := ":SENS:GAPL:TRAC "

  /** The slot description of the gapless binding: type letter, group, phase, bandwidth code, then `1`. */
  function SlotCode(t: Track): string
  {
    [TypeChar(t.metric)] + IntToString(t.group) + IntToString(t.phase) + IntToString(BandwidthCode(t.bandwidth)) + "1"
  }

  /** The SCPI node of the cycle-mode fetch of each metric type. */
  function FetchNode(t: MetricType): string
  {
    match t
    case Power => ":POW"
    case Current => ":CURR"
    case Voltage => ":VOLT"
  }

  /** `get_action_command(mode)`. */
  function ActionCommand(t: Track, mode: MeasurementMode): (c: string)
    ensures |c| > 5 && (c[..5] == ":SENS" <==> mode == Gapless)
    ensures c[|c| - 1] == (if mode == Gapless then '"' else '?')
  {
    if mode == Gapless then
      var c := SlotPrefix + IntToString(t.id) + ", \"" + SlotCode(t) + "\"";
      assert c[..5] == ":SENS";
      c
    else
      var c := ":FETC" + FetchNode(t.metric) + IntToString(t.channel.id) + "?";
      assert c[..5][1] == 'F';
      c
  }

  /** What a slot code describes: type, group, phase and bandwidth, when each is one character. */
  function ParseSlotCode(code: string): Option<(MetricType, int, int, Bandwidth)>
  {
    if |code| != 5 || code[4] != '1' || !IsDigit(code[1]) || !IsDigit(code[2]) || !IsDigit(code[3]) then None
    else match (TypeOfChar(code[0]), BandwidthOfCode(DigitValue(code[3])))
      case (Some(t), Some(b)) => Some((t, DigitValue(code[1]), DigitValue(code[2]), b))
      case _ => None
  }

  /** The track id and slot a gapless binding command names. */
  function ParseSlotCommand(cmd: string): Option<(int, (MetricType, int, int, Bandwidth))>
  {
    var n := |cmd|;
    if n < |SlotPrefix| + 10 || cmd[..|SlotPrefix|] != SlotPrefix then None
    else
      var digits := cmd[|SlotPrefix|..n - 9];
      if cmd[n - 9..n - 6] != ", \"" || cmd[n - 1] != '"' || !AllDigits(digits) then None
      else match ParseSlotCode(cmd[n - 6..n - 1])
        case None => None
        case Some(slot) => Some((DigitsValue(digits), slot))
  }

  /** The metric type and channel id a cycle-mode fetch command names. */
  function ParseFetchCommand(cmd: string): Option<(MetricType, int)>
  {
    if |cmd| < 6 || cmd[..5] != ":FETC" || cmd[|cmd| - 1] != '?' then None
    else
      var node := cmd[5..|cmd| - 1];
      var t: Option<MetricType> :=
        if |node| >= 4 && node[..4] == ":POW" then Some(Power)
        else if |node| >= 5 && node[..5] == ":CURR" then Some(Current)
        else if |node| >= 5 && node[..5] == ":VOLT" then Some(Voltage)
        else None;
      if t.None? then None
      else
        var digits := node[|FetchNode(t.value)|..];
        if digits == [] || !AllDigits(digits) then None else Some((t.value, DigitsValue(digits)))
  }

  /** A one-digit number is written as that digit. */
  lemma OneDigit(d: int)
    requires 0 <= d < 10
    ensures IntToString(d) == [DigitChar(d)]
  {
  }

  /** The slot code of a track in group 1 with a one-digit phase reads back as that slot. */
  lemma SlotCodeRoundTrip(t: Track)
    requires t.group == 1 && 0 <= t.phase < 10
    ensures ParseSlotCode(SlotCode(t)) == Some((t.metric, t.group, t.phase, t.bandwidth))
  {
    OneDigit(t.group);
    OneDigit(t.phase);
    OneDigit(BandwidthCode(t.bandwidth));
    CodesRoundTrip(ACDC, t.metric, t.bandwidth);
    var code := SlotCode(t);
    assert code == [TypeChar(t.metric), DigitChar(1), DigitChar(t.phase), DigitChar(BandwidthCode(t.bandwidth)), '1'];
  }

  /** The pieces of a gapless binding command. */
  lemma SlotCommandPieces(id: nat, code: string)
    requires |code| == 5
    ensures var cmd := SlotPrefix + NatToString(id) + ", \"" + code + "\"";
      var n := |cmd|;
      n == |SlotPrefix| + |NatToString(id)| + 9 && cmd[..|SlotPrefix|] == SlotPrefix
      && cmd[|SlotPrefix|..n - 9] == NatToString(id) && cmd[n - 9..n - 6] == ", \""
      && cmd[n - 1] == '"' && cmd[n - 6..n - 1] == code
  {
    var d := NatToString(id);
    var cmd := SlotPrefix + d + ", \"" + code + "\"";
    var k := |SlotPrefix| + |d|;
    assert cmd[..|SlotPrefix|] == SlotPrefix;
    assert cmd[|SlotPrefix|..k] == d;
    assert cmd[k..k + 3] == ", \"";
    assert cmd[k + 3..k + 8] == code;
  }

  /**
   * The gapless binding command names its track: the instrument reads back
   * the track id, type, group, phase and bandwidth (for a non-negative id
   * and a one-digit channel, as the channel constructor asserts).
   */
  lemma SlotCommandRoundTrip(t: Track)
    requires t.id >= 0 && t.group == 1 && 0 <= t.phase < 10
    ensures ParseSlotCommand(ActionCommand(t, Gapless)) == Some((t.id, (t.metric, t.group, t.phase, t.bandwidth)))
  {
    SlotCodeRoundTrip(t);
    SlotCommandPieces(t.id, SlotCode(t));
    NatToStringValue(t.id);
  }

  /** The pieces of a cycle-mode fetch command. */
  lemma FetchCommandPieces(node: string, id: nat)
    ensures var cmd := ":FETC" + node + NatToString(id) + "?";
      |cmd| == 6 + |node| + |NatToString(id)| && cmd[..5] == ":FETC" && cmd[|cmd| - 1] == '?'
      && cmd[5..|cmd| - 1] == node + NatToString(id)
  {
    var cmd := ":FETC" + node + NatToString(id) + "?";
    assert cmd[..5] == ":FETC";
    assert cmd[5..|cmd| - 1] == node + NatToString(id);
  }

  /** The cycle-mode fetch command names its track's metric type and channel. */
  lemma FetchCommandRoundTrip(t: Track)
    requires t.channel.id >= 0
    ensures ParseFetchCommand(ActionCommand(t, CycleMode)) == Some((t.metric, t.channel.id))
  {
    var node, d := FetchNode(t.metric), NatToString(t.channel.id);
    FetchCommandPieces(node, t.channel.id);
    var rest := node + d;
    assert rest[..|node|] == node && rest[|node|..] == d;
    NatToStringValue(t.channel.id);
    match t.metric
    case Power =>
      assert rest[..4] == ":POW";
    case Current =>
      assert rest[1] == 'C';
      assert rest[..5] == ":CURR";
    case Voltage =>
      assert rest[1] == 'V';
      assert rest[..5] == ":VOLT";
  }

  // ---------------------------------------------------------------------------
  // Names

  /** What `name()` puts after the channel name. */
  function NameTail(t: MetricType, wide: bool): string
  {
    (match t
     case Voltage => ".voltage"
     case Current => ".current"
     case Power => ".power")
    + (if wide then ".wide" else "")
  }

  /** `name()`: the channel name, the metric, and `.wide` for a wide track only. */
  function Name(t: Track): (n: string)
    ensures var k := |t.channel.name|; |n| > k + 1 && n[..k] == t.channel.name && n[k] == '.'
    ensures |n| > 5 && (n[|n| - 5..] == ".wide" <==> t.bandwidth == Wide)
  {
    var tail := NameTail(t.metric, t.bandwidth == Wide);
    var n := t.channel.name + tail;
    assert n[|n| - 5..] == tail[|tail| - 5..];
    assert t.bandwidth != Wide ==> tail[|tail| - 5] != '.' && n[|n| - 5..][0] != '.';
    n
  }

  /** Every name tail starts with a dot and a metric letter; any later dot starts `.wide`. */
  lemma TailShape(t: MetricType, wide: bool)
    ensures var x := NameTail(t, wide);
      |x| > 1 && x[0] == '.' && x[1] != 'w'
      && forall j | 0 < j < |x| - 1 && x[j] == '.' :: x[j + 1] == 'w'
  {
  }

  /** No name tail ends another one. */
  lemma TailsNotNested(a: MetricType, aw: bool, b: MetricType, bw: bool)
    ensures var x, y := NameTail(a, aw), NameTail(b, bw);
      |y| < |x| ==> x[|x| - |y|..] != y
  {
    var x, y := NameTail(a, aw), NameTail(b, bw);
    TailShape(a, aw);
    TailShape(b, bw);
    if |y| < |x| {
      var j := |x| - |y|;
      assert x[j..][0] == x[j] && x[j..][1] == x[j + 1];
    }
  }

  lemma TailsDistinct(a: MetricType, aw: bool, b: MetricType, bw: bool)
    ensures NameTail(a, aw) == NameTail(b, bw) <==> a == b && aw == bw
  {
    var x, y := NameTail(a, aw), NameTail(b, bw);
    if x == y && |x| > 1 {
      assert x[1] == y[1];
      assert x[|x| - 1] == y[|y| - 1];
    }
  }

  /** Where two concatenations are equal and the first head is not longer, the first tail ends with the second. */
  lemma EqualTails(c1: string, x: string, c2: string, y: string)
    requires c1 + x == c2 + y && |c1| <= |c2|
    ensures |y| <= |x| && x[|x| - |y|..] == y
    ensures |c1| == |c2| ==> c1 == c2
  {
    assert (c1 + x)[|c2|..] == y;
    assert (c1 + x)[|c2|..] == x[|x| - |y|..];
    assert (c1 + x)[..|c1|] == c1 && (c2 + y)[..|c1|] == c2[..|c1|];
  }

  /**
   * Two tracks have the same name exactly when their channels have the
   * same name, their types agree, and both or neither are wide: so a
   * narrow and a cycle track of one type share a name, and distinct
   * channel names give distinct track names.
   */
  lemma NameDeterminesTrack(t1: Track, t2: Track)
    ensures Name(t1) == Name(t2) <==>
      t1.channel.name == t2.channel.name && t1.metric == t2.metric && (t1.bandwidth == Wide) == (t2.bandwidth == Wide)
  {
    var c1, c2 := t1.channel.name, t2.channel.name;
    var a, aw, b, bw := t1.metric, t1.bandwidth == Wide, t2.metric, t2.bandwidth == Wide;
    var x, y := NameTail(a, aw), NameTail(b, bw);
    TailsDistinct(a, aw, b, bw);
    if c1 + x == c2 + y {
      if |c1| <= |c2| {
        EqualTails(c1, x, c2, y);
        TailsNotNested(a, aw, b, bw);
      } else {
        EqualTails(c2, y, c1, x);
        TailsNotNested(b, bw, a, aw);
      }
      assert |x| == |y| && x == y;
    }
  }
}
