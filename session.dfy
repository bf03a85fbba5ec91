/**
 * src/network/connection.cpp: `Connection`, the command session with the
 * instrument. The socket is modelled as the whole byte stream the
 * instrument sends (`input`, read from `cursor` on) and the log of what
 * the driver writes (`sent`, one entry per write). Exceptions are results:
 * a method that raises returns `Err` or `Fail` with the exception's text,
 * and its caller stops there as the exception would stop it.
 */
module Session {
  import opened Wrappers
  import opened Numbers
  import opened Frame
  import opened Data
  import opened AsyncReader

  /** `Connection::Mode`, with its underlying values. */
  datatype Mode = Ascii | Binary

  /** `Connection::Type`. */
  datatype Kind = Serial | Socket

  /** The reply of the error query when the instrument has nothing to report. */
  const NoError: string := "0,\"No error\""

  /** The error query `check_command` appends. */
  const ErrorQuery: string := ":SYST:ERR:ALL?"

  /** Raised by `read_line` when the stream ends before a line feed. */
  const EndOfStream: string := "asio::error::eof"

  // ---------------------------------------------------------------------------
  // Command text

  /** What `send_command(cmd)` writes: the command and a line feed. */
  function Line(cmd: string): (w: string)
    ensures |w| == |cmd| + 1
  {
    cmd + "\n"
  }

  /** The command `check_command(cmd)` sends: the error query alone, or after the command and a `;`. */
  function CheckText(cmd: string): (t: string)
    ensures |t| >= |ErrorQuery|
  {
    if cmd == "" then ErrorQuery else cmd + ";" + ErrorQuery
  }

  /** What the instrument makes of a checked command: the command in front of the error query. */
  function QueriedCommand(t: string): Option<string>
  {
    if t == ErrorQuery then Some("")
    else if |t| > |ErrorQuery| + 1 && t[|t| - |ErrorQuery| - 1..] == ";" + ErrorQuery then Some(t[..|t| - |ErrorQuery| - 1])
    else None
  }

  /** The checked command is recovered from the text sent, the empty one included. */
  lemma CheckTextRoundTrip(cmd: string)
    ensures QueriedCommand(CheckText(cmd)) == Some(cmd)
  {
    if cmd != "" {
      var t := CheckText(cmd);
      assert t[|t| - |ErrorQuery| - 1..] == ";" + ErrorQuery;
      assert t[..|t| - |ErrorQuery| - 1] == cmd;
    }
  }

  /** The verdict of `check_command` on the reply line: only the exact no-error reply passes. */
  function CheckOutcome(reply: string): (o: Outcome)
    ensures o.Pass? <==> reply == NoError
    ensures o.Fail? ==> o.message == reply
  {
    if reply == NoError then Pass else Fail(reply)
  }

  function ModeCode(m: Mode): (code: int)
    ensures code == 0 || code == 1
  {
    if m == Ascii then 0 else 1
  }

  /** `:FORM:DATA <n>`, which `mode(m)` sends. */
  function ModeCommand(m: Mode): (c: string)
    ensures |c| == 12 && c[..11] == ":FORM:DATA " && c[11] == (if m == Ascii then '0' else '1')
  {
    ":FORM:DATA " + IntToString(ModeCode(m))
  }

  /** The data format a `:FORM:DATA` command selects. */
  function ModeOfCommand(cmd: string): Option<Mode>
  {
    if |cmd| != 12 || cmd[..11] != ":FORM:DATA " then None
    else if cmd[11] == '0' then Some(Ascii)
    else if cmd[11] == '1' then Some(Binary)
    else None
  }

  /** The format command selects exactly the mode the connection then records. */
  lemma ModeCommandRoundTrip(m: Mode)
    ensures ModeOfCommand(ModeCommand(m)) == Some(m)
  {
    var cmd := ModeCommand(m);
    assert IntToString(ModeCode(m)) == [DigitChar(ModeCode(m))];
    assert cmd[..11] == ":FORM:DATA ";
  }

  /** The line that starts at `i`, scanning from `j` for its line feed. */
  function LineFrom(s: seq<Byte>, i: nat, j: nat): (r: Result<(string, nat)>)
    requires i <= j <= |s|
    ensures r.Ok? ==> j < r.value.1 <= |s|
    decreases |s| - j
  {
    if j == |s| then Err(EndOfStream)
    else if s[j] == '\n' then Ok((s[i..j], j + 1))
    else LineFrom(s, i, j + 1)
  }

  /**
   * `read_line()`: the text from position `i` up to the next line feed,
   * without it, and the position after it; the stream ending first is an
   * error.
   */
  function LineAt(s: seq<Byte>, i: nat): (r: Result<(string, nat)>)
    requires i <= |s|
    ensures r.Ok? ==> i < r.value.1 <= |s|
  {
    LineFrom(s, i, i)
  }

  /** Once the scan has passed bytes that are not line feeds, the line ends at the first line feed after them. */
  lemma {:induction false} LineFromShape(s: seq<Byte>, i: nat, j: nat)
    requires i <= j <= |s| && '\n' !in s[i..j]
    ensures var r := LineFrom(s, i, j);
      (r.Ok? ==> s[i..r.value.1] == r.value.0 + "\n" && '\n' !in r.value.0)
      && (r.Err? <==> '\n' !in s[i..])
    decreases |s| - j
  {
    if j == |s| {
      assert s[i..] == s[i..j];
    } else if s[j] == '\n' {
      assert s[i..j + 1] == s[i..j] + "\n";
      assert s[i..][j - i] == '\n';
    } else {
      assert s[i..j + 1] == s[i..j] + [s[j]];
      LineFromShape(s, i, j + 1);
    }
  }

  /** The line read is the text before the first line feed, which is consumed; reading fails exactly when no line feed is left. */
  lemma LineAtShape(s: seq<Byte>, i: nat)
    requires i <= |s|
    ensures var r := LineAt(s, i);
      (r.Ok? ==> var (line, end) := r.value; s[i..end] == line + "\n" && '\n' !in line)
      && (r.Err? <==> '\n' !in s[i..])
  {
    LineFromShape(s, i, i);
  }

  /** The scan skips bytes that are not line feeds and stops at the first one. */
  lemma {:induction false} LineFromSkips(s: seq<Byte>, i: nat, j: nat, k: nat)
    requires i <= j <= k < |s| && s[k] == '\n'
    requires forall m | j <= m < k :: s[m] != '\n'
    ensures LineFrom(s, i, j) == Ok((s[i..k], k + 1))
    decreases k - j
  {
    if j < k {
      LineFromSkips(s, i, j + 1, k);
    }
  }

  /** A line the instrument writes is read back whole, whatever came before or follows. */
  lemma LineRoundTrip(p: seq<Byte>, line: seq<Byte>, t: seq<Byte>)
    requires '\n' !in line
    ensures LineAt(p + line + "\n" + t, |p|) == Ok((line, |p| + |line| + 1))
  {
    var s := p + line + "\n" + t;
    assert s[|p| + |line|] == '\n';
    forall m | |p| <= m < |p| + |line| ensures s[m] != '\n' {
      assert s[m] == line[m - |p|];
    }
    LineFromSkips(s, |p|, |p|, |p| + |line|);
    assert s[|p|..|p| + |line|] == line;
  }

  /** What `read_ascii()` returns and where the stream then stands; an error consumes what is left. */
  function ReplyAt(s: seq<Byte>, i: nat): (r: (Result<string>, nat))
    requires i <= |s|
    ensures i <= r.1 <= |s|
    ensures r.0.Ok? ==> r.1 > i
    ensures r.0.Err? ==> r.1 == |s|
  {
    match LineAt(s, i)
    case Ok((line, end)) => (Ok(line), end)
    case Err(e) => (Err(e), |s|)
  }

  /** The reply is the next line and the stream moves past its line feed; an error means no line feed was left. */
  lemma ReplyAtShape(s: seq<Byte>, i: nat)
    requires i <= |s|
    ensures var (r, end) := ReplyAt(s, i);
      (r.Ok? ==> s[i..end] == r.value + "\n" && '\n' !in r.value)
      && (r.Err? <==> '\n' !in s[i..])
  {
    LineAtShape(s, i);
  }

  /** What `check_command` concludes from the stream at `i`, and where the stream then stands. */
  function CheckAt(s: seq<Byte>, i: nat): (r: (Outcome, nat))
    requires i <= |s|
    ensures r.1 == ReplyAt(s, i).1
    ensures r.0.Pass? <==> ReplyAt(s, i).0 == Ok(NoError)
  {
    match ReplyAt(s, i).0
    case Ok(line) => (CheckOutcome(line), ReplyAt(s, i).1)
    case Err(e) => (Fail(e), ReplyAt(s, i).1)
  }

  /**
   * The network `reset()`: the reset socket's reply passes only when its
   * first character is `0`; an empty reply fails, since its first
   * character is the string's terminating NUL.
   */
  function ResetOutcome(reply: string): (o: Outcome)
    ensures o.Pass? <==> |reply| > 0 && reply[0] == '0'
    ensures o.Fail? ==> o.message == "Reset of interface failed: " + reply
  {
    var first := if |reply| > 0 then reply[0] else '\0';
    if first != '0' then Fail("Reset of interface failed: " + reply) else Pass
  }

  /** A payload prepended to a decoded reply; errors pass through. */
  function Prepend(p: seq<Byte>, r: Result<Decoded>): (q: Result<Decoded>)
    ensures q.Err? <==> r.Err?
    ensures q.Err? ==> q.message == r.message
    ensures q.Ok? ==> q.value.payload == p + r.value.payload && q.value.end == r.value.end
  {
    match r
    case Ok(d) => Ok(Decoded(p + d.payload, d.end))
    case Err(e) => Err(e)
  }

  /** The header of a block after its `#`: the payload size and the position after the size field. */
  function SizeAt(s: seq<Byte>, i: nat): (r: Result<(nat, nat)>)
    ensures r.Ok? ==> i < r.value.1 <= |s|
  {
    if |s| <= i then Err(ShortRead)
    else match SizeOfSize(s[i])
      case None => Err("std::length_error")
      case Some(k) =>
        if |s| < i + 1 + k then Err(ShortRead)
        else match Stoull(s[i + 1..i + 1 + k])
          case None => Err("std::stoull")
          case Some(size) => Ok((size, i + 1 + k))
  }

  /** A block is its header, then as many payload bytes as the header announces. */
  lemma ChunkOfSize(s: seq<Byte>, i: nat)
    ensures ChunkAt(s, i) == match SizeAt(s, i)
      case Err(e) => Err(e)
      case Ok((n, j)) => if |s| < j + n then Err(ShortRead) else Ok(Decoded(s[j..j + n], j + n))
  {
  }

  lemma PrependNothing(r: Result<Decoded>)
    ensures Prepend([], r) == r
  {
    if r.Ok? {
      assert [] + r.value.payload == r.value.payload;
    }
  }

  /** Past a `#` and a block, the reply read from the marker is the block's payload, then the rest. */
  lemma PrependBlock(s: seq<Byte>, m: nat, p: seq<Byte>, q: seq<Byte>, e: nat)
    requires m < |s| && s[m] == '#' && ChunkAt(s, m + 1).Ok?
    requires ChunkAt(s, m + 1).value.payload == q && ChunkAt(s, m + 1).value.end == e
    ensures Prepend(p, SyncAt(s, m)) == Prepend(p + q, SyncAt(s, e))
  {
    assert SyncAt(s, m) == BlockAt(s, m + 1);
    match SyncAt(s, e)
    case Err(_) =>
    case Ok(t) =>
      assert BlockAt(s, m + 1) == Ok(Decoded(q + t.payload, t.end));
      assert p + (q + t.payload) == p + q + t.payload;
  }

  /** A block that does not decode makes the reply from its marker fail the same way. */
  lemma BrokenBlock(s: seq<Byte>, m: nat)
    requires m < |s| && s[m] == '#' && ChunkAt(s, m + 1).Err?
    ensures SyncAt(s, m) == Err(ChunkAt(s, m + 1).message)
  {
  }

  /** The last marker of a reply: a line feed ends it, any other byte fails the final assertion. */
  lemma LastMarker(s: seq<Byte>, m: nat)
    requires m < |s| && s[m] != '#'
    ensures SyncAt(s, m) == if s[m] == '\n' then Ok(Decoded([], m + 1)) else Err("assertion prefix == '\\n'")
  {
  }

  /** The stream ends where a marker should be. */
  lemma NoMarker(s: seq<Byte>, m: nat)
    requires m >= |s|
    ensures SyncAt(s, m) == Err(ShortRead)
  {
  }

  // ---------------------------------------------------------------------------
  // The connection

  class Connection {
    /** `type_`. */
    const kind: Kind
    /** Everything the instrument sends on this connection. */
    const input: seq<Byte>
    /** How much of `input` has been read. */
    var cursor: nat
    /** Everything written to the socket, one entry per write. */
    var sent: seq<string>
    /** `mode_`. */
    var mode: Mode
    /** Whether `socket_` holds a socket. */
    var open: bool

    ghost predicate Valid()
      reads this
    {
      cursor <= |input|
    }

    /** The member initialisers and the constructor's first step: a serial port is opened at once. */
    constructor (kind: Kind, input: seq<Byte>)
      ensures Valid() && this.kind == kind && this.input == input
      ensures cursor == 0 && sent == [] && mode == Ascii && open == (kind == Serial)
    {
      this.kind := kind;
      this.input := input;
      cursor := 0;
      sent := [];
      mode := Ascii;
      open := kind == Serial;
    }

    /** `send_command(cmd)`: one write of the command and a line feed; nothing is read. */
    method SendCommand(cmd: string)
      requires open
      modifies this
      ensures sent == old(sent) + [Line(cmd)]
      ensures cursor == old(cursor) && mode == old(mode) && open
    {
      sent := sent + [Line(cmd)];
    }

    /** `read_ascii()`: one line, in ASCII mode only. */
    method ReadAscii() returns (r: Result<string>)
      requires Valid() && open && mode == Ascii
      modifies this
      ensures Valid() && sent == old(sent) && mode == old(mode) && open
      ensures (r, cursor) == ReplyAt(input, old(cursor))
    {
      var l := LineAt(input, cursor);
      match l
      case Ok((line, end)) =>
        cursor := end;
        r := Ok(line);
      case Err(e) =>
        cursor := |input|;
        r := Err(e);
    }

    /**
     * `check_command(cmd)`: the command with the error query, then the
     * reply line, which must be exactly the no-error reply.
     */
    method CheckCommand(cmd: string) returns (o: Outcome)
      requires Valid() && open && mode == Ascii
      modifies this
      ensures Valid() && sent == old(sent) + [Line(CheckText(cmd))] && mode == old(mode) && open
      ensures (o, cursor) == CheckAt(input, old(cursor))
    {
      SendCommand(CheckText(cmd));
      var reply := ReadAscii();
      if reply.Err? {
        return Fail(reply.message);
      }
      o := CheckOutcome(reply.value);
    }

    /** `mode(m)`: the format command, then the new mode, whatever the instrument makes of it. */
    method SetMode(m: Mode)
      requires open
      modifies this
      ensures sent == old(sent) + [Line(ModeCommand(m))]
      ensures mode == m && cursor == old(cursor) && open
    {
      SendCommand(ModeCommand(m));
      mode := m;
    }

    /**
     * `reset()`. On a serial line a break is signalled on the open port,
     * outside the command stream; on the network a separate socket sends
     * the break and `resetReply` is the line it reads back.
     */
    method Reset(resetReply: string) returns (o: Outcome)
      requires kind == Serial ==> open
      ensures kind == Serial ==> o == Pass
      ensures kind == Socket ==> o == ResetOutcome(resetReply)
    {
      if kind == Serial {
        return Pass;
      }
      o := ResetOutcome(resetReply);
    }

    /** `start()`: open the socket if there is none, reset the instrument, and read its identity. */
    method Start() returns (r: Result<string>)
      requires Valid() && mode == Ascii
      modifies this
      ensures Valid() && open && mode == Ascii
      ensures sent == old(sent) + [Line("*rst"), Line("*idn?")]
      ensures (r, cursor) == ReplyAt(input, old(cursor))
    {
      if !open {
        open := true;
      }
      SendCommand("*rst");
      SendCommand("*idn?");
      r := ReadAscii();
    }

    /** `stop()`: reset the instrument, return it to local control, drop the socket, back to ASCII. */
    method Stop()
      requires open
      modifies this
      ensures sent == old(sent) + [Line("*rst"), Line("gtl")]
      ensures !open && mode == Ascii && cursor == old(cursor)
    {
      SendCommand("*rst");
      SendCommand("gtl");
      open := false;
      mode := Ascii;
    }

    /** The rest of the constructor: `reset()`, then `start()`; a failed reset sends nothing. */
    method Connect(resetReply: string) returns (r: Result<string>)
      requires Valid() && mode == Ascii && cursor == 0 && sent == [] && open == (kind == Serial)
      modifies this
      ensures Valid()
      ensures kind == Socket && !ResetOutcome(resetReply).Pass? ==>
        r == Err(ResetOutcome(resetReply).message) && sent == [] && !open && cursor == 0
      ensures kind == Serial || ResetOutcome(resetReply).Pass? ==>
        open && mode == Ascii && sent == [Line("*rst"), Line("*idn?")] && (r, cursor) == ReplyAt(input, 0)
    {
      var o := Reset(resetReply);
      if o.Fail? {
        return Err(o.message);
      }
      r := Start();
    }

    /** The destructor: stop, if there is a socket. */
    method Close()
      modifies this
      ensures old(open) ==> sent == old(sent) + [Line("*rst"), Line("gtl")]
      ensures !old(open) ==> sent == old(sent)
      ensures !open && cursor == old(cursor)
      ensures old(open) ==> mode == Ascii
      ensures !old(open) ==> mode == old(mode)
    {
      if open {
        Stop();
      }
    }

    /**
     * The block header both binary readers read after a `#`: the size
     * count character, then that many characters of decimal size.
     */
    method ReadSize() returns (r: Result<nat>)
      requires Valid()
      modifies this
      ensures Valid() && sent == old(sent) && mode == old(mode) && open == old(open)
      ensures match SizeAt(input, old(cursor))
        case Ok((n, j)) => r == Ok(n) && cursor == j
        case Err(e) => r == Err(e)
    {
      if cursor >= |input| {
        return Err(ShortRead);
      }
      var sizeSizeBuffer := input[cursor];
      cursor := cursor + 1;
      var sizeSize := SizeOfSize(sizeSizeBuffer);
      if sizeSize.None? {
        return Err("std::length_error");
      }
      var k := sizeSize.value;
      if |input| < cursor + k {
        return Err(ShortRead);
      }
      var sizeBuffer := input[cursor..cursor + k];
      cursor := cursor + k;
      var size := Stoull(sizeBuffer);
      if size.None? {
        return Err("std::stoull");
      }
      r := Ok(size.value);
    }

    /** One block of `read_binary()` after its `#`: the header, then the payload, appended to `data`. */
    method ReadBlock(data: BinaryData) returns (c: Result<Decoded>)
      requires Valid() && data.Valid() && data.position == 0
      modifies this, data
      ensures Valid() && data.Valid() && data.position == 0
      ensures sent == old(sent) && mode == old(mode) && open == old(open)
      ensures c == ChunkAt(input, old(cursor))
      ensures c.Ok? ==> cursor == c.value.end && data.buffer == old(data.buffer) + c.value.payload
    {
      ChunkOfSize(input, cursor);
      var size := ReadSize();
      if size.Err? {
        return Err(size.message);
      }
      if |input| < cursor + size.value {
        return Err(ShortRead);
      }
      var payload := input[cursor..cursor + size.value];
      var region := data.Append(size.value);
      data.Fill(region, payload);
      cursor := cursor + size.value;
      c := Ok(Decoded(payload, cursor));
    }

    /** One block of `read_binary_raw()` after its `#`: the vector is resized, then the payload read into its new end. */
    method ReadBlockRaw(data: seq<Byte>) returns (c: Result<Decoded>, grown: seq<Byte>)
      requires Valid()
      modifies this
      ensures Valid() && sent == old(sent) && mode == old(mode) && open == old(open)
      ensures c == ChunkAt(input, old(cursor))
      ensures c.Ok? ==> cursor == c.value.end && grown == data + c.value.payload
    {
      ChunkOfSize(input, cursor);
      grown := data;
      var size := ReadSize();
      if size.Err? {
        return Err(size.message), grown;
      }
      var oldSize := |grown|;
      grown := grown + Zeros(size.value);
      if |input| < cursor + size.value {
        return Err(ShortRead), grown;
      }
      var payload := input[cursor..cursor + size.value];
      grown := grown[..oldSize] + payload;
      cursor := cursor + size.value;
      c := Ok(Decoded(payload, cursor));
    }

    /**
     * `read_binary()`: blocks while the marker is `#`, each appended to a
     * new `BinaryData`, until the closing marker, which must be a line feed.
     * The bytes read and the buffer built are those of `SyncAt`.
     */
    method ReadBinary() returns (r: Result<BinaryData>)
      requires Valid() && open && mode == Binary
      modifies this
      ensures Valid() && sent == old(sent) && mode == old(mode) && open
      ensures var f := SyncAt(input, old(cursor));
        (f.Ok? ==> r.Ok? && fresh(r.value) && r.value.Valid() && r.value.position == 0
                   && r.value.buffer == f.value.payload && cursor == f.value.end)
        && (f.Err? ==> r.Err? && r.message == f.message)
    {
      var start := cursor;
      if cursor >= |input| {
        NoMarker(input, cursor);
        return Err(ShortRead);
      }
      ghost var marker := cursor;
      var prefix := input[cursor];
      cursor := cursor + 1;
      var data := new BinaryData();
      PrependNothing(SyncAt(input, start));
      while prefix == '#'
        invariant cursor == marker + 1 && marker < |input| && prefix == input[marker]
        invariant fresh(data) && data.Valid() && data.position == 0
        invariant sent == old(sent) && mode == old(mode) && open
        invariant SyncAt(input, start) == Prepend(data.buffer, SyncAt(input, marker))
        decreases |input| - cursor
      {
        var c := NextBlock(data, start, marker);
        if c.Err? {
          return Err(c.message);
        }
        if cursor >= |input| {
          NoMarker(input, cursor);
          return Err(ShortRead);
        }
        marker := cursor;
        prefix := input[cursor];
        cursor := cursor + 1;
      }
      LastMarker(input, marker);
      if prefix != '\n' {
        return Err("assertion prefix == '\\n'");
      }
      assert data.buffer + [] == data.buffer;
      return Ok(data);
    }

    /** One pass of `read_binary()`'s loop: the block after a `#` marker, appended to `data`. */
    method NextBlock(data: BinaryData, ghost start: nat, ghost marker: nat) returns (c: Result<Decoded>)
      requires Valid() && data.Valid() && data.position == 0 && cursor == marker + 1 && input[marker] == '#'
      requires start <= |input| && SyncAt(input, start) == Prepend(data.buffer, SyncAt(input, marker))
      modifies this, data
      ensures Valid() && data.Valid() && data.position == 0
      ensures sent == old(sent) && mode == old(mode) && open == old(open)
      ensures c.Err? ==> SyncAt(input, start) == Err(c.message)
      ensures c.Ok? ==> old(cursor) < cursor && SyncAt(input, start) == Prepend(data.buffer, SyncAt(input, cursor))
    {
      var before := data.buffer;
      c := ReadBlock(data);
      assert c == ChunkAt(input, marker + 1);
      if c.Err? {
        BrokenBlock(input, marker);
      } else {
        PrependBlock(input, marker, before, c.value.payload, c.value.end);
      }
    }

    /** One pass of `read_binary_raw()`'s loop: the block after a `#` marker, appended to `data`. */
    method NextRawBlock(data: seq<Byte>, ghost start: nat, ghost marker: nat) returns (c: Result<Decoded>, grown: seq<Byte>)
      requires Valid() && cursor == marker + 1 && input[marker] == '#'
      requires start <= |input| && SyncAt(input, start) == Prepend(data, SyncAt(input, marker))
      modifies this
      ensures Valid() && sent == old(sent) && mode == old(mode) && open == old(open)
      ensures c.Err? ==> SyncAt(input, start) == Err(c.message)
      ensures c.Ok? ==> old(cursor) < cursor && SyncAt(input, start) == Prepend(grown, SyncAt(input, cursor))
    {
      c, grown := ReadBlockRaw(data);
      assert c == ChunkAt(input, marker + 1);
      if c.Err? {
        BrokenBlock(input, marker);
      } else {
        PrependBlock(input, marker, data, c.value.payload, c.value.end);
      }
    }

    /** `read_binary_raw()`: the same reply, gathered in a byte vector. */
    method ReadBinaryRaw() returns (r: Result<seq<Byte>>)
      requires Valid() && open && mode == Binary
      modifies this
      ensures Valid() && sent == old(sent) && mode == old(mode) && open
      ensures var f := SyncAt(input, old(cursor));
        (f.Ok? ==> r == Ok(f.value.payload) && cursor == f.value.end)
        && (f.Err? ==> r == Err(f.message))
    {
      var start := cursor;
      if cursor >= |input| {
        NoMarker(input, cursor);
        return Err(ShortRead);
      }
      ghost var marker := cursor;
      var buffer := input[cursor];
      cursor := cursor + 1;
      var data: seq<Byte> := [];
      PrependNothing(SyncAt(input, start));
      while buffer == '#'
        invariant cursor == marker + 1 && marker < |input| && buffer == input[marker]
        invariant sent == old(sent) && mode == old(mode) && open
        invariant SyncAt(input, start) == Prepend(data, SyncAt(input, marker))
        decreases |input| - cursor
      {
        var c;
        c, data := NextRawBlock(data, start, marker);
        if c.Err? {
          return Err(c.message);
        }
        if cursor >= |input| {
          NoMarker(input, cursor);
          return Err(ShortRead);
        }
        marker := cursor;
        buffer := input[cursor];
        cursor := cursor + 1;
      }
      LastMarker(input, marker);
      if buffer != '\n' {
        return Err("assertion prefix == '\\n'");
      }
      assert data + [] == data;
      return Ok(data);
    }

    /**
     * `read_binary_async(callback)`, in binary mode only: the socket makes
     * a new asynchronous reader and starts it; the reader's completions
     * then run as `AsyncReader` describes, from this position of the stream.
     */
    method ReadBinaryAsync() returns (reader: AsyncBinaryLineReader)
      requires open && mode == Binary
      ensures fresh(reader) && reader.Valid() && reader.pending == MarkerRead && reader.data.buffer == []
    {
      reader := new AsyncBinaryLineReader();
      reader.Read();
    }
  }
}
