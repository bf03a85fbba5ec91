# lmgd core, modelled in Dafny

lmgd is a measurement daemon for the ZES ZIMMER LMG power analyzers. It
configures the instrument over its SCPI-like text protocol, switches it to
binary mode, and reads the gapless sample stream. Each block of that stream
is a sequence of `#<k><size><payload>` chunks ended by a line feed.

This project models the driver core:

- **Numbers** (`numbers.dfy`): the C++ library calls the core relies on.
  - `std::to_string`, `std::stoll`, `std::stoi` and `std::stoull`, with their whitespace, sign, digit-prefix and range rules.
  - The `getline(str, field, ',')` field split.
  - The little-endian `int64_t` reinterpretation of eight bytes.
- **Types** (`types.dfy`): the enumerations of `include/lmgd/device/types.hpp`, with their underlying codes.
- **Data** (`data.dfy`): `BinaryData`, the read cursor over a received binary block.
  - It is a class with `buffer` and `position` fields.
  - Each `read_*` is specified by a pure decoder over the unread bytes, and each decoder round-trips against an encoder.
- **Frame** (`frame.dfy`): the block format that `read_binary` and `read_binary_raw` decode.
  - It is a pure decoder and an encoder.
  - The decoder is proved to read back every encoded frame.
- **AsyncReader** (`async_reader.dfy`): `AsyncBinaryLineReader`, the callback-driven reader.
  - It is a class whose completion handler is one step of a state machine.
  - The whole run of completions is proved to agree with the synchronous decoder.
- **Session** (`session.dfy`): `Connection`.
  - It is a class over the byte stream the instrument sends and the log of lines the driver writes.
  - Its operations: commands, checked commands, mode switch, reset, start, stop, the ASCII reply reader and the two binary readers.
- **ListParser** (`list_parser.dfy`): `parse_list` and `parse`.
- **Tracks** (`tracks.dfy`): `Track`. It covers the binding and fetch commands and the name under which a track is published.
- **Channels** (`channels.dfy`): the channel configuration parsing and the commands that set a channel up.
  - The configuration parsing is `parse_coupling` and `parse_metrics`.
  - The metric set is a strictly sorted sequence.
- **Devices** (`devices.dfy`): `Device`.
  - It is a class holding the connection, the channels, the tracks, the recording flag and the gap length.
  - Its operations: the constructor's whole setup conversation, `add_track`, start, stop, destructor and `fetch_data`.
  - The channel constructor of `src/device/channel.cpp` appears here too, as `Device.AddChannel`.
- **Metrics** (`metrics.dfy`): `source::Metric`, the repeat suppression in front of the sink.

Conventions of the model:

- A socket is two things.
  - What the instrument sends is a byte sequence `input`, read from a cursor.
  - What the driver writes is a log `sent`, one entry per write.
- A raised exception becomes an `Err`/`Fail` result carrying the exception's text, and the caller stops there. So do the failed assertions of the decoders and of the channel constructor.
- The other assertions are preconditions: the caller must meet them (see "## Left out").
- Bytes are characters below 256, so command text and binary data share one type.
- `size_t` arithmetic is written out modulo 2^64 wherever the source relies on it.

## Model

| member | source | states |
|---|---|---|
| Numbers.NatToString | src/device/device.cpp:89 | `std::to_string` of a count is a non-empty run of decimal digits with no leading zero |
| Numbers.NatToStringValue | src/device/device.cpp:89 | the digits `std::to_string` writes denote the number written |
| Numbers.IntToString | src/device/track.cpp:17-18 | `std::to_string` of an integer is its digits, with a leading '-' exactly when it is negative |
| Numbers.Stoll | src/device/device.cpp:65 | `std::stoll` fails when the text has no numeral, and a value it reads is a signed 64-bit integer |
| Numbers.Stoi | src/device/device.cpp:108 | `std::stoi` fails when the text has no numeral, and a value it reads is a signed 32-bit integer |
| Numbers.Stoull | src/network/connection.cpp:148 | `std::stoull` fails when the text has no numeral; a value it reads is below 2^64, and is the magnitude of a numeral without a minus sign |
| Numbers.StollOfIntToString | src/device/device.cpp:65 | `std::stoll` reads back every 64-bit value `std::to_string` writes, sign included |
| Numbers.StoullOfNatToString | src/network/connection.cpp:148 | `std::stoull` reads back every 64-bit unsigned value `std::to_string` writes |
| Numbers.StoullOfStoll | include/lmgd/network/async_binary_line_reader.hpp:112 | where `stoll` (async reader) yields a non-negative size, `stoull` (sync reader) yields the same size |
| Numbers.SplitJoin | src/device/device.cpp:63 | splitting at a delimiter and joining the fields with it gives the text back; no field contains the delimiter |
| Numbers.SplitOfJoin | src/device/device.cpp:63 | joining delimiter-free fields and splitting again gives the same fields |
| Numbers.SplitCons | src/device/channel.cpp:47 | a split stops at the first delimiter: the text before it is the first field |
| Numbers.SplitSnoc | src/device/device.cpp:63 | a delimiter-free tail after the last delimiter is the last field |
| Numbers.GetlineFields | src/device/device.cpp:58-66 | no field `getline(str, field, ',')` yields holds a comma, and there are none exactly when the reply is empty |
| Numbers.UnsignedOfLittleEndian | include/lmgd/network/data.hpp:68 | eight little-endian bytes encode any value below 2^64 and decode back to it |
| Numbers.LittleEndianOfUnsigned | include/lmgd/network/data.hpp:68 | every byte sequence is the little-endian encoding of its value |
| Numbers.Int64Of | include/lmgd/network/data.hpp:68 | eight bytes read as an `int64_t` give a signed 64-bit value |
| Numbers.Int64RoundTrip | include/lmgd/network/data.hpp:68 | reinterpreting the bytes of an `int64_t` gives the value back (two's complement) |
| Numbers.Int64BytesOf | include/lmgd/network/data.hpp:68 | any eight bytes are the bytes of the `int64_t` they are read as |
| Types.CouplingOfCode | include/lmgd/device/types.hpp:5-11 | exactly the codes 0, 1 and 9 name a coupling, and each names the coupling with that code |
| Types.CouplingCode | include/lmgd/device/types.hpp:5-11 | every coupling code is 0, 1 or 9 |
| Types.TypeChar | include/lmgd/device/types.hpp:13-18 | every metric type character is 'I', 'P' or 'U' |
| Types.BandwidthCode | include/lmgd/device/types.hpp:20-25 | every bandwidth code is 0, 1 or 2 |
| Types.TypeOfChar | include/lmgd/device/types.hpp:13-18 | exactly 'I', 'P' and 'U' name a metric type, each the one with that character |
| Types.BandwidthOfCode | include/lmgd/device/types.hpp:20-25 | exactly 0, 1 and 2 name a bandwidth, each the one with that code |
| Types.CodesRoundTrip | include/lmgd/device/types.hpp:5-25 | every coupling, type and bandwidth is recovered from its code |
| Types.MetricLessTotal | include/lmgd/device/channel.hpp:25 | the pair order of the metric set is irreflexive, asymmetric and total |
| Data.BinaryData.constructor | include/lmgd/network/data.hpp:49-55 | a new buffer is empty with the cursor at 0 |
| Data.BinaryData.Append | include/lmgd/network/data.hpp:57-64 | appending grows the buffer by `size` zero bytes and returns where the region starts; nothing was read before |
| Data.BinaryData.Fill | src/network/connection.cpp:151 | the socket read writes the payload into the appended region and changes nothing before it |
| Data.BinaryData.Read | include/lmgd/network/data.hpp:125-133 | a read of a positive size that fits moves the cursor by exactly that size and returns the old cursor |
| Data.IntIn | include/lmgd/network/data.hpp:66-69 | an integer is read exactly when eight bytes are left, consumes eight bytes, and lies in the 64-bit range |
| Data.BinaryData.ReadInt | include/lmgd/network/data.hpp:66-69 | `read_int` returns the decoded integer and advances the cursor by what the decoder consumed |
| Data.BinaryData.ReadTime | include/lmgd/network/data.hpp:71-74 | `read_time` is a duration of the integer read, in nanoseconds |
| Data.BinaryData.ReadDate | include/lmgd/network/data.hpp:76-79 | `read_date` is the time point that many nanoseconds after the epoch |
| Data.StringIn | include/lmgd/network/data.hpp:81-85 | a string consumes its eight-byte length and that many bytes, and is non-empty |
| Data.BinaryData.ReadString | include/lmgd/network/data.hpp:81-85 | `read_string` returns the decoded string and advances the cursor past it |
| Data.IntListIn | include/lmgd/network/data.hpp:87-92 | an integer list consumes its length and eight bytes per item |
| Data.BinaryData.ReadIntList | include/lmgd/network/data.hpp:87-92 | `read_int_list` returns a view of the items just after the length, and the cursor moves past them |
| Data.FloatListIn | include/lmgd/network/data.hpp:94-99 | a float list consumes its length and four bytes per item |
| Data.BinaryData.ReadFloatList | include/lmgd/network/data.hpp:94-99 | `read_float_list` returns a view of the items just after the length, and the cursor moves past them |
| Data.StringsIn | include/lmgd/network/data.hpp:107-110 | reading `count` strings yields exactly `count` strings within the bytes left |
| Data.StringListIn | include/lmgd/network/data.hpp:101-112 | a string list consumes at least its count and stays within the buffer; a negative count raises, any other count yields that many strings |
| Data.BinaryData.ReadStrings | include/lmgd/network/data.hpp:107-110 | the loop of `read_string_list` reads the strings one after the other |
| Data.BinaryData.ReadStringList | include/lmgd/network/data.hpp:101-112 | `read_string_list` reads the length, then that many strings |
| Data.ListsHaveAnnouncedLength | include/lmgd/network/data.hpp:87-112 | every list read has the length its prefix announced, and integer and float lists are non-empty |
| Data.EmptyLengthRejected | include/lmgd/network/data.hpp:128 | a zero or negative length prefix fails the `size > 0` check for strings and both list kinds |
| Data.IntInEncoded | include/lmgd/network/data.hpp:66-69 | an encoded integer reads back, whatever follows it |
| Data.IntItemsOfEncoded | include/lmgd/network/data.hpp:91 | encoded integer items read back as the same items |
| Data.FloatItemsOfEncoded | include/lmgd/network/data.hpp:98 | encoded float items read back as the same items |
| Data.StringInEncoded | include/lmgd/network/data.hpp:81-85 | a length-prefixed string reads back, whatever follows it |
| Data.StringsInEncoded | include/lmgd/network/data.hpp:107-110 | a run of encoded strings reads back, consuming exactly its encoding |
| Data.IntListInEncoded | include/lmgd/network/data.hpp:87-92 | an encoded non-empty integer list reads back |
| Data.FloatListInEncoded | include/lmgd/network/data.hpp:94-99 | an encoded non-empty float list reads back |
| Data.StringListInEncoded | include/lmgd/network/data.hpp:101-112 | an encoded string list reads back, consuming exactly its encoding |
| Data.WrappedReadAgrees | include/lmgd/network/data.hpp:125-133 | for sizes that do not wrap, the `size_t` bounds check accepts exactly the reads that fit |
| Data.WrappedRead | include/lmgd/network/data.hpp:125-133 | the `size_t` read, as written, never leaves the cursor past the end, and moves it by `size` for every positive size that fits without wrapping |
| Data.NegativeLengthRewinds | include/lmgd/network/data.hpp:125-133 | a length prefix of -1 passes the wrapped bounds check and moves the cursor back to 0 |
| Data.ListLengthWraps | include/lmgd/network/data.hpp:87-99 | a count of 2^61 + 1 integers (2^62 + 1 floats) makes `length * sizeof(T)` wrap to 8 (4) bytes, which pass the bounds check as written, while the length-checked list read refuses them |
| Data.CStringIn | include/lmgd/network/data.hpp:84 | the C-string is the bytes before the first NUL, and it fails to end within the buffer when there is no NUL |
| Data.CStringOverruns | include/lmgd/network/data.hpp:84 | when the byte after a string is not NUL, the C-string the source builds is not the string read |
| Data.CStringOverrunWitness | include/lmgd/network/data.hpp:84 | "ab" followed by "c": the string read is "ab", but the C-string built is not |
| Frame.SignedChar | src/network/connection.cpp:139-142 | a `char` holds a value from -128 to 127 congruent to its byte |
| Frame.SizeOfSize | src/network/connection.cpp:142-146 | the size count is accepted exactly for characters from '0' to 127, and is their distance from '0' |
| Frame.ChunkAt | src/network/connection.cpp:139-151 | a decoded chunk ends within the stream, after its header and payload |
| Frame.ChunkAtParts | src/network/connection.cpp:139-151 | a valid size count, a size numeral and that many bytes decode as one chunk ending after the payload |
| Frame.SyncAt | src/network/connection.cpp:137-156 | a decoded frame ends on a line feed within the stream |
| Frame.SyncFrame | src/network/connection.cpp:129-160 | `read_binary` consumes a frame ending on a line feed |
| Frame.ChunkGrowsBySize | src/network/connection.cpp:142-151 | a decoded block adds exactly the byte count its size field announces, all of it taken from the stream |
| Frame.ResizedLength | src/network/connection.cpp:195-197 | `old_size + size` in `size_t`: the true sum below 2^64, otherwise the sum less 2^64 |
| Frame.NegativeSizeWritesPast | src/network/connection.cpp:195-201 | after a one-byte block, a size field `-1` reads as 2^64 - 1 and the resize wraps the buffer to length 0, below the offset 1 the socket read writes at |
| Frame.NegativeSizeShortRead | src/network/connection.cpp:137-156 | the model reads that same stream as a short read |
| Frame.EncodedChunkAt | src/network/connection.cpp:139-151 | an encoded chunk starts with '#' and decodes to its payload, ending where its encoding ends |
| Frame.BlocksThen | src/network/connection.cpp:137-154 | a run of decoded chunks followed by a frame end decodes to the concatenated payloads |
| Frame.EncodedBlocksAt | src/network/connection.cpp:137-154 | encoded chunks laid out in the stream are read one after the other |
| Frame.NewlineAt | src/network/connection.cpp:153-156 | a line feed as the marker ends the frame with nothing more |
| Frame.FrameEncoded | src/network/connection.cpp:129-160 | every encoded frame decodes to the concatenation of its chunks and consumes exactly its encoding |
| Frame.BadMarkerRefused | src/network/connection.cpp:156 | a first marker that is neither '#' nor a line feed is refused |
| AsyncReader.CheckerAccepts | include/lmgd/network/async_binary_line_reader.hpp:30-35 | a completion is refused when it carries an error code or when fewer or more bytes arrived than were announced, and accepted otherwise |
| AsyncReader.Dispatch | include/lmgd/network/async_binary_line_reader.hpp:51-116 | a handler either schedules a read of a well-formed next state and makes progress, or stops; it delivers exactly on a line feed marker, the data collected so far, and then waits for a marker with an empty buffer on `repeat` and stops on `cancel` |
| AsyncReader.OnMarker | include/lmgd/network/async_binary_line_reader.hpp:72-86 | '#' goes on to the size count with the data kept; a line feed delivers; any other marker raises "Invalid marker" with its value and stops |
| AsyncReader.OnSizeSize | include/lmgd/network/async_binary_line_reader.hpp:89-95 | the size field is read with `size_size_char - '0'` characters; a negative count cannot size the string and fails |
| AsyncReader.OnSize | include/lmgd/network/async_binary_line_reader.hpp:97-113 | a size `stoll` reads as non-negative appends that many bytes after the data kept and reads the payload into them; any other size fails |
| AsyncReader.OnData | include/lmgd/network/async_binary_line_reader.hpp:108-116 | the payload fills its region, the data before it is kept, and the reader returns to the marker |
| AsyncReader.Step | include/lmgd/network/async_binary_line_reader.hpp:30-35 | a completion continues only without an error code and with exactly the expected size, then does what its handler does: on a line feed it delivers the data, restarts empty on `repeat` and stops on `cancel` |
| AsyncReader.RunFrame | include/lmgd/network/async_binary_line_reader.hpp:60-116 | a run of completions over the stream always ends, in a delivery, a stop or a failure, within the stream |
| AsyncReader.CompletionIsStep | include/lmgd/network/async_binary_line_reader.hpp:30-35 | the run takes one `Step` per completion and continues from the new state |
| AsyncReader.RunShort | include/lmgd/network/async_binary_line_reader.hpp:33 | a transfer shorter than the read asked for fails the checker |
| AsyncReader.RunBadMarker | include/lmgd/network/async_binary_line_reader.hpp:83-85 | a marker other than '#' or a line feed fails |
| AsyncReader.RunNewline | include/lmgd/network/async_binary_line_reader.hpp:51-57 | a line feed marker delivers the data collected so far; the reader then waits for a marker with an empty buffer on `repeat`, and is stopped on `cancel` |
| AsyncReader.RunHash | include/lmgd/network/async_binary_line_reader.hpp:74-76 | a '#' marker goes on to read the size count |
| AsyncReader.RunBadSizeSize | include/lmgd/network/async_binary_line_reader.hpp:97-105 | a size count below '0' or above 127 fails |
| AsyncReader.RunSizeSize | include/lmgd/network/async_binary_line_reader.hpp:89-95 | a valid size count goes on to read that many size characters |
| AsyncReader.RunBadSize | include/lmgd/network/async_binary_line_reader.hpp:112 | a size `stoll` refuses, or a negative size, fails |
| AsyncReader.RunSize | include/lmgd/network/async_binary_line_reader.hpp:108-113 | a valid size appends that many zero bytes and goes on to read into them |
| AsyncReader.RunData | include/lmgd/network/async_binary_line_reader.hpp:114-115 | the payload overwrites the appended region, and the reader returns to the marker |
| AsyncReader.AsyncAgreesWithSync | include/lmgd/network/async_binary_line_reader.hpp:60-116 | from a marker, whenever the async run delivers, the sync decoder yields the same payload and end |
| AsyncReader.BlockFails | include/lmgd/network/async_binary_line_reader.hpp:97-116 | a short size field, a size `stoll` refuses, a negative size or a short payload all fail |
| AsyncReader.RunBlock | include/lmgd/network/async_binary_line_reader.hpp:89-116 | a whole chunk header and payload take the reader back to the marker, the payload appended |
| AsyncReader.SyncBlock | src/network/connection.cpp:139-151 | the same chunk decodes synchronously to the same payload and end |
| AsyncReader.BlockCompletes | include/lmgd/network/async_binary_line_reader.hpp:89-116 | inside a well-formed chunk the async and sync readers agree |
| AsyncReader.AsyncMatchesSync | include/lmgd/network/async_binary_line_reader.hpp:60-116 | every frame the async reader delivers is the frame `read_binary` returns, ending at the same byte |
| AsyncReader.SyncDeliversAsync | include/lmgd/network/async_binary_line_reader.hpp:68-116 | from a marker, whenever the sync decoder reads a frame, the async run delivers the same payload at the same end, or fails on the size field |
| AsyncReader.SyncMatchesAsync | include/lmgd/network/async_binary_line_reader.hpp:60-116 | every frame `read_binary` returns is delivered by the async reader with the same bytes and end, unless `stoll` refuses a size field that `stoull` reads |
| AsyncReader.WrappedSize | src/network/connection.cpp:148 | the size field "-18446744073709551615" is read as 1 by `stoull` and refused by `stoll` |
| AsyncReader.BlockReply | src/network/connection.cpp:137-156 | a reply of one chunk is '#', the size count, the size field, the payload and a line feed |
| AsyncReader.UnsignedSizeSync | src/network/connection.cpp:137-156 | `read_binary` reads a one-chunk reply whose size field `stoull` reads as the payload length |
| AsyncReader.SignedSizeAsync | include/lmgd/network/async_binary_line_reader.hpp:108-113 | the async reader fails on a one-chunk reply whose size field `stoll` refuses |
| AsyncReader.SignedSizeDiverges | include/lmgd/network/async_binary_line_reader.hpp:112 | on a reply whose size field only `stoull` reads, `read_binary` returns the payload and the async reader fails |
| AsyncReader.AfterChunksData | include/lmgd/network/async_binary_line_reader.hpp:108-115 | reading chunks appends their payloads to the data, in order |
| AsyncReader.RunChunks | include/lmgd/network/async_binary_line_reader.hpp:60-116 | a laid-out run of chunks takes the reader past all of them |
| AsyncReader.AsyncFrameEncoded | include/lmgd/network/async_binary_line_reader.hpp:51-116 | every encoded frame is delivered whole, as the concatenation of its chunks, consuming exactly its encoding |
| AsyncReader.AsyncFrameAt | include/lmgd/network/async_binary_line_reader.hpp:51-116 | an encoded frame anywhere in the stream is delivered after the data held, ends where its encoding ends, and leaves the reader as the callback asks |
| AsyncReader.AsyncFramesInTurn | include/lmgd/network/async_binary_line_reader.hpp:51-57 | with `repeat`, two frames in a row are delivered one after the other, and the second holds nothing of the first |
| AsyncReader.AsyncBinaryLineReader.constructor | include/lmgd/network/async_binary_line_reader.hpp:46-49 | a new reader has no read pending and no data |
| AsyncReader.AsyncBinaryLineReader.Read | include/lmgd/network/async_binary_line_reader.hpp:51-57 | `read` starts a fresh buffer and waits for a marker |
| AsyncReader.AsyncBinaryLineReader.Complete | include/lmgd/network/async_binary_line_reader.hpp:30-35 | a completion changes the reader exactly as `Step` says |
| Session.CheckTextRoundTrip | src/network/connection.cpp:111-119 | the error query can be split off a checked command, giving back the command (or nothing) |
| Session.CheckText | src/network/connection.cpp:111-119 | the text sent always holds the error query in full |
| Session.Line | src/network/connection.cpp:105-109 | `send_command` writes one character more than the command, the line feed |
| Session.ModeCode | src/network/connection.cpp:99-103 | the format code is 0 or 1 |
| Session.ModeCommand | src/network/connection.cpp:99-103 | the mode command is `:FORM:DATA ` and then '0' for ASCII or '1' for binary |
| Session.CheckOutcome | src/network/connection.cpp:121-126 | a checked command passes exactly on the "no error" reply, otherwise it raises the reply |
| Session.ModeCommandRoundTrip | src/network/connection.cpp:99-103 | the mode command names the mode it switches to |
| Session.LineAt | src/network/socket.cpp:58-70 | a line that is read ends past the read position and inside the stream |
| Session.LineAtShape | src/network/socket.cpp:58-70 | a line is the text up to the first line feed, which is consumed; it fails exactly when no line feed is left |
| Session.LineRoundTrip | src/network/socket.cpp:58-70 | a line written with its line feed is read back whatever precedes or follows it |
| Session.ReplyAt | src/network/connection.cpp:213-218 | `read_ascii` moves past the line it returns, and an error leaves the stream at its end |
| Session.ReplyAtShape | src/network/connection.cpp:213-218 | `read_ascii` returns the next line and moves past its line feed, and fails exactly when no line feed is left |
| Session.CheckAt | src/network/connection.cpp:111-127 | a checked command passes exactly when the next line is the "no error" reply |
| Session.ResetOutcome | src/network/connection.cpp:84-90 | the network reset passes exactly when the reply starts with '0', otherwise it raises with the reply |
| Session.Prepend | src/network/connection.cpp:137-154 | data already read is kept in front of the rest of the frame, and errors pass through |
| Session.SizeAt | src/network/connection.cpp:139-148 | a chunk header ends within the stream |
| Session.ChunkOfSize | src/network/connection.cpp:139-151 | a chunk is its header's size of bytes after the header, or a short read |
| Session.PrependBlock | src/network/connection.cpp:137-154 | a chunk read moves its payload onto the data read so far |
| Session.BrokenBlock | src/network/connection.cpp:146-151 | a chunk that cannot be read fails the whole frame with its error |
| Session.LastMarker | src/network/connection.cpp:153-156 | after the chunks, only a line feed ends the frame; anything else fails the assertion |
| Session.NoMarker | src/network/connection.cpp:153 | a stream that ends before the marker is a short read |
| Session.Connection.constructor | src/network/connection.cpp:18-25 | a new connection has sent nothing, is in ASCII mode, and has a socket only on a serial line |
| Session.Connection.SendCommand | src/network/connection.cpp:105-109 | the command and a line feed are written, nothing else changes |
| Session.Connection.ReadAscii | src/network/connection.cpp:213-218 | the reply is the next line of the stream |
| Session.Connection.CheckCommand | src/network/connection.cpp:111-127 | the command with the error query is written, and the outcome is the reply's |
| Session.Connection.SetMode | src/network/connection.cpp:99-103 | the mode command is written and the mode switches |
| Session.Connection.Reset | src/network/connection.cpp:69-92 | a serial reset always passes; a network reset passes or fails on the reply to the break |
| Session.Connection.Start | src/network/connection.cpp:38-58 | the socket is open, "*rst" and "*idn?" are written and the identity is read |
| Session.Connection.Stop | src/network/connection.cpp:60-67 | "*rst" and "gtl" are written, the socket is dropped and the mode is ASCII again |
| Session.Connection.Connect | src/network/connection.cpp:18-28 | a failed reset writes nothing; otherwise the connection is started |
| Session.Connection.Close | src/network/connection.cpp:30-36 | an open connection is stopped; a closed one is left alone |
| Session.Connection.ReadSize | src/network/connection.cpp:139-148 | the chunk header is read as the decoder reads it, and the cursor moves past it |
| Session.Connection.ReadBlock | src/network/connection.cpp:139-151 | a chunk is read as the decoder reads it, and its payload is appended to the data |
| Session.Connection.ReadBlockRaw | src/network/connection.cpp:186-201 | a chunk is read as the decoder reads it, and the vector grows by its payload |
| Session.Connection.ReadBinary | src/network/connection.cpp:129-160 | `read_binary` returns the frame the decoder reads, or fails with its error |
| Session.Connection.NextBlock | src/network/connection.cpp:137-152 | one turn of the `read_binary` loop keeps the data read plus the rest equal to the whole frame, or fails with the frame's error |
| Session.Connection.NextRawBlock | src/network/connection.cpp:184-204 | one turn of the raw loop keeps the data read plus the rest equal to the whole frame |
| Session.Connection.ReadBinaryRaw | src/network/connection.cpp:174-211 | `read_binary_raw` returns the frame the decoder reads, or fails with its error |
| Session.Connection.ReadBinaryAsync | src/network/connection.cpp:162-166 | in binary mode a new reader is started, waiting for a marker with no data |
| ListParser.ParseIntList | include/lmgd/parser/list.hpp:8-17 | a parsed list has as many items as its count field says, all within the data |
| ListParser.ParseFloatList | include/lmgd/parser/list.hpp:8-17 | a parsed float list has as many items as its count field says, all within the data |
| ListParser.ParseInt | include/lmgd/parser/list.hpp:20-23 | `parse<int64_t>` succeeds exactly on eight bytes, and those bytes encode the value |
| ListParser.ParseFloat | include/lmgd/parser/list.hpp:20-23 | `parse<float>` succeeds exactly on four bytes, and returns them |
| ListParser.ParsedIntAt | include/lmgd/parser/list.hpp:14-16 | item i is the `int64_t` at byte 8 + 8i |
| ListParser.ParsedFloatAt | include/lmgd/parser/list.hpp:14-16 | item i is the float at byte 8 + 4i |
| ListParser.CountAsRead | include/lmgd/parser/list.hpp:11 | the count is the `int64_t` prefix, and a negative count becomes a `size_t` of at least 2^63 |
| ListParser.CountOfEncoded | include/lmgd/parser/list.hpp:11 | an encoded count is read back as the count |
| ListParser.ParseIntListMatchesReader | include/lmgd/parser/list.hpp:8-17 | `parse_list` and `read_int_list` accept the same non-empty lists and yield the same items |
| ListParser.ParseFloatListMatchesReader | include/lmgd/parser/list.hpp:8-17 | `parse_list` and `read_float_list` accept the same non-empty lists and yield the same items |
| ListParser.ParseIntListEncoded | include/lmgd/parser/list.hpp:8-17 | an encoded integer list parses back |
| ListParser.ParseFloatListEncoded | include/lmgd/parser/list.hpp:8-17 | an encoded float list parses back |
| ListParser.NegativeCountOverruns | include/lmgd/parser/list.hpp:11-16 | a negative count asks for more items than the data holds |
| Tracks.NewTrack | src/device/track.cpp:8-11 | a track is in group 1, its phase is the channel id, and it keeps its channel, id, type and bandwidth |
| Tracks.ActionCommand | src/device/track.cpp:13-42 | the command starts with `:SENS` exactly in gapless mode, and ends with the closing quote in gapless mode and '?' otherwise |
| Tracks.SlotCodeRoundTrip | src/device/track.cpp:17-19 | the five-character slot code names the track's type, group, phase and bandwidth |
| Tracks.SlotCommandRoundTrip | src/device/track.cpp:15-20 | the gapless binding command names the track id and its slot code |
| Tracks.FetchCommandRoundTrip | src/device/track.cpp:21-41 | the cycle-mode fetch command names the metric type and the channel id |
| Tracks.TailShape | src/device/track.cpp:68-81 | the name suffix is a '.' and the type, then ".wide" for wide tracks |
| Tracks.TailsNotNested | src/device/track.cpp:68-81 | no name suffix ends another one |
| Tracks.TailsDistinct | src/device/track.cpp:68-81 | two suffixes are equal exactly when type and wideness are |
| Tracks.NameDeterminesTrack | src/device/track.cpp:64-82 | two tracks share a name exactly when channel name, type and wideness agree |
| Tracks.Name | src/device/track.cpp:64-82 | the name starts with the channel name and a '.', and ends with ".wide" exactly for a wide track |
| Channels.ParseCoupling | src/device/channel.cpp:9-28 | only "ACDC" or "acdc" is accepted, as AC/DC coupling |
| Channels.CouplingNamesRecognised | src/device/channel.cpp:13-24 | AC and GND, in either case, raise "not implemented yet" |
| Channels.OtherCouplingUnknown | src/device/channel.cpp:26-27 | any other coupling raises "Unknown coupling requested" naming it and the channel |
| Channels.ParseMetric | src/device/channel.cpp:39-86 | a parsed metric is never cycle bandwidth, and its type is the text before '@' |
| Channels.MetricPart | src/device/channel.cpp:43-47 | the metric type is the text before the first '@', or all of it |
| Channels.BandwidthPart | src/device/channel.cpp:69-70 | the bandwidth is text after the first '@' with no line feed in it, and empty when there is no '@' |
| Channels.MetricStringRoundTrip | src/device/channel.cpp:43-86 | "type@bandwidth" parses back to the type and bandwidth |
| Channels.BareTypeIsNarrow | src/device/channel.cpp:69-76 | a metric without '@' is narrow |
| Channels.BandwidthTail | src/device/channel.cpp:69-86 | the bandwidth is accepted exactly when it is empty, "narrow" or "wide"; only "wide" is wide |
| Channels.LineBreakEndsBandwidth | src/device/channel.cpp:69-70 | the bandwidth ends at the first line feed; text after it is ignored |
| Channels.Insert | src/device/channel.cpp:88-93 | inserting keeps the set sorted and adds exactly the new pair, and a duplicate changes nothing |
| Channels.Collect | src/device/channel.cpp:37-96 | the collected metric set is strictly sorted and no larger than the input |
| Channels.ParseAll | src/device/channel.cpp:39-86 | parsing every entry yields one metric per entry, or the first error |
| Channels.CollectIsSetOfParsed | src/device/channel.cpp:30-97 | the metric set fails exactly when an entry does, with that error, and otherwise holds exactly the parsed metrics |
| Channels.ParseMetrics | src/device/channel.cpp:30-97 | the loop builds the set `Collect` describes; no metrics give an empty set |
| Channels.ConfiguredMetrics | src/device/channel.cpp:30-97 | written-out metrics are collected back as exactly the same set |
| Channels.ParseAllOfStrings | src/device/channel.cpp:39-86 | written-out metrics parse back one by one, in order |
| Channels.SetupCommands | src/device/channel.cpp:122-129 | a channel is set up with one command per setting |
| Channels.SetupCommandsAddressChannel | src/device/channel.cpp:122-129 | every setup command names the channel id after its node |
| Channels.SetupCouplingRoundTrip | src/device/channel.cpp:122-123 | the coupling command's argument is the coupling's code |
| Devices.ConnectionAllowed | src/device/device.cpp:23-26 | only a "socket" connection is accepted; anything else raises the fixed message |
| Devices.SumFrom | src/device/device.cpp:63-66 | the channel count sums in `size_t` and stays below 2^64 |
| Devices.ChannelCountOf | src/device/device.cpp:58-66 | the channel count read from the reply fits a `size_t` |
| Devices.ChannelCount | src/device/device.cpp:53-67 | the `getline`/`stoll` loop computes the count `ChannelCountOf` describes |
| Devices.SumOfNumerals | src/device/device.cpp:63-66 | adding the numerals of some counts gives the sum of the counts |
| Devices.GroupReplyFields | src/device/device.cpp:58-63 | a comma-separated group reply splits into its numerals |
| Devices.GroupReplyCount | src/device/device.cpp:55-66 | the channel count of a group reply is the sum of its group sizes |
| Devices.ActionString | src/device/device.cpp:119-126 | the action starts with `ACTN; TSCYCL?; DURCYCL?`, whatever the number of tracks |
| Devices.BuildAction | src/device/device.cpp:119-126 | the loop builds the action command `ActionString` describes |
| Devices.Queries | src/device/device.cpp:122-126 | the action holds one gap query per track, the i-th for track i |
| Devices.HeadCommands | src/device/device.cpp:119 | the action starts with ACTN, TSCYCL? and DURCYCL? |
| Devices.ActionCommands | src/device/device.cpp:119-126 | split at ';', the action is the three head commands and then the per-track queries |
| Devices.ChannelTracks | src/device/channel.cpp:131-134 | a channel adds one track per metric, numbered on from the tracks that exist |
| Devices.Checked | src/network/connection.cpp:111-119 | each command of a checked run is written once, with the error query |
| Devices.ReadRun | src/device/device.cpp:32 | a reply that is only logged fails the constructor exactly when `read_ascii` raises, with its message, and the stream moves as `read_ascii` moves it |
| Devices.GapRun | src/device/device.cpp:107-108 | the gap length step passes exactly when the reply is read and `stoi` takes it |
| Devices.FindRun | src/device/channel.cpp:106-120 | the channel lookup passes exactly for an id from 1 to 7 whose type reply is read and is not `""`, followed by the clean error reply |
| Devices.CheckRunReplies | src/network/connection.cpp:111-127 | checked commands pass exactly when every reply is the clean one, and a passing run has read all the replies |
| Devices.TrackRunWithin | src/device/device.cpp:156-165 | with room for all the tracks, adding them is the same run as checking their bindings |
| Devices.TrackRunOver | src/device/device.cpp:158-161 | when the tracks would pass 16, adding them fails, whatever the replies |
| Devices.Bindings | src/device/device.cpp:164 | each track contributes its gapless binding command |
| Devices.Configured | src/device/channel.cpp:137-140 | a channel entry is built when its metrics and coupling parse, with the metrics error first |
| Devices.Device.constructor | src/device/device.cpp:21-29 | a new device holds its new connection, has no channels or tracks and is not recording |
| Devices.Device.AddTrack | src/device/device.cpp:156-165 | a 17th track is refused before anything is written or read; otherwise the track gets the next id, its gapless binding command is checked, and the outcome and read position are those of `CheckAt` on the next reply |
| Devices.Device.CheckAll | src/device/channel.cpp:122-129 | the outcome and read position are `CheckRun` over the replies: the run passes exactly when every command is answered with the clean reply, and a passing run wrote exactly those commands |
| Devices.Device.AddTracks | src/device/channel.cpp:131-134 | the outcome and read position are `TrackRun`: the tracks pass exactly when none would be the 17th and every binding check is clean; when they pass, at most 16 tracks exist and the tracks and writes are those of the metrics in order |
| Devices.Device.AddMetricTrack | src/device/channel.cpp:131-134 | adding one more metric's track keeps the outcome `TrackRun` predicts for the rest of the metrics, and on a pass the tracks and writes follow the metrics so far |
| Devices.Device.BindMetricTrack | src/device/device.cpp:156-165 | one `add_track` inside the loop: refused at 16 tracks, otherwise `CheckAt` on the next reply; on a pass the tracks and writes follow the metrics up to and including this one |
| Devices.Device.FindChannel | src/device/channel.cpp:106-120 | the outcome and read position are `FindRun`, which passes exactly for an id from 1 to 7 whose type reply is read and not empty and whose error check is clean; on a pass the type query and the error query are written |
| Devices.Device.AddChannel | src/device/channel.cpp:99-135 | the outcome and read position are `ChannelRun`: the channel is found, its coupling and range commands checked and its tracks added, the first failure ending it; on a pass the channel is appended with its tracks, after exactly the channel constructor's writes, and on a failure the channels are unchanged |
| Devices.Device.StartRecording | src/device/device.cpp:142-147 | "CONT ON" is written and the device records |
| Devices.Device.StopRecording | src/device/device.cpp:149-154 | "CONT OFF" is written and the device stops recording |
| Devices.Device.Close | src/device/device.cpp:134-140 | a recording device is stopped first; the connection is then closed |
| Devices.Device.FetchData | src/device/device.cpp:172-177 | fetching starts a new async reader, waiting for a marker |
| Devices.Device.Prologue | src/device/device.cpp:31-50 | the outcome and read position are `PrologueRun`: it passes exactly when the error log reply, both clock replies are read and the `SYSDATE` set is answered cleanly; on a pass the error log query, "CONT OFF" and the clock exchange are written in order |
| Devices.Device.SetClock | src/device/device.cpp:38-50 | the outcome and read position are `ClockRun`: it passes exactly when both clock replies are read and the set is answered cleanly; on a pass the clock is queried, set (checked) and queried again |
| Devices.Device.QueryChannelCount | src/device/device.cpp:53-67 | "GROUP?" is written and one reply read; a failed read raises its error, otherwise the count is that of the reply, or the `stoll` failure |
| Devices.Device.AddChannels | src/device/device.cpp:73-76 | the outcome and read position are `ChannelsRun`: the entries are parsed and constructed in turn until one fails; on a pass the channels are those of the configuration, numbered from 1, the tracks are those of the channels in order, and the lines written are the channel constructors' logs in order |
| Devices.ParseConfigured | src/device/channel.cpp:137-140 | the parsing part of the channel constructor yields the channel `Configured` describes, or its error |
| Devices.Device.EmplaceChannel | src/device/device.cpp:75 | an entry that fails to parse raises its error and ends the loop as `ChannelsRun` says; otherwise its channel is constructed, and the rest of the loop is still the run `ChannelsRun` predicts, with the channels, tracks and writes following the configuration so far |
| Devices.Device.AddNextChannel | src/device/device.cpp:75 | a parsed entry is constructed as the next channel; a failure ends the loop with the outcome `ChannelsRun` predicts, and a pass leaves the rest of that run for the remaining entries, the count of channels grown by one and the tracks and writes following the channels |
| Devices.ChannelsRunNext | src/device/device.cpp:73-76 | one entry of the channel loop: a failed construction ends the loop with its outcome, a passing one leaves the loop to the next entry with its tracks counted |
| Devices.EntriesRunNext | src/device/device.cpp:73-76 | the same step for a loop over entries with any constructor |
| Devices.Device.ConfigureAcquisition | src/device/device.cpp:87-131 | the outcome and read position are `AcquisitionRun`: it passes exactly when the six acquisition commands are answered cleanly and the gap length, read with `stoi`, and the rate are read; on a pass the commands, the two queries, the action and the mode switch are written and the device is in binary mode |
| Devices.Device.PrepareAction | src/device/device.cpp:107-131 | the outcome and read position are `PrepareRun`: it passes exactly when the gap length reply is a `stoi` number and the rate reply is read; on a pass the gap length is that number, and the two queries, the action and the mode switch are written |
| Devices.Device.ReadGapLength | src/device/device.cpp:107-108 | "GLPTLEN?" is written; the outcome is `GapRun`: it passes exactly when the reply is read and `stoi` takes it, and then the gap length is that value, a 32-bit integer |
| Devices.Device.SendAction | src/device/device.cpp:110-131 | the outcome and read position are `ReadRun`: it passes exactly when the rate reply is read; on a pass the rate query, the action for the tracks in place and the mode switch are written, and the connection is in binary mode |
| Devices.Device.Setup | src/device/device.cpp:31-131 | the outcome and read position are `SetupRun` (the prologue, then `Configure`); on a pass the device is in binary mode with one channel per configured entry, as many as the instrument reports, their tracks in order, and the whole constructor conversation written: prologue, `GROUP?`, channel logs, acquisition commands, action, mode switch |
| Devices.Device.Configure | src/device/device.cpp:53-131 | the outcome and read position are `ConfigureRun`; on a pass the device is in binary mode with one channel per configured entry, as many as the instrument reports, their tracks in order, and `GROUP?`, the channel logs and the acquisition written |
| Devices.ConfigureRunSteps | src/device/device.cpp:53-131 | the channels' run followed by the acquisition's is the run of `Configure`, the first failure ending it |
| Devices.SetupRunSteps | src/device/device.cpp:31-131 | the prologue's run followed by `Configure`'s is the constructor's run after the connection, the first failure ending it |
| Devices.AcquisitionRunSteps | src/device/device.cpp:89-111 | the six checked acquisition commands followed by the gap length and rate reads are the acquisition's run, the first failure ending it |
| Devices.ConstructorLogEnds | src/device/device.cpp:119-131 | the constructor's writes end with the action and then the switch to binary mode |
| Devices.Device.SetupChannels | src/device/device.cpp:53-85 | the outcome and read position are `SetupChannelsRun`: it passes exactly when the `GROUP?` reply is read and counted, every entry is constructed, and their number is the instrument's count; on a pass `GROUP?` is written and the channels are set up with their tracks and logs in order |
| Devices.Connect | src/device/device.cpp:21-132 | a connection other than "socket" raises the fixed message; otherwise the device is built exactly when the reset, the `*idn?` read and `SetupRun` pass, and a failure raises the failing step's message; a built device is new, open, in binary mode and not recording, with every configured channel, their tracks in order, and the reset, `*idn?` and whole constructor conversation written |
| Devices.Start | src/device/device.cpp:28-132 | after `*idn?`, the device is built exactly when `SetupRun` passes; otherwise the connection is closed and the failing step's message raised; a built device holds the connection in binary mode, with every configured channel and the constructor conversation written |
| Devices.ConnectOutcomeSteps | src/device/device.cpp:21-132 | once the socket is reset, the constructor's outcome is the `*idn?` read error or else the outcome of `SetupRun` |
| Metrics.SendStep | include/lmgd/source/metric.hpp:19-39 | a value is forwarded exactly on a wide track or when the counter is at 0, and the counter stays below `max_repeats` |
| Metrics.Run | include/lmgd/source/metric.hpp:19-39 | the forwarded values are drawn from those sent, and there are no more of them |
| Metrics.WideForwardsEverything | include/lmgd/source/metric.hpp:21-25 | a wide track forwards every value, and its counter never changes |
| Metrics.ChangeForwardsNext | include/lmgd/source/metric.hpp:34-37 | a changed value resets the counter, so the next value is forwarded |
| Metrics.SilentRun | include/lmgd/source/metric.hpp:27-38 | repeats of the last value stay silent until the counter reaches `max_repeats` |
| Metrics.RepeatsThenRestart | include/lmgd/source/metric.hpp:27-38 | after a forwarded value, `max_repeats - 1` equal values are held back and the counter restarts at 0 |
| Metrics.ConstantForwardsOncePerWindow | include/lmgd/source/metric.hpp:27-38 | a constant run of n values forwards ceil(n / `max_repeats`) of them |
| Metrics.RunSplit | include/lmgd/source/metric.hpp:19-39 | sending two runs one after the other is sending their concatenation |
| Metrics.ForwardsWithin | include/lmgd/source/metric.hpp:27-38 | once the counter runs out, some value is forwarded |
| Metrics.ForwardsEveryWindow | include/lmgd/source/metric.hpp:27-38 | every `max_repeats` consecutive values forward at least one |
| Metrics.Metric.constructor | include/lmgd/source/metric.hpp:13-16 | a new metric has a zero counter and has sent nothing |
| Metrics.Metric.Send | include/lmgd/source/metric.hpp:19-39 | `send` changes the counter as `SendStep` says and hands the sample to the sink exactly when it forwards |

## Left out

- Socket classes (`network_socket.cpp`, `serial_socket.cpp`, `socket.cpp`) are not part of this model. A socket is the byte stream it delivers plus the log of lines written to it; buffering, read-ahead and `asio` are left out.
- The NUL byte that `operator<<` writes after every string is left out of the command log.
- The "break\n" written to the reset socket, and the line read back, are the `resetReply` parameter; that socket's own traffic is not logged.
- Floating point: the channel ranges are the text `std::to_string` makes of them; the `GLPSR?` reply is read but not converted with `stof`; float list items are their four raw bytes.
- The local clock reading sent with `SYSDATE` is the parameter `now`; the instrument's clock replies are read and dropped, as the source only logs them.
- Logging is not part of this model.
- `module.cpp` is not part of this model. It is the Score-P plugin that drives the device from a background thread: a `read_binary` loop, the end-of-stream check and timestamp interpolation in floating point.
- `source.cpp`, `async_line_reader.hpp`, `main.cpp` and the interactive shell are not part of this model: they are the event loop, signal handling, the downstream sink and demo programs.
- Devices.Configured: C++ leaves the evaluation order of the channel constructor's arguments unspecified; the model parses the metrics before the coupling, so when both are wrong it reports the metrics error.
- Devices.Device.FindChannel: `assert(0 < id_ && id_ < 8)` is modelled as a failed step instead of an abort; the hang the source warns about for a bad id is not modelled.
- Devices.Connect: the connection is always a socket connection. `src/device/device.cpp:28-29` constructs `network::Connection` from the address alone, while `include/lmgd/network/connection.hpp:30` also takes a `Type`; the model reads the missing argument as `Type::socket`, the only kind the device accepts.
- Devices.Connect: when the setup raises, only the connection's destructor runs (the device's does not), which the model reflects by closing the connection; recording never started at that point.
- Metrics.Metric.constructor: `max_repeats` is an explicit parameter that the model stores; the source never stores its argument, so `max_repeats_` is read uninitialised there.
- Metrics.SendStep: values are compared with `==` of an arbitrary type; float NaN (never equal to itself) is not modelled.
- Session.Connection.ReadBinaryAsync and Devices.Device.FetchData: the completion callback is a `CallbackResult` parameter of each completion step; the sink it feeds is left out.
- Session.Connection.ReadBinary: the `reserved_size` argument only reserves capacity and is left out.
- ListParser.ParseIntList and ListParser.ParseFloatList: `parse_list` copies as many items as the 8-byte count says without looking at the buffer's length, so a count larger than the buffer holds reads past its end; the model returns `None` for such a buffer (see `ListParser.NegativeCountOverruns`).
- Data.BinaryData.Append: the assertion that nothing was read yet (`position_ == 0`) is a precondition, not a modelled failure.
- Data.BinaryData.Append: the model grows the buffer by `size` bytes for every `size`; when `size` is at least 2^64 minus the bytes already held, the source's `resize(old_size + size)` wraps in `size_t` and shrinks the buffer instead (`Frame.ResizedLength`). `Session.Connection.ReadBlock` appends only after the stream has shown it holds the whole payload, so a wrapping size ends in a short read first; `AsyncReader` appends a non-negative `int64_t`, which wraps only over a buffer that already holds 2^63 bytes.
- Data.BinaryData.Read: the assertions `size > 0` and `position_ + size <= size()` are a precondition (`CanTake`); the decoders (`IntIn`, `StringIn`, `IntListIn`, `FloatListIn`, `StringListIn`) return `None` where they fail, and the methods `ReadInt` to `ReadStringList` require their decoder to succeed. How the assertions behave as written, in `size_t`, is `Data.WrappedRead`.
- Session.Connection.ReadAscii: the assertion `mode_ == Mode::ascii` is a precondition.
- Session.Connection.ReadBinary: the assertion `mode_ == Mode::binary` is a precondition.
- Session.Connection.ReadBinaryRaw: the mode assertion is a precondition, as for `read_binary`.
- Session.Connection.ReadBinaryAsync: the mode assertion is a precondition, as for `read_binary`.
- Session.Connection.CheckCommand: the ASCII-mode assertion of its reply read is a precondition.
- Data.IntListIn: a count of 2^61 or more makes `length * sizeof(int64_t)` wrap in `size_t`; the model refuses such a list (`None`), while the source passes the bounds check with the wrapped size (see `Data.ListLengthWraps` and "## Findings").
- Data.FloatListIn: the same for a count of 2^62 or more and `length * sizeof(float)`.
- Data.StringListIn: a count from about 2^58 up to 2^63 makes `list.reserve` throw `length_error` in the source; the model gives `None` (too few bytes for that many strings) instead.
- Devices.Device.SetupChannels: `channels_.reserve(std::max(...))` throws `length_error` for an absurd channel count (a `GROUP?` reply of "-1", say); the model goes on to set up the channels and then fails on the count check.
- Frame.SyncFrame: a size field whose value is too large to allocate makes the source throw `bad_alloc` or `length_error`; one whose value wraps `old_size + size` in `size_t` (a negative field, which `stoull` negates modulo 2^64, src/network/connection.cpp:148 and :195) shrinks the buffer instead (include/lmgd/network/data.hpp:62, src/network/connection.cpp:197), and the socket read then writes past its end. In both cases the model reports a short read, as the stream never holds that many bytes (see `Frame.NegativeSizeWritesPast` and "## Findings").
- AsyncReader.OnSize: a size too large to allocate throws in the source; the model reads on and fails with an error code at the end of the stream.
- Devices.Device.constructor: the device header does not declare `recording_`; the model starts it false, as `start_recording` and the destructor need.

## Notes on the source

- The repeat counter period is `max_repeats`. In `include/lmgd/source/metric.hpp:27-37` the counter is incremented as it is tested against 0 and compared with `max_repeats_` after the increment, so a constant value is forwarded on every `max_repeats`-th send.
- A changed value is not forwarded when it arrives: `include/lmgd/source/metric.hpp:34-37` only resets the counter, so the value after it is forwarded (`Metrics.ChangeForwardsNext`).
- The bandwidth part of a metric string is read with `getline` up to the first line feed (`src/device/channel.cpp:69-70`), so text after a line feed is ignored.
- `add_track` checks `get_glctrac_command()` of the new track (`src/device/device.cpp:164`). That member is declared at `include/lmgd/device/track.hpp:18` and defined nowhere; the model reads it as the gapless action command `get_action_command(MeasurementMode::gapless)` of `src/device/track.cpp:13-19`. The device header still declares `tracks_` as strings (`include/lmgd/device/device.hpp:47`); the model follows the `.cpp` files.
- The two decoders read the size field differently. `read_binary` uses `std::stoull` (`src/network/connection.cpp:139-148`), which takes a leading minus sign modulo 2^64; the asynchronous reader uses `std::stoll` (`include/lmgd/network/async_binary_line_reader.hpp:112`). On a size field such as "-18446744073709551615" the first reads one byte of payload and the second fails (`AsyncReader.SignedSizeDiverges`). On every size field both accept, they agree (`AsyncReader.SyncMatchesAsync`).

## Findings

| source | as written | input that shows it | evidently intended | confidence | as-written member | corrected member |
|---|---|---|---|---|---|---|
| include/lmgd/network/data.hpp:125-133 | `read(size)` checks `position_ + size <= buffer_->size()` in `size_t`, so a negative length from `read_int` wraps and passes | a list whose length prefix is -1 in an 8-byte buffer: `read(-8)` passes the check and moves the cursor from 8 back to 0 | a read is allowed only for a positive size that fits in the unread bytes | not executed | Data.NegativeLengthRewinds | Data.BinaryData.Read |
| include/lmgd/network/data.hpp:81-85 | `read_string` builds the string from a `char*`, so it runs to the first NUL byte instead of taking `length` bytes | "ab" with length 2 followed by the byte 'c': the length says "ab", the C-string is at least "abc" | the string is exactly the `length` bytes after the prefix | not executed | Data.CStringOverrunWitness | Data.StringInEncoded |
| src/network/connection.cpp:195-201 | `read_binary_raw` resizes to `old_size + size` in `size_t`, and `stoull` accepts a negative size field, negating it modulo 2^64; `read_binary` does the same through `append` (include/lmgd/network/data.hpp:62) | the stream `#11x#2-1` and a line feed: after the block "x", the size field `-1` reads as 2^64 - 1, the buffer is resized from 1 to 0 bytes, and the socket read writes at offset 1 | a size field the stream cannot supply fails the read, and every block grows the buffer by exactly its size | not executed | Frame.NegativeSizeWritesPast | Frame.ChunkGrowsBySize |
| include/lmgd/network/data.hpp:87-99 | `read_int_list` and `read_float_list` ask `read` for `length * sizeof(T)` bytes, a `size_t` product that wraps | an int list whose count is 2^61 + 1 followed by one 8-byte item: the product wraps to 8, the read passes, and the view claims 2^61 + 1 items over 8 bytes | a list is read only when all the items its count announces are in the buffer | not executed | Data.ListLengthWraps | Data.IntListIn |
