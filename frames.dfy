/** The adapter's WebSocket frame decoder: the text/binary split made by the
    CDP listener, and the fixed-offset header reads that cut the chat blob
    out of a Trovo binary frame. */
module Frames {
  import opened Bytes

  /** What the CDP listener hands to the decoder for each received frame. */
  datatype PayloadType = Text | Binary

  /** WebSocket opcode of a text frame. */
  const TextOpcode: int := 1
  /** Trovo frame opcode that marks a frame carrying a chat message. */
  const ChatDataOpcode: nat := 3

  const TotalLengthOffset: nat := 0
  const OpcodeOffset: nat := 8
  const DataLengthOffset: nat := 18
  /** Bytes a buffer needs before the opcode, and before the dataLength field, can be read. */
  const OpcodeEnd: nat := OpcodeOffset + 2
  const HeaderEnd: nat := DataLengthOffset + 4

  /** Why a binary frame could not be decoded. */
  datatype Fault =
    | OpcodeOutOfRange             // readUInt16BE(8) on a buffer of fewer than 10 bytes
    | DataLengthOutOfRange         // readUInt32BE(18) on a buffer of fewer than 22 bytes
    | StartBeforeBuffer(start: int) // totalLength - dataLength is negative
    | StartPastEnd(start: int)      // totalLength - dataLength lies beyond the buffer

  datatype FrameResult =
    | TextIgnored
    | NonDataFrame
    | Blob(data: seq<Byte>)
    | Malformed(fault: Fault)

  /** The listener's classification: only WebSocket opcode 1 is text. */
  function Classify(wsOpcode: int): (t: PayloadType)
    ensures t == Text <==> wsOpcode == TextOpcode
  {
    if wsOpcode == TextOpcode then Text else Binary
  }

  /** buffer.readUInt32BE(0) */
  function TotalLength(buf: seq<Byte>): (n: nat)
    requires TotalLengthOffset + 4 <= |buf|
    ensures n < Two32
    ensures EncodeU32(n) == buf[TotalLengthOffset..TotalLengthOffset + 4]
  {
    EncodeBE32(buf, TotalLengthOffset);
    BE32(buf, TotalLengthOffset)
  }

  /** buffer.readUInt16BE(8) */
  function FrameOpcode(buf: seq<Byte>): (n: nat)
    requires OpcodeEnd <= |buf|
    ensures n < Two16
    ensures EncodeU16(n) == buf[OpcodeOffset..OpcodeEnd]
  {
    EncodeBE16(buf, OpcodeOffset);
    BE16(buf, OpcodeOffset)
  }

  /** buffer.readUInt32BE(18) */
  function DataLength(buf: seq<Byte>): (n: nat)
    requires HeaderEnd <= |buf|
    ensures n < Two32
    ensures EncodeU32(n) == buf[DataLengthOffset..HeaderEnd]
  {
    EncodeBE32(buf, DataLengthOffset);
    BE32(buf, DataLengthOffset)
  }

  /** Where the getter `data` starts its slice. */
  function DataStart(buf: seq<Byte>): (start: int)
    requires HeaderEnd <= |buf|
    ensures start <= TotalLength(buf)
    ensures -(Two32 as int) < start < Two32
  {
    TotalLength(buf) - DataLength(buf)
  }

  /** The decoder: text frames are dropped, binary frames whose opcode is not
      ChatDataOpcode are ignored, and a chat frame yields the buffer from
      totalLength - dataLength to its end. Reads that would fall outside the
      buffer are reported as Malformed. */
  function Handle(kind: PayloadType, buf: seq<Byte>): (r: FrameResult)
    ensures r.TextIgnored? <==> kind == Text
    ensures r.Blob? ==> |r.data| <= |buf| && r.data == buf[|buf| - |r.data|..]
  {
    if kind == Text then TextIgnored
    else if |buf| < OpcodeEnd then Malformed(OpcodeOutOfRange)
    else if FrameOpcode(buf) != ChatDataOpcode then NonDataFrame
    else if |buf| < HeaderEnd then Malformed(DataLengthOutOfRange)
    else
      var start := DataStart(buf);
      if start < 0 then Malformed(StartBeforeBuffer(start))
      else if start > |buf| then Malformed(StartPastEnd(start))
      else Blob(buf[start..])
  }

  /** A text frame never yields a blob, whatever its bytes. */
  lemma TextNeverDecoded(wsOpcode: int, buf: seq<Byte>)
    requires wsOpcode == TextOpcode
    ensures Handle(Classify(wsOpcode), buf) == TextIgnored
  {
  }

  /** A frame is ignored as non-data exactly when its opcode can be read and is not ChatDataOpcode. */
  lemma NonDataFrameIff(buf: seq<Byte>)
    ensures Handle(Binary, buf) == NonDataFrame
        <==> OpcodeEnd <= |buf| && FrameOpcode(buf) != ChatDataOpcode
  {
  }

  /** Ignoring a non-data frame reads bytes 8 and 9 only: any buffer that
      shares them is ignored too. */
  lemma NonDataFrameReadsOnlyOpcode(buf: seq<Byte>, other: seq<Byte>)
    requires Handle(Binary, buf) == NonDataFrame
    requires OpcodeEnd <= |other| && other[OpcodeOffset] == buf[OpcodeOffset]
    requires other[OpcodeOffset + 1] == buf[OpcodeOffset + 1]
    ensures Handle(Binary, other) == NonDataFrame
  {
  }

  /** A binary frame yields a blob exactly when it is a chat frame whose
      data start lies within the buffer, and the blob then runs from that
      start to the end of the buffer. */
  lemma BlobIff(buf: seq<Byte>, blob: seq<Byte>)
    ensures Handle(Binary, buf) == Blob(blob)
        <==> HeaderEnd <= |buf| && FrameOpcode(buf) == ChatDataOpcode
             && 0 <= DataStart(buf) <= |buf| && blob == buf[DataStart(buf)..]
  {
  }

  /** The failures: a buffer too short for the opcode, or a chat frame too
      short for dataLength or with its data start outside the buffer. */
  lemma MalformedIff(buf: seq<Byte>)
    ensures Handle(Binary, buf).Malformed?
        <==> |buf| < OpcodeEnd
             || (FrameOpcode(buf) == ChatDataOpcode
                 && (|buf| < HeaderEnd || DataStart(buf) < 0 || DataStart(buf) > |buf|))
  {
  }

  /** When the buffer is exactly totalLength bytes long and dataLength fits
      in it, the blob is the trailing dataLength bytes. */
  lemma BlobIsTrailingData(buf: seq<Byte>)
    requires HeaderEnd <= |buf| && FrameOpcode(buf) == ChatDataOpcode
    requires |buf| == TotalLength(buf) && DataLength(buf) <= TotalLength(buf)
    ensures Handle(Binary, buf) == Blob(buf[|buf| - DataLength(buf)..])
    ensures |Handle(Binary, buf).data| == DataLength(buf)
  {
  }

  /** Conversely, a blob of exactly dataLength bytes means the buffer is
      exactly totalLength long. */
  lemma TrailingDataOnlyWhenExact(buf: seq<Byte>)
    requires Handle(Binary, buf).Blob? && HeaderEnd <= |buf|
    requires |Handle(Binary, buf).data| == DataLength(buf)
    ensures |buf| == TotalLength(buf)
  {
  }

  /** Node's buf.slice(start) with no end: a negative start counts back from
      the end and is clamped to 0; a start past the end gives an empty slice. */
  function NodeSlice(buf: seq<Byte>, start: int): (r: seq<Byte>)
    ensures |r| <= |buf| && r == buf[|buf| - |r|..]
    ensures 0 <= start <= |buf| ==> |r| == |buf| - start
    ensures start > |buf| ==> r == []
    ensures -|buf| <= start < 0 ==> |r| == -start
    ensures start < -|buf| ==> r == buf
  {
    if start < 0 then buf[if |buf| + start < 0 then 0 else |buf| + start..]
    else if start > |buf| then []
    else buf[start..]
  }

  /** Where the decoder finds a blob it is the slice the source takes;
      where it reports the data start outside the buffer, the source would
      instead pass on a clamped slice. */
  lemma HandleAgreesWithNodeSlice(buf: seq<Byte>)
    requires HeaderEnd <= |buf| && FrameOpcode(buf) == ChatDataOpcode
    ensures Handle(Binary, buf).Blob? ==> Handle(Binary, buf).data == NodeSlice(buf, DataStart(buf))
    ensures Handle(Binary, buf).Malformed? ==>
              (Handle(Binary, buf).fault.StartBeforeBuffer? || Handle(Binary, buf).fault.StartPastEnd?)
    ensures Handle(Binary, buf).Malformed? && Handle(Binary, buf).fault.StartPastEnd? ==>
              NodeSlice(buf, DataStart(buf)) == []
  {
  }

  /** A Trovo binary frame as a sender lays it out: totalLength at 0, the
      opcode at 8, dataLength at 18, the other header bytes taken from
      `header`, and the blob right after the header. */
  function MakeFrame(opcode: nat, header: seq<Byte>, blob: seq<Byte>): (f: seq<Byte>)
    requires opcode < Two16 && HeaderEnd <= |header| && |header| + |blob| < Two32
    ensures |f| == |header| + |blob|
  {
    EncodeU32(|header| + |blob|) + header[4..OpcodeOffset] + EncodeU16(opcode)
      + header[OpcodeEnd..DataLengthOffset] + EncodeU32(|blob|) + header[HeaderEnd..] + blob
  }

  /** The header fields of a made frame read back as written. */
  lemma MakeFrameFields(opcode: nat, header: seq<Byte>, blob: seq<Byte>)
    requires opcode < Two16 && HeaderEnd <= |header| && |header| + |blob| < Two32
    ensures var f := MakeFrame(opcode, header, blob);
      TotalLength(f) == |f| && FrameOpcode(f) == opcode && DataLength(f) == |blob|
      && f[|header|..] == blob
  {
  }

  /** Decoding a made chat frame gives back its blob. */
  lemma DecodeMadeChatFrame(header: seq<Byte>, blob: seq<Byte>)
    requires HeaderEnd <= |header| && |header| + |blob| < Two32
    ensures Handle(Binary, MakeFrame(ChatDataOpcode, header, blob)) == Blob(blob)
  {
    MakeFrameFields(ChatDataOpcode, header, blob);
  }

  /** A made frame with any other opcode is ignored. */
  lemma DecodeMadeOtherFrame(opcode: nat, header: seq<Byte>, blob: seq<Byte>)
    requires opcode < Two16 && opcode != ChatDataOpcode
    requires HeaderEnd <= |header| && |header| + |blob| < Two32
    ensures Handle(Binary, MakeFrame(opcode, header, blob)) == NonDataFrame
  {
    MakeFrameFields(opcode, header, blob);
  }

  /** A frame of 40 bytes with opcode 3 and dataLength 10 yields its bytes 30 to 40. */
  lemma FortyByteFrame(buf: seq<Byte>)
    requires |buf| == 40 && TotalLength(buf) == 40
    requires FrameOpcode(buf) == ChatDataOpcode && DataLength(buf) == 10
    ensures Handle(Binary, buf) == Blob(buf[30..40])
  {
    BlobIsTrailingData(buf);
  }
}
