/** The message framer: the decision whether a receive buffer holds one
    complete Channel Access command. The header layouts are those of the
    EPICS Channel Access protocol (all fields big-endian):

      base header (16 bytes)      command u16, payload_size u16, data_type u16,
                                  data_count u16, parameter1 u32, parameter2 u32
      extended header (24 bytes)  command u16, 0xFFFF u16, data_type u16, 0 u16,
                                  parameter1 u32, parameter2 u32,
                                  payload_size u32, data_count u32
 */
module Framing {

  const BaseHeaderSize: nat := 16
  const ExtendedHeaderSize: nat := 24

  /** The marker values in the base header that announce an extended header. */
  const ExtendedMarker: nat := 0xFFFF

  datatype Header = Header(
    command: nat,
    payloadSize: nat,
    dataType: nat,
    dataCount: nat,
    parameter1: nat,
    parameter2: nat)

  /** The outcome of one framing attempt. `totalSize` is header plus payload. */
  datatype FrameResult =
    | NeedsData
    | Complete(headerSize: nat, totalSize: nat, header: Header)

  function Pow256(n: nat): (p: nat)
    ensures p >= 1
  {
    if n == 0 then 1 else 256 * Pow256(n - 1)
  }

  /** The unsigned integer that `s` holds in network (big-endian) byte order. */
  function Uint(s: seq<bv8>): (n: nat)
    ensures n < Pow256(|s|)
    decreases |s|
  {
    if s == [] then 0
    else
      var hi := Uint(s[..|s| - 1]);
      var lo := s[|s| - 1] as nat;
      assert hi * 256 + lo < Pow256(|s|) by {
        assert hi + 1 <= Pow256(|s| - 1);
        assert (hi + 1) * 256 <= Pow256(|s| - 1) * 256;
      }
      hi * 256 + lo
  }

  lemma Uint2(a: bv8, b: bv8)
    ensures Uint([a, b]) == a as nat * 256 + b as nat
  {
  }

  /** The fields of the base header, read from the first 16 bytes. */
  function ParseBase(buf: seq<bv8>): (h: Header)
    requires |buf| >= BaseHeaderSize
    ensures h.payloadSize <= ExtendedMarker && h.dataCount <= ExtendedMarker
  {
    Header(
      command := Uint(buf[0..2]),
      payloadSize := Uint(buf[2..4]),
      dataType := Uint(buf[4..6]),
      dataCount := Uint(buf[6..8]),
      parameter1 := Uint(buf[8..12]),
      parameter2 := Uint(buf[12..16]))
  }

  /** The fields of the extended header, read from the first 24 bytes: the
      32-bit payload size and element count supersede the base fields. */
  function ParseExtended(buf: seq<bv8>): (h: Header)
    requires |buf| >= ExtendedHeaderSize
    ensures h.command == ParseBase(buf).command && h.dataType == ParseBase(buf).dataType
    ensures h.parameter1 == ParseBase(buf).parameter1 && h.parameter2 == ParseBase(buf).parameter2
  {
    Header(
      command := Uint(buf[0..2]),
      payloadSize := Uint(buf[16..20]),
      dataType := Uint(buf[4..6]),
      dataCount := Uint(buf[20..24]),
      parameter1 := Uint(buf[8..12]),
      parameter2 := Uint(buf[12..16]))
  }

  /** True if the header announces an extended header: only the marker pair
      (payload size 0xFFFF, data count 0) does; every other header keeps the
      base layout. */
  predicate ExtendHeader(h: Header)
  {
    h.payloadSize == ExtendedMarker && h.dataCount == 0
  }

  /** The extension test reads exactly bytes 2, 3, 6 and 7 of the base header. */
  lemma ExtendHeaderIff(buf: seq<bv8>)
    requires |buf| >= BaseHeaderSize
    ensures ExtendHeader(ParseBase(buf)) <==>
      buf[2] == 0xFF && buf[3] == 0xFF && buf[6] == 0 && buf[7] == 0
  {
    assert buf[2..4] == [buf[2], buf[3]];
    assert buf[6..8] == [buf[6], buf[7]];
    Uint2(buf[2], buf[3]);
    Uint2(buf[6], buf[7]);
  }

  /** The framing decision on a buffer, without consuming anything. */
  function Frame(buf: seq<bv8>): (f: FrameResult)
    // fewer bytes than a base header: always more data needed
    ensures |buf| < BaseHeaderSize ==> f == NeedsData
    // the extended header is chosen iff the base header asks for it
    ensures f.Complete? ==>
      |buf| >= BaseHeaderSize &&
      (f.headerSize == ExtendedHeaderSize <==> ExtendHeader(ParseBase(buf))) &&
      (f.headerSize == BaseHeaderSize <==> !ExtendHeader(ParseBase(buf)))
    ensures f.Complete? && !ExtendHeader(ParseBase(buf)) ==> f.header == ParseBase(buf)
    ensures f.Complete? && ExtendHeader(ParseBase(buf)) ==>
      |buf| >= ExtendedHeaderSize && f.header == ParseExtended(buf)
    // a complete frame lies wholly inside the buffer
    ensures f.Complete? ==>
      f.totalSize == f.headerSize + f.header.payloadSize && f.totalSize <= |buf|
    // an extended header that is not yet whole needs more data
    ensures BaseHeaderSize <= |buf| < ExtendedHeaderSize && ExtendHeader(ParseBase(buf)) ==>
      f == NeedsData
    // conversely, once the whole message is there, the frame is complete
    ensures (|buf| >= BaseHeaderSize && !ExtendHeader(ParseBase(buf)) &&
             |buf| >= BaseHeaderSize + ParseBase(buf).payloadSize) ==> f.Complete?
    ensures (|buf| >= ExtendedHeaderSize && ExtendHeader(ParseBase(buf)) &&
             |buf| >= ExtendedHeaderSize + ParseExtended(buf).payloadSize) ==> f.Complete?
  {
    if |buf| < BaseHeaderSize then NeedsData
    else
      var base := ParseBase(buf);
      if ExtendHeader(base) && |buf| < ExtendedHeaderSize then NeedsData
      else
        var headerSize := if ExtendHeader(base) then ExtendedHeaderSize else BaseHeaderSize;
        var header := if ExtendHeader(base) then ParseExtended(buf) else base;
        if header.payloadSize > 0 && |buf| < headerSize + header.payloadSize then NeedsData
        else Complete(headerSize, headerSize + header.payloadSize, header)
  }

  /** A base header whose payload-size bytes are zero frames a complete,
      header-only command as soon as its 16 bytes are buffered. */
  lemma ZeroPayloadComplete(buf: seq<bv8>)
    requires |buf| >= BaseHeaderSize && buf[2] == 0 && buf[3] == 0
    ensures Frame(buf) == Complete(BaseHeaderSize, BaseHeaderSize, ParseBase(buf))
  {
    assert buf[2..4] == [buf[2], buf[3]];
    Uint2(buf[2], buf[3]);
  }

  /** The base-header fields depend on the first 16 bytes only. */
  lemma ParseBasePrefix(buf: seq<bv8>, more: seq<bv8>)
    requires |buf| >= BaseHeaderSize
    ensures ParseBase(buf + more) == ParseBase(buf)
  {
    assert (buf + more)[..BaseHeaderSize] == buf[..BaseHeaderSize];
    var b := buf + more;
    assert b[0..2] == buf[0..2] && b[2..4] == buf[2..4] && b[4..6] == buf[4..6];
    assert b[6..8] == buf[6..8] && b[8..12] == buf[8..12] && b[12..16] == buf[12..16];
  }

  /** The extended-header fields depend on the first 24 bytes only. */
  lemma ParseExtendedPrefix(buf: seq<bv8>, more: seq<bv8>)
    requires |buf| >= ExtendedHeaderSize
    ensures ParseExtended(buf + more) == ParseExtended(buf)
  {
    var b := buf + more;
    assert b[0..2] == buf[0..2] && b[4..6] == buf[4..6];
    assert b[8..12] == buf[8..12] && b[12..16] == buf[12..16];
    assert b[16..20] == buf[16..20] && b[20..24] == buf[20..24];
  }

  /** Once a buffer holds a complete command, appending bytes changes neither
      the header nor the sizes the framer decides on. */
  lemma FrameStable(buf: seq<bv8>, more: seq<bv8>)
    requires Frame(buf).Complete?
    ensures Frame(buf + more) == Frame(buf)
  {
    ParseBasePrefix(buf, more);
    if ExtendHeader(ParseBase(buf)) {
      ParseExtendedPrefix(buf, more);
    }
  }

  /** NEEDS_DATA on a longer buffer implies NEEDS_DATA on every prefix of it:
      the framer never un-decides a complete command. */
  lemma NeedsDataOnPrefix(buf: seq<bv8>, more: seq<bv8>)
    requires Frame(buf + more) == NeedsData
    ensures Frame(buf) == NeedsData
  {
    if Frame(buf).Complete? {
      FrameStable(buf, more);
    }
  }
}
