/** The 88-byte Hodlcoin header serializer of the `Bitcoin.Custom.Hodlcoin`
    job: a length guard, the standard Bitcoin serializer of the base job, and
    the clearing of the two birthday words that follow the 80-byte header. */
module CustomHeader {
  import opened Types

  /** The arguments `SerializeHeader` hands to the base serializer. */
  datatype HeaderFields = HeaderFields(nTime: uint32, nonce: uint32, nBits: uint32, version: Option<uint32>)

  /** What a buffer holds after a serializer returns or throws, and which
      of the two it did. */
  datatype Written = Written(buffer: seq<byte>, outcome: Outcome)

  /** The base job's header serializer, which is not part of this model: given
      the buffer it is handed and the header fields, what the buffer holds
      afterwards and whether the call completed or threw. It writes into the
      caller's buffer, so it cannot change the buffer's length; nothing else
      is assumed about what it writes, nor about when it throws. */
  type BaseSerializer = f: (seq<byte>, HeaderFields) -> Written | forall s, h :: |f(s, h).buffer| == |s|
    witness (s: seq<byte>, h: HeaderFields) => Written(s, Pass)

  /** Offset of the first birthday word, just past the Bitcoin header. */
  const BirthdayOffset: nat := BitcoinHeaderSize

  /** Length of the two birthday words together. */
  const BirthdayLength: nat := HodlcoinHeaderSize - BitcoinHeaderSize

  const SpanTooSmall := "Span too small for Hodlcoin header"

  /** `s` with the `count` bytes from `start` set to zero: what clearing that
      slice of the buffer leaves behind. */
  function Cleared(s: seq<byte>, start: nat, count: nat): (r: seq<byte>)
    requires start + count <= |s|
    ensures |r| == |s|
    ensures forall i :: 0 <= i < |s| ==> r[i] == if start <= i < start + count then 0 else s[i]
    decreases count
  {
    if count == 0 then s else Cleared(s[start := 0], start + 1, count - 1)
  }

  /** What a `SerializeHeader` call leaves in a buffer holding `buf`. A
      buffer shorter than a Hodlcoin header gets the argument error and is not
      written. Otherwise the base serializer runs; if it throws, its exception
      propagates and the birthday words are not cleared, and if it completes,
      its output is kept with the birthday words cleared. */
  function SerializedHeader(buf: seq<byte>, h: HeaderFields, base: BaseSerializer): (r: Written)
    ensures |r.buffer| == |buf|
    ensures r.outcome.Fail? <==> |buf| < HodlcoinHeaderSize || base(buf, h).outcome.Fail?
    ensures |buf| < HodlcoinHeaderSize ==> r == Written(buf, Fail(ArgumentException(SpanTooSmall)))
    ensures |buf| >= HodlcoinHeaderSize && base(buf, h).outcome.Fail? ==> r == base(buf, h)
    ensures r.outcome.Pass? ==> forall i :: BirthdayOffset <= i < HodlcoinHeaderSize ==> r.buffer[i] == 0
    ensures r.outcome.Pass? ==> r.buffer[..BirthdayOffset] == base(buf, h).buffer[..BirthdayOffset]
    ensures r.outcome.Pass? ==> r.buffer[HodlcoinHeaderSize..] == base(buf, h).buffer[HodlcoinHeaderSize..]
  {
    if |buf| < HodlcoinHeaderSize then
      Written(buf, Fail(ArgumentException(SpanTooSmall)))
    else
      var written := base(buf, h);
      if written.outcome.Fail? then
        written
      else
        var r := Cleared(written.buffer, BirthdayOffset, BirthdayLength);
        assert r[..BirthdayOffset] == written.buffer[..BirthdayOffset];
        assert r[HodlcoinHeaderSize..] == written.buffer[HodlcoinHeaderSize..];
        Written(r, Pass)
  }

  /** Once serialized, the header's two little-endian birthday words both
      read as zero. */
  lemma SerializedBirthdaysAreZero(buf: seq<byte>, h: HeaderFields, base: BaseSerializer)
    requires |buf| >= HodlcoinHeaderSize && base(buf, h).outcome.Pass?
    ensures SerializedHeader(buf, h, base).outcome.Pass?
    ensures DecodeLE32(SerializedHeader(buf, h, base).buffer[80..84]) == 0
    ensures DecodeLE32(SerializedHeader(buf, h, base).buffer[84..88]) == 0
  {
  }

  /** The base job's `SerializeHeader`: the buffer is overwritten with what
      the base serializer produces from it and the header fields. */
  method BaseSerializeHeader(span: array<byte>, h: HeaderFields, base: BaseSerializer) returns (r: Outcome)
    modifies span
    ensures Written(span[..], r) == base(old(span[..]), h)
  {
    var written := base(span[..], h).buffer;
    r := base(span[..], h).outcome;
    var i := 0;
    while i < span.Length
      invariant 0 <= i <= span.Length
      invariant forall k :: 0 <= k < i ==> span[k] == written[k]
    {
      span[i] := written[i];
      i := i + 1;
    }
    assert span[..] == written;
  }

  /** `span.Slice(start, count).Clear()`. */
  method ClearSlice(span: array<byte>, start: nat, count: nat)
    requires start + count <= span.Length
    modifies span
    ensures span[..] == Cleared(old(span[..]), start, count)
  {
    var i := start;
    while i < start + count
      invariant start <= i <= start + count
      invariant forall k :: 0 <= k < span.Length ==> span[k] == if start <= k < i then 0 else old(span[k])
    {
      span[i] := 0;
      i := i + 1;
    }
    assert span[..] == Cleared(old(span[..]), start, count);
  }

  /** The Hodlcoin override of `SerializeHeader`: rejects a buffer shorter
      than 88 bytes before anything is written, otherwise lets the base
      serializer write the Bitcoin header with the given fields and, unless
      that throws, clears the eight birthday bytes at offsets 80 to 87. */
  method SerializeHeader(span: array<byte>, nTime: uint32, nonce: uint32, nBits: uint32, version: Option<uint32>,
                         base: BaseSerializer)
    returns (r: Outcome)
    modifies span
    ensures Written(span[..], r) == SerializedHeader(old(span[..]), HeaderFields(nTime, nonce, nBits, version), base)
  {
    if span.Length < HodlcoinHeaderSize {
      return Fail(ArgumentException(SpanTooSmall));
    }
    r := BaseSerializeHeader(span, HeaderFields(nTime, nonce, nBits, version), base);
    if r.Fail? {
      return;
    }
    ClearSlice(span, BirthdayOffset, BirthdayLength);
    r := Pass;
  }
}
