/** One checkpoint file: an 8-byte little-endian header length, a JSON header and
    the tensor payload.  The header parser is not part of this model: a file
    comes with its verdict. */
module Shards {
  import opened Common
  import opened Errors
  import opened Arithmetic

  const HEADER_LEN_PREFIX := 8

  /** Offsets are relative to the start of the payload. */
  datatype TensorInfo = TensorInfo(dtype: string, shape: seq<nat>, relStart: nat, relEnd: nat)

  type Metadata = map<string, TensorInfo>

  datatype Header = Header(len: nat, metadata: Metadata)

  datatype File = File(path: string, bytes: seq<byte>, header: Option<Header>)

  datatype Shard = Shard(path: string, mmap: seq<byte>, dataStart: nat)

  /** Little-endian value of a byte string. */
  function LittleEndian(bytes: seq<byte>): nat {
    if bytes == [] then 0 else bytes[0] as nat + 256 * LittleEndian(bytes[1..])
  }

  /** `256^k`. */
  function Power(k: nat): (p: nat)
    ensures p > 0
  {
    if k == 0 then 1 else 256 * Power(k - 1)
  }

  /** `bytes` are the base-256 digits of `n`, the least significant first. */
  ghost predicate Encodes(bytes: seq<byte>, n: nat) {
    && n < Power(|bytes|)
    && forall i: nat :: i < |bytes| ==> bytes[i] as nat == (n / Power(i)) % 256
  }

  lemma DigitShift(n: nat, i: nat)
    ensures n / Power(i + 1) == (n / 256) / Power(i)
  {
    DivDiv(n, 256, Power(i));
  }

  lemma EncodesTail(bytes: seq<byte>, n: nat)
    requires bytes != []
    ensures Encodes(bytes, n) <==> bytes[0] as nat == n % 256 && Encodes(bytes[1..], n / 256)
  {
    var rest := bytes[1..];
    assert n < 256 * Power(|rest|) <==> n / 256 < Power(|rest|);
    assert n / Power(0) == n;
    forall i: nat | i < |rest| ensures n / Power(i + 1) == (n / 256) / Power(i) && rest[i] == bytes[i + 1] {
      DigitShift(n, i);
    }
    if Encodes(bytes, n) {
      forall i: nat | i < |rest| ensures rest[i] as nat == ((n / 256) / Power(i)) % 256 {
        assert bytes[i + 1] as nat == (n / Power(i + 1)) % 256;
      }
    }
    if bytes[0] as nat == n % 256 && Encodes(rest, n / 256) {
      forall i: nat | i < |bytes| ensures bytes[i] as nat == (n / Power(i)) % 256 {
        if i > 0 {
          assert rest[i - 1] as nat == ((n / 256) / Power(i - 1)) % 256;
        }
      }
    }
  }

  /** Reading the length prefix finds the number whose digits it holds. */
  lemma {:induction false} LittleEndianReads(bytes: seq<byte>, n: nat)
    ensures LittleEndian(bytes) == n <==> Encodes(bytes, n)
  {
    if bytes == [] {
      assert Power(0) == 1;
    } else {
      EncodesTail(bytes, n);
      LittleEndianReads(bytes[1..], n / 256);
      if LittleEndian(bytes) == n {
        assert n % 256 == bytes[0] as nat && n / 256 == LittleEndian(bytes[1..]);
      }
    }
  }

  function Open(file: File, maxHeaderBytes: nat): Result<(Shard, Metadata), LoaderError> {
    if |file.bytes| < HEADER_LEN_PREFIX then Err(HeaderTooSmall(file.path))
    else
      var declared := LittleEndian(file.bytes[..HEADER_LEN_PREFIX]);
      if declared > maxHeaderBytes then Err(HeaderTooLarge(file.path, declared, maxHeaderBytes))
      else if file.header.None? then Err(InvalidHeader(file.path))
      else
        match CheckedAdd(HEADER_LEN_PREFIX, file.header.value.len)
        case None => Err(OffsetOverflow(file.path, ""))
        case Some(dataStart) => Ok((Shard(file.path, file.bytes, dataStart), file.header.value.metadata))
  }

  function AbsoluteRange(shard: Shard, tensor: string, relStart: nat, relEnd: nat): Result<(nat, nat), LoaderError> {
    match CheckedAdd(shard.dataStart, relStart)
    case None => Err(OffsetOverflow(shard.path, tensor))
    case Some(start) =>
      match CheckedAdd(shard.dataStart, relEnd)
      case None => Err(OffsetOverflow(shard.path, tensor))
      case Some(end) => Ok((start, end))
  }

  function ByteRange(shard: Shard, tensor: string, start: nat, end: nat): Result<seq<byte>, LoaderError> {
    if start > end || end > |shard.mmap|
    then Err(OutOfBounds(shard.path, tensor, start, end, |shard.mmap|))
    else Ok(shard.mmap[start..end])
  }

  /** Whatever the header says: a range is refused exactly when one of its ends is
      beyond the largest 64-bit number, and read exactly when it lies in the file. */
  lemma RangesExactly(shard: Shard, tensor: string, relStart: nat, relEnd: nat, start: nat, end: nat)
    ensures AbsoluteRange(shard, tensor, relStart, relEnd) ==
      if shard.dataStart + relStart > 18446744073709551615 || shard.dataStart + relEnd > 18446744073709551615
      then Err(OffsetOverflow(shard.path, tensor))
      else Ok((shard.dataStart + relStart, shard.dataStart + relEnd))
    ensures ByteRange(shard, tensor, start, end) ==
      if start <= end <= |shard.mmap| then Ok(shard.mmap[start..end])
      else Err(OutOfBounds(shard.path, tensor, start, end, |shard.mmap|))
  {
  }

  /** What an accepted SafeTensors header guarantees. */
  ghost predicate HeaderContract(file: File) {
    && |file.bytes| < U64_LIMIT
    && (file.header.Some? ==>
          && HEADER_LEN_PREFIX + file.header.value.len <= |file.bytes|
          && Encodes(file.bytes[..HEADER_LEN_PREFIX], file.header.value.len)
          && forall name :: name in file.header.value.metadata ==>
               var info := file.header.value.metadata[name];
               info.relStart <= info.relEnd <= |file.bytes| - HEADER_LEN_PREFIX - file.header.value.len)
  }

  /** The payload bytes the header assigns to a tensor. */
  ghost function Payload(file: File, name: string): seq<byte>
    requires HeaderContract(file) && file.header.Some? && name in file.header.value.metadata
  {
    var payload := file.bytes[HEADER_LEN_PREFIX + file.header.value.len..];
    var info := file.header.value.metadata[name];
    payload[info.relStart..info.relEnd]
  }

  /** The length whose digits the first eight bytes hold decides whether a header is too large. */
  lemma PrefixDecides(file: File, maxHeaderBytes: nat, n: nat)
    requires |file.bytes| >= 8 && Encodes(file.bytes[..8], n)
    ensures Open(file, maxHeaderBytes) == Err(HeaderTooLarge(file.path, n, maxHeaderBytes)) <==> n > maxHeaderBytes
    ensures Open(file, maxHeaderBytes) == Err(InvalidHeader(file.path)) <==> n <= maxHeaderBytes && file.header.None?
  {
    LittleEndianReads(file.bytes[..8], n);
  }

  /** Under the header contract a file opens unless it is rejected for its size,
      its header or that header's length. */
  lemma OpensExactly(file: File, maxHeaderBytes: nat)
    requires HeaderContract(file)
    ensures Open(file, maxHeaderBytes) == Err(HeaderTooSmall(file.path)) <==> |file.bytes| < 8
    ensures Open(file, maxHeaderBytes).Ok? <==> file.header.Some? && file.header.value.len <= maxHeaderBytes
  {
    if file.header.Some? {
      LittleEndianReads(file.bytes[..8], file.header.value.len);
    }
  }

  lemma RangeIsPayload(file: File, shard: Shard, name: string)
    requires HeaderContract(file) && file.header.Some? && name in file.header.value.metadata
    requires shard == Shard(file.path, file.bytes, HEADER_LEN_PREFIX + file.header.value.len)
    ensures var info := file.header.value.metadata[name];
      var range := AbsoluteRange(shard, name, info.relStart, info.relEnd);
      && range.Ok? && range.value.0 <= range.value.1 <= |shard.mmap| < U64_LIMIT
      && ByteRange(shard, name, range.value.0, range.value.1) == Ok(Payload(file, name))
  {
    var info := file.header.value.metadata[name];
    assert shard.mmap[shard.dataStart..][info.relStart..info.relEnd]
        == shard.mmap[shard.dataStart + info.relStart..shard.dataStart + info.relEnd];
  }

  /** ... and then no tensor's range overflows or leaves the file, and its bytes are
      its payload bytes. */
  lemma RangesAreSafe(file: File, maxHeaderBytes: nat)
    requires HeaderContract(file)
    ensures Open(file, maxHeaderBytes).Ok? <==> file.header.Some? && file.header.value.len <= maxHeaderBytes
    ensures Open(file, maxHeaderBytes).Ok? ==>
      var (shard, metadata) := Open(file, maxHeaderBytes).value;
      && metadata == file.header.value.metadata
      && forall name :: name in metadata ==>
           var info := metadata[name];
           var range := AbsoluteRange(shard, name, info.relStart, info.relEnd);
           && range.Ok? && range.value.0 <= range.value.1 <= |shard.mmap| < U64_LIMIT
           && ByteRange(shard, name, range.value.0, range.value.1) == Ok(Payload(file, name))
  {
    OpensExactly(file, maxHeaderBytes);
    if Open(file, maxHeaderBytes).Ok? {
      var (shard, metadata) := Open(file, maxHeaderBytes).value;
      forall name | name in metadata
        ensures var info := metadata[name];
          var range := AbsoluteRange(shard, name, info.relStart, info.relEnd);
          && range.Ok? && range.value.0 <= range.value.1 <= |shard.mmap| < U64_LIMIT
          && ByteRange(shard, name, range.value.0, range.value.1) == Ok(Payload(file, name))
      {
        RangeIsPayload(file, shard, name);
      }
    }
  }
}
