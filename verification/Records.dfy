/** The index record and its byte layout (internal/store/index.go). */
module Records {
  import opened Bytes

  /** Go's `type Kind uint8`: only three values are named, any byte can be decoded. */
  newtype Kind = k: int | 0 <= k < 256

  const KIND_DIR: Kind := 0
  const KIND_FILE: Kind := 1
  const KIND_STRM: Kind := 2

  datatype Record = Record(fid: string, pickCode: string, kind: Kind, size: int)

  /** Go's zero `Record{}`: what `Get` returns beside `false`. */
  const NO_RECORD := Record("", "", KIND_DIR, 0)

  const RECORD_VERSION: int := 2
  const HEADER_LEN := 12
  const TWO_64: int := 0x1_0000_0000_0000_0000
  const TWO_63: int := 0x8000_0000_0000_0000

  /** A string whose chars are bytes. */
  predicate Octets(s: string) {
    forall i :: 0 <= i < |s| ==> s[i] as int < 256
  }

  /** The low `n` bytes of `v`, most significant first (`binary.BigEndian.PutUint..`). */
  function PutBigEndian(n: nat, v: nat): (s: string)
    ensures |s| == n && Octets(s)
  {
    if n == 0 then "" else PutBigEndian(n - 1, v / 256) + [(v % 256) as char]
  }

  /** `binary.BigEndian.Uint..`. */
  function BigEndian(s: string): nat {
    if s == "" then 0 else 256 * BigEndian(s[..|s| - 1]) + s[|s| - 1] as int
  }

  function Pow256(n: nat): nat {
    if n == 0 then 1 else 256 * Pow256(n - 1)
  }

  lemma {:induction false} BigEndianOfPut(n: nat, v: nat)
    requires v < Pow256(n)
    ensures BigEndian(PutBigEndian(n, v)) == v
  {
    if n > 0 {
      BigEndianOfPut(n - 1, v / 256);
      assert PutBigEndian(n, v)[..n - 1] == PutBigEndian(n - 1, v / 256);
    }
  }

  lemma {:induction false} PutOfBigEndian(s: string)
    requires Octets(s)
    ensures BigEndian(s) < Pow256(|s|)
    ensures PutBigEndian(|s|, BigEndian(s)) == s
  {
    if s != "" {
      var rest := s[..|s| - 1];
      PutOfBigEndian(rest);
      assert BigEndian(s) / 256 == BigEndian(rest) && BigEndian(s) % 256 == s[|s| - 1] as int;
      assert s == rest + [s[|s| - 1]];
    }
  }

  /** `uint64(int64)` and back: two's complement. */
  function ToUint64(size: int): nat
    requires -TWO_63 <= size < TWO_63
  {
    if size < 0 then size + TWO_64 else size
  }

  function ToInt64(u: nat): int {
    if u >= TWO_63 then u - TWO_64 else u
  }

  /** Layout: version, kind, size (8), fid length (2), fid, pickcode. The length field keeps
      only 16 bits. */
  function EncodeRecord(r: Record): string
    requires -TWO_63 <= r.size < TWO_63
  {
    [RECORD_VERSION as char, (r.kind as int) as char] + PutBigEndian(8, ToUint64(r.size))
      + PutBigEndian(2, |r.fid|) + r.fid + r.pickCode
  }

  function DecodeRecord(v: string): Option<Record> {
    if |v| < HEADER_LEN || v[0] as int != RECORD_VERSION then None
    else
      var fidLen := BigEndian(v[10..12]);
      if |v| < HEADER_LEN + fidLen then None
      else Some(Record(v[HEADER_LEN..HEADER_LEN + fidLen], v[HEADER_LEN + fidLen..],
                       (v[1] as int % 256) as Kind, ToInt64(BigEndian(v[2..10]))))
  }

  predicate Encodable(r: Record) {
    -TWO_63 <= r.size < TWO_63 && |r.fid| < 0x1_0000
  }

  lemma OneMoreByte(s: string, n: nat)
    requires n < |s|
    ensures BigEndian(s[..n + 1]) == 256 * BigEndian(s[..n]) + s[n] as int
  {
    assert s[..n + 1][..n] == s[..n];
  }

  /** The value of four bytes, the first one most significant. */
  function FourBytes(s: string, i: nat): int
    requires i + 4 <= |s|
  {
    s[i] as int * 0x100_0000 + s[i + 1] as int * 0x1_0000 + s[i + 2] as int * 0x100 + s[i + 3] as int
  }

  lemma FourMoreBytes(s: string, n: nat)
    requires n + 4 <= |s|
    ensures BigEndian(s[..n + 4]) == 0x1_0000_0000 * BigEndian(s[..n]) + FourBytes(s, n)
  {
    hide BigEndian;
    OneMoreByte(s, n);
    OneMoreByte(s, n + 1);
    OneMoreByte(s, n + 2);
    OneMoreByte(s, n + 3);
  }

  /** The stored bytes: version 2, the kind (0 a directory, 1 a file, 2 a link), the size in 8 bytes as
      two's complement, the length of the FID in 2, both with the most significant byte first, then
      FID and pickcode. */
  lemma WireFormat(r: Record)
    requires Encodable(r)
    ensures var v := EncodeRecord(r);
      && |v| == 12 + |r.fid| + |r.pickCode| && v[0] as int == 2
      && (v[1] as int == 0 <==> r.kind == KIND_DIR) && (v[1] as int == 1 <==> r.kind == KIND_FILE)
      && (v[1] as int == 2 <==> r.kind == KIND_STRM)
      && 0x1_0000_0000 * FourBytes(v, 2) + FourBytes(v, 6) == (if r.size < 0 then r.size + TWO_64 else r.size)
      && v[10] as int * 256 + v[11] as int == |r.fid|
      && v[12..12 + |r.fid|] == r.fid && v[12 + |r.fid|..] == r.pickCode
  {
    hide PutBigEndian, Pow256, BigEndian;
    var v, u := EncodeRecord(r), ToUint64(r.size);
    var size, len := PutBigEndian(8, u), PutBigEndian(2, |r.fid|);
    Powers();
    BigEndianOfPut(8, u);
    BigEndianOfPut(2, |r.fid|);
    assert size[..8] == size && len[..2] == len && size[..0] == "" && len[..0] == "";
    EmptyIsZero();
    FourMoreBytes(size, 0);
    FourMoreBytes(size, 4);
    OneMoreByte(len, 0);
    OneMoreByte(len, 1);
    assert forall i :: 2 <= i < 10 ==> v[i] == size[i - 2];
    assert v[10] == len[0] && v[11] == len[1];
  }

  lemma EmptyIsZero()
    ensures BigEndian("") == 0
  {}

  lemma DecodeAfterEncode(r: Record)
    requires Encodable(r)
    ensures DecodeRecord(EncodeRecord(r)) == Some(r)
  {
    var v := EncodeRecord(r);
    assert Pow256(8) == TWO_64 && Pow256(2) == 0x1_0000 by { Powers(); }
    BigEndianOfPut(8, ToUint64(r.size));
    BigEndianOfPut(2, |r.fid|);
    assert v[2..10] == PutBigEndian(8, ToUint64(r.size));
    assert v[10..12] == PutBigEndian(2, |r.fid|);
    assert v[12..12 + |r.fid|] == r.fid;
    assert v[12 + |r.fid|..] == r.pickCode;
  }

  /** Two-sided: every byte string that decodes is the encoding of what it decodes to. */
  lemma EncodeAfterDecode(v: string)
    requires Octets(v) && DecodeRecord(v).Some?
    ensures Encodable(DecodeRecord(v).value) && EncodeRecord(DecodeRecord(v).value) == v
  {
    hide Octets, BigEndian, PutBigEndian;
    var size, len, r := v[2..10], v[10..12], DecodeRecord(v).value;
    Powers();
    OctetsSlice(v, 1, 2);
    OctetsSlice(v, 2, 10);
    OctetsSlice(v, 10, 12);
    PutOfBigEndian(size);
    PutOfBigEndian(len);
    assert v[..2] == [RECORD_VERSION as char, (r.kind as int) as char];
  }

  lemma OctetsSlice(v: string, i: nat, j: nat)
    requires Octets(v) && i < j <= |v|
    ensures Octets(v[i..j]) && v[i] as int < 256
  {}

  /** The 16-bit length field is the exact limit: with a longer FID the decoder never
      returns the record that was written. */
  lemma LongFidIsLost(r: Record)
    requires -TWO_63 <= r.size < TWO_63
    ensures DecodeRecord(EncodeRecord(r)) == Some(r) <==> |r.fid| < 0x1_0000
  {
    if |r.fid| < 0x1_0000 {
      DecodeAfterEncode(r);
    } else {
      assert Pow256(2) == 0x1_0000 by { Powers(); }
      PutOfBigEndian(EncodeRecord(r)[10..12]);
    }
  }

  lemma Powers()
    ensures Pow256(8) == TWO_64 && Pow256(2) == 0x1_0000
  {
    assert Pow256(0) == 1;
    assert Pow256(1) == 256;
    assert Pow256(2) == 0x1_0000;
    assert Pow256(3) == 0x100_0000;
    assert Pow256(4) == 0x1_0000_0000;
    assert Pow256(5) == 0x100_0000_0000;
    assert Pow256(6) == 0x1_0000_0000_0000;
    assert Pow256(7) == 0x100_0000_0000_0000;
  }
}
