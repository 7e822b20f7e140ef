/**
 The PNG container check: a walk over length-prefixed chunks with a checksum each. The
 checksum is a parameter; chunk layout follows section 5.3 of the PNG specification.
 */
module PngContainer {
  import opened Common

  type Byte = x: int | 0 <= x < 256

  const U32 := 0x1_0000_0000

  /** CRC-32 of chunk type and body, as the masked unsigned value. */
  type Crc = seq<Byte> -> nat

  const IHDR: seq<Byte> := [73, 72, 68, 82]
  const IDAT: seq<Byte> := [73, 68, 65, 84]
  const IEND: seq<Byte> := [73, 69, 78, 68]

  function FromBigEndian(b: seq<Byte>): (n: nat)
    requires |b| == 4
    ensures n < U32
  {
    var w: int, x: int, y: int, z: int := b[0], b[1], b[2], b[3];
    w * 0x100_0000 + x * 0x1_0000 + y * 0x100 + z
  }

  function ToBigEndian(n: nat): (b: seq<Byte>)
    requires n < U32
    ensures |b| == 4
  {
    [n / 0x100_0000, n / 0x1_0000 % 0x100, n / 0x100 % 0x100, n % 0x100]
  }

  lemma BigEndianInverse(n: nat)
    requires n < U32
    ensures FromBigEndian(ToBigEndian(n)) == n
  {
    var a, b, c := n / 0x100, n / 0x1_0000, n / 0x100_0000;
    assert b == a / 0x100 && c == b / 0x100;
  }

  lemma ToOfFrom(b: seq<Byte>)
    requires |b| == 4
    ensures ToBigEndian(FromBigEndian(b)) == b
  {
    var n := FromBigEndian(b);
    var w: int, x: int, y: int := b[0], b[1], b[2];
    assert n / 0x100 == w * 0x1_0000 + x * 0x100 + y;
    assert n / 0x1_0000 == w * 0x100 + x;
    assert n / 0x100_0000 == w;
    assert b == [b[0], b[1], b[2], b[3]];
  }

  // ---- The walk ----

  datatype Chunk = Chunk(kind: seq<Byte>, body: seq<Byte>)

  /** The walk from a chunk boundary on. */
  function Walk(s: seq<Byte>, sawHeader: bool, sawData: bool, crc: Crc): bool
    decreases |s|
  {
    if |s| < 12 then false
    else
      var size := FromBigEndian(s[..4]);
      if 12 + size > |s| then false
      else
        var kind := s[4..8];
        var body := s[8..8 + size];
        var rest := s[12 + size..];
        if crc(kind + body) != FromBigEndian(s[8 + size..12 + size]) then false
        else if !sawHeader then kind == IHDR && size == 13 && Walk(rest, true, sawData, crc)
        else if kind == IDAT then Walk(rest, true, true, crc)
        else if kind == IEND then size == 0 && sawData && rest == []
        else Walk(rest, true, sawData, crc)
  }

  /** Accepts exactly eight bytes followed by the printed form of a well-formed chunk list. */
  method HasCompletePngContainer(data: seq<Byte>, crc: Crc) returns (ok: bool)
    ensures ok <==> |data| >= 8 && IsContainer(data[8..], crc)
  {
    ok := WalkData(data, crc);
    if |data| >= 8 {
      WalkAcceptsExactly(data[8..], crc);
    }
  }

  /** Every read is in bounds, and each round moves past at least twelve bytes. */
  method WalkData(data: seq<Byte>, crc: Crc) returns (ok: bool)
    ensures ok <==> |data| >= 8 && Walk(data[8..], false, false, crc)
  {
    var offset := 8;
    var sawHeader, sawData := false, false;
    while offset + 12 <= |data|
      invariant 8 <= offset && (|data| >= 8 ==> offset <= |data|)
      invariant |data| >= 8 ==> (Walk(data[8..], false, false, crc) <==> Walk(data[offset..], sawHeader, sawData, crc))
      decreases |data| - offset
    {
      WalkStep(data, offset, sawHeader, sawData, crc);
      var size := FromBigEndian(data[offset..offset + 4]);
      var end := offset + 12 + size;
      if end > |data| {
        return false;
      }
      var kind := data[offset + 4..offset + 8];
      var body := data[offset + 8..offset + 8 + size];
      var expected := FromBigEndian(data[offset + 8 + size..end]);
      if crc(kind + body) != expected {
        return false;
      }
      if !sawHeader {
        if kind != IHDR || size != 13 {
          return false;
        }
        sawHeader := true;
      } else if kind == IDAT {
        sawData := true;
      } else if kind == IEND {
        return size == 0 && sawData && end == |data|;
      }
      offset := end;
    }
    return false;
  }

  lemma Slices(data: seq<Byte>, offset: nat, size: nat)
    requires offset + 12 + size <= |data|
    ensures var s := data[offset..];
            && s[4..8] == data[offset + 4..offset + 8] && s[8..8 + size] == data[offset + 8..offset + 8 + size]
            && s[8 + size..12 + size] == data[offset + 8 + size..offset + 12 + size]
            && s[12 + size..] == data[offset + 12 + size..]
  {}

  /** One round of the walk, in terms of the whole data. */
  lemma WalkStep(data: seq<Byte>, offset: nat, sawHeader: bool, sawData: bool, crc: Crc)
    requires offset + 12 <= |data|
    ensures var size := FromBigEndian(data[offset..offset + 4]);
            var end := offset + 12 + size;
            Walk(data[offset..], sawHeader, sawData, crc) <==>
              && end <= |data|
              && var kind := data[offset + 4..offset + 8];
                 && crc(kind + data[offset + 8..offset + 8 + size]) == FromBigEndian(data[offset + 8 + size..end])
                 && (if !sawHeader then kind == IHDR && size == 13 && Walk(data[end..], true, sawData, crc)
                     else if kind == IDAT then Walk(data[end..], true, true, crc)
                     else if kind == IEND then size == 0 && sawData && end == |data|
                     else Walk(data[end..], true, sawData, crc))
  {
    assert data[offset..][..4] == data[offset..offset + 4];
    var size := FromBigEndian(data[offset..offset + 4]);
    if offset + 12 + size <= |data| {
      Slices(data, offset, size);
      assert data[offset + 12 + size..] == [] <==> offset + 12 + size == |data|;
    }
  }

  // ---- The format ----

  predicate Printable(c: Chunk) { |c.kind| == 4 && |c.body| < U32 }

  /** Length, type, body, checksum. */
  function Print(c: Chunk, crc: Crc): seq<Byte>
    requires Printable(c) && crc(c.kind + c.body) < U32
  {
    ToBigEndian(|c.body|) + c.kind + c.body + ToBigEndian(crc(c.kind + c.body))
  }

  predicate AllPrintable(chunks: seq<Chunk>, crc: Crc) {
    forall i :: 0 <= i < |chunks| ==> Printable(chunks[i]) && crc(chunks[i].kind + chunks[i].body) < U32
  }

  function PrintAll(chunks: seq<Chunk>, crc: Crc): seq<Byte>
    requires AllPrintable(chunks, crc)
  {
    if chunks == [] then [] else Print(chunks[0], crc) + PrintAll(chunks[1..], crc)
  }

  /** A 13-byte header first, some image data, and one empty end chunk, last. */
  predicate WellFormed(chunks: seq<Chunk>) {
    && chunks != []
    && chunks[0].kind == IHDR && |chunks[0].body| == 13
    && HasData(chunks)
    && EndsOnce(chunks)
  }

  predicate HasData(chunks: seq<Chunk>) { exists i :: 0 <= i < |chunks| && chunks[i].kind == IDAT }

  predicate EndsOnce(chunks: seq<Chunk>) {
    && chunks != []
    && chunks[|chunks| - 1] == Chunk(IEND, [])
    && forall i :: 0 <= i < |chunks| - 1 ==> chunks[i].kind != IEND
  }

  /** The same, for what may follow when header and data have or have not been seen. */
  predicate Completes(chunks: seq<Chunk>, sawHeader: bool, sawData: bool) {
    && EndsOnce(chunks)
    && (!sawHeader ==> chunks[0].kind == IHDR && |chunks[0].body| == 13)
    && (sawData || HasData(chunks))
  }

  /** What one round of the walk reads off a printed chunk. */
  lemma ReadPrinted(c: Chunk, crc: Crc, rest: seq<Byte>)
    requires Printable(c) && crc(c.kind + c.body) < U32
    ensures var s, size := Print(c, crc) + rest, |c.body|;
            && |s| >= 12 + size && FromBigEndian(s[..4]) == size
            && s[4..8] == c.kind && s[8..8 + size] == c.body && s[12 + size..] == rest
            && FromBigEndian(s[8 + size..12 + size]) == crc(c.kind + c.body)
  {
    var s, size := Print(c, crc) + rest, |c.body|;
    BigEndianInverse(size);
    BigEndianInverse(crc(c.kind + c.body));
    assert s[..4] == ToBigEndian(size);
    assert s[4..8] == c.kind;
    assert s[8..8 + size] == c.body;
    assert s[8 + size..12 + size] == ToBigEndian(crc(c.kind + c.body));
  }

  /** A chunk the walk reads is a printed one. */
  lemma PrintRead(s: seq<Byte>, size: nat, crc: Crc)
    requires |s| >= 12 + size && size == FromBigEndian(s[..4])
    requires crc(s[4..8] + s[8..8 + size]) == FromBigEndian(s[8 + size..12 + size])
    ensures var c := Chunk(s[4..8], s[8..8 + size]);
            Printable(c) && crc(c.kind + c.body) < U32 && s == Print(c, crc) + s[12 + size..]
  {
    ToOfFrom(s[..4]);
    ToOfFrom(s[8 + size..12 + size]);
    assert s == s[..4] + s[4..8] + s[8..8 + size] + s[8 + size..12 + size] + s[12 + size..];
  }

  lemma HasDataCons(c: Chunk, rest: seq<Chunk>)
    ensures HasData([c] + rest) <==> c.kind == IDAT || HasData(rest)
  {
    var all := [c] + rest;
    assert all[0] == c;
    if HasData(rest) {
      var i :| 0 <= i < |rest| && rest[i].kind == IDAT;
      assert all[i + 1].kind == IDAT;
    }
  }

  lemma EndsOnceCons(c: Chunk, rest: seq<Chunk>)
    ensures EndsOnce([c] + rest) <==> if rest == [] then c == Chunk(IEND, []) else c.kind != IEND && EndsOnce(rest)
  {
    var all := [c] + rest;
    assert all[0] == c;
    if rest != [] {
      assert all[|all| - 1] == rest[|rest| - 1];
      if EndsOnce(all) {
        forall i | 0 <= i < |rest| - 1 ensures rest[i].kind != IEND {
          assert all[i + 1].kind != IEND;
        }
      }
    }
  }

  /** The conditions on a list, given its first chunk. */
  lemma CompletesCons(c: Chunk, rest: seq<Chunk>, sawHeader: bool, sawData: bool)
    requires sawHeader || (c.kind == IHDR && |c.body| == 13)
    ensures c.kind == IEND ==>
              (Completes([c] + rest, sawHeader, sawData) <==> c.body == [] && rest == [] && sawData)
    ensures c.kind != IEND ==>
              (Completes([c] + rest, sawHeader, sawData) <==> Completes(rest, true, sawData || c.kind == IDAT))
  {
    HasDataCons(c, rest);
    EndsOnceCons(c, rest);
    assert ([c] + rest)[0] == c;
    assert rest == [] ==> !HasData(rest);
  }

  lemma {:induction false} AcceptsPrinted(chunks: seq<Chunk>, sawHeader: bool, sawData: bool, crc: Crc)
    requires AllPrintable(chunks, crc) && Completes(chunks, sawHeader, sawData)
    ensures Walk(PrintAll(chunks, crc), sawHeader, sawData, crc)
    decreases |chunks|
  {
    var c, rest := chunks[0], chunks[1..];
    assert chunks == [c] + rest;
    ReadPrinted(c, crc, PrintAll(rest, crc));
    CompletesCons(c, rest, sawHeader, sawData);
    if c.kind != IEND {
      AcceptsPrinted(rest, true, sawData || c.kind == IDAT, crc);
    }
  }

  lemma PrintAllCons(c: Chunk, rest: seq<Chunk>, crc: Crc)
    requires Printable(c) && crc(c.kind + c.body) < U32 && AllPrintable(rest, crc)
    ensures AllPrintable([c] + rest, crc) && PrintAll([c] + rest, crc) == Print(c, crc) + PrintAll(rest, crc)
  {
    assert ([c] + rest)[1..] == rest;
  }

  lemma {:induction false} AcceptedIsPrinted(s: seq<Byte>, sawHeader: bool, sawData: bool, crc: Crc)
      returns (chunks: seq<Chunk>)
    requires Walk(s, sawHeader, sawData, crc)
    ensures AllPrintable(chunks, crc) && PrintAll(chunks, crc) == s && Completes(chunks, sawHeader, sawData)
    decreases |s|
  {
    var size := FromBigEndian(s[..4]);
    var c, left := Chunk(s[4..8], s[8..8 + size]), s[12 + size..];
    PrintRead(s, size, crc);
    var rest: seq<Chunk> := [];
    if !sawHeader || c.kind != IEND {
      rest := AcceptedIsPrinted(left, true, sawData || (sawHeader && c.kind == IDAT), crc);
    }
    chunks := [c] + rest;
    PrintAllCons(c, rest, crc);
    CompletesCons(c, rest, sawHeader, sawData);
  }

  ghost predicate IsContainer(s: seq<Byte>, crc: Crc) {
    exists chunks :: AllPrintable(chunks, crc) && PrintAll(chunks, crc) == s && WellFormed(chunks)
  }

  /** The walk accepts exactly the printed forms of well-formed chunk lists. */
  lemma WalkAcceptsExactly(s: seq<Byte>, crc: Crc)
    ensures Walk(s, false, false, crc) <==> IsContainer(s, crc)
  {
    if Walk(s, false, false, crc) {
      var chunks := AcceptedIsPrinted(s, false, false, crc);
      assert WellFormed(chunks);
    }
    if IsContainer(s, crc) {
      var chunks :| AllPrintable(chunks, crc) && PrintAll(chunks, crc) == s && WellFormed(chunks);
      AcceptsPrinted(chunks, false, false, crc);
    }
  }
}
