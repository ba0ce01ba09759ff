/** The fixed-length little-endian frame metadata codec. */
module FrameMeta {
  import opened Numbers

  const WIRE_VERSION: Byte := 0
  const WIRE_LEN: nat := 36
  const U32: nat := 0x1_0000_0000
  const U64: nat := 0x1_0000_0000_0000_0000

  type UInt32 = x: int | 0 <= x < U32
  type UInt64 = x: int | 0 <= x < U64

  datatype Meta = Meta(
    seqNo: UInt64,
    width: UInt32,
    height: UInt32,
    format: Byte,
    version: Byte,
    isKeyframe: bool,
    tsMonoNs: UInt64,
    tsEpochNs: UInt64)

  datatype Decoded = Frame(meta: Meta) | TooShort(len: nat) | Unsupported(version: Byte)

  // ---- Little-endian numbers ----

  function Pow256(k: nat): (p: nat)
    ensures p > 0
  {
    if k == 0 then 1 else 256 * Pow256(k - 1)
  }

  function ToLe(x: nat, k: nat): (r: seq<Byte>)
    ensures |r| == k
  {
    if k == 0 then [] else [x % 256] + ToLe(x / 256, k - 1)
  }

  function FromLe(b: seq<Byte>): nat {
    if b == [] then 0 else b[0] + 256 * FromLe(b[1..])
  }

  lemma {:induction false} FromToLe(x: nat, k: nat)
    requires x < Pow256(k)
    ensures FromLe(ToLe(x, k)) == x
  {
    if k > 0 {
      FromToLe(x / 256, k - 1);
      assert ToLe(x, k)[1..] == ToLe(x / 256, k - 1);
    }
  }

  lemma LowByte(low: Byte, rest: nat)
    ensures (low + 256 * rest) % 256 == low && (low + 256 * rest) / 256 == rest
  {
  }

  lemma {:induction false} ToFromLe(b: seq<Byte>)
    ensures FromLe(b) < Pow256(|b|) && ToLe(FromLe(b), |b|) == b
  {
    if b != [] {
      ToFromLe(b[1..]);
      LowByte(b[0], FromLe(b[1..]));
      assert b == [b[0]] + b[1..];
    }
  }

  /** Little-endian: each further byte weighs 256 times the one before it. */
  lemma {:induction false} LastWeighsMost(b: seq<Byte>, last: Byte)
    ensures FromLe(b + [last]) == FromLe(b) + Pow256(|b|) * last
  {
    var all := b + [last];
    if b == [] {
      assert all == [last] && all[1..] == [];
    } else {
      assert all[1..] == b[1..] + [last];
      LastWeighsMost(b[1..], last);
      Scaled(Pow256(|b| - 1), last);
    }
  }

  lemma Scaled(p: nat, x: nat)
    ensures 256 * (p * x) == 256 * p * x
  {
  }

  lemma Widths()
    ensures Pow256(4) == U32 && Pow256(8) == U64
  {
    assert Pow256(3) == 256 * Pow256(2) && Pow256(2) == 65536;
    assert Pow256(4) == 256 * Pow256(3) && Pow256(5) == 256 * Pow256(4);
    assert Pow256(6) == 256 * Pow256(5) && Pow256(7) == 256 * Pow256(6);
  }

  // ---- The codec ----

  /** The wire layout, field by field. */
  function Layout(m: Meta): (r: seq<Byte>)
    ensures |r| == WIRE_LEN
  {
    ToLe(m.seqNo, 8) + ToLe(m.width, 4) + ToLe(m.height, 4)
    + [m.format, m.version, if m.isKeyframe then 1 else 0, 0]
    + ToLe(m.tsMonoNs, 8) + ToLe(m.tsEpochNs, 8)
  }

  method CopyIn(b: array<Byte>, at: nat, src: seq<Byte>)
    requires at + |src| <= b.Length
    modifies b
    ensures b[at..at + |src|] == src
    ensures forall j :: 0 <= j < at || at + |src| <= j < b.Length ==> b[j] == old(b[j])
  {
    var i := 0;
    while i < |src|
      invariant 0 <= i <= |src|
      invariant forall j :: 0 <= j < i ==> b[at + j] == src[j]
      invariant forall j :: 0 <= j < at || at + i <= j < b.Length ==> b[j] == old(b[j])
    {
      b[at + i] := src[i];
      i := i + 1;
    }
  }

  method Encode(m: Meta) returns (b: array<Byte>)
    ensures fresh(b) && b[..] == Layout(m)
  {
    b := new Byte[WIRE_LEN](i => 0);
    CopyIn(b, 0, ToLe(m.seqNo, 8));
    CopyIn(b, 8, ToLe(m.width, 4));
    CopyIn(b, 12, ToLe(m.height, 4));
    b[16], b[17], b[18], b[19] := m.format, m.version, if m.isKeyframe then 1 else 0, 0;
    CopyIn(b, 20, ToLe(m.tsMonoNs, 8));
    CopyIn(b, 28, ToLe(m.tsEpochNs, 8));
    assert b[0..8] == ToLe(m.seqNo, 8);
    assert b[8..12] == ToLe(m.width, 4);
    assert b[12..16] == ToLe(m.height, 4);
    assert b[16..20] == [m.format, m.version, if m.isKeyframe then 1 else 0, 0];
    assert b[20..28] == ToLe(m.tsMonoNs, 8);
    FromParts(b[..], m);
  }

  /** Bytes that agree with the layout part by part are the layout. */
  lemma FromParts(b: seq<Byte>, m: Meta)
    requires |b| == WIRE_LEN
    requires b[0..8] == ToLe(m.seqNo, 8) && b[8..12] == ToLe(m.width, 4) && b[12..16] == ToLe(m.height, 4)
    requires b[16..20] == [m.format, m.version, if m.isKeyframe then 1 else 0, 0]
    requires b[20..28] == ToLe(m.tsMonoNs, 8) && b[28..36] == ToLe(m.tsEpochNs, 8)
    ensures b == Layout(m)
  {
    SixParts(b, ToLe(m.seqNo, 8), ToLe(m.width, 4), ToLe(m.height, 4),
             [m.format, m.version, if m.isKeyframe then 1 else 0, 0], ToLe(m.tsMonoNs, 8), ToLe(m.tsEpochNs, 8));
  }

  lemma SixParts(b: seq<Byte>, p: seq<Byte>, q: seq<Byte>, r: seq<Byte>, h: seq<Byte>, x: seq<Byte>, y: seq<Byte>)
    requires |b| == WIRE_LEN
    requires b[0..8] == p && b[8..12] == q && b[12..16] == r && b[16..20] == h && b[20..28] == x && b[28..36] == y
    ensures b == p + q + r + h + x + y
  {
  }

  function Decode(b: seq<Byte>): Decoded {
    if |b| < WIRE_LEN then TooShort(|b|)
    else if b[17] != WIRE_VERSION then Unsupported(b[17])
    else
      Widths();
      ToFromLe(b[0..8]);
      ToFromLe(b[8..12]);
      ToFromLe(b[12..16]);
      ToFromLe(b[20..28]);
      ToFromLe(b[28..36]);
      Frame(Meta(FromLe(b[0..8]), FromLe(b[8..12]), FromLe(b[12..16]), b[16], b[17], b[18] != 0,
                 FromLe(b[20..28]), FromLe(b[28..36])))
  }

  lemma LayoutParts(m: Meta, rest: seq<Byte>)
    ensures var b := Layout(m) + rest;
            && b[0..8] == ToLe(m.seqNo, 8) && b[8..12] == ToLe(m.width, 4) && b[12..16] == ToLe(m.height, 4)
            && b[16] == m.format && b[17] == m.version && b[18] == (if m.isKeyframe then 1 else 0) && b[19] == 0
            && b[20..28] == ToLe(m.tsMonoNs, 8) && b[28..36] == ToLe(m.tsEpochNs, 8)
  {
  }

  /** Where each field lies on the wire, and that version 0 is the one that is read. */
  lemma WireFormat(m: Meta)
    ensures var b := Layout(m);
            && |b| == 36
            && FromLe(b[0..8]) == m.seqNo && FromLe(b[8..12]) == m.width && FromLe(b[12..16]) == m.height
            && b[16] == m.format && b[17] == m.version && (b[18] == 1 <==> m.isKeyframe) && b[18] <= 1 && b[19] == 0
            && FromLe(b[20..28]) == m.tsMonoNs && FromLe(b[28..36]) == m.tsEpochNs
            && (Decode(b).Frame? <==> m.version == 0)
  {
    LayoutParts(m, []);
    assert Layout(m) + [] == Layout(m);
    Widths();
    FromToLe(m.seqNo, 8);
    FromToLe(m.width, 4);
    FromToLe(m.height, 4);
    FromToLe(m.tsMonoNs, 8);
    FromToLe(m.tsEpochNs, 8);
  }

  /** Decoding an encoded value gives it back exactly when it has the wire version; else it is refused. */
  lemma DecodeEncode(m: Meta, rest: seq<Byte>)
    ensures Decode(Layout(m) + rest) == if m.version == WIRE_VERSION then Frame(m) else Unsupported(m.version)
  {
    LayoutParts(m, rest);
    Widths();
    FromToLe(m.seqNo, 8);
    FromToLe(m.width, 4);
    FromToLe(m.height, 4);
    FromToLe(m.tsMonoNs, 8);
    FromToLe(m.tsEpochNs, 8);
  }

  /** Re-encoding canonicalizes the key-frame byte and the reserved byte and keeps all others. */
  lemma Reencoded(b: seq<Byte>)
    requires |b| == WIRE_LEN && Decode(b).Frame?
    ensures Layout(Decode(b).meta)
            == b[0..8] + b[8..12] + b[12..16] + [b[16], b[17], if b[18] != 0 then 1 else 0, 0] + b[20..28] + b[28..36]
  {
    ToFromLe(b[0..8]);
    ToFromLe(b[8..12]);
    ToFromLe(b[12..16]);
    ToFromLe(b[20..28]);
    ToFromLe(b[28..36]);
  }

  /** Re-encoding accepted bytes gives them back exactly when the two slack bytes are canonical. */
  lemma EncodeDecode(b: seq<Byte>)
    requires |b| == WIRE_LEN && Decode(b).Frame?
    ensures Layout(Decode(b).meta) == b <==> b[18] <= 1 && b[19] == 0
  {
    Reencoded(b);
    SlackDecides(b, b[0..8] + b[8..12] + b[12..16], b[20..28] + b[28..36]);
    assert b == b[0..8] + b[8..12] + b[12..16] + [b[16], b[17], b[18], b[19]] + (b[20..28] + b[28..36]);
    assert Layout(Decode(b).meta) == b[0..8] + b[8..12] + b[12..16] + [b[16], b[17], if b[18] != 0 then 1 else 0, 0]
                                     + (b[20..28] + b[28..36]);
  }

  lemma SlackDecides(b: seq<Byte>, front: seq<Byte>, back: seq<Byte>)
    requires |b| == WIRE_LEN && |front| == 16
    ensures (front + [b[16], b[17], if b[18] != 0 then 1 else 0, 0] + back
             == front + [b[16], b[17], b[18], b[19]] + back)
       <==> (b[18] <= 1 && b[19] == 0)
  {
    var x := front + [b[16], b[17], if b[18] != 0 then 1 else 0, 0] + back;
    var y := front + [b[16], b[17], b[18], b[19]] + back;
    assert x[18] == (if b[18] != 0 then 1 else 0) && x[19] == 0 && y[18] == b[18] && y[19] == b[19];
  }

  /** Decoding never looks past the fixed length, and refuses exactly the short and the foreign inputs. */
  lemma DecodeReadsAPrefix(b: seq<Byte>)
    ensures Decode(b).TooShort? <==> |b| < WIRE_LEN
    ensures |b| >= WIRE_LEN ==> Decode(b) == Decode(b[..WIRE_LEN])
  {
    if |b| >= WIRE_LEN {
      var p := b[..WIRE_LEN];
      assert p[0..8] == b[0..8] && p[8..12] == b[8..12] && p[12..16] == b[12..16];
      assert p[20..28] == b[20..28] && p[28..36] == b[28..36];
    }
  }
}
