/** The unsigned integers of a class file and their big-endian byte form. */
module Bytes {
  newtype u1 = x: int | 0 <= x < 0x100
  type u2 = x: int | 0 <= x < 0x1_0000
  type u4 = x: int | 0 <= x < 0x1_0000_0000

  // The truncating casts static_cast<u2> and static_cast<u4>.
  function U2(x: nat): (v: u2)
    ensures x < 0x1_0000 ==> v == x
  {
    x % 0x1_0000
  }

  function U4(x: nat): (v: u4)
    ensures x < 0x1_0000_0000 ==> v == x
  {
    x % 0x1_0000_0000
  }

  function Wr16(v: u2): (s: seq<u1>)
    ensures |s| == 2
  {
    [(v / 0x100) as u1, (v % 0x100) as u1]
  }

  // The two bytes the source patches for a u4: u1((v >> 8) & 0xFF) and u1(v & 0xFF).
  function Low16(v: u4): (s: seq<u1>)
    ensures |s| == 2
  {
    [(v / 0x100 % 0x100) as u1, (v % 0x100) as u1]
  }

  lemma Low16IsWr16(v: u4)
    ensures Low16(v) == Wr16(U2(v))
  {
  }

  // 16-bit reduction may be postponed.
  lemma U2Sum(x: nat, y: nat)
    ensures U2(U2(x) + y) == U2(x + y)
    ensures U2(U4(x)) == U2(x)
  {
  }

  function Wr32(v: u4): (s: seq<u1>)
    ensures |s| == 4
  {
    Wr16(v / 0x1_0000) + Wr16(v % 0x1_0000)
  }

  function Rd16(b: seq<u1>, i: nat): u2
    requires i + 2 <= |b|
  {
    b[i] as int * 0x100 + b[i + 1] as int
  }

  function Rd32(b: seq<u1>, i: nat): u4
    requires i + 4 <= |b|
  {
    var hi: int := Rd16(b, i);
    hi * 0x1_0000 + Rd16(b, i + 2)
  }

  // The bytes s stand in b at position pos.
  predicate At(b: seq<u1>, pos: nat, s: seq<u1>) {
    pos + |s| <= |b| && b[pos..pos + |s|] == s
  }

  lemma AtConcat(b: seq<u1>, pos: nat, s: seq<u1>, t: seq<u1>)
    ensures At(b, pos, s + t) <==> At(b, pos, s) && At(b, pos + |s|, t)
  {
    if At(b, pos, s + t) {
      assert b[pos..pos + |s|] == b[pos..pos + |s + t|][..|s|];
      assert b[pos + |s|..pos + |s| + |t|] == b[pos..pos + |s + t|][|s|..];
    }
    if At(b, pos, s) && At(b, pos + |s|, t) {
      assert b[pos..pos + |s + t|] == b[pos..pos + |s|] + b[pos + |s|..pos + |s| + |t|];
    }
  }

  // The bytes from pos to the end are exactly s.
  predicate Ends(b: seq<u1>, pos: nat, s: seq<u1>) {
    pos + |s| == |b| && b[pos..] == s
  }

  lemma EndsConcat(b: seq<u1>, pos: nat, s: seq<u1>, t: seq<u1>)
    ensures Ends(b, pos, s + t) <==> At(b, pos, s) && Ends(b, pos + |s|, t)
  {
    AtConcat(b, pos, s, t);
    if pos + |s + t| == |b| {
      assert b[pos..] == b[pos..pos + |s + t|];
      assert b[pos + |s|..] == b[pos + |s|..pos + |s| + |t|];
    }
  }

  // Reading a u2 finds v exactly when the bytes written for v are there.
  lemma At16(b: seq<u1>, pos: nat, v: u2)
    ensures At(b, pos, Wr16(v)) <==> pos + 2 <= |b| && Rd16(b, pos) == v
  {
    if pos + 2 <= |b| {
      assert b[pos..pos + 2] == [b[pos], b[pos + 1]];
    }
  }

  lemma At32(b: seq<u1>, pos: nat, v: u4)
    ensures At(b, pos, Wr32(v)) <==> pos + 4 <= |b| && Rd32(b, pos) == v
  {
    AtConcat(b, pos, Wr16(v / 0x1_0000), Wr16(v % 0x1_0000));
    At16(b, pos, v / 0x1_0000);
    At16(b, pos + 2, v % 0x1_0000);
  }

}
