/** Blocks as bytes: the little-endian words of an indirect block and the bits of a bitmap
    block (kernel/fs.h, kernel/fs.c). */
module FsBytes {
  import opened Params

  const BSIZE: nat := 1024
  const NDIRECT: nat := 12
  const NINDIRECT: nat := BSIZE / 4
  const MAXFILE: nat := NDIRECT + NINDIRECT
  const BPB: nat := BSIZE * 8

  type Block = seq<byte>

  function Zeroes(): (r: Block)
    ensures |r| == BSIZE && forall k :: 0 <= k < BSIZE ==> r[k] == 0
  {
    seq(BSIZE, _ => 0)
  }

  // ---------------------------------------------------------------- words

  // ((uint*)b)[i]
  function Word(b: Block, i: nat): (r: nat)
    requires |b| == BSIZE && i < NINDIRECT
  {
    (b[4 * i] as int) + 256 * (b[4 * i + 1] as int) + 65536 * (b[4 * i + 2] as int) + 16777216 * (b[4 * i + 3] as int)
  }

  // ((uint*)b)[i] = w
  function PutWord(b: Block, i: nat, w: nat): (r: Block)
    requires |b| == BSIZE && i < NINDIRECT && w < 0x1_0000_0000
    ensures |r| == BSIZE
  {
    b[4 * i := w % 256][4 * i + 1 := (w / 256) % 256][4 * i + 2 := (w / 65536) % 256][4 * i + 3 := w / 16777216]
  }

  lemma WordOfPut(b: Block, i: nat, w: nat, j: nat)
    requires |b| == BSIZE && i < NINDIRECT && w < 0x1_0000_0000 && j < NINDIRECT
    ensures Word(PutWord(b, i, w), j) == if j == i then w else Word(b, j)
  {
    if j == i {
      assert w % 256 + 256 * ((w / 256) % 256) + 65536 * ((w / 65536) % 256) + 16777216 * (w / 16777216) == w;
    }
  }

  // ---------------------------------------------------------------- bits

  // x & (1 << k) is not zero
  predicate TestBit(x: nat, k: nat) { if k == 0 then x % 2 == 1 else TestBit(x / 2, k - 1) }

  // x | (1 << k)
  function SetBit(x: nat, k: nat): (r: nat) {
    if k == 0 then (if x % 2 == 1 then x else x + 1) else 2 * SetBit(x / 2, k - 1) + x % 2
  }

  // x & ~(1 << k)
  function ClearBit(x: nat, k: nat): (r: nat) {
    if k == 0 then (if x % 2 == 1 then x - 1 else x) else 2 * ClearBit(x / 2, k - 1) + x % 2
  }

  lemma {:induction false} BitOfSet(x: nat, k: nat, j: nat)
    ensures TestBit(SetBit(x, k), j) == (j == k || TestBit(x, j))
    decreases k, j
  {
    if k == 0 {
      assert SetBit(x, 0) / 2 == x / 2;
    } else {
      var y := SetBit(x / 2, k - 1);
      assert SetBit(x, k) == 2 * y + x % 2 && SetBit(x, k) / 2 == y && SetBit(x, k) % 2 == x % 2;
      if j > 0 { BitOfSet(x / 2, k - 1, j - 1); }
    }
  }

  lemma {:induction false} BitOfClear(x: nat, k: nat, j: nat)
    ensures TestBit(ClearBit(x, k), j) == (j != k && TestBit(x, j))
    decreases k, j
  {
    if k == 0 {
      assert ClearBit(x, 0) / 2 == x / 2;
    } else {
      var y := ClearBit(x / 2, k - 1);
      assert ClearBit(x, k) == 2 * y + x % 2 && ClearBit(x, k) / 2 == y && ClearBit(x, k) % 2 == x % 2;
      if j > 0 { BitOfClear(x / 2, k - 1, j - 1); }
    }
  }

  function Pow2(k: nat): (r: nat)
    ensures r > 0
  {
    if k == 0 then 1 else 2 * Pow2(k - 1)
  }

  // A mask below 1 << n keeps a value below 1 << n.
  lemma {:induction false} SetInRange(x: nat, k: nat, n: nat)
    requires x < Pow2(n) && k < n
    ensures SetBit(x, k) < Pow2(n) && ClearBit(x, k) < Pow2(n)
    decreases n
  {
    if k > 0 { SetInRange(x / 2, k - 1, n - 1); } else { assert Pow2(n) == 2 * Pow2(n - 1); }
  }

  function SetBitByte(x: byte, k: nat): (r: byte)
    requires k < 8
    ensures r == SetBit(x, k)
  {
    assert Pow2(8) == 256 by { assert Pow2(4) == 16; }
    SetInRange(x, k, 8);
    SetBit(x, k)
  }

  function ClearBitByte(x: byte, k: nat): (r: byte)
    requires k < 8
    ensures r == ClearBit(x, k)
  {
    assert Pow2(8) == 256 by { assert Pow2(4) == 16; }
    SetInRange(x, k, 8);
    ClearBit(x, k)
  }

  // ---------------------------------------------------------------- a bitmap block

  predicate Marked(b: Block, bi: nat)
    requires |b| == BSIZE && bi < BPB
  {
    TestBit(b[bi / 8], bi % 8)
  }

  function Mark(b: Block, bi: nat): (r: Block)
    requires |b| == BSIZE && bi < BPB
    ensures |r| == BSIZE
  {
    b[bi / 8 := SetBitByte(b[bi / 8], bi % 8)]
  }

  function Unmark(b: Block, bi: nat): (r: Block)
    requires |b| == BSIZE && bi < BPB
    ensures |r| == BSIZE
  {
    b[bi / 8 := ClearBitByte(b[bi / 8], bi % 8)]
  }

  lemma MarkedOfMark(b: Block, bi: nat, j: nat)
    requires |b| == BSIZE && bi < BPB && j < BPB
    ensures Marked(Mark(b, bi), j) == (j == bi || Marked(b, j))
  {
    if j / 8 == bi / 8 { BitOfSet(b[bi / 8], bi % 8, j % 8); }
  }

  lemma MarkedOfUnmark(b: Block, bi: nat, j: nat)
    requires |b| == BSIZE && bi < BPB && j < BPB
    ensures Marked(Unmark(b, bi), j) == (j != bi && Marked(b, j))
  {
    if j / 8 == bi / 8 { BitOfClear(b[bi / 8], bi % 8, j % 8); }
  }
}
