/** `md5_init`, `md5_append` and `md5_finish` against the whole-message digest. */
module Md5Stream {
  import opened Bytes
  import opened Arithmetic
  import opened Md5Spec
  import Md5

  // ---- Folding in pieces ----

  lemma {:induction false} FoldInPieces(r: Registers, m: seq<byte>, n: seq<byte>)
    requires |m| % 64 == 0
    ensures Fold(r, m + n) == Fold(Fold(r, m), n)
    decreases |m|
  {
    hide Compress;
    if m == [] {
      assert m + n == n;
    } else {
      assert (m + n)[..64] == m[..64];
      assert (m + n)[64..] == m[64..] + n;
      FoldInPieces(Compress(r, m[..64]), m[64..], n);
    }
  }

  lemma FoldOne(r: Registers, m: seq<byte>, block: seq<byte>)
    requires |m| % 64 == 0 && |block| == 64
    ensures Fold(r, m + block) == Compress(Fold(r, m), block)
  {
    hide Compress;
    FoldInPieces(r, m, block);
    assert block[..64] == block && block[64..] == [];
    assert Fold(Compress(Fold(r, m), block), []) == Compress(Fold(r, m), block);
  }

  /** The whole blocks of a message and what is left over. */
  function Whole(m: seq<byte>): seq<byte> { m[..|m| - |m| % 64] }
  function Rest(m: seq<byte>): (r: seq<byte>)
    ensures |r| == |m| % 64
  {
    m[|m| - |m| % 64..]
  }

  // ---- The split bit count ----

  const WORD := 0x1_0000_0000

  /** The bit length modulo 2^64 is kept as two words. */
  predicate Counts(count0: nat, count1: nat, length: nat) {
    count0 < WORD && count1 < WORD && count0 + WORD * count1 == 8 * length % (WORD * WORD)
  }

  lemma CountsAre(count0: nat, count1: nat, length: nat)
    requires Counts(count0, count1, length)
    ensures count0 < WORD && count1 < WORD
    ensures count0 + WORD * count1 == 8 * length % 0x1_0000_0000_0000_0000
  {
  }

  lemma CountAppended(count0: nat, count1: nat, length: nat, n: nat)
    requires Counts(count0, count1, length) && n < 0x1000_0000
    ensures var sum := (count0 + 8 * n) % WORD;
            var carry := if sum < 8 * n then 1 else 0;
            Counts(sum, (count1 + carry) % WORD, length + n)
  {
    var sum := (count0 + 8 * n) % WORD;
    var carry := if sum < 8 * n then 1 else 0;
    assert sum == count0 + 8 * n - WORD * carry;
    var top := (count1 + carry) % WORD;
    var wrap := if count1 + carry == WORD then 1 else 0;
    assert top == count1 + carry - WORD * wrap;
    Quotient(8 * length, WORD * WORD);
    Wrapped(8 * length / (WORD * WORD), count0, count1, n, sum, carry, top, wrap, length);
  }

  lemma SmallCount(n: nat, count1: nat)
    requires n < 0x1000_0000 && count1 < WORD
    ensures n * 8 % WORD == 8 * n && (count1 + n / 0x2000_0000) % WORD == count1
  {
  }

  /** With the carry out of the low word, and the wrap of the high one, the sum has the words `sum` and `top`. */
  lemma Wrapped(q: nat, count0: nat, count1: nat, n: nat, sum: nat, carry: nat, top: nat, wrap: nat, length: nat)
    requires 8 * length == q * (WORD * WORD) + (count0 + WORD * count1)
    requires sum == count0 + 8 * n - WORD * carry && top == count1 + carry - WORD * wrap && sum < WORD && top < WORD
    ensures 8 * (length + n) % (WORD * WORD) == sum + WORD * top
  {
    assert 8 * (length + n) == (q + wrap) * (WORD * WORD) + (sum + WORD * top);
    DivisionIsUnique(8 * (length + n), WORD * WORD, q + wrap, sum + WORD * top);
  }

  /** The padding of section 3.1 and the eight length bytes fill the last block. */
  lemma PaddedIsWhole(m: seq<byte>)
    ensures Whole(Padded(m)) == Padded(m)
  {
    hide LittleEndian, PadLength;
    var n := |m| + 1 + PadLength(|m|);
    LastEight(n);
    assert |Padded(m)| == n + 8;
  }

  lemma LastEight(n: nat)
    requires n % 64 == 56
    ensures (n + 8) % 64 == 0
  {
  }

  /** The bytes in the partial block. */
  lemma OffsetOf(count0: nat, count1: nat, length: nat)
    requires Counts(count0, count1, length)
    ensures count0 / 8 % 64 == length % 64
  {
    var q := 8 * length / (WORD * WORD);
    assert 8 * length == q * (WORD * WORD) + count0 + WORD * count1;
    assert count0 == 8 * (length - q * 0x2000_0000_0000_0000 - 0x2000_0000 * count1);
    assert count0 / 8 == length - 64 * (q * 0x80_0000_0000_0000 + 0x80_0000 * count1);
  }

  /** What `md5_finish` computes for the pad is the length of the padding of section 3.1. */
  lemma PadFormula(count0: nat, count1: nat, length: nat)
    requires Counts(count0, count1, length)
    ensures (55 - count0 / 8) % 64 + 1 == 1 + PadLength(length)
  {
    OffsetOf(count0, count1, length);
    var k := count0 / 8;
    assert k == 64 * (k / 64) + k % 64;
    assert (55 - k) % 64 == (55 - k % 64 - 64 * (k / 64)) % 64;
  }

  lemma {:induction false} LittleEndianByte(n: nat, k: nat, i: nat)
    requires i < k
    ensures LittleEndian(n, k)[i] == n / Pow256(i) % 256
  {
    if i > 0 {
      LittleEndianByte(n / 256, k - 1, i - 1);
      NestedDivision(n, Pow256(i - 1));
    }
  }

  lemma NestedDivision(n: nat, p: nat)
    requires p > 0
    ensures n / 256 / p == n / (256 * p)
  {
    var q, r := n / 256 / p, n / 256 % p;
    assert n == 256 * (q * p + r) + n % 256;
    assert 256 * (q * p + r) == q * (256 * p) + 256 * r;
    assert 256 * r + n % 256 < 256 * p;
    DivisionIsUnique(n, 256 * p, q, 256 * r + n % 256);
  }

  lemma {:induction false} LittleEndianSplit(low: nat, high: nat, k: nat, m: nat)
    requires low < Pow256(k)
    ensures LittleEndian(low + Pow256(k) * high, k + m) == LittleEndian(low, k) + LittleEndian(high, m)
  {
    if k > 0 {
      hide *;
      var p := Pow256(k - 1);
      assert Pow256(k) == 256 * p by { NextPower(k); }
      OneByteOff(low, p, high);
      LittleEndianSplit(low / 256, high, k - 1, m);
      LittleEndianOne(low + 256 * p * high, k + m);
      LittleEndianOne(low, k);
    } else {
      assert LittleEndian(low, 0) == [];
    }
  }

  lemma NextPower(k: nat)
    requires k > 0
    ensures Pow256(k) == 256 * Pow256(k - 1)
  {
  }

  lemma LittleEndianOne(n: nat, k: nat)
    requires k > 0
    ensures LittleEndian(n, k) == [n % 256] + LittleEndian(n / 256, k - 1)
  {
  }

  lemma OneByteOff(low: nat, p: nat, high: nat)
    requires low < 256 * p
    ensures low / 256 < p
    ensures (low + 256 * p * high) / 256 == low / 256 + p * high && (low + 256 * p * high) % 256 == low % 256
  {
    var x := p * high;
    assert 256 * p * high == 256 * x;
  }

  /** The two counter words, low-order byte first, are the bit count modulo 2^64. */
  lemma CountBytes(count0: nat, count1: nat, n: nat)
    requires Counts(count0, count1, n)
    ensures LittleEndian(8 * n % 0x1_0000_0000_0000_0000, 8) == LittleEndian(count0, 4) + LittleEndian(count1, 4)
  {
    hide LittleEndian, Counts;
    CountsAre(count0, count1, n);
    assert Pow256(4) == WORD by { assert Pow256(2) == 0x1_0000; }
    LittleEndianSplit(count0, count1, 4, 4);
  }

  // ---- The state ----

  class Md5State {
    var count0: nat
    var count1: nat
    var abcd: Registers
    const buf: array<byte>
    ghost var message: seq<byte>

    /** What the state is after `message` has been appended. */
    ghost predicate Valid()
      reads this, buf
    {
      && buf.Length == 64
      && Counts(count0, count1, |message|)
      && abcd == Fold(INITIAL, Whole(message))
      && buf[..|message| % 64] == Rest(message)
    }

    constructor ()
      ensures Valid() && message == [] && fresh(buf)
    {
      count0, count1, abcd, message := 0, 0, INITIAL, [];
      buf := new byte[64](_ => 0);
    }

    method Process(block: seq<byte>)
      requires |block| == 64
      modifies `abcd
      ensures abcd == Compress(old(abcd), block)
    {
      hide Steps, Words, Increment;
      var x := LoadWords(block);
      NoSteps(abcd, x);
      var r1 := Md5.Round1(abcd, abcd, x);
      var r2 := Md5.Round2(r1, abcd, x);
      var r3 := Md5.Round3(r2, abcd, x);
      var r4 := Md5.Round4(r3, abcd, x);
      abcd := Increment(abcd, r4);
    }

    static lemma NoSteps(r: Registers, x: seq<word>)
      requires |x| == 16
      ensures Steps(0, r, x) == r
    {
    }

    static method LoadWords(block: seq<byte>) returns (x: seq<word>)
      requires |block| == 64
      ensures |x| == 16 && x == Words(block)
    {
      hide WordOf;
      x := [];
      var i := 0;
      while i < 16
        invariant i <= 16 && |x| == i && forall k | 0 <= k < i :: x[k] == WordOf(block, k)
      {
        x := x + [WordOf(block, i)];
        i := i + 1;
      }
    }

    /** `md5_append` of the first `nbytes` bytes of `data`. */
    method Append(data: seq<byte>, nbytes: int)
      requires Valid() && nbytes <= |data| && nbytes < 0x1000_0000
      modifies this, buf
      ensures Valid() && message == old(message) + if nbytes <= 0 then [] else data[..nbytes]
    {
      hide Fold, Compress, Counts, Whole, Rest;
      var p, left := 0, nbytes;
      var offset := count0 / 8 % 64;
      OffsetOf(count0, count1, |message|);
      if nbytes <= 0 {
        return;
      }
      UpdateCount(nbytes);
      ghost var m0 := message;
      message := m0 + data[..nbytes];
      ghost var done := Whole(m0);
      WholeAndRest(m0);
      if offset != 0 {
        var whole;
        p, whole := TopUp(data, nbytes, offset, m0);
        if !whole {
          return;
        }
        left, done := left - p, m0 + data[..p];
      } else {
        assert done == m0 + data[..p];
      }
      p, left, done := Blocks(data, nbytes, p, left, m0, done);
      assert message == done + data[p..nbytes];
      SplitAt(done, data[p..nbytes]);
      if left != 0 {
        Copy(0, data[p..p + left]);
      }
    }

    /** Bytes are added to a block begun before; `whole` when that fills it. */
    method TopUp(data: seq<byte>, nbytes: nat, offset: nat, ghost m0: seq<byte>) returns (p: nat, whole: bool)
      requires buf.Length == 64 && 0 < nbytes <= |data| && abcd == Fold(INITIAL, Whole(m0))
      requires 0 < offset == |Rest(m0)| < 64 && buf[..offset] == Rest(m0)
      modifies this`abcd, buf
      ensures p <= nbytes
      ensures var m := m0 + data[..nbytes];
              !whole ==> abcd == Fold(INITIAL, Whole(m)) && |Rest(m)| <= 64 && buf[..|Rest(m)|] == Rest(m)
      ensures var m := m0 + data[..p];
              whole ==> |m| % 64 == 0 && abcd == Fold(INITIAL, m)
    {
      hide Fold, Compress, Whole, Rest;
      p := if offset + nbytes > 64 then 64 - offset else nbytes;
      Copy(offset, data[..p]);
      assert buf[..offset + p] == Rest(m0) + data[..p];
      whole := offset + p >= 64;
      if whole {
        FillBlock(m0, data[..p]);
      } else {
        WithinBlock(m0, data[..nbytes]);
      }
    }

    /** The partial block is full: one more block of the message is done. */
    method FillBlock(ghost m0: seq<byte>, ghost bytes: seq<byte>)
      requires buf.Length == 64 && abcd == Fold(INITIAL, Whole(m0))
      requires buf[..] == Rest(m0) + bytes
      modifies `abcd
      ensures Whole(m0) + buf[..] == m0 + bytes && abcd == Fold(INITIAL, m0 + bytes)
      ensures |m0 + bytes| % 64 == 0
    {
      hide Fold, Compress;
      WholeAndRest(m0);
      FoldOne(INITIAL, Whole(m0), buf[..]);
      Process(buf[..]);
      assert Whole(m0) + (Rest(m0) + bytes) == Whole(m0) + Rest(m0) + bytes;
    }

    static lemma WholeAndRest(m: seq<byte>)
      ensures Whole(m) + Rest(m) == m && |Whole(m)| % 64 == 0 && |Rest(m)| == |m| % 64
      ensures |m| % 64 == 0 ==> Whole(m) == m
    {
      assert |m| - |m| % 64 == 64 * (|m| / 64);
    }

    static lemma SplitAt(m: seq<byte>, bytes: seq<byte>)
      requires |m| % 64 == 0 && |bytes| < 64
      ensures Whole(m + bytes) == m && Rest(m + bytes) == bytes
    {
      WithinBlock(m, bytes);
    }

    /** The whole blocks among the bytes that are left. */
    method Blocks(data: seq<byte>, nbytes: nat, p0: nat, left0: nat, ghost m0: seq<byte>, ghost done0: seq<byte>)
      returns (p: nat, left: nat, ghost done: seq<byte>)
      requires p0 + left0 == nbytes <= |data|
      requires done0 == m0 + data[..p0] && |done0| % 64 == 0 && abcd == Fold(INITIAL, done0)
      modifies `abcd
      ensures p + left == nbytes && left < 64
      ensures done == m0 + data[..p] && |done| % 64 == 0 && abcd == Fold(INITIAL, done)
    {
      hide Fold, Compress;
      p, left, done := p0, left0, done0;
      while left >= 64
        invariant p + left == nbytes
        invariant done == m0 + data[..p] && |done| % 64 == 0 && abcd == Fold(INITIAL, done)
      {
        FoldOne(INITIAL, done, data[p..p + 64]);
        Process(data[p..p + 64]);
        assert data[..p] + data[p..p + 64] == data[..p + 64];
        done := done + data[p..p + 64];
        p, left := p + 64, left - 64;
      }
    }

    method UpdateCount(nbytes: nat)
      requires Counts(count0, count1, |message|) && nbytes < 0x1000_0000
      modifies `count0, `count1
      ensures Counts(count0, count1, |message| + nbytes)
    {
      hide Counts;
      CountsAre(count0, count1, |message|);
      CountAppended(count0, count1, |message|, nbytes);
      SmallCount(nbytes, count1);
      var nbits := nbytes * 8 % WORD;
      count1 := (count1 + nbytes / 0x2000_0000) % WORD;
      count0 := (count0 + nbits) % WORD;
      if count0 < nbits {
        count1 := (count1 + 1) % WORD;
      }
    }

    /** `memcpy` into the partial block. */
    method Copy(at: nat, bytes: seq<byte>)
      requires at + |bytes| <= buf.Length
      modifies buf
      ensures buf[..at] == old(buf[..at]) && buf[at..at + |bytes|] == bytes
      ensures buf[at + |bytes|..] == old(buf[at + |bytes|..])
    {
      forall i | 0 <= i < |bytes| {
        buf[at + i] := bytes[i];
      }
    }

    static lemma WithinBlock(m: seq<byte>, bytes: seq<byte>)
      requires |m| % 64 + |bytes| < 64
      ensures Whole(m + bytes) == Whole(m) && Rest(m + bytes) == Rest(m) + bytes
    {
      var k := |m| / 64;
      DivisionIsUnique(|m + bytes|, 64, k, |m| % 64 + |bytes|);
      assert |m| - |m| % 64 == 64 * k;
    }

    /** `md5_finish`. */
    method Finish() returns (digest: seq<byte>)
      requires Valid()
      modifies this, buf
      ensures digest == Digest(old(message))
    {
      hide Fold, PadLength, LittleEndian, WordBytes;
      ghost var m := message;
      var data := LengthBytes();
      OffsetOf(count0, count1, |m|);
      PadFormula(count0, count1, |m|);
      var pad := [0x80] + seq(63, _ => 0);
      var n := (55 - count0 / 8) % 64 + 1;
      assert pad[..n] == [0x80] + Zeros(PadLength(|m|));
      Append(pad, n);
      Append(data, 8);
      assert data[..8] == data;
      assert message == Padded(m);
      PaddedIsWhole(m);
      digest := WordBytes(abcd.a) + WordBytes(abcd.b) + WordBytes(abcd.c) + WordBytes(abcd.d);
    }

    /** The bit count before padding, low-order byte first. */
    method LengthBytes() returns (data: seq<byte>)
      requires Counts(count0, count1, |message|)
      ensures |data| == 8 && data == LittleEndian(8 * |message| % 0x1_0000_0000_0000_0000, 8)
    {
      hide LittleEndian, Pow256, Counts;
      CountBytes(count0, count1, |message|);
      data := [];
      var i := 0;
      while i < 8
        invariant i <= 8 && |data| == i
        invariant forall k | 0 <= k < i ::
            data[k] == (if k < 4 then LittleEndian(count0, 4)[k] else LittleEndian(count1, 4)[k - 4])
      {
        var w := if i / 4 == 0 then count0 else count1;
        LittleEndianByte(w, 4, i % 4);
        data := data + [w / Pow256(i % 4) % 256];
        i := i + 1;
      }
    }
  }

  /** However a message is cut into appends, finishing gives its digest. */
  method DigestOf(chunks: seq<seq<byte>>) returns (digest: seq<byte>)
    requires forall c <- chunks :: |c| < 0x1000_0000
    ensures digest == Digest(Concat(chunks))
  {
    hide Digest, Counts, Fold, Whole, Rest, Concat;
    assert Concat<byte>([]) == [] by { ConcatNone(); }
    var s := new Md5State();
    var i := 0;
    assert chunks[..0] == [];
    while i < |chunks|
      invariant i <= |chunks| && s.Valid() && fresh(s) && fresh(s.buf) && s.message == Concat(chunks[..i])
    {
      s.Append(chunks[i], |chunks[i]|);
      assert chunks[i][..|chunks[i]|] == chunks[i];
      ConcatOne(chunks[..i], chunks[i]);
      assert chunks[..i + 1] == chunks[..i] + [chunks[i]];
      i := i + 1;
    }
    assert chunks[..i] == chunks;
    digest := s.Finish();
  }

  lemma ConcatNone()
    ensures Concat<byte>([]) == []
  {
  }

  lemma {:induction false} ConcatOne(parts: seq<seq<byte>>, last: seq<byte>)
    ensures Concat(parts + [last]) == Concat(parts) + last
  {
    if parts == [] {
      assert parts + [last] == [last];
      assert Concat([last]) == last + Concat([]);
    } else {
      ConcatOne(parts[1..], last);
      assert (parts + [last])[1..] == parts[1..] + [last];
    }
  }
}
