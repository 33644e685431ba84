/** The user-level allocator of user/umalloc.c.

    Addresses count headers (16 bytes).  The header fields of memory are the maps `ptr` and
    `size`; the ghost sequence `bs` is the free list they represent, read from `base` upwards,
    and `live` is what malloc has handed out and not got back. */
module Umalloc {
  const BASE: nat := 1              // &base, below every address sbrk returns
  const MORE: nat := 4096
  const HEADER: nat := 16           // sizeof(Header)

  datatype Block = Block(addr: nat, size: nat)

  predicate Apart(a: Block, b: Block) {
    a.addr + a.size <= b.addr || b.addr + b.size <= a.addr
  }

  predicate Before(a: Block, b: Block) {
    a.addr < b.addr && a.addr + a.size <= b.addr
  }

  /** Ascending and disjoint, from `base` up. */
  predicate Sorted(bs: seq<Block>) {
    && |bs| > 0 && bs[0] == Block(BASE, 0)
    && (forall i :: 1 <= i < |bs| ==> bs[i].size > 0)
    && (forall i, j :: 0 <= i < j < |bs| ==> Before(bs[i], bs[j]))
  }

  /** The end of block i is the start of the next one. */
  predicate Touch(bs: seq<Block>, i: nat) {
    i + 1 < |bs| && bs[i].addr + bs[i].size == bs[i+1].addr
  }

  /** The free list: sorted, with no two adjacent blocks left unmerged. */
  predicate Ordered(bs: seq<Block>) {
    Sorted(bs) && forall i :: 0 <= i < |bs| ==> !Touch(bs, i)
  }

  function Succ(bs: seq<Block>, i: nat): nat
    requires i < |bs|
  {
    if i + 1 == |bs| then 0 else i + 1
  }

  /** The headers in memory spell out the circular list bs. */
  ghost predicate Spells(ptr: map<nat, nat>, size: map<nat, nat>, bs: seq<Block>) {
    forall i :: 0 <= i < |bs| ==> Spelled(ptr, size, bs[i], bs[Succ(bs, i)].addr)
  }

  predicate Spelled(ptr: map<nat, nat>, size: map<nat, nat>, b: Block, next: nat) {
    b.addr in ptr && b.addr in size && size[b.addr] == b.size && ptr[b.addr] == next
  }

  function Sum(bs: seq<Block>): nat {
    if bs == [] then 0 else bs[0].size + Sum(bs[1..])
  }

  lemma {:induction false} SumConcat(s: seq<Block>, t: seq<Block>)
    ensures Sum(s + t) == Sum(s) + Sum(t)
  {
    if s == [] {
      assert s + t == t;
    } else {
      assert (s + t)[1..] == s[1..] + t;
      SumConcat(s[1..], t);
    }
  }

  lemma SumSplit(s: seq<Block>, i: nat)
    requires i < |s|
    ensures Sum(s) == Sum(s[..i]) + s[i].size + Sum(s[i+1..])
  {
    assert s == s[..i] + s[i..];
    SumConcat(s[..i], s[i..]);
    assert s[i..][1..] == s[i+1..];
  }

  // ---------- what free does to the list ----------

  /** bp belongs after bs[t]. */
  predicate Fits(bs: seq<Block>, t: nat, bp: nat) {
    t < |bs| && bs[t].addr < bp && (t + 1 < |bs| ==> bp < bs[t+1].addr)
  }

  function Insert(bs: seq<Block>, i: nat, b: Block): seq<Block>
    requires i <= |bs|
  {
    bs[..i] + [b] + bs[i..]
  }

  /** Merge blocks i and i+1 if they touch. */
  function MergeAt(bs: seq<Block>, i: nat): seq<Block> {
    if Touch(bs, i) then bs[..i] + [Block(bs[i].addr, bs[i].size + bs[i+1].size)] + bs[i+2..] else bs
  }

  /** free: link the block in, then merge it with its upper and its lower neighbour. */
  function FreeInto(bs: seq<Block>, t: nat, b: Block): seq<Block>
    requires t < |bs|
  {
    MergeAt(MergeAt(Insert(bs, t + 1, b), t + 1), t)
  }

  // IsFreeInto keeps FreeInto under a quantifier, so that it is unfolded only where Unfold is mentioned.

  predicate Unfold(x: int) { true }

  /** bs' is bs with block b freed at place t. */
  ghost predicate IsFreeInto(bs: seq<Block>, t: nat, b: Block, bs': seq<Block>) {
    t < |bs| && forall x: int :: Unfold(x) ==> bs' == FreeInto(bs, t, b)
  }

  ghost predicate ApartFrom(bs: seq<Block>, b: Block) {
    forall i :: 1 <= i < |bs| ==> Apart(bs[i], b)
  }

  lemma InsertSum(bs: seq<Block>, i: nat, b: Block)
    requires i <= |bs|
    ensures Sum(Insert(bs, i, b)) == Sum(bs) + b.size
  {
    var r := Insert(bs, i, b);
    SumSplit(r, i);
    assert r[..i] == bs[..i] && r[i+1..] == bs[i..];
    SumConcat(bs[..i], bs[i..]);
    assert bs[..i] + bs[i..] == bs;
  }

  lemma MergeSum(bs: seq<Block>, i: nat)
    ensures Sum(MergeAt(bs, i)) == Sum(bs)
  {
    if Touch(bs, i) {
      var m := Block(bs[i].addr, bs[i].size + bs[i+1].size);
      assert bs == bs[..i] + ([bs[i], bs[i+1]] + bs[i+2..]);
      assert MergeAt(bs, i) == bs[..i] + ([m] + bs[i+2..]);
      SumConcat(bs[..i], [bs[i], bs[i+1]] + bs[i+2..]);
      SumConcat(bs[..i], [m] + bs[i+2..]);
      SumConcat([bs[i], bs[i+1]], bs[i+2..]);
      SumConcat([m], bs[i+2..]);
      assert Sum([bs[i], bs[i+1]]) == bs[i].size + bs[i+1].size by { assert [bs[i], bs[i+1]][1..] == [bs[i+1]]; }
    }
  }

  predicate TouchOnly(bs: seq<Block>, lo: nat, hi: nat) {
    forall i :: 0 <= i < |bs| && Touch(bs, i) ==> lo <= i < hi
  }

  lemma InsertAt(bs: seq<Block>, i: nat, b: Block, k: nat)
    requires i <= |bs| && k < |bs| + 1
    ensures Insert(bs, i, b)[k] == if k < i then bs[k] else if k == i then b else bs[k-1]
  {
  }

  lemma InsertSorted(bs: seq<Block>, t: nat, b: Block)
    requires Sorted(bs) && Fits(bs, t, b.addr) && b.size > 0 && ApartFrom(bs, b)
    ensures Sorted(Insert(bs, t + 1, b))
  {
    var r := Insert(bs, t + 1, b);
    assert Before(bs[t], b) by { assert t >= 1 ==> Apart(bs[t], b); }
    assert t + 1 < |bs| ==> Before(b, bs[t+1]) by { if t + 1 < |bs| { assert Apart(bs[t+1], b); } }
    forall p, q | 0 <= p < q < |r| ensures Before(r[p], r[q]) {
      InsertAt(bs, t + 1, b, p);
      InsertAt(bs, t + 1, b, q);
      if q == t + 1 && p < t { assert Before(bs[p], bs[t]); }
      if p == t + 1 && q > t + 2 { assert Before(bs[t+1], bs[q-1]); }
    }
    forall p | 1 <= p < |r| ensures r[p].size > 0 { InsertAt(bs, t + 1, b, p); }
    InsertAt(bs, t + 1, b, 0);
  }

  lemma InsertTouch(bs: seq<Block>, t: nat, b: Block)
    requires Ordered(bs) && t < |bs|
    ensures TouchOnly(Insert(bs, t + 1, b), t, t + 2)
  {
    var r := Insert(bs, t + 1, b);
    forall i | 0 <= i < |r| && Touch(r, i) ensures t <= i < t + 2 {
      InsertAt(bs, t + 1, b, i);
      InsertAt(bs, t + 1, b, i + 1);
      assert i < t ==> !Touch(bs, i);
      assert i > t + 1 ==> !Touch(bs, i - 1);
    }
  }

  lemma MergeIndex(bs: seq<Block>, i: nat, k: nat)
    requires Touch(bs, i) && k < |bs| - 1
    ensures MergeAt(bs, i)[k] == if k < i then bs[k] else if k == i then Block(bs[i].addr, bs[i].size + bs[i+1].size)
            else bs[k+1]
    ensures |MergeAt(bs, i)| == |bs| - 1
  {
  }

  lemma MergeSorted(bs: seq<Block>, i: nat)
    requires Sorted(bs)
    ensures Sorted(MergeAt(bs, i))
  {
    if Touch(bs, i) {
      assert Before(bs[i], bs[i+1]);
      var r := MergeAt(bs, i);
      forall p, q | 0 <= p < q < |r| ensures Before(r[p], r[q]) {
        MergeIndex(bs, i, p);
        MergeIndex(bs, i, q);
        assert Before(bs[if p < i then p else p + 1], bs[if q <= i then q else q + 1]) || p >= i;
        if p >= i { assert Before(bs[p+1], bs[q+1]); }
      }
      forall p | 1 <= p < |r| ensures r[p].size > 0 { MergeIndex(bs, i, p); }
      MergeIndex(bs, i, 0);
    }
  }

  lemma MergeTouch(bs: seq<Block>, lo: nat, i: nat)
    requires TouchOnly(bs, lo, i + 1)
    ensures TouchOnly(MergeAt(bs, i), lo, i)
  {
    var r := MergeAt(bs, i);
    forall k | 0 <= k < |r| && Touch(r, k) ensures lo <= k < i {
      if Touch(bs, i) {
        MergeIndex(bs, i, k);
        MergeIndex(bs, i, k + 1);
        assert k < i ==> Touch(bs, k);
        assert k >= i ==> Touch(bs, k + 1);
      } else {
        assert Touch(bs, k);
      }
    }
  }

  lemma MergeApart(bs: seq<Block>, i: nat, x: Block)
    requires Sorted(bs) && ApartFrom(bs, x) && x.size > 0
    ensures ApartFrom(MergeAt(bs, i), x)
  {
    if Touch(bs, i) {
      assert Before(bs[i], bs[i+1]);
      forall k | 1 <= k < |MergeAt(bs, i)| ensures Apart(MergeAt(bs, i)[k], x) {
        MergeIndex(bs, i, k);
        if k == i { assert Apart(bs[i], x) && Apart(bs[i+1], x); }
        else { assert Apart(bs[if k < i then k else k + 1], x); }
      }
    }
  }

  /** free keeps the list sorted and fully merged and conserves space. */
  lemma FreeIntoOk(bs: seq<Block>, t: nat, b: Block)
    requires Ordered(bs) && Fits(bs, t, b.addr) && b.size > 0 && ApartFrom(bs, b)
    ensures Ordered(FreeInto(bs, t, b)) && Sum(FreeInto(bs, t, b)) == Sum(bs) + b.size
  {
    var r := Insert(bs, t + 1, b);
    InsertSum(bs, t + 1, b);
    InsertSorted(bs, t, b);
    InsertTouch(bs, t, b);
    MergeSum(r, t + 1);
    MergeSorted(r, t + 1);
    MergeTouch(r, t, t + 1);
    MergeSum(MergeAt(r, t + 1), t);
    MergeSorted(MergeAt(r, t + 1), t);
    MergeTouch(MergeAt(r, t + 1), t, t);
  }

  /** free overlaps nothing that its parts did not overlap. */
  lemma FreeIntoApart(bs: seq<Block>, t: nat, b: Block, x: Block)
    requires Ordered(bs) && Fits(bs, t, b.addr) && b.size > 0 && ApartFrom(bs, b)
    requires ApartFrom(bs, x) && Apart(b, x) && x.size > 0
    ensures ApartFrom(FreeInto(bs, t, b), x)
  {
    var r := Insert(bs, t + 1, b);
    InsertSorted(bs, t, b);
    MergeSorted(r, t + 1);
    forall i | 1 <= i < |r| ensures Apart(r[i], x) { InsertAt(bs, t + 1, b, i); }
    MergeApart(r, t + 1, x);
    MergeApart(MergeAt(r, t + 1), t, x);
  }

  // ---------- what malloc does to the list ----------

  function Remove(bs: seq<Block>, i: nat): seq<Block>
    requires i < |bs|
  {
    bs[..i] + bs[i+1..]
  }

  lemma RemoveLast(bs: seq<Block>, b: Block)
    ensures Remove(bs + [b], |bs|) == bs && (bs + [b])[|bs|] == b
  {
  }

  /** Take n units: the whole of block i, or its upper end. */
  function TakeFrom(bs: seq<Block>, i: nat, n: nat): seq<Block>
    requires i < |bs| && n <= bs[i].size
  {
    if bs[i].size == n then Remove(bs, i) else bs[i := Block(bs[i].addr, bs[i].size - n)]
  }

  function Taken(b: Block, n: nat): Block
    requires n <= b.size
  {
    Block(b.addr + b.size - n, n)
  }

  // ---------- which memory is free ----------

  predicate In(b: Block, x: nat) {
    b.addr <= x < b.addr + b.size
  }

  /** Unit x of memory belongs to some block of the list. */
  ghost predicate Covers(bs: seq<Block>, x: nat) {
    exists i: nat :: i < |bs| && In(bs[i], x)
  }

  lemma InsertCovers(bs: seq<Block>, i: nat, b: Block, x: nat)
    requires i <= |bs|
    ensures Covers(Insert(bs, i, b), x) <==> Covers(bs, x) || In(b, x)
  {
    var r := Insert(bs, i, b);
    if k: nat :| k < |bs| && In(bs[k], x) { assert r[if k < i then k else k + 1] == bs[k]; }
    assert r[i] == b;
    if k: nat :| k < |r| && In(r[k], x) { assert k != i ==> r[k] == bs[if k < i then k else k - 1]; }
  }

  lemma MergeCovers(bs: seq<Block>, i: nat, x: nat)
    ensures Covers(MergeAt(bs, i), x) <==> Covers(bs, x)
  {
    var r := MergeAt(bs, i);
    if Touch(bs, i) {
      if k: nat :| k < |bs| && In(bs[k], x) { assert In(r[if k <= i then k else k - 1], x); }
      if k: nat :| k < |r| && In(r[k], x) {
        assert k < i ==> r[k] == bs[k];
        assert k > i ==> r[k] == bs[k + 1];
        assert k == i ==> In(bs[i], x) || In(bs[i + 1], x);
      }
    }
  }

  /** After free exactly the old free memory and the freed block are free. */
  lemma FreeIntoCovers(bs: seq<Block>, t: nat, b: Block, x: nat)
    requires t < |bs|
    ensures Covers(FreeInto(bs, t, b), x) <==> Covers(bs, x) || In(b, x)
  {
    var a := Insert(bs, t + 1, b);
    InsertCovers(bs, t + 1, b, x);
    MergeCovers(a, t + 1, x);
    MergeCovers(MergeAt(a, t + 1), t, x);
  }

  /** After malloc exactly what it returned is no longer free. */
  lemma TakeFromCovers(bs: seq<Block>, i: nat, n: nat, x: nat)
    requires Ordered(bs) && i < |bs| && n <= bs[i].size
    ensures Covers(TakeFrom(bs, i, n), x) <==> Covers(bs, x) && !In(Taken(bs[i], n), x)
  {
    var r := TakeFrom(bs, i, n);
    if k: nat :| k < |bs| && In(bs[k], x) && !In(Taken(bs[i], n), x) {
      assert k < i ==> Before(bs[k], bs[i]);
      assert k > i ==> Before(bs[i], bs[k]);
      assert In(r[if bs[i].size == n && k > i then k - 1 else k], x);
    }
    if k: nat :| k < |r| && In(r[k], x) {
      var j := if bs[i].size == n && k >= i then k + 1 else k;
      assert In(bs[j], x);
      assert j < i ==> Before(bs[j], bs[i]);
      assert j > i ==> Before(bs[i], bs[j]);
    }
  }

  lemma RemoveAt(bs: seq<Block>, i: nat, k: nat)
    requires i < |bs| && k < |bs| - 1
    ensures Remove(bs, i)[k] == bs[if k < i then k else k + 1]
  {
  }

  lemma RemoveOrdered(bs: seq<Block>, i: nat)
    requires Ordered(bs) && 1 <= i < |bs|
    ensures Ordered(Remove(bs, i))
  {
    var r := Remove(bs, i);
    forall p, q | 0 <= p < q < |r| ensures Before(r[p], r[q]) {
      RemoveAt(bs, i, p);
      RemoveAt(bs, i, q);
    }
    forall p | 1 <= p < |r| ensures r[p].size > 0 { RemoveAt(bs, i, p); }
    RemoveAt(bs, i, 0);
    forall k | 0 <= k < |r| ensures !Touch(r, k) {
      if k + 1 < |r| {
        RemoveAt(bs, i, k);
        RemoveAt(bs, i, k + 1);
        assert !Touch(bs, k) && !Touch(bs, k + 1);
        if k + 1 == i { assert Before(bs[k], bs[i]) && Before(bs[i], bs[i+1]); }
      }
    }
  }

  lemma ShrinkOrdered(bs: seq<Block>, i: nat, n: nat)
    requires Ordered(bs) && 1 <= i < |bs| && 0 < n < bs[i].size
    ensures Ordered(bs[i := Block(bs[i].addr, bs[i].size - n)])
  {
    var r := bs[i := Block(bs[i].addr, bs[i].size - n)];
    forall p, q | 0 <= p < q < |r| ensures Before(r[p], r[q]) { assert Before(bs[p], bs[q]); }
    forall k | 0 <= k < |r| ensures !Touch(r, k) {
      assert !Touch(bs, k);
      if k == i && k + 1 < |bs| { assert Before(bs[k], bs[k+1]); }
    }
  }

  /** malloc keeps the list sorted and merged and conserves space. */
  lemma TakeFromOk(bs: seq<Block>, i: nat, n: nat)
    requires Ordered(bs) && 1 <= i < |bs| && 0 < n <= bs[i].size
    ensures Ordered(TakeFrom(bs, i, n)) && Sum(bs) == Sum(TakeFrom(bs, i, n)) + n
    ensures ApartFrom(TakeFrom(bs, i, n), Taken(bs[i], n))
  {
    SumSplit(bs, i);
    var b := Taken(bs[i], n);
    if bs[i].size == n {
      RemoveOrdered(bs, i);
      SumConcat(bs[..i], bs[i+1..]);
    } else {
      ShrinkOrdered(bs, i, n);
      var r := TakeFrom(bs, i, n);
      SumSplit(r, i);
      assert r[..i] == bs[..i] && r[i+1..] == bs[i+1..];
    }
    forall k | 1 <= k < |TakeFrom(bs, i, n)| ensures Apart(TakeFrom(bs, i, n)[k], b) {
      if bs[i].size == n { RemoveAt(bs, i, k); }
      var k' := if bs[i].size == n && k >= i then k + 1 else k;
      assert k' < i ==> Before(bs[k'], bs[i]);
      assert k' > i ==> Before(bs[i], bs[k']);
    }
  }

  lemma TakeFromApart(bs: seq<Block>, i: nat, n: nat, x: Block)
    requires Ordered(bs) && 1 <= i < |bs| && 0 < n <= bs[i].size && ApartFrom(bs, x)
    ensures ApartFrom(TakeFrom(bs, i, n), x) && Apart(Taken(bs[i], n), x)
  {
    assert Apart(bs[i], x);
    forall k | 1 <= k < |TakeFrom(bs, i, n)| ensures Apart(TakeFrom(bs, i, n)[k], x) {
      if bs[i].size == n { RemoveAt(bs, i, k); }
      assert Apart(bs[if bs[i].size == n && k >= i then k + 1 else k], x);
    }
  }

  // ---------- the list in memory ----------

  lemma SpellsInsert(ptr: map<nat, nat>, size: map<nat, nat>, bs: seq<Block>, t: nat, b: Block)
    requires Spells(ptr, size, bs) && Sorted(bs) && Fits(bs, t, b.addr) && b.addr in size && size[b.addr] == b.size
    requires bs[t].addr in ptr
    ensures Spells(ptr[b.addr := ptr[bs[t].addr]][bs[t].addr := b.addr], size, Insert(bs, t + 1, b))
  {
    var r := Insert(bs, t + 1, b);
    var ptr' := ptr[b.addr := ptr[bs[t].addr]][bs[t].addr := b.addr];
    assert Spelled(ptr, size, bs[t], bs[Succ(bs, t)].addr);
    forall k | 0 <= k < |r| ensures Spelled(ptr', size, r[k], r[Succ(r, k)].addr) {
      InsertAt(bs, t + 1, b, k);
      InsertAt(bs, t + 1, b, Succ(r, k));
      var k' := if k <= t then k else k - 1;
      if k != t && k != t + 1 {
        assert Spelled(ptr, size, bs[k'], bs[Succ(bs, k')].addr);
        assert k' < t ==> Before(bs[k'], bs[t]);
        assert k' > t ==> Before(bs[t], bs[k']) && (k' > t + 1 ==> Before(bs[t+1], bs[k']));
      }
    }
  }

  lemma SpellsMergeAt(ptr: map<nat, nat>, size: map<nat, nat>, bs: seq<Block>, i: nat, k: nat)
    requires Spells(ptr, size, bs) && Sorted(bs) && Touch(bs, i) && k < |bs| - 1
    requires Spelled(ptr, size, bs[i], bs[i+1].addr) && Spelled(ptr, size, bs[i+1], bs[Succ(bs, i + 1)].addr)
    ensures var r := MergeAt(bs, i);
            Spelled(ptr[bs[i].addr := ptr[bs[i+1].addr]], size[bs[i].addr := bs[i].size + bs[i+1].size], r[k],
              r[Succ(r, k)].addr)
  {
    var r := MergeAt(bs, i);
    MergeIndex(bs, i, k);
    MergeIndex(bs, i, Succ(r, k));
    var k' := if k <= i then k else k + 1;
    assert Spelled(ptr, size, bs[k'], bs[Succ(bs, k')].addr);
    assert k' < i ==> Before(bs[k'], bs[i]);
    assert k' > i ==> Before(bs[i], bs[k']);
  }

  lemma SpellsMerge(ptr: map<nat, nat>, size: map<nat, nat>, bs: seq<Block>, i: nat)
    requires Spells(ptr, size, bs) && Sorted(bs) && Touch(bs, i)
    ensures bs[i+1].addr in ptr && bs[i+1].addr in size && bs[i].addr in size
    ensures Spells(ptr[bs[i].addr := ptr[bs[i+1].addr]], size[bs[i].addr := size[bs[i].addr] + size[bs[i+1].addr]],
            MergeAt(bs, i))
  {
    assert Spelled(ptr, size, bs[i], bs[Succ(bs, i)].addr) && Spelled(ptr, size, bs[i+1], bs[Succ(bs, i + 1)].addr);
    var r := MergeAt(bs, i);
    var ptr' := ptr[bs[i].addr := ptr[bs[i+1].addr]];
    var size' := size[bs[i].addr := size[bs[i].addr] + size[bs[i+1].addr]];
    forall k | 0 <= k < |r|
      ensures Spelled(ptr', size', r[k], r[Succ(r, k)].addr)
    {
      SpellsMergeAt(ptr, size, bs, i, k);
    }
  }

  lemma SpellsRemove(ptr: map<nat, nat>, size: map<nat, nat>, bs: seq<Block>, i: nat)
    requires Spells(ptr, size, bs) && Sorted(bs) && 1 <= i < |bs|
    ensures bs[i].addr in ptr && Spells(ptr[bs[i-1].addr := ptr[bs[i].addr]], size, Remove(bs, i))
  {
    assert Spelled(ptr, size, bs[i-1], bs[Succ(bs, i - 1)].addr) && Spelled(ptr, size, bs[i], bs[Succ(bs, i)].addr);
    var r := Remove(bs, i);
    var ptr' := ptr[bs[i-1].addr := ptr[bs[i].addr]];
    forall k | 0 <= k < |r| ensures Spelled(ptr', size, r[k], r[Succ(r, k)].addr) {
      RemoveAt(bs, i, k);
      RemoveAt(bs, i, Succ(r, k));
      var k' := if k < i then k else k + 1;
      assert Spelled(ptr, size, bs[k'], bs[Succ(bs, k')].addr);
      assert k' < i - 1 ==> Before(bs[k'], bs[i-1]);
      assert k' > i ==> Before(bs[i-1], bs[k']);
    }
  }

  lemma SpellsShrink(ptr: map<nat, nat>, size: map<nat, nat>, bs: seq<Block>, i: nat, n: nat)
    requires Spells(ptr, size, bs) && Sorted(bs) && 1 <= i < |bs| && 0 < n < bs[i].size
    ensures var b := Taken(bs[i], n);
            Spells(ptr, size[bs[i].addr := bs[i].size - n][b.addr := n], bs[i := Block(bs[i].addr, bs[i].size - n)])
  {
    var b := Taken(bs[i], n);
    var r := bs[i := Block(bs[i].addr, bs[i].size - n)];
    var size' := size[bs[i].addr := bs[i].size - n][b.addr := n];
    forall k | 0 <= k < |r| ensures Spelled(ptr, size', r[k], r[Succ(r, k)].addr) {
      assert Spelled(ptr, size, bs[k], bs[Succ(bs, k)].addr);
      assert r[Succ(r, k)].addr == bs[Succ(bs, k)].addr;
      assert k < i ==> Before(bs[k], bs[i]);
      assert k > i ==> Before(bs[i], bs[k]);
    }
  }

  // ---------- the allocator ----------

  /** Steps along the circle from position i to position j. */
  function Dist(n: nat, i: nat, j: nat): nat
    requires i < n && j < n
  {
    if i <= j then j - i else n - i + j
  }

  /** Units malloc asks for: the bytes rounded up, and one for the header. */
  function Units(nbytes: nat): nat {
    (nbytes + HEADER - 1) / HEADER + 1
  }

  ghost predicate LiveOk(bs: seq<Block>, live: seq<Block>, size: map<nat, nat>, brk: nat) {
    && (forall j :: 0 <= j < |live| ==> LiveBlockOk(bs, live[j], size, brk))
    && (forall i, j :: 0 <= i < j < |live| ==> Apart(live[i], live[j]))
  }

  ghost predicate LiveBlockOk(bs: seq<Block>, b: Block, size: map<nat, nat>, brk: nat) {
    && b.size > 0 && b.addr > BASE && b.addr + b.size <= brk && b.addr in size && size[b.addr] == b.size
    && ApartFrom(bs, b)
  }

  ghost predicate Below(bs: seq<Block>, brk: nat) {
    forall i :: 0 <= i < |bs| ==> bs[i].addr + bs[i].size <= brk && bs[i].addr < brk
  }

  /** Everything the allocator keeps true between calls. */
  ghost predicate HeapOk(ptr: map<nat, nat>, size: map<nat, nat>, freep: nat, brk: nat,
                         bs: seq<Block>, live: seq<Block>, got: nat) {
    && Ordered(bs) && Spells(ptr, size, bs) && Below(bs, brk) && InList(bs, freep)
    && LiveOk(bs, live, size, brk)
    && got == Sum(bs) + Sum(live)
  }

  ghost predicate InList(bs: seq<Block>, p: nat) {
    exists f :: 0 <= f < |bs| && bs[f].addr == p
  }

  class Heap {
    var ptr: map<nat, nat>
    var size: map<nat, nat>
    var freep: nat                    // 0 before the first malloc
    var brk: nat                      // everything sbrk has granted lies below
    ghost var bs: seq<Block>
    ghost var live: seq<Block>
    ghost var got: nat                // units granted by sbrk

    ghost predicate Ready()
      reads this
    {
      HeapOk(ptr, size, freep, brk, bs, live, got)
    }

    ghost predicate Valid()
      reads this
    {
      if freep == 0 then brk > BASE && live == [] && got == 0 else Ready()
    }

    constructor (brk0: nat)
      requires brk0 > BASE
      ensures Valid() && freep == 0 && live == [] && brk == brk0 && got == 0
    {
      ptr, size, freep, brk := map[], map[], 0, brk0;
      bs, live, got := [], [], 0;
    }

    /** The search loop of free: where bp belongs. */
    method FindPlace(bp: nat) returns (p: nat, ghost t: nat)
      requires Ready() && bp > BASE && forall i :: 0 <= i < |bs| ==> bs[i].addr != bp
      ensures Fits(bs, t, bp) && p == bs[t].addr && p in ptr
    {
      t := PlaceExists(bs, bp);
      p := freep;
      ghost var k :| 0 <= k < |bs| && bs[k].addr == freep;
      assert Spelled(ptr, size, bs[k], bs[Succ(bs, k)].addr);
      while !(bp > p && bp < ptr[p])
        invariant 0 <= k < |bs| && p == bs[k].addr && p in ptr && ptr[p] == bs[Succ(bs, k)].addr
        decreases Dist(|bs|, k, t)
      {
        assert Spelled(ptr, size, bs[k], bs[Succ(bs, k)].addr);
        assert k < t ==> Before(bs[k], bs[t]);
        assert k > t ==> Before(bs[t], bs[k]) && Before(bs[t], bs[t+1]) && (k > t + 1 ==> Before(bs[t+1], bs[k]));
        assert k > 0 ==> Before(bs[0], bs[k]);
        if p >= ptr[p] && (bp > p || bp < ptr[p]) {
          break;
        }
        p := ptr[p];
        k := Succ(bs, k);
        assert Spelled(ptr, size, bs[k], bs[Succ(bs, k)].addr);
      }
      t := k;
    }

    /** The assignments of free. */
    method LinkIn(p: nat, bp: nat)
      requires p in ptr && p in size && bp in size && ptr[p] in ptr && ptr[p] in size
      modifies `ptr, `size
      ensures (ptr, size) == FreedHeaders(old(ptr), old(size), p, bp)
    {
      var nxt := ptr[p];
      if bp + size[bp] == nxt {
        size := size[bp := size[bp] + size[nxt]];
        ptr := ptr[bp := ptr[nxt]];
      } else {
        ptr := ptr[bp := nxt];
      }
      if p + size[p] == bp {
        size := size[p := size[p] + size[bp]];
        ptr := ptr[p := ptr[bp]];
      } else {
        ptr := ptr[p := bp];
      }
    }

    /** free, given the header of live block j. */
    method Free(bp: nat, ghost j: nat) returns (ghost t: nat)
      requires Ready() && j < |live| && live[j].addr == bp
      modifies this
      ensures Ready() && brk == old(brk) && got == old(got) && live == Remove(old(live), j)
      ensures Fits(old(bs), t, bp) && freep == old(bs)[t].addr && IsFreeInto(old(bs), t, old(live)[j], bs)
    {
      NoFreeAddr(bs, live[j], size, brk);
      var p;
      p, t := FindPlace(bp);
      FreeHeapOk(ptr, size, freep, brk, bs, live, got, t, j);
      LinkIn(p, bp);
      freep := p;
      bs := FreeInto(bs, t, live[j]);
      live := Remove(live, j);
    }

    /** morecore.  `granted` and `gap` are sbrk's answer: whether it succeeds, and how far above
        the previous grant the new one starts. */
    method Morecore(nu: nat, granted: bool, gap: nat) returns (p: nat, ghost f: nat, ghost g: nat)
      requires Ready()
      modifies this
      ensures Ready() && live == old(live)
      ensures !granted ==> p == 0 && bs == old(bs) && freep == old(freep) && got == old(got) && brk == old(brk)
      ensures granted ==> p == freep && p != 0 && f < |bs| && bs[f].addr == freep && g < |bs| && bs[g].size >= nu
      ensures granted ==> got == old(got) + (if nu < MORE then MORE else nu) && brk == old(brk) + gap + (got - old(got))
      ensures granted ==> IsFreeInto(old(bs), f, Block(old(brk) + gap, got - old(got)), bs)
    {
      var n := nu;
      if n < MORE {
        n := MORE;
      }
      f, g := 0, 0;
      if !granted {
        return 0, 0, 0;
      }
      f := AddGrant(n, gap);
      g := HeadAndBig(old(bs), f, Block(old(brk) + gap, n), bs);
      p := freep;
      assert f > 0 ==> Before(bs[0], bs[f]);
    }

    /** What sbrk granted becomes a block, and is freed. */
    method AddGrant(n: nat, gap: nat) returns (ghost f: nat)
      requires Ready() && n > 0
      modifies this
      ensures Ready() && live == old(live) && got == old(got) + n && brk == old(brk) + gap + n
      ensures Fits(old(bs), f, old(brk) + gap) && freep == old(bs)[f].addr
      ensures IsFreeInto(old(bs), f, Block(old(brk) + gap, n), bs)
    {
      var hp := brk + gap;
      Grant(hp, n);
      f := Free(hp, |live| - 1);
      RemoveLast(old(live), Block(hp, n));
    }

    /** The header that morecore writes makes the grant a block, as if malloc had returned it. */
    method Grant(hp: nat, n: nat)
      requires Ready() && n > 0 && hp >= brk
      modifies this
      ensures Ready() && live == old(live) + [Block(hp, n)] && got == old(got) + n && brk == hp + n
      ensures bs == old(bs) && freep == old(freep)
    {
      GrowHeapOk(ptr, size, freep, brk, bs, live, got, hp, n);
      brk := hp + n;
      size := size[hp := n];
      live := live + [Block(hp, n)];
      got := got + n;
    }

    /** The assignments of malloc once p is large enough. */
    method Carve(prevp: nat, p: nat, nunits: nat) returns (a: nat)
      requires p in ptr && p in size && size[p] >= nunits
      modifies `ptr, `size
      ensures var n := old(size)[p];
              && a == p + n - nunits
              && ptr == (if n == nunits then old(ptr)[prevp := old(ptr)[p]] else old(ptr))
              && size == (if n == nunits then old(size) else old(size)[p := n - nunits][a := nunits])
    {
      a := p;
      if size[p] == nunits {
        ptr := ptr[prevp := ptr[p]];
      } else {
        size := size[a := size[a] - nunits];
        a := a + size[a];
        size := size[a := nunits];
      }
    }

    /** What malloc does with a block that is large enough. */
    method Take(prevp: nat, p: nat, nunits: nat, ghost k: nat) returns (a: nat)
      requires Ready() && 1 <= k < |bs| && bs[k].addr == p && bs[k-1].addr == prevp && 0 < nunits <= bs[k].size
      modifies this
      ensures Ready() && a == Taken(old(bs)[k], nunits).addr && freep == prevp && brk == old(brk) && got == old(got)
      ensures bs == TakeFrom(old(bs), k, nunits) && live == old(live) + [Block(a, nunits)]
    {
      TakeHeapOk(ptr, size, freep, brk, bs, live, got, k, nunits);
      a := Carve(prevp, p, nunits);
      assert Block(a, nunits) == Taken(bs[k], nunits);
      freep := prevp;
      live := live + [Block(a, nunits)];
      bs := TakeFrom(bs, k, nunits);
    }

    /** The first call makes `base` a list of one. */
    method Start()
      requires Valid()
      modifies this
      ensures freep != 0 && Ready() && live == old(live) && got == old(got) && brk == old(brk)
      ensures bs == StartList(old(freep), old(bs)) && freep == StartAt(old(freep))
    {
      if freep == 0 {
        ptr, size, freep, bs := map[BASE := BASE], map[BASE := 0], BASE, [Block(BASE, 0)];
        assert bs[0].addr == freep;
      } else {
        FreepNonzero(bs, freep);
      }
    }

    /** malloc; 0 is a null result.  The search goes once round the circle, from the block after freep: the
        first block that is large enough is used; sbrk is asked only if there is none, and null is the
        result only if it then refuses. */
    method Malloc(nbytes: nat, granted: bool, gap: nat) returns (r: nat)
      requires Valid() && Units(nbytes) * HEADER < 0x8000_0000   // sbrk takes an int
      modifies this
      ensures freep != 0 && Ready()
      ensures r == 0 ==> !granted && live == old(live) && got == old(got)
      ensures r != 0 ==> live == old(live) + [Block(r - 1, Units(nbytes))]
      ensures (Units(nbytes) - 2) * HEADER < nbytes <= (Units(nbytes) - 1) * HEADER
      ensures got == old(got) || (granted && got == old(got) + (if Units(nbytes) < MORE then MORE else Units(nbytes)))
      ensures r == 0 || got != old(got) ==> AllSmall(StartList(old(freep), old(bs)), Units(nbytes))
      ensures r == 0 ==> bs == StartList(old(freep), old(bs))
      ensures !AllSmall(StartList(old(freep), old(bs)), Units(nbytes)) ==>
                && r != 0 && got == old(got)
                && FirstFitTaken(StartList(old(freep), old(bs)), StartAt(old(freep)), bs, freep,
                                 Block(r - 1, Units(nbytes)))
    {
      var nunits := Units(nbytes);
      r := Search(nunits, granted, gap);
    }

    /** malloc after the list exists. */
    method Search(nunits: nat, granted: bool, gap: nat) returns (r: nat)
      requires Valid() && 0 < nunits && nunits * HEADER < 0x8000_0000
      modifies this
      ensures freep != 0 && Ready()
      ensures r == 0 ==> !granted && live == old(live) && got == old(got)
      ensures r != 0 ==> live == old(live) + [Block(r - 1, nunits)]
      ensures got == old(got) || (granted && got == old(got) + (if nunits < MORE then MORE else nunits))
      ensures r == 0 || got != old(got) ==> AllSmall(StartList(old(freep), old(bs)), nunits)
      ensures r == 0 ==> bs == StartList(old(freep), old(bs))
      ensures !AllSmall(StartList(old(freep), old(bs)), nunits) ==>
                && r != 0 && got == old(got)
                && FirstFitTaken(StartList(old(freep), old(bs)), StartAt(old(freep)), bs, freep, Block(r - 1, nunits))
    {
      Start();
      r := GoRound(nunits, granted, gap);
    }

    /** malloc's loop. */
    method GoRound(nunits: nat, granted: bool, gap: nat) returns (r: nat)
      requires freep != 0 && Ready() && 0 < nunits
      modifies this
      ensures freep != 0 && Ready()
      ensures r == 0 ==> !granted && live == old(live) && got == old(got) && bs == old(bs) && AllSmall(bs, nunits)
      ensures r != 0 ==> live == old(live) + [Block(r - 1, nunits)]
      ensures r != 0 && !AllSmall(old(bs), nunits) ==>
                got == old(got) && FirstFitTaken(old(bs), old(freep), bs, freep, Block(r - 1, nunits))
      ensures got == old(got) || (granted && got == old(got) + (if nunits < MORE then MORE else nunits))
    {
      var prevp := freep;
      ghost var f: nat :| f < |bs| && bs[f].addr == freep;
      SpelledAt(ptr, size, bs, f);
      var p := ptr[prevp];
      ghost var k: nat, g: nat, grown := Succ(bs, f), 0, false;
      SeenNone(bs, nunits, f);
      while true
        invariant freep != 0 && Ready() && live == old(live)
        invariant OnCircle(bs, freep, f, prevp, p, k)
        invariant got == if grown then old(got) + (if nunits < MORE then MORE else nunits) else old(got)
        invariant SearchOk(old(bs), old(freep), bs, freep, nunits, granted, f, k, g, grown) && (grown ==> g < |bs|)
        decreases !grown, if grown then Dist(|bs|, k, g) else Dist(|bs|, k, f)
      {
        SpelledAt(ptr, size, bs, k);
        if size[p] >= nunits {
          r := Use(old(bs), old(freep), prevp, p, nunits, granted, f, k, g, grown);
          return;
        }
        var ok;
        ok, prevp, p, f, k, g, grown := Miss(old(bs), old(freep), nunits, granted, gap, p, f, k, g, grown);
        if !ok {
          return 0;
        }
      }
    }

    /** Block p is large enough; the result is the address after its header. */
    method Use(ghost bs0: seq<Block>, ghost freep0: nat, prevp: nat, p: nat, nunits: nat, ghost granted: bool,
               ghost f: nat, ghost k: nat, ghost g: nat, ghost grown: bool) returns (r: nat)
      requires Ready() && OnCircle(bs, freep, f, prevp, p, k) && 0 < nunits <= bs[k].size
      requires SearchOk(bs0, freep0, bs, freep, nunits, granted, f, k, g, grown)
      modifies this
      ensures freep != 0 && Ready() && r != 0 && got == old(got) && live == old(live) + [Block(r - 1, nunits)]
      ensures if grown then granted && AllSmall(bs0, nunits)
              else FirstFitTaken(bs0, freep0, bs, freep, Block(r - 1, nunits))
    {
      assert Unfold(0);
      var a := Take(prevp, p, nunits, k);
      FreepNonzero(bs, freep);
      r := a + 1;
      if !grown { assert FitTaken(bs0, freep0, f, k, bs, freep, Block(a, nunits)); }
    }

    /** The rest of malloc's loop when block p is too small: morecore at freep, then move on. */
    method Miss(ghost bs0: seq<Block>, ghost freep0: nat, nunits: nat, granted: bool, gap: nat, at: nat, ghost f: nat,
                ghost k: nat, ghost g: nat, ghost grown: bool)
      returns (ok: bool, prevp: nat, p: nat, ghost f': nat, ghost k': nat, ghost g': nat, ghost grown': bool)
      requires freep != 0 && Ready() && f < |bs| && bs[f].addr == freep && k < |bs| && bs[k].addr == at
               && bs[k].size < nunits && (grown ==> g < |bs|)
      requires SearchOk(bs0, freep0, bs, freep, nunits, granted, f, k, g, grown)
      modifies this
      ensures freep != 0 && Ready() && live == old(live) && (grown ==> grown')
      ensures got == if grown' && !grown then old(got) + (if nunits < MORE then MORE else nunits) else old(got)
      ensures !ok ==> !granted && !grown' && bs == bs0 && AllSmall(bs, nunits)
      ensures ok ==> OnCircle(bs, freep, f', prevp, p, k') && (grown' ==> g' < |bs|)
      ensures ok ==> SearchOk(bs0, freep0, bs, freep, nunits, granted, f', k', g', grown')
      ensures ok && grown' == grown ==>
                (if grown then Dist(|bs|, k', g') < Dist(|old(bs)|, k, g)
                  else Dist(|bs|, k', f') < Dist(|old(bs)|, k, f))
    {
      f', k', g', grown', ok, p := f, k, g, grown, true, at;
      prevp := at;
      if p == freep {
        SameSlot(bs, k, f);
        BackAtFreep(bs0, freep0, bs, freep, nunits, granted, f, g, grown);
        ok, p, f', g' := AskMore(nunits, granted, gap, f);
        if !ok { return; }
        k', grown' := f', true;
        AfterGrowth(bs0, freep0, bs, freep, nunits, granted, f', g');
      } else {
        SearchMore(bs0, freep0, bs, freep, nunits, granted, f, k, g, grown);
      }
      prevp, p, k' := Follow(p, k');
    }

    /** The search is back at freep. */
    method AskMore(nunits: nat, granted: bool, gap: nat, ghost f: nat)
      returns (ok: bool, p: nat, ghost f': nat, ghost g': nat)
      requires freep != 0 && Ready() && f < |bs| && bs[f].addr == freep && bs[f].size < nunits
      requires Seen(bs, nunits, f, f)
      modifies this
      ensures freep != 0 && Ready() && live == old(live) && ok == granted && AllSmall(old(bs), nunits)
      ensures !ok ==> bs == old(bs) && freep == old(freep) && got == old(got)
      ensures ok ==> p == freep && f' < |bs| && bs[f'].addr == freep && g' < |bs| && bs[g'].size >= nunits
      ensures ok ==> got == old(got) + (if nunits < MORE then MORE else nunits)
    {
      SeenAll(bs, nunits, f);
      p, f', g' := Morecore(nunits, granted, gap);
      ok := p != 0;
    }

    /** The search moves one block along the circle. */
    method Follow(at: nat, ghost k: nat) returns (prevp: nat, p: nat, ghost k': nat)
      requires Spells(ptr, size, bs) && k < |bs| && bs[k].addr == at
      ensures prevp == at && k' == Succ(bs, k) && p == bs[k'].addr
    {
      SpelledAt(ptr, size, bs, k);
      prevp := at;
      p := ptr[at];
      k' := Succ(bs, k);
    }
  }

  /** The free list malloc starts from. */
  function StartList(freep: nat, bs: seq<Block>): seq<Block> {
    if freep == 0 then [Block(BASE, 0)] else bs
  }

  function StartAt(freep: nat): nat {
    if freep == 0 then BASE else freep
  }

  predicate AllSmall(bs: seq<Block>, nunits: nat) {
    forall i: nat :: i < |bs| ==> bs[i].size < nunits
  }

  /** The search, which starts after freep at block f, has found every block before block k too small. */
  predicate Seen(bs: seq<Block>, nunits: nat, f: nat, k: nat) {
    && f < |bs| && k < |bs|
    && forall i: nat :: i < |bs| && Dist(|bs|, Succ(bs, f), i) < Dist(|bs|, Succ(bs, f), k) ==> bs[i].size < nunits
  }

  /** Block k is the first one that is large enough. */
  predicate FirstFit(bs: seq<Block>, f: nat, nunits: nat, k: nat) {
    Seen(bs, nunits, f, k) && bs[k].size >= nunits
  }

  /** Block b was carved from the end of the first one after freep that is large enough. */
  ghost predicate FirstFitTaken(bs: seq<Block>, freep: nat, bs': seq<Block>, freep': nat, b: Block) {
    exists f: nat, k: nat :: FitTaken(bs, freep, f, k, bs', freep', b)
  }

  ghost predicate FitTaken(bs: seq<Block>, freep: nat, f: nat, k: nat, bs': seq<Block>, freep': nat, b: Block) {
    && FirstFit(bs, f, b.size, k) && bs[f].addr == freep && 1 <= k && b.size > 0
    && bs' == TakeFrom(bs, k, b.size) && freep' == bs[k - 1].addr && b == Taken(bs[k], b.size)
  }

  // SearchOk keeps its parts under a quantifier too.

  /** How far the search is: every block before k was too small; or all were, and sbrk has granted more. */
  ghost predicate SearchOk(bs0: seq<Block>, freep0: nat, bs: seq<Block>, freep: nat, nunits: nat, granted: bool,
                           f: nat, k: nat, g: nat, grown: bool) {
    forall x: int :: Unfold(x) ==>
      if grown then granted && Ahead(bs, nunits, k, g, f) && AllSmall(bs0, nunits)
      else bs == bs0 && freep == freep0 && Seen(bs, nunits, f, k)
  }

  /** The search reaches freep only if it has not grown the list: what was granted lies before. */
  lemma BackAtFreep(bs0: seq<Block>, freep0: nat, bs: seq<Block>, freep: nat, nunits: nat, granted: bool,
                    f: nat, g: nat, grown: bool)
    requires SearchOk(bs0, freep0, bs, freep, nunits, granted, f, f, g, grown) && f < |bs| && bs[f].size < nunits
    ensures !grown && bs == bs0 && freep == freep0 && Seen(bs, nunits, f, f)
  {
    assert Unfold(0);
  }

  lemma AfterGrowth(bs0: seq<Block>, freep0: nat, bs: seq<Block>, freep: nat, nunits: nat, granted: bool, f: nat,
                    g: nat)
    requires granted && AllSmall(bs0, nunits) && f < |bs| && g < |bs| && bs[g].size >= nunits
    ensures SearchOk(bs0, freep0, bs, freep, nunits, granted, f, Succ(bs, f), g, true)
  {
  }

  /** Block k was too small and is not freep's. */
  lemma SearchMore(bs0: seq<Block>, freep0: nat, bs: seq<Block>, freep: nat, nunits: nat, granted: bool,
                   f: nat, k: nat, g: nat, grown: bool)
    requires SearchOk(bs0, freep0, bs, freep, nunits, granted, f, k, g, grown)
    requires f < |bs| && k < |bs| && (grown ==> g < |bs|) && k != f && bs[k].size < nunits
    ensures SearchOk(bs0, freep0, bs, freep, nunits, granted, f, Succ(bs, k), g, grown)
    ensures if grown then Dist(|bs|, Succ(bs, k), g) < Dist(|bs|, k, g)
            else Dist(|bs|, Succ(bs, k), f) < Dist(|bs|, k, f)
  {
    assert Unfold(0);
    if !grown { SeenMore(bs, nunits, f, k); }
  }

  lemma SeenNone(bs: seq<Block>, nunits: nat, f: nat)
    requires f < |bs|
    ensures Seen(bs, nunits, f, Succ(bs, f))
  {
  }

  lemma SeenMore(bs: seq<Block>, nunits: nat, f: nat, k: nat)
    requires Seen(bs, nunits, f, k) && k != f && bs[k].size < nunits
    ensures Seen(bs, nunits, f, Succ(bs, k))
  {
    var a := Succ(bs, f);
    forall i: nat | i < |bs| && Dist(|bs|, a, i) < Dist(|bs|, a, Succ(bs, k)) ensures bs[i].size < nunits {
      if i != k { assert Dist(|bs|, a, i) < Dist(|bs|, a, k); }
    }
  }

  /** Back at freep, everything has been seen. */
  lemma SeenAll(bs: seq<Block>, nunits: nat, f: nat)
    requires Seen(bs, nunits, f, f) && bs[f].size < nunits
    ensures AllSmall(bs, nunits)
  {
    forall i: nat | i < |bs| ensures bs[i].size < nunits {
      if i != f { assert Dist(|bs|, Succ(bs, f), i) < Dist(|bs|, Succ(bs, f), f); }
    }
  }

  /** The search cursor: p is block k of the list, prevp the block before it, freep block f. */
  ghost predicate OnCircle(bs: seq<Block>, freep: nat, f: nat, prevp: nat, p: nat, k: nat) {
    && f < |bs| && bs[f].addr == freep && k < |bs| && bs[k].addr == p
    && (k > 0 ==> bs[k-1].addr == prevp)
  }

  /** Block g is large enough and the search meets it no later than freep. */
  ghost predicate Ahead(bs: seq<Block>, nunits: nat, k: nat, g: nat, f: nat) {
    k < |bs| && f < |bs| && g < |bs| && bs[g].size >= nunits && Dist(|bs|, k, g) <= Dist(|bs|, k, f)
  }

  lemma SpelledAt(ptr: map<nat, nat>, size: map<nat, nat>, bs: seq<Block>, k: nat)
    requires Spells(ptr, size, bs) && k < |bs|
    ensures bs[k].addr in ptr && bs[k].addr in size && size[bs[k].addr] == bs[k].size
            && ptr[bs[k].addr] == bs[Succ(bs, k)].addr
  {
    assert Spelled(ptr, size, bs[k], bs[Succ(bs, k)].addr);
  }

  lemma SameSlot(bs: seq<Block>, k: nat, f: nat)
    requires Sorted(bs) && k < |bs| && f < |bs| && bs[k].addr == bs[f].addr
    ensures k == f
  {
    assert k < f ==> Before(bs[k], bs[f]);
    assert f < k ==> Before(bs[f], bs[k]);
  }

  lemma FreepNonzero(bs: seq<Block>, p: nat)
    requires Sorted(bs) && InList(bs, p)
    ensures p != 0
  {
    var f :| 0 <= f < |bs| && bs[f].addr == p;
    assert f > 0 ==> Before(bs[0], bs[f]);
  }

  lemma GrowHeapOk(ptr: map<nat, nat>, size: map<nat, nat>, freep: nat, brk: nat, bs: seq<Block>, live: seq<Block>,
                   got: nat, hp: nat, n: nat)
    requires HeapOk(ptr, size, freep, brk, bs, live, got) && hp >= brk && n > 0
    ensures HeapOk(ptr, size[hp := n], freep, hp + n, bs, live + [Block(hp, n)], got + n)
  {
    var size', live' := size[hp := n], live + [Block(hp, n)];
    forall i | 0 <= i < |bs| ensures Spelled(ptr, size', bs[i], bs[Succ(bs, i)].addr) {
      assert Spelled(ptr, size, bs[i], bs[Succ(bs, i)].addr);
    }
    forall j | 0 <= j < |live'| ensures LiveBlockOk(bs, live'[j], size', hp + n) {
      if j < |live| { assert LiveBlockOk(bs, live[j], size, brk); } else { assert bs[0].addr < brk; }
    }
    forall i, j | 0 <= i < j < |live'| ensures Apart(live'[i], live'[j]) {
      assert LiveBlockOk(bs, live[i], size, brk);
    }
    SumConcat(live, [Block(hp, n)]);
  }

  lemma FreeIntoBig(bs: seq<Block>, t: nat, b: Block) returns (g: nat)
    requires t < |bs|
    ensures g < |FreeInto(bs, t, b)| && FreeInto(bs, t, b)[g].size >= b.size
  {
    UpperAt(bs, t, b);
    var r := Insert(bs, t + 1, b);
    InsertAt(bs, t + 1, b, t + 1);
    var m := MergeAt(r, t + 1);
    if Touch(r, t + 1) { MergeIndex(r, t + 1, t + 1); }
    assert m[t+1].size >= b.size;
    if Touch(m, t) { MergeIndex(m, t, t); g := t; } else { g := t + 1; }
  }

  /** malloc's carving keeps the whole heap invariant. */
  lemma TakeHeapOk(ptr: map<nat, nat>, size: map<nat, nat>, freep: nat, brk: nat, bs: seq<Block>, live: seq<Block>,
                   got: nat, k: nat, n: nat)
    requires HeapOk(ptr, size, freep, brk, bs, live, got) && 1 <= k < |bs| && 0 < n <= bs[k].size
    ensures bs[k].addr in ptr && bs[k-1].addr in ptr && bs[k].addr in size && size[bs[k].addr] == bs[k].size
    ensures var b := Taken(bs[k], n);
            HeapOk(if bs[k].size == n then ptr[bs[k-1].addr := ptr[bs[k].addr]] else ptr,
                   if bs[k].size == n then size else size[bs[k].addr := bs[k].size - n][b.addr := n],
                   bs[k-1].addr, brk, TakeFrom(bs, k, n), live + [b], got)
  {
    assert Spelled(ptr, size, bs[k], bs[Succ(bs, k)].addr) && Spelled(ptr, size, bs[k-1], bs[Succ(bs, k - 1)].addr);
    var b, bs' := Taken(bs[k], n), TakeFrom(bs, k, n);
    var size' := if bs[k].size == n then size else size[bs[k].addr := bs[k].size - n][b.addr := n];
    TakeFromOk(bs, k, n);
    if bs[k].size == n {
      SpellsRemove(ptr, size, bs, k);
      RemoveAt(bs, k, k - 1);
    } else {
      SpellsShrink(ptr, size, bs, k, n);
    }
    assert bs'[k-1].addr == bs[k-1].addr;
    assert Below(bs', brk) by {
      forall i | 0 <= i < |bs'| ensures bs'[i].addr + bs'[i].size <= brk && bs'[i].addr < brk {
        if bs[k].size == n { RemoveAt(bs, k, i); }
      }
    }
    TakeLiveOk(size, brk, bs, live, k, n, size');
    SumConcat(live, [b]);
  }

  lemma TakeLiveOk(size: map<nat, nat>, brk: nat, bs: seq<Block>, live: seq<Block>, k: nat, n: nat,
                   size': map<nat, nat>)
    requires Ordered(bs) && Below(bs, brk) && LiveOk(bs, live, size, brk) && 1 <= k < |bs| && 0 < n <= bs[k].size
    requires bs[k].addr in size && size[bs[k].addr] == bs[k].size
    requires size' == if bs[k].size == n then size else size[bs[k].addr := bs[k].size - n][Taken(bs[k], n).addr := n]
    ensures LiveOk(TakeFrom(bs, k, n), live + [Taken(bs[k], n)], size', brk)
  {
    var b, bs', live' := Taken(bs[k], n), TakeFrom(bs, k, n), live + [Taken(bs[k], n)];
    TakeFromOk(bs, k, n);
    assert Before(bs[0], bs[k]);
    forall j | 0 <= j < |live'| ensures LiveBlockOk(bs', live'[j], size', brk) {
      if j < |live| {
        assert LiveBlockOk(bs, live[j], size, brk);
        TakeFromApart(bs, k, n, live[j]);
        assert Apart(bs[k], live[j]);
      }
    }
    forall i, j | 0 <= i < j < |live'| ensures Apart(live'[i], live'[j]) {
      if j == |live| { assert LiveBlockOk(bs, live[i], size, brk); TakeFromApart(bs, k, n, live[i]); }
    }
  }

  /** The assignments of free, as a function of the header maps. */
  function FreedHeaders(ptr: map<nat, nat>, size: map<nat, nat>, p: nat, bp: nat): (map<nat, nat>, map<nat, nat>)
    requires p in ptr && p in size && bp in size && ptr[p] in ptr && ptr[p] in size
  {
    var nxt := ptr[p];
    var joined := bp + size[bp] == nxt;
    var size1 := if joined then size[bp := size[bp] + size[nxt]] else size;
    var ptr1 := ptr[bp := if joined then ptr[nxt] else nxt];
    if p + size1[p] == bp
    then (ptr1[p := ptr1[bp]], size1[p := size1[p] + size1[bp]])
    else (ptr1[p := bp], size1)
  }

  lemma NoFreeAddr(bs: seq<Block>, b: Block, size: map<nat, nat>, brk: nat)
    requires Ordered(bs) && LiveBlockOk(bs, b, size, brk)
    ensures forall i :: 0 <= i < |bs| ==> bs[i].addr != b.addr
  {
    forall i | 0 <= i < |bs| ensures bs[i].addr != b.addr {
      if i > 0 { assert Apart(bs[i], b); }
    }
  }

  /** The first half of free: linked in after t and joined to the block above. */
  lemma FreeUpper(ptr: map<nat, nat>, size: map<nat, nat>, bs: seq<Block>, t: nat, b: Block)
    requires Spells(ptr, size, bs) && Ordered(bs) && Fits(bs, t, b.addr) && b.addr in size && size[b.addr] == b.size
    requires b.size > 0 && ApartFrom(bs, b)
    requires bs[t].addr in ptr && ptr[bs[t].addr] == bs[Succ(bs, t)].addr && bs[Succ(bs, t)].addr in ptr
             && bs[Succ(bs, t)].addr in size
    ensures var g := Linked(ptr, size, bs[t].addr, b.addr); Spells(g.0, g.1, MergeAt(Insert(bs, t + 1, b), t + 1))
  {
    var p: nat, nxt: nat := bs[t].addr, ptr[bs[t].addr];
    var r := Insert(bs, t + 1, b);
    var g1 := ptr[b.addr := nxt][p := b.addr];
    SpellsInsert(ptr, size, bs, t, b);
    InsertSorted(bs, t, b);
    InsertAt(bs, t + 1, b, t + 1);
    if t + 1 < |bs| { InsertAt(bs, t + 1, b, t + 2); }
    assert Touch(r, t + 1) <==> b.addr + b.size == nxt;
    if b.addr + b.size == nxt {
      assert Before(bs[t], bs[t+1]);
      SpellsMerge(g1, size, r, t + 1);
      assert g1[b.addr := g1[nxt]] == ptr[b.addr := ptr[nxt]][p := b.addr];
    }
  }

  lemma UpperAt(bs: seq<Block>, t: nat, b: Block)
    requires t < |bs|
    ensures var m := MergeAt(Insert(bs, t + 1, b), t + 1); |m| > t + 1 && m[t] == bs[t] && m[t+1].addr == b.addr
  {
    var r := Insert(bs, t + 1, b);
    InsertAt(bs, t + 1, b, t);
    InsertAt(bs, t + 1, b, t + 1);
    if Touch(r, t + 1) {
      MergeIndex(r, t + 1, t);
      MergeIndex(r, t + 1, t + 1);
    }
  }

  /** Headers after the first half of free, with the lower neighbour pointing at the block. */
  function Linked(ptr: map<nat, nat>, size: map<nat, nat>, p: nat, bp: nat): (map<nat, nat>, map<nat, nat>)
    requires p in ptr && bp in size && ptr[p] in ptr && ptr[p] in size
  {
    var nxt := ptr[p];
    var joined := bp + size[bp] == nxt;
    (ptr[bp := if joined then ptr[nxt] else nxt][p := bp], if joined then size[bp := size[bp] + size[nxt]] else size)
  }

  lemma FreedIsLinkedThenJoined(ptr: map<nat, nat>, size: map<nat, nat>, p: nat, bp: nat)
    requires p in ptr && p in size && bp in size && ptr[p] in ptr && ptr[p] in size && p != bp
    ensures var g := Linked(ptr, size, p, bp);
            FreedHeaders(ptr, size, p, bp) ==
              if p + g.1[p] == bp then (g.0[p := g.0[bp]], g.1[p := g.1[p] + g.1[bp]]) else g
  {
    var g := Linked(ptr, size, p, bp);
    assert g.0[p := g.0[bp]] == ptr[bp := g.0[bp]][p := g.0[bp]];
  }

  lemma FreeLower(ptr: map<nat, nat>, size: map<nat, nat>, m: seq<Block>, t: nat)
    requires Spells(ptr, size, m) && Sorted(m) && t + 1 < |m|
    ensures m[t].addr in ptr && m[t].addr in size && m[t+1].addr in ptr && m[t+1].addr in size
    ensures var p, bp := m[t].addr, m[t+1].addr;
            if p + size[p] == bp then Spells(ptr[p := ptr[bp]], size[p := size[p] + size[bp]], MergeAt(m, t))
            else MergeAt(m, t) == m
  {
    assert Spelled(ptr, size, m[t], m[Succ(m, t)].addr) && Spelled(ptr, size, m[t+1], m[Succ(m, t + 1)].addr);
    if Touch(m, t) { SpellsMerge(ptr, size, m, t); }
  }

  /** The assignments of free turn a spelling of the old list into a spelling of FreeInto. */
  lemma FreeMemory(ptr: map<nat, nat>, size: map<nat, nat>, bs: seq<Block>, t: nat, b: Block)
    requires Spells(ptr, size, bs) && Ordered(bs) && Fits(bs, t, b.addr) && b.addr in size && size[b.addr] == b.size
    requires b.size > 0 && ApartFrom(bs, b)
    ensures bs[t].addr in ptr && bs[t].addr in size && ptr[bs[t].addr] in ptr && ptr[bs[t].addr] in size
    ensures var h := FreedHeaders(ptr, size, bs[t].addr, b.addr); Spells(h.0, h.1, FreeInto(bs, t, b))
  {
    assert Spelled(ptr, size, bs[t], bs[Succ(bs, t)].addr);
    assert Spelled(ptr, size, bs[Succ(bs, t)], bs[Succ(bs, Succ(bs, t))].addr);
    FreeUpper(ptr, size, bs, t, b);
    UpperAt(bs, t, b);
    InsertSorted(bs, t, b);
    MergeSorted(Insert(bs, t + 1, b), t + 1);
    var g := Linked(ptr, size, bs[t].addr, b.addr);
    FreeLower(g.0, g.1, MergeAt(Insert(bs, t + 1, b), t + 1), t);
    FreedIsLinkedThenJoined(ptr, size, bs[t].addr, b.addr);
  }

  lemma MergeBelow(bs: seq<Block>, i: nat, brk: nat)
    requires Below(bs, brk)
    ensures Below(MergeAt(bs, i), brk)
  {
    if Touch(bs, i) {
      forall k | 0 <= k < |bs| - 1 ensures var c := MergeAt(bs, i)[k]; c.addr + c.size <= brk && c.addr < brk {
        MergeIndex(bs, i, k);
      }
    }
  }

  lemma FreeIntoBelow(bs: seq<Block>, t: nat, b: Block, brk: nat)
    requires Below(bs, brk) && t < |bs| && b.addr + b.size <= brk && b.size > 0
    ensures Below(FreeInto(bs, t, b), brk)
  {
    var r := Insert(bs, t + 1, b);
    forall k | 0 <= k < |r| ensures r[k].addr + r[k].size <= brk && r[k].addr < brk { InsertAt(bs, t + 1, b, k); }
    MergeBelow(r, t + 1, brk);
    MergeBelow(MergeAt(r, t + 1), t, brk);
  }

  /** The block before stays in place, so freep can point at it. */
  lemma FreeIntoHead(bs: seq<Block>, t: nat, b: Block)
    requires t < |bs|
    ensures t < |FreeInto(bs, t, b)| && FreeInto(bs, t, b)[t].addr == bs[t].addr
  {
    UpperAt(bs, t, b);
    var m := MergeAt(Insert(bs, t + 1, b), t + 1);
    if Touch(m, t) { MergeIndex(m, t, t); }
  }

  lemma HeadAndBig(bs: seq<Block>, t: nat, b: Block, bs': seq<Block>) returns (g: nat)
    requires IsFreeInto(bs, t, b, bs')
    ensures t < |bs'| && bs'[t].addr == bs[t].addr && g < |bs'| && bs'[g].size >= b.size
  {
    assert Unfold(0);
    FreeIntoHead(bs, t, b);
    g := FreeIntoBig(bs, t, b);
  }

  lemma RemoveLive(live: seq<Block>, j: nat, bs: seq<Block>, size: map<nat, nat>, bs': seq<Block>,
                   size': map<nat, nat>, brk: nat)
    requires LiveOk(bs, live, size, brk) && j < |live|
    requires forall i :: 0 <= i < |live| && i != j ==> LiveBlockOk(bs', live[i], size', brk)
    ensures LiveOk(bs', Remove(live, j), size', brk)
  {
    var r := Remove(live, j);
    forall i | 0 <= i < |r| ensures LiveBlockOk(bs', r[i], size', brk) { RemoveAt(live, j, i); }
    forall i, k | 0 <= i < k < |r| ensures Apart(r[i], r[k]) { RemoveAt(live, j, i); RemoveAt(live, j, k); }
  }

  lemma FreeKeepsLive(ptr: map<nat, nat>, size: map<nat, nat>, freep: nat, brk: nat, bs: seq<Block>, live: seq<Block>,
                      got: nat, t: nat, j: nat, i: nat, size': map<nat, nat>)
    requires HeapOk(ptr, size, freep, brk, bs, live, got) && j < |live| && Fits(bs, t, live[j].addr) && i < |live|
             && i != j
    requires forall x :: x in size && x != bs[t].addr && x != live[j].addr ==> x in size' && size'[x] == size[x]
    ensures LiveBlockOk(FreeInto(bs, t, live[j]), live[i], size', brk)
  {
    assert LiveBlockOk(bs, live[i], size, brk) && LiveBlockOk(bs, live[j], size, brk);
    assert Apart(live[i], live[j]) by {
      if i < j { assert Apart(live[i], live[j]); } else { assert Apart(live[j], live[i]); }
    }
    FreeIntoApart(bs, t, live[j], live[i]);
    NoFreeAddr(bs, live[i], size, brk);
  }

  /** free keeps the whole heap invariant. */
  lemma FreeHeapOk(ptr: map<nat, nat>, size: map<nat, nat>, freep: nat, brk: nat, bs: seq<Block>, live: seq<Block>,
                   got: nat, t: nat, j: nat)
    requires HeapOk(ptr, size, freep, brk, bs, live, got) && j < |live| && Fits(bs, t, live[j].addr)
    ensures bs[t].addr in ptr && bs[t].addr in size && ptr[bs[t].addr] in ptr && ptr[bs[t].addr] in size
            && live[j].addr in size
    ensures var h := FreedHeaders(ptr, size, bs[t].addr, live[j].addr);
            HeapOk(h.0, h.1, bs[t].addr, brk, FreeInto(bs, t, live[j]), Remove(live, j), got)
  {
    var b := live[j];
    assert LiveBlockOk(bs, b, size, brk);
    FreeMemory(ptr, size, bs, t, b);
    FreeIntoOk(bs, t, b);
    FreeIntoBelow(bs, t, b, brk);
    FreeIntoHead(bs, t, b);
    var h := FreedHeaders(ptr, size, bs[t].addr, b.addr);
    forall i | 0 <= i < |live| && i != j ensures LiveBlockOk(FreeInto(bs, t, b), live[i], h.1, brk) {
      FreeKeepsLive(ptr, size, freep, brk, bs, live, got, t, j, i, h.1);
    }
    RemoveLive(live, j, bs, size, FreeInto(bs, t, b), h.1, brk);
    SumSplit(live, j);
    SumConcat(live[..j], live[j+1..]);
  }

  lemma {:induction false} PlaceExistsBelow(bs: seq<Block>, bp: nat, n: nat) returns (t: nat)
    requires Sorted(bs) && bp > BASE && 1 <= n <= |bs| && (n < |bs| ==> bp < bs[n].addr)
    requires forall i :: 0 <= i < |bs| ==> bs[i].addr != bp
    ensures Fits(bs, t, bp)
    decreases n
  {
    if bs[n-1].addr < bp {
      t := n - 1;
    } else {
      t := PlaceExistsBelow(bs, bp, n - 1);
    }
  }

  lemma PlaceExists(bs: seq<Block>, bp: nat) returns (t: nat)
    requires Sorted(bs) && bp > BASE && forall i :: 0 <= i < |bs| ==> bs[i].addr != bp
    ensures Fits(bs, t, bp)
  {
    t := PlaceExistsBelow(bs, bp, |bs|);
  }
}
