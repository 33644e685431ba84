/** Sv39 page tables and the page allocator, kernel/vm.c and kernel/kalloc.c.

    Physical memory is a sequence of page frames; frame number p stands for the physical address
    4096 * p.  A frame holds bytes, or 512 page-table entries.  Entries are the numbers the
    hardware sees.  The ghost sequence `role` says what each frame is for; as it is a function of
    the frame, no frame can serve two purposes. */
module PageTable {
  import opened Finite

  const PGSIZE: nat := 4096
  const NPTE: nat := 512
  const MAXVA: nat := 0x40_0000_0000     // 2^38
  const NVPN: nat := 0x400_0000          // MAXVA / PGSIZE
  const NPPN: nat := 0x1000_0000_0000    // 2^44 frames at most
  const WORD: nat := 0x1_0000_0000_0000_0000

  const PTE_V: nat := 1
  const PTE_R: nat := 2
  const PTE_W: nat := 4
  const PTE_X: nat := 8
  const PTE_U: nat := 16

  type Byte = x: int | 0 <= x < 256
  type Page = s: seq<Byte> | |s| == PGSIZE witness seq(PGSIZE, _ => 0)
  type Ptes = s: seq<nat> | |s| == NPTE witness seq(NPTE, _ => 0)

  function Fill(b: Byte): Page { seq(PGSIZE, _ => b) }
  function NoPtes(): Ptes { seq(NPTE, _ => 0) }

  datatype Frame = Bytes(data: Page) | Table(ptes: Ptes)

  /** Top(2) is the root of a page table; freewalk cuts tables loose from their parent, which makes
      them Top(1) or Top(0).  Sub(t, i, level) is the table named by entry i of table t.
      User(r, vpn) is user memory at page vpn of page table r.  Taken is a page out of kalloc
      that no page table holds. */
  datatype Role =
    | Reserved | Free | Taken
    | Top(level: nat) | Sub(parent: nat, i: nat, level: nat)
    | User(root: nat, vpn: nat)

  // ---------- entries ----------

  /** Shifts of 64-bit words. */
  function Shl(x: nat, n: nat): nat { x * n % WORD }

  function PA2PTE(pa: nat): nat { Shl(pa / 4096, 1024) }
  function PTE2PA(pte: nat): nat { Shl(pte / 1024, 4096) }
  function PteFlags(pte: nat): nat { pte % 1024 }

  /** A page-aligned physical address survives the trip through an entry, with any flags. */
  lemma PteRoundTrip(ppn: nat, flags: nat)
    requires ppn < NPPN && flags < 1024
    ensures PA2PTE(PGSIZE * ppn) == 1024 * ppn
    ensures PTE2PA(PA2PTE(PGSIZE * ppn) + flags) == PGSIZE * ppn
    ensures PteFlags(PA2PTE(PGSIZE * ppn) + flags) == flags
  {
    assert PGSIZE * ppn / 4096 == ppn;
    assert (1024 * ppn + flags) / 1024 == ppn;
  }

  /** The PTE_V, PTE_W and PTE_U bits, and whether any of PTE_R, PTE_W, PTE_X is set. */
  predicate IsValid(pte: nat) { pte % 2 == 1 }
  predicate IsWritable(pte: nat) { pte / 4 % 2 == 1 }
  predicate IsUser(pte: nat) { pte / 16 % 2 == 1 }
  predicate IsLeaf(pte: nat) { pte / 2 % 8 != 0 }

  /** Entry for frame ppn: `PA2PTE(pa) | perm | PTE_V`. */
  function MakePte(ppn: nat, perm: nat): (pte: nat)
    requires perm < 1024
    ensures IsValid(pte) && pte / 1024 == ppn && PteFlags(pte) == if perm % 2 == 1 then perm else perm + 1
  {
    1024 * ppn + (if perm % 2 == 1 then perm else perm + 1)
  }

  /** That is the number the kernel's macros make, and they find the frame and the flags in it. */
  lemma MakePteIsMacros(ppn: nat, perm: nat)
    requires ppn < NPPN && perm < 1024
    ensures var flags := if perm % 2 == 1 then perm else perm + 1;
            MakePte(ppn, perm) == PA2PTE(PGSIZE * ppn) + flags && PteFlags(MakePte(ppn, perm)) == flags
    ensures PTE2PA(MakePte(ppn, perm)) == PGSIZE * ppn == PGSIZE * (MakePte(ppn, perm) / 1024)
  {
    PteRoundTrip(ppn, if perm % 2 == 1 then perm else perm + 1);
  }

  /** Entry for a subtable in frame c: PTE_V and nothing else. */
  function TablePte(c: nat): (pte: nat)
    ensures IsValid(pte) && pte / 1024 == c && pte % 1024 == PTE_V && !IsLeaf(pte)
  {
    assert (1024 * c + 1) / 2 == 512 * c == 8 * (64 * c);
    1024 * c + 1
  }

  // ---------- the three indices of a virtual page ----------

  function Px(level: nat, vpn: nat): (i: nat)
    requires level <= 2
    ensures i < NPTE
  {
    if level == 0 then vpn % NPTE else if level == 1 then vpn / 512 % NPTE else vpn / 262144 % NPTE
  }

  lemma PxHalf(v: nat)
    requires v < NVPN
    ensures Px(2, v) < NPTE / 2
  {
    Digits(v);
  }

  lemma PxInjective(v: nat, w: nat)
    requires v < NVPN && w < NVPN && Px(0, v) == Px(0, w) && Px(1, v) == Px(1, w) && Px(2, v) == Px(2, w)
    ensures v == w
  {
    Digits(v);
    Digits(w);
  }

  lemma Digits(v: nat)
    requires v < NVPN
    ensures v == 262144 * Px(2, v) + 512 * Px(1, v) + Px(0, v)
  {
    var a := v / 512;
    var b := a / 512;
    assert v / 262144 == b;
    assert b < 512;
  }

  // ---------- the radix tree read as a flat map ----------

  /** The frame that entry i of table t points to; 0 when t is no table or the entry is not valid. */
  function Child(frames: seq<Frame>, t: nat, i: nat): nat
    requires i < NPTE
  {
    if 0 < t < |frames| && frames[t].Table? && IsValid(frames[t].ptes[i]) then frames[t].ptes[i] / 1024 else 0
  }

  function PteAt(frames: seq<Frame>, t: nat, i: nat): nat
    requires i < NPTE
  {
    if 0 < t < |frames| && frames[t].Table? then frames[t].ptes[i] else 0
  }

  /** The level-0 table for a page, 0 if the tree does not reach that far. */
  function LeafTable(frames: seq<Frame>, r: nat, vpn: nat): nat {
    Child(frames, Child(frames, r, Px(2, vpn)), Px(1, vpn))
  }

  /** The flat map: the entry for page vpn under root r, 0 if there is none. */
  function Lookup(frames: seq<Frame>, r: nat, vpn: nat): nat {
    PteAt(frames, LeafTable(frames, r, vpn), Px(0, vpn))
  }

  // ---------- the tree's invariant ----------

  predicate IsTable(role: Role, level: nat) {
    (role.Top? || role.Sub?) && role.level == level
  }

  /** A non-leaf entry is empty or names the subtable one level down. */
  ghost predicate LinkOk(frames: seq<Frame>, role: seq<Role>, t: nat, i: nat, level: nat)
    requires |role| == |frames| && i < NPTE && level > 0
  {
    var pte := PteAt(frames, t, i);
    pte == 0 || (pte == TablePte(pte / 1024) && 0 < pte / 1024 < |role| && role[pte / 1024] == Sub(t, i, level - 1))
  }

  /** hole holds the entries that freewalk is about to clear. */
  ghost predicate FrameOk(frames: seq<Frame>, role: seq<Role>, hole: set<(nat, nat)>, p: nat)
    requires |role| == |frames| && p < |role|
  {
    match role[p]
    case Reserved => true
    case Free => frames[p].Bytes?
    case Taken => frames[p].Bytes?
    case Top(level) => p > 0 && level <= 2 && frames[p].Table? && LinksOk(frames, role, hole, p, level)
    case Sub(t, i, level) =>
      && p > 0 && level <= 1 && frames[p].Table? && LinksOk(frames, role, hole, p, level)
      && i < NPTE && (level == 1 ==> i < NPTE / 2) && 0 < t < |role| && IsTable(role[t], level + 1)
         && Child(frames, t, i) == p && (t, i) !in hole
    case User(r, vpn) =>
      && frames[p].Bytes? && r < |role| && role[r] == Top(2) && vpn < NVPN && Clear(hole, r)
      && IsValid(Lookup(frames, r, vpn)) && Lookup(frames, r, vpn) / 1024 == p
  }

  /** A leaf entry is cleared, or valid. */
  predicate LeafOk(pte: nat) {
    pte == 0 || IsValid(pte)
  }

  ghost predicate LinksOk(frames: seq<Frame>, role: seq<Role>, hole: set<(nat, nat)>, t: nat, level: nat)
    requires |role| == |frames|
  {
    if level > 0 then forall i: nat :: i < NPTE && (t, i) !in hole ==> LinkOk(frames, role, t, i, level)
    else forall i: nat :: i < NPTE ==> LeafOk(PteAt(frames, t, i))
  }

  /** No entry of t is in the hole. */
  ghost predicate Clear(hole: set<(nat, nat)>, t: nat) {
    forall i: nat :: (t, i) !in hole
  }

  ghost predicate TreesOk(frames: seq<Frame>, role: seq<Role>, hole: set<(nat, nat)>) {
    && |role| == |frames|
    && (forall h :: h in hole ==> h.0 < |role| && role[h.0].Top?)
    && (forall p: nat :: p < |role| ==> FrameOk(frames, role, hole, p))
  }

  /** The way down from a root goes through that root's own tables. */
  lemma Path(frames: seq<Frame>, role: seq<Role>, hole: set<(nat, nat)>, r: nat, vpn: nat)
    requires TreesOk(frames, role, hole) && r < |role| && role[r] == Top(2) && Clear(hole, r)
    ensures var m := Child(frames, r, Px(2, vpn));
            var l := LeafTable(frames, r, vpn);
            && (m != 0 ==> m < |role| && role[m] == Sub(r, Px(2, vpn), 1))
            && (l != 0 ==> m != 0 && l < |role| && role[l] == Sub(m, Px(1, vpn), 0) && frames[l].Table?)
  {
    assert FrameOk(frames, role, hole, r) && LinkOk(frames, role, r, Px(2, vpn), 2);
    var m := Child(frames, r, Px(2, vpn));
    if m != 0 {
      assert FrameOk(frames, role, hole, m) && LinkOk(frames, role, m, Px(1, vpn), 1);
      var l := Child(frames, m, Px(1, vpn));
      assert l != 0 ==> FrameOk(frames, role, hole, l);
    }
  }

  /** Two pages, under one root or two, never share an entry. */
  lemma NoSharedEntry(frames: seq<Frame>, role: seq<Role>, r: nat, vpn: nat, r': nat, vpn': nat)
    requires TreesOk(frames, role, {}) && r < |role| && role[r] == Top(2) && r' < |role| && role[r'] == Top(2)
    requires vpn < NVPN && vpn' < NVPN && LeafTable(frames, r, vpn) != 0
    ensures LeafTable(frames, r, vpn) == LeafTable(frames, r', vpn') && Px(0, vpn) == Px(0, vpn') ==>
              r == r' && vpn == vpn'
  {
    Path(frames, role, {}, r, vpn);
    Path(frames, role, {}, r', vpn');
    if LeafTable(frames, r, vpn) == LeafTable(frames, r', vpn') && Px(0, vpn) == Px(0, vpn') {
      PxInjective(vpn, vpn');
    }
  }

  // ---------- writing a leaf entry ----------

  function Store(frames: seq<Frame>, t: nat, i: nat, pte: nat): seq<Frame>
    requires t < |frames| && frames[t].Table? && i < NPTE
  {
    frames[t := Table(frames[t].ptes[i := pte])]
  }

  /** A leaf store changes the flat map at one page. */
  lemma StoreLookup(frames: seq<Frame>, role: seq<Role>, r: nat, vpn: nat, pte: nat, r': nat, vpn': nat)
    requires TreesOk(frames, role, {}) && r < |role| && role[r] == Top(2) && r' < |role| && role[r'] == Top(2)
    requires vpn < NVPN && vpn' < NVPN && LeafTable(frames, r, vpn) != 0
    ensures LeafTable(frames, r, vpn) < |frames| && frames[LeafTable(frames, r, vpn)].Table?
    ensures Lookup(Store(frames, LeafTable(frames, r, vpn), Px(0, vpn), pte), r', vpn') ==
            if r' == r && vpn' == vpn then pte else Lookup(frames, r', vpn')
  {
    Path(frames, role, {}, r, vpn);
    Path(frames, role, {}, r', vpn');
    NoSharedEntry(frames, role, r, vpn, r', vpn');
    var frames' := Store(frames, LeafTable(frames, r, vpn), Px(0, vpn), pte);
    assert Child(frames', r', Px(2, vpn')) == Child(frames, r', Px(2, vpn'));
    assert LeafTable(frames', r', vpn') == LeafTable(frames, r', vpn');
  }

  /** Nothing but the entry is affected, if no user page hangs on it. */
  lemma StoreOk(frames: seq<Frame>, role: seq<Role>, r: nat, vpn: nat, pte: nat)
    requires TreesOk(frames, role, {}) && r < |role| && role[r] == Top(2) && vpn < NVPN
    requires LeafTable(frames, r, vpn) != 0 && LeafOk(pte) && forall p: nat :: p < |role| ==> role[p] != User(r, vpn)
    ensures LeafTable(frames, r, vpn) < |frames| && frames[LeafTable(frames, r, vpn)].Table?
    ensures TreesOk(Store(frames, LeafTable(frames, r, vpn), Px(0, vpn), pte), role, {})
  {
    Path(frames, role, {}, r, vpn);
    var l := LeafTable(frames, r, vpn);
    var frames' := Store(frames, l, Px(0, vpn), pte);
    forall p: nat | p < |role| ensures FrameOk(frames', role, {}, p) {
      assert FrameOk(frames, role, {}, p) && FrameOk(frames, role, {}, l);
      if role[p].User? {
        StoreLookup(frames, role, r, vpn, pte, role[p].root, role[p].vpn);
      } else {
        StoreFrameOk(frames, role, l, Px(0, vpn), pte, p);
      }
    }
  }

  lemma StoreFrameOk(frames: seq<Frame>, role: seq<Role>, l: nat, i: nat, pte: nat, p: nat)
    requires |role| == |frames| && l < |role| && role[l].Sub? && role[l].level == 0 && i < NPTE && frames[l].Table?
    requires p < |role| && FrameOk(frames, role, {}, p) && !role[p].User? && LeafOk(pte)
    ensures FrameOk(Store(frames, l, i, pte), role, {}, p)
  {
    var frames' := Store(frames, l, i, pte);
    if role[p].Top? || role[p].Sub? {
      forall k: nat | k < NPTE && role[p].level > 0 ensures LinkOk(frames', role, p, k, role[p].level) {
        assert LinkOk(frames, role, p, k, role[p].level);
      }
      forall k: nat | k < NPTE && role[p].level == 0 ensures LeafOk(PteAt(frames', p, k)) {
        assert LeafOk(PteAt(frames, p, k));
      }
    }
  }

  // ---------- linking a new table ----------

  /** walk's step: c becomes an empty table, named by entry i of t. */
  function Linked(frames: seq<Frame>, t: nat, i: nat, c: nat): seq<Frame>
    requires t < |frames| && c < |frames| && t != c && frames[t].Table? && i < NPTE
  {
    Store(frames[c := Table(NoPtes())], t, i, TablePte(c))
  }

  lemma LinkedChild(frames: seq<Frame>, t: nat, i: nat, c: nat, x: nat, k: nat)
    requires 0 < t < |frames| && 0 < c < |frames| && t != c && frames[t].Table? && i < NPTE && k < NPTE
    ensures Child(Linked(frames, t, i, c), x, k) ==
            if x == c then 0 else if x == t && k == i then c else Child(frames, x, k)
  {
  }

  lemma LinkFrameOk(frames: seq<Frame>, role: seq<Role>, t: nat, i: nat, c: nat, level: nat, p: nat)
    requires TreesOk(frames, role, {}) && t < |role| && 0 < c < |role| && IsTable(role[t], level) && level > 0
             && (level == 2 ==> i < NPTE / 2)
    requires role[c] == Taken && i < NPTE && p < |role|
    requires 0 < t && frames[t].Table? && PteAt(frames, t, i) == 0 && !role[p].User?
    ensures FrameOk(Linked(frames, t, i, c), role[c := Sub(t, i, level - 1)], {}, p)
  {
    var frames', role' := Linked(frames, t, i, c), role[c := Sub(t, i, level - 1)];
    assert FrameOk(frames, role, {}, p) && FrameOk(frames, role, {}, t);
    if p != c && (role[p].Top? || role[p].Sub?) {
      forall k: nat | k < NPTE && role[p].level > 0 ensures LinkOk(frames', role', p, k, role[p].level) {
        assert LinkOk(frames, role, p, k, role[p].level);
      }
      forall k: nat | k < NPTE && role[p].level == 0 ensures LeafOk(PteAt(frames', p, k)) {
        assert LeafOk(PteAt(frames, p, k));
      }
      if role[p].Sub? { LinkedChild(frames, t, i, c, role[p].parent, role[p].i); }
    }
  }

  /** A new table makes no difference to the flat map. */
  lemma LinkLookup(frames: seq<Frame>, role: seq<Role>, t: nat, i: nat, c: nat, r: nat, vpn: nat)
    requires TreesOk(frames, role, {}) && 0 < t < |role| && 0 < c < |role| && role[c] == Taken && i < NPTE
    requires IsTable(role[t], 1) || IsTable(role[t], 2)
    requires frames[t].Table? && PteAt(frames, t, i) == 0 && r < |role| && role[r] == Top(2)
    ensures Lookup(Linked(frames, t, i, c), r, vpn) == Lookup(frames, r, vpn)
  {
    Path(frames, role, {}, r, vpn);
    assert FrameOk(frames, role, {}, r);
    var frames' := Linked(frames, t, i, c);
    var m := Child(frames, r, Px(2, vpn));
    LinkedChild(frames, t, i, c, r, Px(2, vpn));
    LinkedChild(frames, t, i, c, Child(frames', r, Px(2, vpn)), Px(1, vpn));
  }

  lemma LinkTableOk(frames: seq<Frame>, role: seq<Role>, t: nat, i: nat, c: nat, level: nat)
    requires TreesOk(frames, role, {}) && 0 < t < |role| && 0 < c < |role| && IsTable(role[t], level)
             && 0 < level <= 2 && (level == 2 ==> i < NPTE / 2)
    requires role[c] == Taken && i < NPTE && frames[t].Table? && PteAt(frames, t, i) == 0
    ensures TreesOk(Linked(frames, t, i, c), role[c := Sub(t, i, level - 1)], {})
    ensures SameMap(frames, role, Linked(frames, t, i, c))
  {
    var frames', role' := Linked(frames, t, i, c), role[c := Sub(t, i, level - 1)];
    forall r: nat, vpn: nat | r < |role| && role[r] == Top(2) && vpn < NVPN
      ensures Lookup(frames', r, vpn) == Lookup(frames, r, vpn)
    {
      LinkLookup(frames, role, t, i, c, r, vpn);
    }
    forall p: nat | p < |role| ensures FrameOk(frames', role', {}, p) {
      assert FrameOk(frames, role, {}, p);
      if !role[p].User? { LinkFrameOk(frames, role, t, i, c, level, p); }
    }
  }

  /** The flat maps of all roots are the same. */
  ghost predicate SameMap(frames: seq<Frame>, role: seq<Role>, frames': seq<Frame>) {
    forall r: nat, vpn: nat :: r < |role| && role[r] == Top(2) && vpn < NVPN ==>
      Lookup(frames', r, vpn) == Lookup(frames, r, vpn)
  }

  // ---------- the page pool ----------

  ghost predicate FreeOk(freelist: seq<nat>, role: seq<Role>) {
    Distinct(freelist) && forall p: nat :: p in freelist <==> p < |role| && role[p] == Free
  }

  /** Frame p can go back to the pool: no table entry, subtable or user page refers to it. */
  ghost predicate Releasable(role: seq<Role>, p: nat)
    requires p < |role|
  {
    || role[p] == Free || role[p] == Taken || role[p].User?
    || (role[p].Top? && forall q: nat :: q < |role| ==>
         !(role[q].Sub? && role[q].parent == p) && !(role[q].User? && role[q].root == p))
  }

  lemma RetypeChild(frames: seq<Frame>, role: seq<Role>, hole: set<(nat, nat)>, p: nat, d: Page, t: nat, i: nat)
    requires TreesOk(frames, role, hole) && p < |role| && Releasable(role, p) && t != p && i < NPTE
    ensures Child(frames[p := Bytes(d)], t, i) == Child(frames, t, i)
            && PteAt(frames[p := Bytes(d)], t, i) == PteAt(frames, t, i)
  {
  }

  lemma RetypeLookup(frames: seq<Frame>, role: seq<Role>, hole: set<(nat, nat)>, p: nat, d: Page, r: nat, vpn: nat)
    requires TreesOk(frames, role, hole) && p < |role| && Releasable(role, p)
    requires r < |role| && role[r] == Top(2) && r != p && Clear(hole, r)
    ensures Lookup(frames[p := Bytes(d)], r, vpn) == Lookup(frames, r, vpn)
  {
    Path(frames, role, hole, r, vpn);
    RetypeChild(frames, role, hole, p, d, r, Px(2, vpn));
    var m, l := Child(frames, r, Px(2, vpn)), LeafTable(frames, r, vpn);
    if m != 0 {
      RetypeChild(frames, role, hole, p, d, m, Px(1, vpn));
    }
    if l != 0 {
      RetypeChild(frames, role, hole, p, d, l, Px(0, vpn));
    }
  }

  /** A frame of bytes, or a table nobody uses, may change hands with new contents. */
  lemma RetypeOk(frames: seq<Frame>, role: seq<Role>, hole: set<(nat, nat)>, p: nat, d: Page, o: Role)
    requires TreesOk(frames, role, hole) && p < |role| && Releasable(role, p) && Clear(hole, p)
             && (o == Free || o == Taken)
    ensures TreesOk(frames[p := Bytes(d)], role[p := o], hole)
  {
    var frames', role' := frames[p := Bytes(d)], role[p := o];
    forall q: nat | q < |role| ensures FrameOk(frames', role', hole, q) {
      assert FrameOk(frames, role, hole, q);
      if q != p {
        if role[q].User? {
          RetypeLookup(frames, role, hole, p, d, role[q].root, role[q].vpn);
        } else {
          RetypeFrameOk(frames, role, hole, p, d, o, q);
        }
      }
    }
  }

  lemma RetypeFrameOk(frames: seq<Frame>, role: seq<Role>, hole: set<(nat, nat)>, p: nat, d: Page, o: Role, q: nat)
    requires TreesOk(frames, role, hole) && p < |role| && Releasable(role, p) && (o == Free || o == Taken)
    requires q < |role| && q != p && !role[q].User?
    ensures FrameOk(frames[p := Bytes(d)], role[p := o], hole, q)
  {
    var frames', role' := frames[p := Bytes(d)], role[p := o];
    assert FrameOk(frames, role, hole, q);
    if role[q].Top? || role[q].Sub? {
      forall k: nat | k < NPTE && role[q].level > 0 && (q, k) !in hole
        ensures LinkOk(frames', role', q, k, role[q].level)
      {
        assert LinkOk(frames, role, q, k, role[q].level);
      }
      forall k: nat | k < NPTE && role[q].level == 0 ensures LeafOk(PteAt(frames', q, k)) {
        assert LeafOk(PteAt(frames, q, k));
      }
      if role[q].Sub? { RetypeChild(frames, role, hole, p, d, role[q].parent, role[q].i); }
    }
  }

  // ---------- what an operation on one page table leaves alone ----------

  /** p is t or a table below it. */
  ghost predicate InTree(role: seq<Role>, t: nat, p: nat)
    requires p < |role|
  {
    || p == t
    || (role[p].Sub? && (role[p].parent == t
                         || (role[p].parent < |role| && role[role[p].parent].Sub? && role[role[p].parent].parent == t)))
  }

  /** Free pages may have become tables of r; nobody else's page changed hands. */
  ghost predicate Grown(role: seq<Role>, role': seq<Role>, r: nat) {
    && |role'| == |role|
    && forall p: nat :: p < |role| ==> role'[p] == role[p] || (role[p] == Free && role'[p].Sub? && InTree(role', r, p))
  }

  /** Pages of memory in use keep their bytes. */
  ghost predicate DataKept(frames: seq<Frame>, role: seq<Role>, frames': seq<Frame>) {
    && |frames'| == |frames| == |role|
    && forall p: nat :: p < |role| && (role[p].User? || role[p] == Taken) ==> frames'[p] == frames[p]
  }

  ghost predicate Extended(frames: seq<Frame>, role: seq<Role>, frames': seq<Frame>, role': seq<Role>, r: nat) {
    Grown(role, role', r) && DataKept(frames, role, frames') && SameMap(frames, role, frames')
  }

  lemma GrownTrans(a: seq<Role>, b: seq<Role>, c: seq<Role>, r: nat)
    requires Grown(a, b, r) && Grown(b, c, r)
    ensures Grown(a, c, r)
  {
  }

  lemma ExtendedTrans(f0: seq<Frame>, r0: seq<Role>, f1: seq<Frame>, r1: seq<Role>, f2: seq<Frame>, r2: seq<Role>,
                      r: nat)
    requires Extended(f0, r0, f1, r1, r) && Extended(f1, r1, f2, r2, r)
    ensures Extended(f0, r0, f2, r2, r)
  {
    GrownTrans(r0, r1, r2, r);
    assert DataKept(f0, r0, f2);
    forall q: nat, vpn: nat | q < |r0| && r0[q] == Top(2) && vpn < NVPN
      ensures Lookup(f2, q, vpn) == Lookup(f0, q, vpn)
    {
      assert Lookup(f1, q, vpn) == Lookup(f0, q, vpn);
    }
  }

  lemma LinkGrows(role: seq<Role>, t: nat, i: nat, c: nat, level: nat, r: nat)
    requires t < |role| && c < |role| && 0 < level <= 2 && role[c] == Free
    requires InTree(role, r, t) && (level == 1 ==> role[t].Sub? && role[t].parent == r) && (level == 2 ==> t == r)
    ensures Grown(role, role[c := Sub(t, i, level - 1)], r)
  {
  }

  /** The table at a level on the way to page vpn. */
  function PathTable(frames: seq<Frame>, r: nat, vpn: nat, level: nat): nat
    requires level <= 2
  {
    if level == 2 then r else if level == 1 then Child(frames, r, Px(2, vpn)) else LeafTable(frames, r, vpn)
  }

  lemma PathIsTree(frames: seq<Frame>, role: seq<Role>, r: nat, vpn: nat, level: nat)
    requires TreesOk(frames, role, {}) && r < |role| && role[r] == Top(2) && level <= 2
             && PathTable(frames, r, vpn, level) != 0
    ensures var t := PathTable(frames, r, vpn, level);
            && 0 < t < |role| && IsTable(role[t], level) && frames[t].Table? && InTree(role, r, t)
            && (level == 1 ==> role[t].Sub? && role[t].parent == r)
            && (level > 0 ==> LinkOk(frames, role, t, Px(level, vpn), level))
  {
    Path(frames, role, {}, r, vpn);
    assert FrameOk(frames, role, {}, r);
    var t := PathTable(frames, r, vpn, level);
    assert FrameOk(frames, role, {}, t);
  }

  lemma LinkedPath(frames: seq<Frame>, role: seq<Role>, r: nat, vpn: nat, level: nat, c: nat)
    requires TreesOk(frames, role, {}) && r < |role| && role[r] == Top(2) && 0 < level <= 2
             && PathTable(frames, r, vpn, level) != 0
    requires 0 < c < |role| && role[c] == Taken
    ensures var t := PathTable(frames, r, vpn, level);
            && t < |frames| && t != c && frames[t].Table?
            && PathTable(Linked(frames, t, Px(level, vpn), c), r, vpn, level - 1) == c
  {
    PathIsTree(frames, role, r, vpn, level);
    var t := PathTable(frames, r, vpn, level);
    LinkedChild(frames, t, Px(level, vpn), c, r, Px(2, vpn));
    LinkedChild(frames, t, Px(level, vpn), c, t, Px(level, vpn));
  }

  lemma RetypeMap(frames: seq<Frame>, role: seq<Role>, p: nat, d: Page, o: Role)
    requires TreesOk(frames, role, {}) && p < |role| && Releasable(role, p) && (o == Free || o == Taken)
    ensures SameMap(frames, role[p := o], frames[p := Bytes(d)])
  {
    var frames', role' := frames[p := Bytes(d)], role[p := o];
    forall r: nat, vpn: nat | r < |role'| && role'[r] == Top(2) && vpn < NVPN
      ensures Lookup(frames', r, vpn) == Lookup(frames, r, vpn)
    {
      RetypeLookup(frames, role, {}, p, d, r, vpn);
    }
  }

  lemma RetypePath(frames: seq<Frame>, role: seq<Role>, p: nat, d: Page, r: nat, vpn: nat, level: nat)
    requires TreesOk(frames, role, {}) && r < |role| && role[r] == Top(2) && 0 < level <= 2
             && PathTable(frames, r, vpn, level) != 0
    requires p < |role| && role[p] == Free
    ensures var f, t := frames[p := Bytes(d)], PathTable(frames, r, vpn, level);
            PathTable(f, r, vpn, level) == t && PteAt(f, t, Px(level, vpn)) == PteAt(frames, t, Px(level, vpn))
  {
    PathIsTree(frames, role, r, vpn, level);
    RetypeChild(frames, role, {}, p, d, r, Px(2, vpn));
    RetypeChild(frames, role, {}, p, d, PathTable(frames, r, vpn, level), Px(level, vpn));
  }

  /** kalloc and link in one step. */
  lemma NewTableOk(frames: seq<Frame>, role: seq<Role>, r: nat, vpn: nat, level: nat, c: nat)
    requires TreesOk(frames, role, {}) && r < |role| && role[r] == Top(2) && 0 < level <= 2
    requires PathTable(frames, r, vpn, level) != 0 && PathTable(frames, r, vpn, level - 1) == 0 && vpn < NVPN
    requires 0 < c < |role| && role[c] == Free
    ensures var t := PathTable(frames, r, vpn, level);
            var i := Px(level, vpn);
            && t < |frames| && frames[t].Table? && t != c
            && var frames' := Linked(frames[c := Bytes(Fill(5))], t, i, c);
               var role' := role[c := Sub(t, i, level - 1)];
               && TreesOk(frames', role', {}) && Extended(frames, role, frames', role', r)
               && PathTable(frames', r, vpn, level - 1) == c
  {
    PathIsTree(frames, role, r, vpn, level);
    var t, i := PathTable(frames, r, vpn, level), Px(level, vpn);
    TakenAndLinked(frames, role, r, vpn, level, c);
    LinkedData(frames, role, t, i, c);
    LinkGrows(role, t, i, c, level, r);
  }

  lemma TakenAndLinked(frames: seq<Frame>, role: seq<Role>, r: nat, vpn: nat, level: nat, c: nat)
    requires TreesOk(frames, role, {}) && r < |role| && role[r] == Top(2) && 0 < level <= 2
    requires PathTable(frames, r, vpn, level) != 0
             && PteAt(frames, PathTable(frames, r, vpn, level), Px(level, vpn)) == 0 && vpn < NVPN
    requires 0 < c < |role| && role[c] == Free
    ensures var t := PathTable(frames, r, vpn, level);
            var i := Px(level, vpn);
            && t < |frames| && frames[t].Table? && t != c
            && var frames' := Linked(frames[c := Bytes(Fill(5))], t, i, c);
               && TreesOk(frames', role[c := Sub(t, i, level - 1)], {}) && SameMap(frames, role, frames')
               && PathTable(frames', r, vpn, level - 1) == c
  {
    PathIsTree(frames, role, r, vpn, level);
    var t, i, f1, r1 := PathTable(frames, r, vpn, level), Px(level, vpn), frames[c := Bytes(Fill(5))], role[c := Taken];
    RetypeOk(frames, role, {}, c, Fill(5), Taken);
    RetypeMap(frames, role, c, Fill(5), Taken);
    RetypePath(frames, role, c, Fill(5), r, vpn, level);
    NewTableLinks(f1, r1, r, vpn, level, c);
    assert r1[c := Sub(t, i, level - 1)] == role[c := Sub(t, i, level - 1)];
    SameMapTrans(frames, role, f1, r1, Linked(f1, t, i, c));
  }

  lemma SameMapTrans(f0: seq<Frame>, r0: seq<Role>, f1: seq<Frame>, r1: seq<Role>, f2: seq<Frame>)
    requires SameMap(f0, r0, f1) && SameMap(f1, r1, f2) && |r1| == |r0|
    requires forall r: nat :: r < |r0| && r0[r] == Top(2) ==> r1[r] == Top(2)
    ensures SameMap(f0, r0, f2)
  {
    forall r: nat, v: nat | r < |r0| && r0[r] == Top(2) && v < NVPN ensures Lookup(f2, r, v) == Lookup(f0, r, v) {
      assert Lookup(f1, r, v) == Lookup(f0, r, v);
    }
  }

  lemma LinkedData(frames: seq<Frame>, role: seq<Role>, t: nat, i: nat, c: nat)
    requires |role| == |frames| && 0 < c < |role| && 0 < t < |role| && t != c && role[c] == Free && frames[t].Table?
             && i < NPTE
    requires role[t].Top? || role[t].Sub?
    ensures DataKept(frames, role, Linked(frames[c := Bytes(Fill(5))], t, i, c))
  {
  }

  lemma NewTableLinks(frames: seq<Frame>, role: seq<Role>, r: nat, vpn: nat, level: nat, c: nat)
    requires TreesOk(frames, role, {}) && r < |role| && role[r] == Top(2) && 0 < level <= 2
    requires PathTable(frames, r, vpn, level) != 0
             && PteAt(frames, PathTable(frames, r, vpn, level), Px(level, vpn)) == 0 && vpn < NVPN
    requires 0 < c < |role| && role[c] == Taken
    ensures var t := PathTable(frames, r, vpn, level);
            var i := Px(level, vpn);
            && t < |frames| && frames[t].Table? && t != c
            && TreesOk(Linked(frames, t, i, c), role[c := Sub(t, i, level - 1)], {})
            && SameMap(frames, role, Linked(frames, t, i, c))
            && PathTable(Linked(frames, t, i, c), r, vpn, level - 1) == c
  {
    PathIsTree(frames, role, r, vpn, level);
    var t, i := PathTable(frames, r, vpn, level), Px(level, vpn);
    LinkedPath(frames, role, r, vpn, level, c);
    PxHalf(vpn);
    LinkTableOk(frames, role, t, i, c, level);
  }

  lemma RelabelFree(freelist: seq<nat>, role: seq<Role>, p: nat, o: Role)
    requires FreeOk(freelist, role) && p < |role| && role[p] != Free && o != Free
    ensures FreeOk(freelist, role[p := o])
  {
  }

  /** The flat map is the old one with one entry set. */
  ghost predicate SetMap(frames: seq<Frame>, role: seq<Role>, frames': seq<Frame>, r: nat, vpn: nat, pte: nat) {
    forall q: nat, v: nat :: q < |role| && role[q] == Top(2) && v < NVPN ==>
      Lookup(frames', q, v) == if q == r && v == vpn then pte else Lookup(frames, q, v)
  }

  lemma ZeroOrValid(frames: seq<Frame>, role: seq<Role>, r: nat, vpn: nat)
    requires TreesOk(frames, role, {}) && r < |role| && role[r] == Top(2)
    ensures LeafOk(Lookup(frames, r, vpn))
  {
    Path(frames, role, {}, r, vpn);
    var l := LeafTable(frames, r, vpn);
    assert l != 0 ==> FrameOk(frames, role, {}, l);
  }

  /** A page that is not mapped is nobody's user page. */
  lemma NotUser(frames: seq<Frame>, role: seq<Role>, r: nat, vpn: nat)
    requires TreesOk(frames, role, {}) && !IsValid(Lookup(frames, r, vpn))
    ensures forall p: nat :: p < |role| ==> role[p] != User(r, vpn)
  {
    forall p: nat | p < |role| ensures role[p] != User(r, vpn) {
      assert FrameOk(frames, role, {}, p);
    }
  }

  lemma SetEntry(f0: seq<Frame>, r0: seq<Role>, frames: seq<Frame>, role: seq<Role>, r: nat, vpn: nat, pte: nat)
    requires TreesOk(frames, role, {}) && r < |role| && role[r] == Top(2) && vpn < NVPN
             && LeafTable(frames, r, vpn) != 0
    requires Extended(f0, r0, frames, role, r) && r0[r] == Top(2) && !IsValid(Lookup(f0, r, vpn)) && LeafOk(pte)
    ensures var l := LeafTable(frames, r, vpn);
            && l < |frames| && frames[l].Table?
            && TreesOk(Store(frames, l, Px(0, vpn), pte), role, {})
            && SetMap(f0, r0, Store(frames, l, Px(0, vpn), pte), r, vpn, pte)
            && DataKept(f0, r0, Store(frames, l, Px(0, vpn), pte))
  {
    Path(frames, role, {}, r, vpn);
    NotUser(frames, role, r, vpn);
    StoreOk(frames, role, r, vpn, pte);
    var frames' := Store(frames, LeafTable(frames, r, vpn), Px(0, vpn), pte);
    forall q: nat, v: nat | q < |r0| && r0[q] == Top(2) && v < NVPN
      ensures Lookup(frames', q, v) == if q == r && v == vpn then pte else Lookup(f0, q, v)
    {
      StoreLookup(frames, role, r, vpn, pte, q, v);
    }
  }

  /** The flat map with k pages from vpn on mapped to the frames from ppn on. */
  ghost predicate RangeMap(frames: seq<Frame>, role: seq<Role>, frames': seq<Frame>, r: nat, vpn: nat, ppn: nat,
                           perm: nat, k: nat)
    requires perm < 1024
  {
    forall q: nat, v: nat :: q < |role| && role[q] == Top(2) && v < NVPN ==>
      Lookup(frames', q, v) == if q == r && vpn <= v < vpn + k then MakePte(ppn + v - vpn, perm)
        else Lookup(frames, q, v)
  }

  ghost predicate Unmapped(frames: seq<Frame>, r: nat, vpn: nat, n: nat) {
    forall v: nat :: vpn <= v < vpn + n ==> !IsValid(Lookup(frames, r, v))
  }

  lemma RangeNext(f0: seq<Frame>, r0: seq<Role>, f1: seq<Frame>, r: nat, vpn: nat, ppn: nat, perm: nat, k: nat, n: nat)
    requires perm < 1024 && RangeMap(f0, r0, f1, r, vpn, ppn, perm, k) && Unmapped(f0, r, vpn, n) && k < n
             && vpn + n <= NVPN
    requires r < |r0| && r0[r] == Top(2)
    ensures !IsValid(Lookup(f1, r, vpn + k))
  {
    assert !IsValid(Lookup(f0, r, vpn + k));
  }

  ghost predicate MapState(f0: seq<Frame>, r0: seq<Role>, frames: seq<Frame>, role: seq<Role>, r: nat, vpn: nat,
                           ppn: nat, perm: nat, k: nat)
    requires perm < 1024
  {
    Grown(r0, role, r) && DataKept(f0, r0, frames) && RangeMap(f0, r0, frames, r, vpn, ppn, perm, k)
  }

  lemma MapMore(f0: seq<Frame>, r0: seq<Role>, f1: seq<Frame>, r1: seq<Role>, f2: seq<Frame>, r2: seq<Role>,
                r: nat, vpn: nat, ppn: nat, perm: nat, k: nat)
    requires perm < 1024 && MapState(f0, r0, f1, r1, r, vpn, ppn, perm, k) && Grown(r1, r2, r) && DataKept(f1, r1, f2)
    ensures SetMap(f1, r1, f2, r, vpn + k, MakePte(ppn + k, perm)) ==>
              MapState(f0, r0, f2, r2, r, vpn, ppn, perm, k + 1)
    ensures SameMap(f1, r1, f2) ==> MapState(f0, r0, f2, r2, r, vpn, ppn, perm, k)
  {
    GrownTrans(r0, r1, r2, r);
    assert DataKept(f0, r0, f2);
    if SetMap(f1, r1, f2, r, vpn + k, MakePte(ppn + k, perm)) {
      RangeMapMore(f0, r0, f1, r1, f2, r, vpn, ppn, perm, k);
    }
    if SameMap(f1, r1, f2) {
      RangeMapSame(f0, r0, f1, r1, f2, r, vpn, ppn, perm, k);
    }
  }

  lemma RangeMapMore(f0: seq<Frame>, r0: seq<Role>, f1: seq<Frame>, r1: seq<Role>, f2: seq<Frame>, r: nat, vpn: nat,
                     ppn: nat, perm: nat, k: nat)
    requires perm < 1024 && RangeMap(f0, r0, f1, r, vpn, ppn, perm, k)
             && SetMap(f1, r1, f2, r, vpn + k, MakePte(ppn + k, perm))
    requires Grown(r0, r1, r)
    ensures RangeMap(f0, r0, f2, r, vpn, ppn, perm, k + 1)
  {
    forall q: nat, v: nat | q < |r0| && r0[q] == Top(2) && v < NVPN
      ensures Lookup(f2, q, v) == if q == r && vpn <= v < vpn + k + 1 then MakePte(ppn + v - vpn, perm)
              else Lookup(f0, q, v)
    {
      assert r1[q] == Top(2);
    }
  }

  lemma RangeMapSame(f0: seq<Frame>, r0: seq<Role>, f1: seq<Frame>, r1: seq<Role>, f2: seq<Frame>, r: nat, vpn: nat,
                     ppn: nat, perm: nat, k: nat)
    requires perm < 1024 && RangeMap(f0, r0, f1, r, vpn, ppn, perm, k) && SameMap(f1, r1, f2) && Grown(r0, r1, r)
    ensures RangeMap(f0, r0, f2, r, vpn, ppn, perm, k)
  {
    forall q: nat, v: nat | q < |r0| && r0[q] == Top(2) && v < NVPN
      ensures Lookup(f2, q, v) == if q == r && vpn <= v < vpn + k then MakePte(ppn + v - vpn, perm)
              else Lookup(f0, q, v)
    {
      assert r1[q] == Top(2);
    }
  }

  lemma PagesOf(va: nat, size: nat, pa: nat)
    requires va % PGSIZE == 0 && size % PGSIZE == 0 && va + size <= MAXVA && (pa + size) / PGSIZE < NPPN && size > 0
    ensures va / PGSIZE + size / PGSIZE <= NVPN && pa / PGSIZE + size / PGSIZE < NPPN && size / PGSIZE > 0
  {
    PageOf(pa, size / PGSIZE);
    assert size == PGSIZE * (size / PGSIZE) && va == PGSIZE * (va / PGSIZE);
  }

  lemma PageOf(va: nat, k: nat)
    ensures (va + PGSIZE * k) / PGSIZE == va / PGSIZE + k
  {
    var q, o := va / PGSIZE, va % PGSIZE;
    assert va + PGSIZE * k == PGSIZE * (q + k) + o;
  }

  /** As Grown, but for frame p. */
  ghost predicate GrownBut(role: seq<Role>, role': seq<Role>, r: nat, p: nat) {
    && |role'| == |role|
    && forall q: nat :: q < |role| && q != p ==>
         role'[q] == role[q] || (role[q] == Free && role'[q].Sub? && InTree(role', r, q))
  }

  /** A free frame became page vpn of r, with those bytes. */
  ghost predicate PageAdded(frames: seq<Frame>, role: seq<Role>, frames': seq<Frame>, role': seq<Role>, r: nat,
                            vpn: nat, data: Page, perm: nat)
    requires perm < 1024
  {
    var p := Lookup(frames', r, vpn) / 1024;
    && 0 < p < |role| && role[p] == Free && GrownBut(role, role', r, p) && role'[p] == User(r, vpn)
    && |frames'| == |role| && frames'[p] == Bytes(data)
    && SetMap(frames, role, frames', r, vpn, MakePte(p, perm)) && DataKept(frames, role, frames')
  }

  lemma {:induction false} ClaimOk(frames: seq<Frame>, role: seq<Role>, p: nat, r: nat, vpn: nat)
    requires TreesOk(frames, role, {}) && p < |role| && role[p] == Taken && r < |role| && role[r] == Top(2)
             && vpn < NVPN
    requires IsValid(Lookup(frames, r, vpn)) && Lookup(frames, r, vpn) / 1024 == p
    ensures TreesOk(frames, role[p := User(r, vpn)], {})
  {
    var role' := role[p := User(r, vpn)];
    forall q: nat | q < |role| ensures FrameOk(frames, role', {}, q) {
      assert FrameOk(frames, role, {}, q);
      if role[q].Top? || role[q].Sub? {
        forall k: nat | k < NPTE && role[q].level > 0 ensures LinkOk(frames, role', q, k, role[q].level) {
          assert LinkOk(frames, role, q, k, role[q].level);
        }
      }
    }
  }

  /** mem was allocated and then mapped. */
  lemma Claimed(f0: seq<Frame>, r0: seq<Role>, f1: seq<Frame>, f2: seq<Frame>, r2: seq<Role>, mem: nat, r: nat,
                vpn: nat, data: Page, perm: nat)
    requires |r0| == |f0| && 0 < mem < |r0| && r0[mem] == Free && f1 == f0[mem := Bytes(data)] && perm < 1024
    requires TreesOk(f2, r2, {}) && r < |r0| && r0[r] == Top(2) && vpn < NVPN
    requires Grown(r0[mem := Taken], r2, r) && DataKept(f1, r0[mem := Taken], f2)
    requires SameMap(f0, r0, f1) && SetMap(f1, r0[mem := Taken], f2, r, vpn, MakePte(mem, perm))
    ensures r2[mem] == Taken && TreesOk(f2, r2[mem := User(r, vpn)], {})
    ensures PageAdded(f0, r0, f2, r2[mem := User(r, vpn)], r, vpn, data, perm)
  {
    assert r0[mem := Taken][r] == Top(2) && r2[r] == Top(2);
    assert Lookup(f2, r, vpn) == MakePte(mem, perm);
    ClaimOk(f2, r2, mem, r, vpn);
    SetAfter(f0, r0, f1, f2, mem, r, vpn, MakePte(mem, perm));
  }

  lemma SetAfter(f0: seq<Frame>, r0: seq<Role>, f1: seq<Frame>, f2: seq<Frame>, mem: nat, r: nat, vpn: nat, pte: nat)
    requires mem < |r0| && r0[mem] == Free && SameMap(f0, r0, f1) && SetMap(f1, r0[mem := Taken], f2, r, vpn, pte)
    ensures SetMap(f0, r0, f2, r, vpn, pte)
  {
    forall q: nat, v: nat | q < |r0| && r0[q] == Top(2) && v < NVPN
      ensures Lookup(f2, q, v) == if q == r && v == vpn then pte else Lookup(f0, q, v)
    {
      assert r0[mem := Taken][q] == Top(2) && Lookup(f1, q, v) == Lookup(f0, q, v);
    }
  }

  /** mem was allocated, not mapped, and is given back. */
  lemma Undone(f0: seq<Frame>, r0: seq<Role>, f1: seq<Frame>, f2: seq<Frame>, r2: seq<Role>, mem: nat, r: nat)
    requires |r0| == |f0| == |f1| && 0 < mem < |r0| && r0[mem] == Free && TreesOk(f2, r2, {})
    requires forall p: nat :: p < |f0| && p != mem ==> f1[p] == f0[p]
    requires Grown(r0[mem := Taken], r2, r) && DataKept(f1, r0[mem := Taken], f2)
    requires SameMap(f0, r0, f1) && SameMap(f1, r0[mem := Taken], f2)
    ensures Extended(f0, r0, f2[mem := Bytes(Fill(1))], r2[mem := Free], r)
  {
    assert r2[mem] == Taken;
    RetypeMap(f2, r2, mem, Fill(1), Free);
    var f3, r3 := f2[mem := Bytes(Fill(1))], r2[mem := Free];
    forall q: nat, v: nat | q < |r0| && r0[q] == Top(2) && v < NVPN ensures Lookup(f3, q, v) == Lookup(f0, q, v) {
      assert r0[mem := Taken][q] == Top(2) && r3[q] == Top(2);
      assert Lookup(f1, q, v) == Lookup(f0, q, v) && Lookup(f2, q, v) == Lookup(f1, q, v);
    }
  }

  // ---------- unmapping ----------

  /** uvmunmap accepts the page: mapped, as a leaf, and the page table's own exactly if it is to be freed. */
  ghost predicate Removable(frames: seq<Frame>, role: seq<Role>, r: nat, vpn: nat, doFree: bool) {
    var pte := Lookup(frames, r, vpn);
    && IsValid(pte) && PteFlags(pte) != PTE_V
    && (doFree <==> pte / 1024 < |role| && role[pte / 1024] == User(r, vpn))
  }

  ghost predicate Within(o: Role, r: nat, vpn: nat, k: nat) {
    o.User? && o.root == r && vpn <= o.vpn < vpn + k
  }

  /** k pages from vpn on are gone from the flat map, and their frames are free if that was asked. */
  ghost predicate UnmapState(f0: seq<Frame>, r0: seq<Role>, frames: seq<Frame>, role: seq<Role>, r: nat, vpn: nat,
                             k: nat, doFree: bool)
  {
    && |role| == |r0| == |f0| && DataKept(f0, role, frames)
    && (forall p: nat :: p < |r0| ==> role[p] == if doFree && Within(r0[p], r, vpn, k) then Free else r0[p])
    && (forall q: nat, v: nat :: q < |r0| && r0[q] == Top(2) && v < NVPN ==>
          Lookup(frames, q, v) == if q == r && vpn <= v < vpn + k then 0 else Lookup(f0, q, v))
  }

  lemma OneUserPage(frames: seq<Frame>, role: seq<Role>, r: nat, vpn: nat, p: nat)
    requires TreesOk(frames, role, {}) && p < |role| && role[p] == User(r, vpn)
    ensures Lookup(frames, r, vpn) / 1024 == p && frames[p].Bytes?
  {
    assert FrameOk(frames, role, {}, p);
  }

  lemma RetypeLeaf(frames: seq<Frame>, role: seq<Role>, p: nat, d: Page, r: nat, vpn: nat)
    requires TreesOk(frames, role, {}) && p < |role| && role[p].User? && r < |role| && role[r] == Top(2)
    ensures LeafTable(frames[p := Bytes(d)], r, vpn) == LeafTable(frames, r, vpn)
  {
    Path(frames, role, {}, r, vpn);
    RetypeChild(frames, role, {}, p, d, r, Px(2, vpn));
    var m := Child(frames, r, Px(2, vpn));
    if m != 0 { RetypeChild(frames, role, {}, p, d, m, Px(1, vpn)); }
  }

  lemma ClearEntry(frames: seq<Frame>, role: seq<Role>, r: nat, vpn: nat)
    requires TreesOk(frames, role, {}) && r < |role| && role[r] == Top(2) && vpn < NVPN
             && LeafTable(frames, r, vpn) != 0
    requires forall p: nat :: p < |role| ==> role[p] != User(r, vpn)
    ensures var l := LeafTable(frames, r, vpn);
            && l < |frames| && frames[l].Table?
            && TreesOk(Store(frames, l, Px(0, vpn), 0), role, {})
            && SetMap(frames, role, Store(frames, l, Px(0, vpn), 0), r, vpn, 0)
            && DataKept(frames, role, Store(frames, l, Px(0, vpn), 0))
  {
    Path(frames, role, {}, r, vpn);
    StoreOk(frames, role, r, vpn, 0);
    var l := LeafTable(frames, r, vpn);
    var frames' := Store(frames, l, Px(0, vpn), 0);
    forall q: nat, v: nat | q < |role| && role[q] == Top(2) && v < NVPN
      ensures Lookup(frames', q, v) == if q == r && v == vpn then 0 else Lookup(frames, q, v)
    {
      StoreLookup(frames, role, r, vpn, 0, q, v);
    }
  }

  lemma UnmapOk(frames: seq<Frame>, role: seq<Role>, r: nat, vpn: nat, doFree: bool)
    requires TreesOk(frames, role, {}) && r < |role| && role[r] == Top(2) && vpn < NVPN
             && Removable(frames, role, r, vpn, doFree)
    ensures var l := LeafTable(frames, r, vpn);
            var p := Lookup(frames, r, vpn) / 1024;
            && 0 < l < |frames| && frames[l].Table? && (doFree ==> p < |frames| && p != l)
            && var f := if doFree then frames[p := Bytes(Fill(1))] else frames;
               var o := if doFree then role[p := Free] else role;
               && TreesOk(Store(f, l, Px(0, vpn), 0), o, {})
               && UnmapState(frames, role, Store(f, l, Px(0, vpn), 0), o, r, vpn, 1, doFree)
  {
    Path(frames, role, {}, r, vpn);
    var l, p := LeafTable(frames, r, vpn), Lookup(frames, r, vpn) / 1024;
    forall q: nat | q < |role| && role[q] == User(r, vpn)
      ensures q == p && doFree
    {
      OneUserPage(frames, role, r, vpn, q);
    }
    if doFree {
      OneUserPage(frames, role, r, vpn, p);
      RetypeOk(frames, role, {}, p, Fill(1), Free);
      RetypeMap(frames, role, p, Fill(1), Free);
      RetypeLeaf(frames, role, p, Fill(1), r, vpn);
      ClearEntry(frames[p := Bytes(Fill(1))], role[p := Free], r, vpn);
    } else {
      ClearEntry(frames, role, r, vpn);
    }
  }

  ghost predicate AllRemovable(frames: seq<Frame>, role: seq<Role>, r: nat, vpn: nat, n: nat, doFree: bool) {
    forall v: nat :: vpn <= v < vpn + n ==> Removable(frames, role, r, v, doFree)
  }

  lemma UnmapNext(f0: seq<Frame>, r0: seq<Role>, frames: seq<Frame>, role: seq<Role>, r: nat, vpn: nat, k: nat,
                  n: nat, doFree: bool)
    requires UnmapState(f0, r0, frames, role, r, vpn, k, doFree) && AllRemovable(f0, r0, r, vpn, n, doFree)
    requires k < n && vpn + n <= NVPN && r < |r0| && r0[r] == Top(2)
    ensures Removable(frames, role, r, vpn + k, doFree)
  {
    assert Removable(f0, r0, r, vpn + k, doFree);
  }

  lemma UnmapMore(f0: seq<Frame>, r0: seq<Role>, f1: seq<Frame>, r1: seq<Role>, f2: seq<Frame>, r2: seq<Role>, r: nat,
                  vpn: nat, k: nat, doFree: bool)
    requires UnmapState(f0, r0, f1, r1, r, vpn, k, doFree) && UnmapState(f1, r1, f2, r2, r, vpn + k, 1, doFree)
    ensures UnmapState(f0, r0, f2, r2, r, vpn, k + 1, doFree)
  {
    forall q: nat, v: nat | q < |r0| && r0[q] == Top(2) && v < NVPN
      ensures Lookup(f2, q, v) == if q == r && vpn <= v < vpn + k + 1 then 0 else Lookup(f0, q, v)
    {
      assert r1[q] == Top(2);
    }
  }

  /** PGROUNDUP(sz) / PGSIZE */
  function Pages(sz: nat): nat {
    (sz + PGSIZE - 1) / PGSIZE
  }

  // ---------- growing ----------

  datatype Want = Want(data: Page, perm: nat)

  // Numbers by their bits: a from PTE_U's left on, then U, X, W, R and V.

  predicate IsBits(n: nat, a: nat, u: nat, x: nat, w: nat, r: nat, v: nat) {
    n == 32 * a + 16 * u + 8 * x + 4 * w + 2 * r + v && u < 2 && x < 2 && w < 2 && r < 2 && v < 2
  }

  lemma Split(n: nat) returns (a: nat, u: nat, x: nat, w: nat, r: nat, v: nat)
    ensures IsBits(n, a, u, x, w, r, v)
  {
    var n1 := n / 2;
    var n2 := n1 / 2;
    var n3 := n2 / 2;
    var n4 := n3 / 2;
    a, u, x, w, r, v := n4 / 2, n4 % 2, n3 % 2, n2 % 2, n1 % 2, n % 2;
  }

  lemma Parity(n: nat, half: nat, bit: nat)
    requires n == 2 * half + bit && bit < 2
    ensures n % 2 == bit && n / 2 == half
  {
  }

  lemma Quotient4(n: nat, q: nat, rest: nat)
    requires n == 4 * q + rest && rest < 4
    ensures n / 4 == q
  {
  }

  lemma Quotient8(n: nat, q: nat, rest: nat)
    requires n == 8 * q + rest && rest < 8
    ensures n / 8 == q
  {
  }

  lemma Quotient16(n: nat, q: nat, rest: nat)
    requires n == 16 * q + rest && rest < 16
    ensures n / 16 == q
  {
  }

  lemma Quotient32(n: nat, q: nat, rest: nat)
    requires n == 32 * q + rest && rest < 32
    ensures n / 32 == q
  {
  }

  lemma BitV(n: nat, a: nat, u: nat, x: nat, w: nat, r: nat, v: nat)
    requires IsBits(n, a, u, x, w, r, v)
    ensures n % 2 == v
  {
    Parity(n, 16 * a + 8 * u + 4 * x + 2 * w + r, v);
  }

  lemma BitR(n: nat, a: nat, u: nat, x: nat, w: nat, r: nat, v: nat)
    requires IsBits(n, a, u, x, w, r, v)
    ensures n / 2 % 2 == r
  {
    var half := 16 * a + 8 * u + 4 * x + 2 * w + r;
    Parity(n, half, v);
    Parity(half, 8 * a + 4 * u + 2 * x + w, r);
  }

  lemma BitW(n: nat, a: nat, u: nat, x: nat, w: nat, r: nat, v: nat)
    requires IsBits(n, a, u, x, w, r, v)
    ensures n / 4 % 2 == w
  {
    var q := 8 * a + 4 * u + 2 * x + w;
    Quotient4(n, q, 2 * r + v);
    Parity(q, 4 * a + 2 * u + x, w);
  }

  lemma BitX(n: nat, a: nat, u: nat, x: nat, w: nat, r: nat, v: nat)
    requires IsBits(n, a, u, x, w, r, v)
    ensures n / 8 % 2 == x
  {
    var q := 4 * a + 2 * u + x;
    Quotient8(n, q, 4 * w + 2 * r + v);
    Parity(q, 2 * a + u, x);
  }

  lemma BitU(n: nat, a: nat, u: nat, x: nat, w: nat, r: nat, v: nat)
    requires IsBits(n, a, u, x, w, r, v)
    ensures n / 16 % 2 == u
  {
    Quotient16(n, 2 * a + u, 8 * x + 4 * w + 2 * r + v);
    Parity(2 * a + u, a, u);
  }

  lemma BitsAbove(n: nat, a: nat, u: nat, x: nat, w: nat, r: nat, v: nat)
    requires IsBits(n, a, u, x, w, r, v)
    ensures n / 32 == a
  {
    Quotient32(n, a, 16 * u + 8 * x + 4 * w + 2 * r + v);
  }

  /** All of them at once. */
  lemma ReadBits(n: nat, a: nat, u: nat, x: nat, w: nat, r: nat, v: nat)
    requires IsBits(n, a, u, x, w, r, v)
    ensures n % 2 == v && n / 2 % 2 == r && n / 4 % 2 == w && n / 8 % 2 == x && n / 16 % 2 == u && n / 32 == a
  {
    BitV(n, a, u, x, w, r, v);
    BitR(n, a, u, x, w, r, v);
    BitW(n, a, u, x, w, r, v);
    BitX(n, a, u, x, w, r, v);
    BitU(n, a, u, x, w, r, v);
    BitsAbove(n, a, u, x, w, r, v);
  }

  /** `PTE_R|PTE_U|xperm` */
  function UserPerm(x: nat): nat {
    x + (if x / 2 % 2 == 1 then 0 else PTE_R) + (if x / 16 % 2 == 1 then 0 else PTE_U)
  }

  /** PTE_R and PTE_U are set, and every other bit is as asked. */
  lemma UserPermBits(x: nat)
    requires x < 1024
    ensures var perm := UserPerm(x);
            && 1 < perm < 1024 && perm / 2 % 2 == 1 && perm / 16 % 2 == 1
            && perm % 2 == x % 2 && perm / 4 % 2 == x / 4 % 2 && perm / 8 % 2 == x / 8 % 2 && perm / 32 == x / 32
  {
    var a, u, c, w, r, v := Split(x);
    ReadBits(x, a, u, c, w, r, v);
    ReadBits(UserPerm(x), a, 1, c, w, 1, v);
  }

  /** The flags of an entry decide what it allows. */
  lemma FlagBits(pte: nat)
    ensures IsValid(pte) <==> IsValid(PteFlags(pte))
    ensures IsUser(pte) <==> IsUser(PteFlags(pte))
    ensures IsWritable(pte) <==> IsWritable(PteFlags(pte))
  {
    var a, u, x, w, r, v := Split(PteFlags(pte));
    ReadBits(PteFlags(pte), a, u, x, w, r, v);
    ReadBits(pte, 32 * (pte / 1024) + a, u, x, w, r, v);
  }

  /** freewalk takes an entry for a leaf if one of PTE_R, PTE_W and PTE_X is set. */
  lemma LeafBits(pte: nat)
    ensures IsLeaf(pte) <==> pte / 2 % 2 == 1 || pte / 4 % 2 == 1 || pte / 8 % 2 == 1
  {
    var a, u, x, w, r, v := Split(pte);
    ReadBits(pte, a, u, x, w, r, v);
    var rwx := 4 * x + 2 * w + r;
    Parity(pte, 8 * (2 * a + u) + rwx, v);
    LowBits(8 * (2 * a + u) + rwx, 2 * a + u, rwx);
  }

  lemma LowBits(n: nat, q: nat, low: nat)
    requires n == 8 * q + low && low < 8
    ensures n % 8 == low
  {
  }

  lemma MadePte(ppn: nat, perm: nat)
    requires perm < 1024
    ensures IsUser(MakePte(ppn, perm)) <==> IsUser(perm)
    ensures IsWritable(MakePte(ppn, perm)) <==> IsWritable(perm)
  {
    var a, u, x, w, r, v := Split(perm);
    ReadBits(perm, a, u, x, w, r, v);
    ReadBits(MakePte(ppn, perm), 32 * ppn + a, u, x, w, r, 1);
  }

  function Zeroed(n: nat, perm: nat): seq<Want> {
    seq(n, _ => Want(Fill(0), perm))
  }

  /** What page v of r holds and how it is mapped. */
  function CopyOf(frames: seq<Frame>, r: nat, v: nat): Want {
    var pte := Lookup(frames, r, v);
    Want(if pte / 1024 < |frames| && frames[pte / 1024].Bytes? then frames[pte / 1024].data else Fill(0), PteFlags(pte))
  }

  function Image(frames: seq<Frame>, r: nat, n: nat): seq<Want> {
    seq(n, v requires v >= 0 => CopyOf(frames, r, v))
  }

  /** Page v of r is a page of its own, with the wanted bytes and flags. */
  ghost predicate NewPage(frames: seq<Frame>, role: seq<Role>, r: nat, v: nat, w: Want) {
    var pte := Lookup(frames, r, v);
    && |frames| == |role| && 0 < pte / 1024 < |role| && w.perm < 1024 && pte == MakePte(pte / 1024, w.perm)
    && role[pte / 1024] == User(r, v) && frames[pte / 1024] == Bytes(w.data)
  }

  /** The wanted pages stand at vpn and after; every other mapping, page and role is as it was,
      but for free pages that became tables of r. */
  ghost predicate AllocState(f0: seq<Frame>, r0: seq<Role>, frames: seq<Frame>, role: seq<Role>, r: nat, vpn: nat,
                             want: seq<Want>)
  {
    && |role| == |r0| && DataKept(f0, r0, frames)
    && (forall p: nat :: p < |r0| ==>
         role[p] == r0[p] || (r0[p] == Free
           && (Within(role[p], r, vpn, |want|) || (role[p].Sub? && InTree(role, r, p)))))
    && (forall q: nat, v: nat :: q < |r0| && r0[q] == Top(2) && v < NVPN && !(q == r && vpn <= v < vpn + |want|) ==>
          Lookup(frames, q, v) == Lookup(f0, q, v))
    && (forall i: nat :: i < |want| ==> NewPage(frames, role, r, vpn + i, want[i]))
  }

  lemma AllocNext(f0: seq<Frame>, r0: seq<Role>, frames: seq<Frame>, role: seq<Role>, r: nat, vpn: nat,
                  want: seq<Want>, n: nat)
    requires AllocState(f0, r0, frames, role, r, vpn, want) && Unmapped(f0, r, vpn, n) && |want| < n && vpn + n <= NVPN
    requires r < |r0| && r0[r] == Top(2)
    ensures !IsValid(Lookup(frames, r, vpn + |want|))
  {
    assert !IsValid(Lookup(f0, r, vpn + |want|));
  }

  lemma AllocMore(f0: seq<Frame>, r0: seq<Role>, f1: seq<Frame>, r1: seq<Role>, f2: seq<Frame>, r2: seq<Role>,
                  r: nat, vpn: nat, want: seq<Want>, w: Want)
    requires AllocState(f0, r0, f1, r1, r, vpn, want) && vpn + |want| < NVPN && r < |r0| && r0[r] == Top(2)
             && w.perm < 1024
    requires PageAdded(f1, r1, f2, r2, r, vpn + |want|, w.data, w.perm)
    ensures AllocState(f0, r0, f2, r2, r, vpn, want + [w])
  {
    var want' := want + [w];
    assert DataKept(f0, r0, f2);
    forall p: nat | p < |r0|
      ensures r2[p] == r0[p] || (r0[p] == Free && (Within(r2[p], r, vpn, |want'|) || (r2[p].Sub? && InTree(r2, r, p))))
    {
      AllocMoreRole(r0, r1, r2, Lookup(f2, r, vpn + |want|) / 1024, r, vpn, |want|, p);
    }
    forall q: nat, v: nat | q < |r0| && r0[q] == Top(2) && v < NVPN && !(q == r && vpn <= v < vpn + |want'|)
      ensures Lookup(f2, q, v) == Lookup(f0, q, v)
    {
      assert r1[q] == Top(2) && Lookup(f1, q, v) == Lookup(f0, q, v);
    }
    forall i: nat | i < |want'| ensures NewPage(f2, r2, r, vpn + i, want'[i]) {
      assert i < |want| ==> NewPage(f1, r1, r, vpn + i, want[i]);
      assert r1[r] == Top(2);
    }
  }

  lemma AllocMoreRole(r0: seq<Role>, r1: seq<Role>, r2: seq<Role>, n: nat, r: nat, vpn: nat, k: nat, p: nat)
    requires |r1| == |r0| && n < |r0| && r1[n] == Free && GrownBut(r1, r2, r, n) && r2[n] == User(r, vpn + k)
             && p < |r0|
    requires forall x: nat :: x < |r0| ==>
               r1[x] == r0[x] || (r0[x] == Free && (Within(r1[x], r, vpn, k) || (r1[x].Sub? && InTree(r1, r, x))))
    ensures r2[p] == r0[p] || (r0[p] == Free && (Within(r2[p], r, vpn, k + 1) || (r2[p].Sub? && InTree(r2, r, p))))
  {
  }

  lemma AllocStays(f0: seq<Frame>, r0: seq<Role>, f1: seq<Frame>, r1: seq<Role>, f2: seq<Frame>, r2: seq<Role>,
                   r: nat, vpn: nat, want: seq<Want>)
    requires AllocState(f0, r0, f1, r1, r, vpn, want) && vpn + |want| <= NVPN && r < |r0| && r0[r] == Top(2)
    requires Extended(f1, r1, f2, r2, r)
    ensures AllocState(f0, r0, f2, r2, r, vpn, want)
  {
    assert DataKept(f0, r0, f2);
    forall q: nat, v: nat | q < |r0| && r0[q] == Top(2) && v < NVPN && !(q == r && vpn <= v < vpn + |want|)
      ensures Lookup(f2, q, v) == Lookup(f0, q, v)
    {
      assert r1[q] == Top(2) && Lookup(f1, q, v) == Lookup(f0, q, v);
    }
    forall i: nat | i < |want| ensures NewPage(f2, r2, r, vpn + i, want[i]) {
      assert NewPage(f1, r1, r, vpn + i, want[i]) && r1[r] == Top(2);
    }
  }

  lemma AllocRemovable(f0: seq<Frame>, r0: seq<Role>, f1: seq<Frame>, r1: seq<Role>, r: nat, vpn: nat, want: seq<Want>)
    requires AllocState(f0, r0, f1, r1, r, vpn, want) && forall i: nat :: i < |want| ==> want[i].perm > 1
    ensures AllRemovable(f1, r1, r, vpn, |want|, true)
  {
    forall v: nat | vpn <= v < vpn + |want| ensures Removable(f1, r1, r, v, true) {
      assert NewPage(f1, r1, r, vpn + (v - vpn), want[v - vpn]);
    }
  }

  /** Taking the new pages away again leaves nothing changed but tables. */
  lemma AllocUndone(f0: seq<Frame>, r0: seq<Role>, f1: seq<Frame>, r1: seq<Role>, f2: seq<Frame>, r2: seq<Role>,
                    r: nat, vpn: nat, want: seq<Want>)
    requires AllocState(f0, r0, f1, r1, r, vpn, want) && UnmapState(f1, r1, f2, r2, r, vpn, |want|, true)
    requires TreesOk(f0, r0, {}) && Unmapped(f0, r, vpn, |want|) && r < |r0| && r0[r] == Top(2)
    ensures Extended(f0, r0, f2, r2, r)
  {
    forall p: nat | p < |r0| ensures !Within(r0[p], r, vpn, |want|) {
      if Within(r0[p], r, vpn, |want|) { NotUser(f0, r0, r, r0[p].vpn); }
    }
    assert Grown(r0, r2, r) && DataKept(f0, r0, f2);
    forall q: nat, v: nat | q < |r0| && r0[q] == Top(2) && v < NVPN ensures Lookup(f2, q, v) == Lookup(f0, q, v) {
      assert r1[q] == Top(2);
      ZeroOrValid(f0, r0, q, v);
    }
  }

  lemma NothingAllocated(f0: seq<Frame>, r0: seq<Role>, r: nat, vpn: nat)
    requires |f0| == |r0|
    ensures AllocState(f0, r0, f0, r0, r, vpn, [])
  {
  }

  lemma NothingUnmapped(f0: seq<Frame>, r0: seq<Role>, r: nat, vpn: nat, doFree: bool)
    requires |f0| == |r0|
    ensures UnmapState(f0, r0, f0, r0, r, vpn, 0, doFree)
  {
  }

  lemma ZeroedMore(n: nat, perm: nat)
    ensures Zeroed(n, perm) + [Want(Fill(0), perm)] == Zeroed(n + 1, perm) && Zeroed(0, perm) == []
  {
  }

  lemma ImageMore(frames: seq<Frame>, r: nat, n: nat)
    ensures Image(frames, r, n) + [CopyOf(frames, r, n)] == Image(frames, r, n + 1) && Image(frames, r, 0) == []
  {
  }

  lemma PagesMono(a: nat, b: nat)
    requires a <= b
    ensures Pages(a) <= Pages(b)
  {
    PagesBelow(Pages(b), b);
    PagesBelow(Pages(b), a);
  }

  lemma PagesBelow(a: nat, sz: nat)
    ensures PGSIZE * a < sz <==> a < Pages(sz)
  {
    var q := (sz + PGSIZE - 1) / PGSIZE;
    assert PGSIZE * q <= sz + PGSIZE - 1 < PGSIZE * (q + 1);
    if a < q { assert PGSIZE * (a + 1) <= PGSIZE * q; }
    if a >= q { assert PGSIZE * a >= PGSIZE * q; }
  }

  lemma PageBelow(va: nat, sz: nat)
    requires va < sz
    ensures va / PGSIZE < Pages(sz)
  {
    PagesBelow(va / PGSIZE, sz);
    assert PGSIZE * (va / PGSIZE) <= va;
  }

  /** While the child is being filled the parent's pages are as they were. */
  lemma CopySource(f0: seq<Frame>, r0: seq<Role>, frames: seq<Frame>, role: seq<Role>, old_: nat, new_: nat, i: nat,
                   n: nat)
    requires AllocState(f0, r0, frames, role, new_, 0, Image(f0, old_, i)) && AllRemovable(f0, r0, old_, 0, n, true)
    requires TreesOk(f0, r0, {}) && old_ < |r0| && r0[old_] == Top(2) && old_ != new_ && i < n <= NVPN
    ensures forall v: nat :: v < i ==> Image(f0, old_, i)[v].perm > 1
    ensures var pte := Lookup(frames, old_, i);
            && IsValid(pte) && pte / 1024 < |frames| && frames[pte / 1024].Bytes?
            && CopyOf(f0, old_, i) == Want(frames[pte / 1024].data, PteFlags(pte)) && PteFlags(pte) > 1
  {
    forall v: nat | v < n ensures PteFlags(Lookup(f0, old_, v)) > 1 {
      assert Removable(f0, r0, old_, v, true);
      OddFlags(Lookup(f0, old_, v));
    }
    assert Removable(f0, r0, old_, i, true);
    OneUserPage(f0, r0, old_, i, Lookup(f0, old_, i) / 1024);
  }

  lemma OddFlags(pte: nat)
    requires IsValid(pte) && PteFlags(pte) != PTE_V
    ensures PteFlags(pte) > 1
  {
    var q, f := pte / 1024, pte % 1024;
    assert f == 2 * (f / 2) + f % 2;
    assert pte == 2 * (512 * q + f / 2) + f % 2;
  }

  // ---------- freeing a tree ----------

  /** The entry of t under which p hangs, NPTE if p is not below t. */
  ghost function Branch(role: seq<Role>, t: nat, p: nat): nat
    requires p < |role|
  {
    if !role[p].Sub? then NPTE
    else if role[p].parent == t then role[p].i
    else if role[p].parent < |role| && role[role[p].parent].Sub? && role[role[p].parent].parent == t
    then role[role[p].parent].i
    else NPTE
  }

  lemma InTreeBranch(frames: seq<Frame>, role: seq<Role>, hole: set<(nat, nat)>, t: nat, p: nat)
    requires TreesOk(frames, role, hole) && p < |role|
    ensures InTree(role, t, p) <==> p == t || Branch(role, t, p) < NPTE
  {
    assert FrameOk(frames, role, hole, p);
    if role[p].Sub? { assert FrameOk(frames, role, hole, role[p].parent); }
  }

  /** What hangs under entry i of t is the tree of the child there. */
  lemma BranchIsTree(frames: seq<Frame>, role: seq<Role>, hole: set<(nat, nat)>, t: nat, i: nat, c: nat, level: nat,
                     p: nat)
    requires TreesOk(frames, role, hole) && t < |role| && role[t] == Top(level) && level > 0 && c < |role|
             && role[c] == Sub(t, i, level - 1)
    requires p < |role|
    ensures Branch(role, t, p) == i <==> InTree(role[c := Top(level - 1)], c, p)
  {
    assert FrameOk(frames, role, hole, c) && FrameOk(frames, role, hole, p);
    if role[p].Sub? {
      var q := role[p].parent;
      assert FrameOk(frames, role, hole, q);
      if role[q].Sub? { assert FrameOk(frames, role, hole, role[q].parent); }
    }
  }

  lemma DetachOk(frames: seq<Frame>, role: seq<Role>, hole: set<(nat, nat)>, t: nat, i: nat, c: nat, level: nat)
    requires TreesOk(frames, role, hole) && t < |role| && role[t] == Top(level) && level > 0 && c < |role|
             && role[c] == Sub(t, i, level - 1)
    requires NoUsers(role, t)
    ensures TreesOk(frames, role[c := Top(level - 1)], hole + {(t, i)}) && t != c
  {
    var role', hole' := role[c := Top(level - 1)], hole + {(t, i)};
    assert FrameOk(frames, role, hole, c) && FrameOk(frames, role, hole, t);
    forall q: nat | q < |role| ensures FrameOk(frames, role', hole', q) {
      assert FrameOk(frames, role, hole, q);
      if role[q].Top? || role[q].Sub? {
        forall k: nat | k < NPTE && role[q].level > 0 && (q, k) !in hole'
          ensures LinkOk(frames, role', q, k, role[q].level)
        {
          assert LinkOk(frames, role, q, k, role[q].level);
        }
      }
      if role[q].User? { assert Clear(hole, role[q].root); }
    }
  }

  /** Clearing an entry of a loose table is nobody else's business. */
  lemma StoreTopLookup(frames: seq<Frame>, role: seq<Role>, hole: set<(nat, nat)>, t: nat, i: nat, r: nat, vpn: nat)
    requires TreesOk(frames, role, hole) && t < |role| && role[t].Top? && frames[t].Table? && i < NPTE
    requires r < |role| && role[r] == Top(2) && r != t && Clear(hole, r)
    ensures Lookup(Store(frames, t, i, 0), r, vpn) == Lookup(frames, r, vpn)
  {
    Path(frames, role, hole, r, vpn);
    var frames' := Store(frames, t, i, 0);
    assert Child(frames', r, Px(2, vpn)) == Child(frames, r, Px(2, vpn));
    assert LeafTable(frames', r, vpn) == LeafTable(frames, r, vpn);
  }

  lemma FillHole(frames: seq<Frame>, role: seq<Role>, hole: set<(nat, nat)>, t: nat, i: nat)
    requires TreesOk(frames, role, hole + {(t, i)}) && t < |role| && role[t].Top? && i < NPTE
    requires NoUsers(role, t)
    ensures frames[t].Table? && TreesOk(Store(frames, t, i, 0), role, hole)
  {
    var hole' := hole + {(t, i)};
    assert FrameOk(frames, role, hole', t);
    var frames' := Store(frames, t, i, 0);
    forall q: nat | q < |role| ensures FrameOk(frames', role, hole, q) {
      assert FrameOk(frames, role, hole', q);
      if role[q].User? {
        StoreTopLookup(frames, role, hole', t, i, role[q].root, role[q].vpn);
      } else {
        FillFrameOk(frames, role, hole, t, i, q);
      }
    }
  }

  lemma FillFrameOk(frames: seq<Frame>, role: seq<Role>, hole: set<(nat, nat)>, t: nat, i: nat, q: nat)
    requires |role| == |frames| && t < |role| && frames[t].Table? && role[t].Top? && i < NPTE && q < |role|
    requires FrameOk(frames, role, hole + {(t, i)}, q) && !role[q].User?
    ensures FrameOk(Store(frames, t, i, 0), role, hole, q)
  {
    var hole', frames' := hole + {(t, i)}, Store(frames, t, i, 0);
    if role[q].Top? || role[q].Sub? {
      forall k: nat | k < NPTE && role[q].level > 0 && (q, k) !in hole
        ensures LinkOk(frames', role, q, k, role[q].level)
      {
        if (q, k) != (t, i) { assert LinkOk(frames, role, q, k, role[q].level); }
      }
      forall k: nat | k < NPTE && role[q].level == 0 ensures LeafOk(PteAt(frames', q, k)) {
        assert LeafOk(PteAt(frames, q, k));
      }
    }
  }

  /** A table with no entries left may go. */
  lemma EmptyTable(frames: seq<Frame>, role: seq<Role>, hole: set<(nat, nat)>, t: nat)
    requires TreesOk(frames, role, hole) && t < |role| && role[t].Top?
    requires forall k: nat :: k < NPTE ==> PteAt(frames, t, k) == 0
    requires NoUsers(role, t)
    ensures Releasable(role, t)
  {
    forall q: nat | q < |role| ensures !(role[q].Sub? && role[q].parent == t) {
      assert FrameOk(frames, role, hole, q);
      var k := if role[q].Sub? then role[q].i else 0;
      assert PteAt(frames, t, k) == 0;
    }
  }

  ghost predicate NoUsers(role: seq<Role>, r: nat) {
    forall q: nat :: q < |role| ==> !(role[q].User? && role[q].root == r)
  }

  /** The leaf tables below t map nothing. */
  ghost predicate NoLeaves(frames: seq<Frame>, role: seq<Role>, t: nat) {
    forall p: nat, i: nat :: p < |role| && InTree(role, t, p) && IsTable(role[p], 0) && i < NPTE ==>
      PteAt(frames, p, i) == 0
  }

  /** The tables below t and t itself are free; nothing else changed. */
  ghost predicate Freed(f0: seq<Frame>, r0: seq<Role>, frames: seq<Frame>, role: seq<Role>, t: nat) {
    && |frames| == |role| == |r0| == |f0|
    && forall p: nat :: p < |r0| ==> if InTree(r0, t, p) then role[p] == Free
       else role[p] == r0[p] && frames[p] == f0[p]
  }

  /** Half-way: the branches below entry i are gone. */
  ghost predicate FreeState(f0: seq<Frame>, r0: seq<Role>, frames: seq<Frame>, role: seq<Role>, t: nat, i: nat) {
    && |frames| == |role| == |r0| == |f0| && t < |r0|
    && (forall p: nat :: p < |r0| ==> role[p] == if Branch(r0, t, p) < i then Free else r0[p])
    && (forall p: nat :: p < |r0| && p != t && Branch(r0, t, p) >= i ==> frames[p] == f0[p])
    && (forall k: nat :: k < NPTE ==> PteAt(frames, t, k) == if k < i then 0 else PteAt(f0, t, k))
  }

  lemma BranchStays(f0: seq<Frame>, r0: seq<Role>, frames: seq<Frame>, role: seq<Role>, t: nat, i: nat, p: nat)
    requires FreeState(f0, r0, frames, role, t, i) && i <= NPTE && p < |r0|
    ensures Branch(role, t, p) == if Branch(r0, t, p) < i then NPTE else Branch(r0, t, p)
  {
  }

  lemma FreeNext(f0: seq<Frame>, r0: seq<Role>, frames: seq<Frame>, role: seq<Role>, hole: set<(nat, nat)>, t: nat,
                 i: nat)
    requires TreesOk(f0, r0, hole) && TreesOk(frames, role, hole) && FreeState(f0, r0, frames, role, t, i) && i < NPTE
    requires r0[t].Top? && NoLeaves(f0, r0, t) && NoUsers(r0, t) && Clear(hole, t)
    ensures role[t] == r0[t] && frames[t].Table? && NoUsers(role, t)
    ensures var pte := frames[t].ptes[i];
            if IsValid(pte) then
              !IsLeaf(pte) && pte / 1024 < |role| && role[t].level > 0
                && role[pte / 1024] == Sub(t, i, role[t].level - 1)
            else pte == 0
  {
    assert FrameOk(frames, role, hole, t);
    if role[t].level > 0 {
      assert LinkOk(frames, role, t, i, role[t].level);
    } else {
      assert PteAt(f0, t, i) == 0;
    }
  }

  lemma ChildReady(f0: seq<Frame>, r0: seq<Role>, frames: seq<Frame>, role: seq<Role>, hole: set<(nat, nat)>, t: nat,
                   i: nat, c: nat, level: nat)
    requires TreesOk(f0, r0, hole) && TreesOk(frames, role, hole) && FreeState(f0, r0, frames, role, t, i) && i < NPTE
    requires role[t] == Top(level) && level > 0 && c < |role| && role[c] == Sub(t, i, level - 1) && NoLeaves(f0, r0, t)
    ensures NoLeaves(frames, role[c := Top(level - 1)], c) && NoUsers(role[c := Top(level - 1)], c)
            && Clear(hole + {(t, i)}, c)
  {
    var role' := role[c := Top(level - 1)];
    forall p: nat, k: nat | p < |role| && InTree(role', c, p) && IsTable(role'[p], 0) && k < NPTE
      ensures PteAt(frames, p, k) == 0
    {
      BranchIsTree(frames, role, hole, t, i, c, level, p);
      BranchStays(f0, r0, frames, role, t, i, p);
      InTreeBranch(f0, r0, hole, t, p);
      assert FrameOk(frames, role, hole, p);
      assert PteAt(f0, p, k) == 0;
    }
    forall q: nat | q < |role| ensures !(role'[q].User? && role'[q].root == c) {
      assert FrameOk(frames, role, hole, q);
    }
    forall h | h in hole + {(t, i)} ensures h.0 != c {
      assert h in hole ==> role[h.0].Top?;
    }
  }

  lemma FreeMore(f0: seq<Frame>, r0: seq<Role>, f: seq<Frame>, o: seq<Role>, frames: seq<Frame>, role: seq<Role>,
                 hole: set<(nat, nat)>, t: nat, i: nat, c: nat, level: nat)
    requires TreesOk(f0, r0, hole) && TreesOk(f, o, hole) && FreeState(f0, r0, f, o, t, i) && i < NPTE
    requires o[t] == Top(level) && level > 0 && c < |o| && o[c] == Sub(t, i, level - 1)
    requires Freed(f, o[c := Top(level - 1)], frames, role, c)
    ensures role[t] == Top(level) && frames[t].Table? && FreeState(f0, r0, Store(frames, t, i, 0), role, t, i + 1)
  {
    var o' := o[c := Top(level - 1)];
    assert FrameOk(f, o, hole, t);
    forall p: nat | p < |r0|
      ensures role[p] == if Branch(r0, t, p) < i + 1 then Free else r0[p]
      ensures p != t && Branch(r0, t, p) >= i + 1 ==> frames[p] == f0[p]
      ensures p == t ==> frames[p] == f[p] && role[p] == o[p]
    {
      BranchIsTree(f, o, hole, t, i, c, level, p);
      BranchStays(f0, r0, f, o, t, i, p);
    }
    var frames' := Store(frames, t, i, 0);
    forall k: nat | k < NPTE ensures PteAt(frames', t, k) == if k < i + 1 then 0 else PteAt(f0, t, k) {
      assert PteAt(f, t, k) == if k < i then 0 else PteAt(f0, t, k);
    }
  }

  /** An empty entry has no branch. */
  lemma FreeSkip(f0: seq<Frame>, r0: seq<Role>, frames: seq<Frame>, role: seq<Role>, hole: set<(nat, nat)>, t: nat,
                 i: nat)
    requires TreesOk(f0, r0, hole) && FreeState(f0, r0, frames, role, t, i) && i < NPTE && PteAt(frames, t, i) == 0
    ensures FreeState(f0, r0, frames, role, t, i + 1)
  {
    forall p: nat | p < |r0| ensures Branch(r0, t, p) != i {
      assert FrameOk(f0, r0, hole, p);
      if r0[p].Sub? { assert FrameOk(f0, r0, hole, r0[p].parent); }
    }
  }

  lemma FreeLast(f0: seq<Frame>, r0: seq<Role>, frames: seq<Frame>, role: seq<Role>, hole: set<(nat, nat)>, t: nat)
    requires TreesOk(f0, r0, hole) && TreesOk(frames, role, hole) && FreeState(f0, r0, frames, role, t, NPTE)
    requires r0[t].Top? && NoUsers(r0, t)
    ensures role[t] == r0[t] && Releasable(role, t)
    ensures forall p: nat :: p < |r0| && p != t ==> if InTree(r0, t, p) then role[p] == Free
            else role[p] == r0[p] && frames[p] == f0[p]
  {
    assert NoUsers(role, t);
    EmptyTable(frames, role, hole, t);
    forall p: nat | p < |r0| && p != t
      ensures if InTree(r0, t, p) then role[p] == Free else role[p] == r0[p] && frames[p] == f0[p]
    {
      InTreeBranch(f0, r0, hole, t, p);
      assert FrameOk(f0, r0, hole, p);
    }
  }

  // ---------- a page table's life ----------

  lemma CreateOk(frames: seq<Frame>, role: seq<Role>, r: nat)
    requires TreesOk(frames, role, {}) && 0 < r < |role| && role[r] == Taken
    ensures TreesOk(frames[r := Table(NoPtes())], role[r := Top(2)], {})
    ensures SameMap(frames, role, frames[r := Table(NoPtes())]) && Unmapped(frames[r := Table(NoPtes())], r, 0, NVPN)
  {
    var frames', role' := frames[r := Table(NoPtes())], role[r := Top(2)];
    forall q: nat, v: nat | q < |role| && role[q] == Top(2) && v < NVPN
      ensures Lookup(frames', q, v) == Lookup(frames, q, v)
    {
      Path(frames, role, {}, q, v);
      assert FrameOk(frames, role, {}, q);
      assert Child(frames', q, Px(2, v)) == Child(frames, q, Px(2, v));
      assert LeafTable(frames', q, v) == LeafTable(frames, q, v);
    }
    forall p: nat | p < |role| ensures FrameOk(frames', role', {}, p) {
      CreateFrameOk(frames, role, r, p);
    }
  }

  lemma CreateFrameOk(frames: seq<Frame>, role: seq<Role>, r: nat, p: nat)
    requires TreesOk(frames, role, {}) && 0 < r < |role| && role[r] == Taken && p < |role|
    requires SameMap(frames, role, frames[r := Table(NoPtes())])
    ensures FrameOk(frames[r := Table(NoPtes())], role[r := Top(2)], {}, p)
  {
    var frames', role' := frames[r := Table(NoPtes())], role[r := Top(2)];
    assert FrameOk(frames, role, {}, p) && FrameOk(frames, role, {}, r);
    if role[p].Top? || role[p].Sub? {
      forall k: nat | k < NPTE && role[p].level > 0 ensures LinkOk(frames', role', p, k, role[p].level) {
        assert LinkOk(frames, role, p, k, role[p].level);
      }
      forall k: nat | k < NPTE && role[p].level == 0 ensures LeafOk(PteAt(frames', p, k)) {
        assert LeafOk(PteAt(frames, p, k));
      }
    }
  }

  /** Page table r holds frame p, as a table or as user memory. */
  ghost predicate Holds(role: seq<Role>, r: nat, p: nat)
    requires p < |role|
  {
    InTree(role, r, p) || (role[p].User? && role[p].root == r)
  }

  /** Nothing mapped means that freewalk will meet no leaf. */
  lemma NoLeavesLeft(frames: seq<Frame>, role: seq<Role>, r: nat)
    requires TreesOk(frames, role, {}) && r < |role| && role[r] == Top(2) && Unmapped(frames, r, 0, NVPN)
    ensures NoLeaves(frames, role, r) && NoUsers(role, r)
  {
    forall p: nat, k: nat | p < |role| && InTree(role, r, p) && IsTable(role[p], 0) && k < NPTE
      ensures PteAt(frames, p, k) == 0
    {
      assert FrameOk(frames, role, {}, p);
      var m := role[p].parent;
      assert FrameOk(frames, role, {}, m);
      var v := 262144 * role[m].i + 512 * role[p].i + k;
      FromDigits(role[m].i, role[p].i, k);
      ZeroOrValid(frames, role, r, v);
      assert Lookup(frames, r, v) == PteAt(frames, p, k);
    }
    forall q: nat | q < |role| ensures !(role[q].User? && role[q].root == r) {
      assert FrameOk(frames, role, {}, q);
    }
  }

  lemma FromDigits(i: nat, j: nat, k: nat)
    requires i < NPTE / 2 && j < NPTE && k < NPTE
    ensures var v := 262144 * i + 512 * j + k; v < NVPN && Px(2, v) == i && Px(1, v) == j && Px(0, v) == k
  {
    var v := 262144 * i + 512 * j + k;
    assert v / 512 == 512 * i + j;
    assert v / 262144 == i;
  }

  lemma NothingMapped(f0: seq<Frame>, r0: seq<Role>, frames: seq<Frame>, role: seq<Role>, r: nat, n: nat)
    requires TreesOk(frames, role, {}) && r < |r0| == |role| && r0[r] == role[r] == Top(2) && n <= NVPN
    requires UnmapState(f0, r0, frames, role, r, 0, n, true) && Unmapped(f0, r, n, NVPN - n)
    ensures NoLeaves(frames, role, r) && NoUsers(role, r)
  {
    forall v: nat | v < NVPN ensures !IsValid(Lookup(frames, r, v)) {
      assert v >= n ==> !IsValid(Lookup(f0, r, v));
    }
    NoLeavesLeft(frames, role, r);
  }

  lemma FreedLookup(f: seq<Frame>, o: seq<Role>, frames: seq<Frame>, role: seq<Role>, r: nat, q: nat, v: nat)
    requires TreesOk(f, o, {}) && Freed(f, o, frames, role, r) && r < |o| && o[r] == Top(2) && q < |o|
             && o[q] == Top(2) && q != r
    ensures Lookup(frames, q, v) == Lookup(f, q, v)
  {
    Path(f, o, {}, q, v);
    assert FrameOk(f, o, {}, q);
    assert frames[q] == f[q];
    assert Child(frames, q, Px(2, v)) == Child(f, q, Px(2, v));
    assert LeafTable(frames, q, v) == LeafTable(f, q, v);
  }

  lemma AllFreed(f0: seq<Frame>, r0: seq<Role>, f: seq<Frame>, o: seq<Role>, frames: seq<Frame>, role: seq<Role>,
                 r: nat, n: nat)
    requires TreesOk(f, o, {}) && r < |r0| == |o| && o[r] == Top(2)
    requires UnmapState(f0, r0, f, o, r, 0, n, true) && NoUsers(o, r) && Freed(f, o, frames, role, r)
    ensures forall p: nat :: p < |role| ==> role[p] == if Holds(r0, r, p) then Free else r0[p]
    ensures SameMap(f0, role, frames) && DataKept(f0, role, frames)
  {
    forall p: nat | p < |role| ensures role[p] == if Holds(r0, r, p) then Free else r0[p] {
      SameTree(r0, o, r, n, p);
    }
    forall q: nat, v: nat | q < |role| && role[q] == Top(2) && v < NVPN
      ensures Lookup(frames, q, v) == Lookup(f0, q, v)
    {
      FreedLookup(f, o, frames, role, r, q, v);
      assert r0[q] == Top(2);
    }
  }

  /** Freeing user pages leaves the trees as they are. */
  lemma SameTree(r0: seq<Role>, o: seq<Role>, r: nat, n: nat, p: nat)
    requires |o| == |r0| && p < |r0| && NoUsers(o, r)
    requires forall x: nat :: x < |r0| ==> o[x] == if Within(r0[x], r, 0, n) then Free else r0[x]
    ensures InTree(o, r, p) <==> InTree(r0, r, p)
    ensures !InTree(r0, r, p) ==> o[p] == if Holds(r0, r, p) then Free else r0[p]
  {
  }

  // ---------- copying to and from user memory ----------

  /** What a user can reach belongs to that user's page table, page by page: no two pages share a frame. */
  ghost predicate UserOwned(frames: seq<Frame>, role: seq<Role>, r: nat) {
    forall v: nat :: v < NVPN && IsValid(Lookup(frames, r, v)) && IsUser(Lookup(frames, r, v)) ==>
      Lookup(frames, r, v) / 1024 < |role| && role[Lookup(frames, r, v) / 1024] == User(r, v)
  }

  ghost predicate Readable(frames: seq<Frame>, r: nat, va: nat) {
    va / PGSIZE < NVPN && IsValid(Lookup(frames, r, va / PGSIZE)) && IsUser(Lookup(frames, r, va / PGSIZE))
  }

  ghost predicate Writable(frames: seq<Frame>, r: nat, va: nat) {
    Readable(frames, r, va) && IsWritable(Lookup(frames, r, va / PGSIZE))
  }

  /** As much as the page still takes. */
  function ChunkLength(va: nat, want: nat): (n: nat)
    ensures n <= want && n <= PGSIZE - va % PGSIZE && (want > 0 ==> n > 0)
  {
    if PGSIZE - va % PGSIZE > want then want else PGSIZE - va % PGSIZE
  }

  function Patched(d: Page, o: nat, chunk: seq<Byte>): (e: Page)
    requires o + |chunk| <= PGSIZE
    ensures forall i: nat :: i < PGSIZE ==> e[i] == if o <= i < o + |chunk| then chunk[i - o] else d[i]
  {
    d[..o] + chunk + d[o + |chunk|..]
  }

  /** The byte at offset o of user page v, after src was copied to dstva. */
  function ByteAfter(d: Page, v: nat, o: nat, dstva: nat, src: seq<Byte>): Byte
    requires o < PGSIZE
  {
    if dstva <= PGSIZE * v + o < dstva + |src| then src[PGSIZE * v + o - dstva] else d[o]
  }

  /** Frames other than r's user pages are untouched; those have src at dstva and are otherwise the same. */
  ghost predicate Copied(f0: seq<Frame>, frames: seq<Frame>, role: seq<Role>, r: nat, dstva: nat, src: seq<Byte>) {
    && |frames| == |f0| == |role|
    && forall p: nat :: p < |role| ==>
         if role[p].User? && role[p].root == r then PageCopied(f0[p], frames[p], role[p].vpn, dstva, src)
           else frames[p] == f0[p]
  }

  ghost predicate PageCopied(f0: Frame, f: Frame, v: nat, dstva: nat, src: seq<Byte>) {
    f0.Bytes? && f.Bytes? && forall o: nat :: o < PGSIZE ==> f.data[o] == ByteAfter(f0.data, v, o, dstva, src)
  }

  lemma SamePage(va: nat, i: nat)
    requires i < PGSIZE - va % PGSIZE
    ensures (va + i) / PGSIZE == va / PGSIZE && (va + i) % PGSIZE == va % PGSIZE + i
  {
    var q, o := va / PGSIZE, va % PGSIZE;
    assert va + i == PGSIZE * q + (o + i);
  }

  /** What the user can reach holds bytes, not page tables. */
  ghost predicate UserBytes(frames: seq<Frame>, r: nat) {
    forall v: nat :: v < NVPN && IsValid(Lookup(frames, r, v)) && IsUser(Lookup(frames, r, v)) ==>
      ByteFrame(frames, Lookup(frames, r, v) / 1024)
  }

  predicate ByteFrame(frames: seq<Frame>, p: nat) {
    p < |frames| && frames[p].Bytes?
  }

  /** One byte stored at user address va; two pages may share a frame. */
  function Poke(frames: seq<Frame>, r: nat, va: nat, b: Byte): seq<Frame> {
    var p := Lookup(frames, r, va / PGSIZE) / 1024;
    if ByteFrame(frames, p) then frames[p := Bytes(frames[p].data[va % PGSIZE := b])] else frames
  }

  /** src stored byte by byte from va on. */
  function Poked(frames: seq<Frame>, r: nat, va: nat, src: seq<Byte>): seq<Frame> {
    if src == [] then frames
    else Poke(Poked(frames, r, va, src[..|src| - 1]), r, va + |src| - 1, src[|src| - 1])
  }

  /** The two memories differ in bytes only. */
  ghost predicate SameTables(f0: seq<Frame>, frames: seq<Frame>) {
    |frames| == |f0| && forall p: nat :: p < |f0| ==> frames[p] == f0[p] || (f0[p].Bytes? && frames[p].Bytes?)
  }

  /** Then every page is mapped as before. */
  lemma TablesMap(f0: seq<Frame>, frames: seq<Frame>, r: nat, v: nat)
    requires SameTables(f0, frames)
    ensures Lookup(frames, r, v) == Lookup(f0, r, v)
  {
    assert Child(frames, r, Px(2, v)) == Child(f0, r, Px(2, v));
    assert LeafTable(frames, r, v) == LeafTable(f0, r, v);
  }

  lemma TablesOk(f0: seq<Frame>, frames: seq<Frame>, role: seq<Role>)
    requires TreesOk(f0, role, {}) && SameTables(f0, frames)
    ensures TreesOk(frames, role, {})
  {
    forall p: nat | p < |role| ensures FrameOk(frames, role, {}, p) {
      assert FrameOk(f0, role, {}, p);
      if role[p].User? {
        TablesMap(f0, frames, role[p].root, role[p].vpn);
      } else if role[p].Top? || role[p].Sub? {
        forall i: nat | i < NPTE && role[p].level > 0 ensures LinkOk(frames, role, p, i, role[p].level) {
          assert LinkOk(f0, role, p, i, role[p].level);
        }
        forall i: nat | i < NPTE && role[p].level == 0 ensures LeafOk(PteAt(frames, p, i)) {
          assert LeafOk(PteAt(f0, p, i));
        }
      }
    }
  }

  lemma PokedMore(frames: seq<Frame>, r: nat, va: nat, src: seq<Byte>, b: Byte)
    ensures Poked(frames, r, va, src + [b]) == Poke(Poked(frames, r, va, src), r, va + |src|, b)
  {
    assert (src + [b])[..|src|] == src;
  }

  // Stands keeps Poked under a quantifier, so that it is unfolded only where Unfold is mentioned.

  predicate Unfold(k: int) { true }

  /** frames is f0 with src stored from va on. */
  ghost predicate Stands(f0: seq<Frame>, r: nat, va: nat, src: seq<Byte>, frames: seq<Frame>) {
    forall k: int :: Unfold(k) ==> frames == Poked(f0, r, va, src)
  }

  lemma SameStand(f0: seq<Frame>, r: nat, va: nat, src: seq<Byte>, f: seq<Frame>, g: seq<Frame>)
    requires Stands(f0, r, va, src, f) && Stands(f0, r, va, src, g)
    ensures f == g
  {
    assert Unfold(0);
  }

  lemma StandsMore(f0: seq<Frame>, r: nat, va: nat, src: seq<Byte>, frames: seq<Frame>, b: Byte)
    requires Stands(f0, r, va, src, frames)
    ensures Stands(f0, r, va, src + [b], Poke(frames, r, va + |src|, b))
  {
    assert Unfold(0);
    PokedMore(f0, r, va, src, b);
  }

  function PutChunk(frames: seq<Frame>, p: nat, o: nat, chunk: seq<Byte>): seq<Frame>
    requires ByteFrame(frames, p) && o + |chunk| <= PGSIZE
  {
    frames[p := Bytes(Patched(frames[p].data, o, chunk))]
  }

  lemma PatchedMore(d: Page, o: nat, chunk: seq<Byte>, b: Byte)
    requires o + |chunk| < PGSIZE
    ensures Patched(d, o, chunk + [b]) == Patched(d, o, chunk)[o + |chunk| := b]
  {
  }

  lemma PutMore(frames: seq<Frame>, r: nat, x: nat, p: nat, o: nat, chunk: seq<Byte>, b: Byte)
    requires ByteFrame(frames, p) && o + |chunk| < PGSIZE && x % PGSIZE == o + |chunk|
             && Lookup(frames, r, x / PGSIZE) / 1024 == p
    ensures PutChunk(frames, p, o, chunk + [b]) == Poke(PutChunk(frames, p, o, chunk), r, x, b)
  {
    TablesMap(frames, PutChunk(frames, p, o, chunk), r, x / PGSIZE);
    PatchedMore(frames[p].data, o, chunk, b);
  }

  /** A chunk that stays within page vpn is stored at once. */
  lemma {:induction false} ChunkStands(f0: seq<Frame>, frames: seq<Frame>, r: nat, va: nat, src: seq<Byte>, vpn: nat,
                                       o: nat, chunk: seq<Byte>)
    requires Stands(f0, r, va, src, frames) && va + |src| == PGSIZE * vpn + o && o + |chunk| <= PGSIZE
    requires ByteFrame(frames, Lookup(frames, r, vpn) / 1024)
    ensures Stands(f0, r, va, src + chunk, PutChunk(frames, Lookup(frames, r, vpn) / 1024, o, chunk))
  {
    var p := Lookup(frames, r, vpn) / 1024;
    if chunk == [] {
      assert src + chunk == src && Patched(frames[p].data, o, []) == frames[p].data
        && PutChunk(frames, p, o, []) == frames;
    } else {
      var rest, b := chunk[..|chunk| - 1], chunk[|chunk| - 1];
      ChunkStands(f0, frames, r, va, src, vpn, o, rest);
      StandsMore(f0, r, va, src + rest, PutChunk(frames, p, o, rest), b);
      assert src + rest + [b] == src + chunk && rest + [b] == chunk;
      SameAddress(va + |src + rest|, vpn, o + |rest|);
      PutMore(frames, r, va + |src + rest|, p, o, rest, b);
    }
  }

  /** One more byte in the user's own pages. */
  lemma PokeCopied(f0: seq<Frame>, frames: seq<Frame>, role: seq<Role>, r: nat, va: nat, src: seq<Byte>, b: Byte)
    requires Copied(f0, frames, role, r, va, src) && UserOwned(frames, role, r) && Readable(frames, r, va + |src|)
    requires TreesOk(frames, role, {}) && r < |role| && role[r] == Top(2)
    ensures Copied(f0, Poke(frames, r, va + |src|, b), role, r, va, src + [b])
  {
    var x, src' := va + |src|, src + [b];
    var p := Lookup(frames, r, x / PGSIZE) / 1024;
    var frames' := Poke(frames, r, x, b);
    assert role[p] == User(r, x / PGSIZE);
    forall q: nat | q < |role|
      ensures if role[q].User? && role[q].root == r then PageCopied(f0[q], frames'[q], role[q].vpn, va, src')
              else frames'[q] == f0[q]
    {
      if role[q].User? && role[q].root == r {
        OneUserPage(frames, role, r, role[q].vpn, q);
        PageStep(f0[q], frames[q], role[q].vpn, va, src, b, frames'[q]);
      }
    }
  }

  lemma PageStep(f0: Frame, f: Frame, v: nat, va: nat, src: seq<Byte>, b: Byte, f': Frame)
    requires PageCopied(f0, f, v, va, src)
    requires f' == if v == (va + |src|) / PGSIZE then Bytes(f.data[(va + |src|) % PGSIZE := b]) else f
    ensures PageCopied(f0, f', v, va, src + [b])
  {
    var x := va + |src|;
    assert x == PGSIZE * (x / PGSIZE) + x % PGSIZE;
    forall o: nat | o < PGSIZE ensures f'.data[o] == ByteAfter(f0.data, v, o, va, src + [b]) {
      SameAddress(x, v, o);
      assert f.data[o] == ByteAfter(f0.data, v, o, va, src);
    }
  }

  lemma SameAddress(x: nat, v: nat, o: nat)
    requires o < PGSIZE
    ensures PGSIZE * v + o == x <==> v == x / PGSIZE && o == x % PGSIZE
  {
    if PGSIZE * v + o == x { assert x / PGSIZE == v; }
  }

  /** Stored into pages of its own, src stands at va and nothing else has changed. */
  lemma {:induction false} StandsCopied(f0: seq<Frame>, role: seq<Role>, r: nat, va: nat, src: seq<Byte>)
    returns (frames: seq<Frame>)
    requires TreesOk(f0, role, {}) && r < |role| && role[r] == Top(2) && UserOwned(f0, role, r)
    requires AllWritable(f0, r, va, va + |src|)
    ensures Stands(f0, r, va, src, frames) && SameTables(f0, frames) && Copied(f0, frames, role, r, va, src)
  {
    if src == [] {
      frames := f0;
      forall p: nat | p < |role| && role[p].User? && role[p].root == r
        ensures PageCopied(f0[p], f0[p], role[p].vpn, va, [])
      {
        assert FrameOk(f0, role, {}, p);
      }
    } else {
      var rest, b := src[..|src| - 1], src[|src| - 1];
      var f := StandsCopied(f0, role, r, va, rest);
      frames := Poke(f, r, va + |rest|, b);
      assert rest + [b] == src;
      StandsMore(f0, r, va, rest, f, b);
      TablesOk(f0, f, role);
      TablesOwned(f0, f, role, r);
      assert Writable(f0, r, va + |rest|);
      TablesMap(f0, f, r, (va + |rest|) / PGSIZE);
      PokeCopied(f0, f, role, r, va, rest, b);
    }
  }

  lemma TablesOwned(f0: seq<Frame>, frames: seq<Frame>, role: seq<Role>, r: nat)
    requires SameTables(f0, frames) && UserOwned(f0, role, r)
    ensures UserOwned(frames, role, r)
  {
    forall v: nat ensures Lookup(frames, r, v) == Lookup(f0, r, v) { TablesMap(f0, frames, r, v); }
  }

  lemma StillOwned(frames: seq<Frame>, role: seq<Role>, frames': seq<Frame>, r: nat)
    requires r < |role| && role[r] == Top(2) && UserOwned(frames, role, r) && SameMap(frames, role, frames')
    ensures UserOwned(frames', role, r)
  {
  }

  lemma StillWritable(frames: seq<Frame>, role: seq<Role>, frames': seq<Frame>, r: nat, from: nat, to: nat)
    requires r < |role| && role[r] == Top(2) && SameMap(frames, role, frames') && AllWritable(frames, r, from, to)
    ensures AllWritable(frames', r, from, to)
  {
    forall va: nat | from <= va < to ensures Writable(frames', r, va) { assert Writable(frames, r, va); }
  }

  /** The user may not write at va. */
  ghost predicate Barred(frames: seq<Frame>, r: nat, va: nat) {
    forall x: int :: Unfold(x) ==> !Writable(frames, r, va)
  }

  /** k bytes are stored, all of them where the user may write. */
  ghost predicate CopyState(f0: seq<Frame>, frames: seq<Frame>, r: nat, va: nat, src: seq<Byte>, k: nat) {
    k <= |src| && forall x: int :: Unfold(x) ==> CopyDone(f0, frames, r, va, src[..k])
  }

  ghost predicate CopyDone(f0: seq<Frame>, frames: seq<Frame>, r: nat, va: nat, src: seq<Byte>) {
    Stands(f0, r, va, src, frames) && SameTables(f0, frames) && AllWritable(f0, r, va, va + |src|)
  }

  lemma CopyFacts(f0: seq<Frame>, frames: seq<Frame>, r: nat, va: nat, src: seq<Byte>, k: nat)
    requires CopyState(f0, frames, r, va, src, k)
    ensures Stands(f0, r, va, src[..k], frames) && SameTables(f0, frames) && AllWritable(f0, r, va, va + k)
  {
    assert Unfold(0);
  }

  lemma NothingStored(frames: seq<Frame>, r: nat, va: nat, src: seq<Byte>)
    ensures CopyState(frames, frames, r, va, src, 0)
  {
    assert src[..0] == [];
  }

  lemma CopyMore(f0: seq<Frame>, frames: seq<Frame>, r: nat, va: nat, src: seq<Byte>, k: nat, vpn: nat, o: nat, n: nat)
    requires CopyState(f0, frames, r, va, src, k) && Writable(f0, r, va + k)
    requires k + n <= |src| && va + k == PGSIZE * vpn + o && o + n <= PGSIZE && 0 < n
    requires ByteFrame(frames, Lookup(frames, r, vpn) / 1024)
    ensures CopyState(f0, PutChunk(frames, Lookup(frames, r, vpn) / 1024, o, src[k..k + n]), r, va, src, k + n)
  {
    CopyFacts(f0, frames, r, va, src, k);
    ChunkStands(f0, frames, r, va, src[..k], vpn, o, src[k..k + n]);
    assert src[..k] + src[k..k + n] == src[..k + n];
    SameAddress(va + k, vpn, o);
    WritableMore(f0, r, va, va + k, n);
  }

  lemma UserBytesOwned(frames: seq<Frame>, role: seq<Role>, r: nat)
    requires TreesOk(frames, role, {}) && r < |role| && role[r] == Top(2) && UserOwned(frames, role, r)
    ensures UserBytes(frames, r)
  {
    forall v: nat | v < NVPN && IsValid(Lookup(frames, r, v)) && IsUser(Lookup(frames, r, v))
      ensures ByteFrame(frames, Lookup(frames, r, v) / 1024)
    {
      assert FrameOk(frames, role, {}, Lookup(frames, r, v) / 1024);
    }
  }

  ghost predicate AllWritable(frames: seq<Frame>, r: nat, from: nat, to: nat) {
    forall va: nat :: from <= va < to ==> Writable(frames, r, va)
  }

  lemma WritableMore(frames: seq<Frame>, r: nat, from: nat, va: nat, n: nat)
    requires n <= PGSIZE - va % PGSIZE && Writable(frames, r, va) && AllWritable(frames, r, from, va)
    ensures AllWritable(frames, r, from, va + n)
  {
    forall x: nat | from <= x < va + n ensures Writable(frames, r, x) {
      if x >= va { SamePage(va, x - va); }
    }
  }

  /** The byte a user sees at va. */
  function UserByte(frames: seq<Frame>, r: nat, va: nat): Byte {
    var p := Lookup(frames, r, va / PGSIZE) / 1024;
    if p < |frames| && frames[p].Bytes? then frames[p].data[va % PGSIZE] else 0
  }

  /** dst is what the user sees from va on, all of it readable. */
  ghost predicate Fetched(frames: seq<Frame>, r: nat, va: nat, dst: seq<Byte>) {
    forall x: nat :: va <= x < va + |dst| ==> Readable(frames, r, x) && dst[x - va] == UserByte(frames, r, x)
  }

  lemma FetchedMore(frames: seq<Frame>, r: nat, va: nat, dst: seq<Byte>, chunk: seq<Byte>)
    requires Fetched(frames, r, va, dst) && Fetched(frames, r, va + |dst|, chunk)
    ensures Fetched(frames, r, va, dst + chunk)
  {
  }

  lemma ChunkFetched(frames: seq<Frame>, r: nat, va: nat, n: nat, chunk: seq<Byte>)
    requires Readable(frames, r, va) && n <= PGSIZE - va % PGSIZE
    requires var p := Lookup(frames, r, va / PGSIZE) / 1024;
             p < |frames| && frames[p].Bytes? && chunk == frames[p].data[va % PGSIZE..va % PGSIZE + n]
    ensures Fetched(frames, r, va, chunk)
  {
    forall x: nat | va <= x < va + |chunk| ensures Readable(frames, r, x) && chunk[x - va] == UserByte(frames, r, x) {
      SamePage(va, x - va);
    }
  }

  lemma Stored(f0: seq<Frame>, frames: seq<Frame>, role: seq<Role>, r: nat, va: nat, src: seq<Byte>, dst: seq<Byte>)
    requires Copied(f0, frames, role, r, va, src) && UserOwned(frames, role, r) && Fetched(frames, r, va, dst)
             && |dst| == |src|
    ensures dst == src
  {
    forall i: nat | i < |src| ensures dst[i] == src[i] {
      var x := va + i;
      assert Readable(frames, r, x) && dst[x - va] == UserByte(frames, r, x);
      assert x == PGSIZE * (x / PGSIZE) + x % PGSIZE;
      var p := Lookup(frames, r, x / PGSIZE) / 1024;
      assert role[p] == User(r, x / PGSIZE);
    }
  }

  // ---------- what the user sees of new pages ----------

  /** After uvmalloc the user reads zeros there, and may write exactly if xperm has PTE_W. */
  lemma GrownSeen(f0: seq<Frame>, r0: seq<Role>, frames: seq<Frame>, role: seq<Role>, r: nat, first: nat, n: nat,
                  xperm: nat, va: nat)
    requires xperm < 1024 && AllocState(f0, r0, frames, role, r, first, Zeroed(n, UserPerm(xperm)))
    requires first + n <= NVPN && first <= va / PGSIZE < first + n
    ensures Readable(frames, r, va) && UserByte(frames, r, va) == 0
    ensures Writable(frames, r, va) <==> xperm / 4 % 2 == 1
  {
    var v, perm := va / PGSIZE, UserPerm(xperm);
    var want := Zeroed(n, perm);
    assert NewPage(frames, role, r, first + (v - first), want[v - first]);
    UserPermBits(xperm);
    MadePte(Lookup(frames, r, v) / 1024, perm);
  }

  /** After uvmcopy the child reads what the parent reads and may write where the parent may. */
  lemma ChildSeesParent(f0: seq<Frame>, r0: seq<Role>, frames: seq<Frame>, role: seq<Role>, old_: nat, new_: nat,
                        n: nat, va: nat)
    requires TreesOk(f0, r0, {}) && old_ < |r0| && r0[old_] == Top(2) && n <= NVPN && va / PGSIZE < n
    requires AllRemovable(f0, r0, old_, 0, n, true) && AllocState(f0, r0, frames, role, new_, 0, Image(f0, old_, n))
    ensures UserByte(frames, new_, va) == UserByte(f0, old_, va)
    ensures Readable(frames, new_, va) <==> Readable(f0, old_, va)
    ensures Writable(frames, new_, va) <==> Writable(f0, old_, va)
  {
    var v := va / PGSIZE;
    var w := Image(f0, old_, n)[v];
    assert w == CopyOf(f0, old_, v);
    assert NewPage(frames, role, new_, 0 + v, w) && Removable(f0, r0, old_, v, true);
    OneUserPage(f0, r0, old_, v, Lookup(f0, old_, v) / 1024);
    FlagBits(Lookup(f0, old_, v));
    MadePte(Lookup(frames, new_, v) / 1024, w.perm);
  }

  /** A page table that maps nothing but fresh pages gives the user bytes only. */
  lemma OnlyBytes(f0: seq<Frame>, r0: seq<Role>, frames: seq<Frame>, role: seq<Role>, r: nat, want: seq<Want>)
    requires AllocState(f0, r0, frames, role, r, 0, want) && |want| <= NVPN && r < |r0| && r0[r] == Top(2)
    requires Unmapped(f0, r, 0, NVPN)
    ensures UserBytes(frames, r)
  {
    forall v: nat | v < NVPN && IsValid(Lookup(frames, r, v)) ensures ByteFrame(frames, Lookup(frames, r, v) / 1024) {
      assert !IsValid(Lookup(f0, r, v));
      if v < |want| { assert NewPage(frames, role, r, 0 + v, want[v]); }
    }
  }

  // ---------- no page is lost ----------

  /** Apart from what page table r holds, which was free, every page is used as in r0. */
  ghost predicate OnlyFor(r0: seq<Role>, role: seq<Role>, r: nat) {
    && |role| == |r0|
    && forall p: nat :: p < |r0| ==> if Holds(role, r, p) then r0[p] == Free else role[p] == r0[p]
  }

  lemma CreatedOnly(r0: seq<Role>, role: seq<Role>, frames: seq<Frame>, r: nat)
    requires TreesOk(frames, role, {}) && r < |r0| && r0[r] == Free && role == r0[r := Top(2)]
             && Unmapped(frames, r, 0, NVPN)
    requires frames[r] == Table(NoPtes())
    ensures OnlyFor(r0, role, r)
  {
    forall p: nat | p < |r0| && p != r ensures !Holds(role, r, p) {
      assert FrameOk(frames, role, {}, p);
      if role[p].Sub? { assert FrameOk(frames, role, {}, role[p].parent); }
    }
  }

  lemma ParentsStay(f1: seq<Frame>, r1: seq<Role>, r2: seq<Role>, r: nat, p: nat)
    requires TreesOk(f1, r1, {}) && |r2| == |r1| && p < |r1| && r2[p] == r1[p] && r < |r1| && r1[r] == Top(2)
    requires forall q: nat :: q < |r1| && r1[q] != Free && !(r1[q].User? && r1[q].root == r) ==> r2[q] == r1[q]
    ensures Holds(r2, r, p) <==> Holds(r1, r, p)
  {
    assert FrameOk(f1, r1, {}, p);
  }

  lemma AllocOnly(r0: seq<Role>, f1: seq<Frame>, r1: seq<Role>, f2: seq<Frame>, r2: seq<Role>, r: nat, vpn: nat,
                  want: seq<Want>)
    requires OnlyFor(r0, r1, r) && TreesOk(f1, r1, {}) && r < |r1| && r1[r] == Top(2)
             && AllocState(f1, r1, f2, r2, r, vpn, want)
    ensures OnlyFor(r0, r2, r)
  {
    forall p: nat | p < |r0| ensures if Holds(r2, r, p) then r0[p] == Free else r2[p] == r0[p] {
      if r2[p] == r1[p] { ParentsStay(f1, r1, r2, r, p); }
    }
  }

  lemma ExtendedOnly(r0: seq<Role>, f1: seq<Frame>, r1: seq<Role>, f2: seq<Frame>, r2: seq<Role>, r: nat)
    requires OnlyFor(r0, r1, r) && TreesOk(f1, r1, {}) && r < |r1| && r1[r] == Top(2) && Extended(f1, r1, f2, r2, r)
    ensures OnlyFor(r0, r2, r)
  {
    forall p: nat | p < |r0| ensures if Holds(r2, r, p) then r0[p] == Free else r2[p] == r0[p] {
      if r2[p] == r1[p] { ParentsStay(f1, r1, r2, r, p); }
    }
  }

  lemma UnmapOnly(r0: seq<Role>, f1: seq<Frame>, r1: seq<Role>, f2: seq<Frame>, r2: seq<Role>, r: nat, vpn: nat, k: nat)
    requires OnlyFor(r0, r1, r) && TreesOk(f1, r1, {}) && r < |r1| && r1[r] == Top(2)
             && UnmapState(f1, r1, f2, r2, r, vpn, k, true)
    ensures OnlyFor(r0, r2, r)
  {
    forall p: nat | p < |r0| ensures if Holds(r2, r, p) then r0[p] == Free else r2[p] == r0[p] {
      if r2[p] == r1[p] { ParentsStay(f1, r1, r2, r, p); }
    }
  }

  /** After any such growing and shrinking, uvmfree restores every role. */
  lemma OnlyRestored(r0: seq<Role>, r1: seq<Role>, r2: seq<Role>, r: nat)
    requires OnlyFor(r0, r1, r) && |r2| == |r1|
    requires forall p: nat :: p < |r1| ==> r2[p] == if Holds(r1, r, p) then Free else r1[p]
    ensures r2 == r0
  {
  }

  lemma AllocRest(f1: seq<Frame>, r1: seq<Role>, f2: seq<Frame>, r2: seq<Role>, r: nat, want: seq<Want>)
    requires AllocState(f1, r1, f2, r2, r, 0, want) && Unmapped(f1, r, 0, NVPN) && r < |r1| && r1[r] == Top(2)
             && |want| <= NVPN
    ensures Unmapped(f2, r, |want|, NVPN - |want|)
  {
    forall v: nat | |want| <= v < NVPN ensures !IsValid(Lookup(f2, r, v)) {
      assert !IsValid(Lookup(f1, r, v));
    }
  }

  lemma EmptyGrown(r0: seq<Role>, f1: seq<Frame>, r1: seq<Role>, f2: seq<Frame>, r2: seq<Role>, r: nat, want: seq<Want>)
    requires OnlyFor(r0, r1, r) && TreesOk(f1, r1, {}) && r < |r1| && r1[r] == Top(2) && Unmapped(f1, r, 0, NVPN)
    requires AllocState(f1, r1, f2, r2, r, 0, want) && |want| <= NVPN
    requires forall i: nat :: i < |want| ==> want[i].perm > 1
    ensures OnlyFor(r0, r2, r) && AllRemovable(f2, r2, r, 0, |want|, true) && Unmapped(f2, r, |want|, NVPN - |want|)
  {
    AllocOnly(r0, f1, r1, f2, r2, r, 0, want);
    AllocRemovable(f1, r1, f2, r2, r, 0, want);
    AllocRest(f1, r1, f2, r2, r, want);
  }

  lemma ExtendedRest(f1: seq<Frame>, r1: seq<Role>, f2: seq<Frame>, r2: seq<Role>, r: nat)
    requires Extended(f1, r1, f2, r2, r) && Unmapped(f1, r, 0, NVPN) && r < |r1| && r1[r] == Top(2)
    ensures Unmapped(f2, r, 0, NVPN)
  {
    forall v: nat | v < NVPN ensures !IsValid(Lookup(f2, r, v)) {
      assert !IsValid(Lookup(f1, r, v));
    }
  }

  ghost predicate MemoryOk(lo: nat, frames: seq<Frame>, freelist: seq<nat>, role: seq<Role>, hole: set<(nat, nat)>) {
    && 0 < lo && |role| == |frames| < NPPN
    && FreeOk(freelist, role) && TreesOk(frames, role, hole)
    && forall p: nat :: p < |role| ==> (role[p] == Reserved <==> p < lo)
  }

  // ---------- where every page is ----------

  /** A mapping leads out of the page pool, to the root's own page, or to a page held by someone else. */
  ghost predicate LeafOwned(lo: nat, frames: seq<Frame>, role: seq<Role>, r: nat, v: nat) {
    var p := Lookup(frames, r, v) / 1024;
    IsValid(Lookup(frames, r, v)) && lo <= p < |role| ==> role[p] == User(r, v) || role[p] == Taken
  }

  /** No freewalk is under way, and all mappings are of that kind. */
  ghost predicate Owned(lo: nat, frames: seq<Frame>, role: seq<Role>) {
    && (forall r: nat :: r < |role| && role[r].Top? ==> role[r] == Top(2))
    && (forall r: nat, v: nat :: r < |role| && role[r] == Top(2) && v < NVPN ==> LeafOwned(lo, frames, role, r, v))
  }

  /** The frames kalloc handed to someone who keeps them outside the page tables. */
  ghost function Outside(lo: nat, role: seq<Role>): set<nat> {
    set p: nat | lo <= p < |role| && role[p] == Taken
  }

  /** The other frames that can be found by following entries from some root. */
  ghost function Hanging(lo: nat, frames: seq<Frame>, role: seq<Role>): set<nat> {
    set p: nat | lo <= p < |role| && role[p] != Taken && Hangs(frames, role, p)
  }

  ghost predicate Hangs(frames: seq<Frame>, role: seq<Role>, p: nat) {
    exists r: nat :: r < |role| && role[r] == Top(2) && Reached(frames, r, p)
  }

  /** p is a table or a mapped page of root r, found by following entries alone. */
  ghost predicate Reached(frames: seq<Frame>, r: nat, p: nat) {
    || p == r
    || (exists i: nat :: i < NPTE && Child(frames, r, i) == p)
    || (exists i: nat, j: nat :: i < NPTE && j < NPTE && Child(frames, Child(frames, r, i), j) == p)
    || (exists v: nat :: v < NVPN && IsValid(Lookup(frames, r, v)) && Lookup(frames, r, v) / 1024 == p)
  }

  /** A page that is neither free nor held outside hangs in a page table: nothing leaks. */
  lemma NoLeak(lo: nat, frames: seq<Frame>, freelist: seq<nat>, role: seq<Role>, p: nat)
    requires MemoryOk(lo, frames, freelist, role, {}) && Owned(lo, frames, role)
    requires lo <= p < |frames| && p !in freelist && role[p] != Taken
    ensures Hangs(frames, role, p)
  {
    assert FrameOk(frames, role, {}, p);
    if role[p].Top? {
      assert Reached(frames, p, p);
    } else if role[p].User? {
      assert Reached(frames, role[p].root, p);
    } else {
      var t := role[p].parent;
      assert FrameOk(frames, role, {}, t);
      if role[t].Top? {
        assert Reached(frames, t, p);
      } else {
        var r := role[t].parent;
        assert FrameOk(frames, role, {}, r);
        assert Child(frames, Child(frames, r, role[t].i), role[p].i) == p;
        assert Reached(frames, r, p);
      }
    }
  }

  /** What a root reaches is its own table or page, or held outside; a free page is never in use. */
  lemma ReachedInUse(lo: nat, frames: seq<Frame>, freelist: seq<nat>, role: seq<Role>, r: nat, p: nat)
    requires MemoryOk(lo, frames, freelist, role, {}) && Owned(lo, frames, role)
    requires r < |role| && role[r] == Top(2) && lo <= p < |role| && Reached(frames, r, p)
    ensures role[p] == Taken || Holds(role, r, p)
    ensures p !in freelist
  {
    assert FrameOk(frames, role, {}, r);
    if i: nat :| i < NPTE && Child(frames, r, i) == p {
      assert LinkOk(frames, role, r, i, 2);
    } else if i: nat, j: nat :| i < NPTE && j < NPTE && Child(frames, Child(frames, r, i), j) == p {
      var m := Child(frames, r, i);
      assert LinkOk(frames, role, r, i, 2);
      assert FrameOk(frames, role, {}, m) && LinkOk(frames, role, m, j, 1);
    } else if p != r {
      var v: nat :| v < NVPN && IsValid(Lookup(frames, r, v)) && Lookup(frames, r, v) / 1024 == p;
      assert LeafOwned(lo, frames, role, r, v);
    }
  }

  /** Every page of the pool is in exactly one of the three places. */
  lemma PlaceOf(lo: nat, frames: seq<Frame>, freelist: seq<nat>, role: seq<Role>, p: nat)
    requires MemoryOk(lo, frames, freelist, role, {}) && Owned(lo, frames, role) && lo <= p < |role|
    ensures p in freelist <==> p !in Hanging(lo, frames, role) && p !in Outside(lo, role)
    ensures !(p in Hanging(lo, frames, role) && p in Outside(lo, role))
  {
    if p !in freelist && role[p] != Taken { NoLeak(lo, frames, freelist, role, p); }
    if Hangs(frames, role, p) {
      var r: nat :| r < |role| && role[r] == Top(2) && Reached(frames, r, p);
      ReachedInUse(lo, frames, freelist, role, r, p);
    }
  }

  /** Free pages, pages reachable from the page tables and pages held outside add up to all of memory. */
  lemma Conservation(lo: nat, frames: seq<Frame>, freelist: seq<nat>, role: seq<Role>)
    requires MemoryOk(lo, frames, freelist, role, {}) && lo <= |frames| && Owned(lo, frames, role)
    ensures |freelist| + |Hanging(lo, frames, role)| + |Outside(lo, role)| == |frames| - lo
  {
    DistinctSize(freelist);
    forall p: nat | lo <= p < |role|
      ensures p in freelist <==> p !in Hanging(lo, frames, role) && p !in Outside(lo, role)
      ensures !(p in Hanging(lo, frames, role) && p in Outside(lo, role))
    {
      PlaceOf(lo, frames, freelist, role, p);
    }
    forall p: nat | p in freelist ensures lo <= p < |role| { assert role[p] == Free; }
    Partition(Elements(freelist), Hanging(lo, frames, role), Outside(lo, role), lo, |role|);
  }

  lemma Partition(a: set<nat>, b: set<nat>, c: set<nat>, lo: nat, n: nat)
    requires lo <= n && forall p: nat :: p in a || p in b || p in c ==> lo <= p < n
    requires forall p: nat :: lo <= p < n ==> (p in a <==> p !in b && p !in c) && !(p in b && p in c)
    ensures |a| + |b| + |c| == n - lo
  {
    assert a !! b && (a + b) !! c && (a + b + c) !! Range(lo);
    assert a + b + c + Range(lo) == Range(n);
    assert |a + b| == |a| + |b| && |a + b + c| == |a + b| + |c|;
    assert |a + b + c + Range(lo)| == |a + b + c| + |Range(lo)|;
  }

  // What the operations do to it; see the contracts of class Memory.

  lemma NewRootOwned(lo: nat, f0: seq<Frame>, r0: seq<Role>, frames: seq<Frame>, r: nat)
    requires r < |r0| && r0[r] == Free && Unmapped(frames, r, 0, NVPN) && SameMap(f0, r0, frames)
    ensures Owned(lo, f0, r0) ==> Owned(lo, frames, r0[r := Top(2)])
  {
    var role := r0[r := Top(2)];
    if Owned(lo, f0, r0) {
      forall q: nat, v: nat | q < |role| && role[q] == Top(2) && v < NVPN ensures LeafOwned(lo, frames, role, q, v) {
        if q != r { assert LeafOwned(lo, f0, r0, q, v); }
      }
    }
  }

  lemma AllocOwned(lo: nat, f0: seq<Frame>, r0: seq<Role>, frames: seq<Frame>, role: seq<Role>, r: nat, vpn: nat,
                   want: seq<Want>)
    requires AllocState(f0, r0, frames, role, r, vpn, want) && r < |r0| && r0[r] == Top(2)
    ensures Owned(lo, f0, r0) ==> Owned(lo, frames, role)
  {
    if Owned(lo, f0, r0) {
      forall q: nat, v: nat | q < |role| && role[q] == Top(2) && v < NVPN ensures LeafOwned(lo, frames, role, q, v) {
        if q == r && vpn <= v < vpn + |want| {
          assert NewPage(frames, role, r, vpn + (v - vpn), want[v - vpn]);
        } else {
          assert LeafOwned(lo, f0, r0, q, v);
        }
      }
    }
  }

  lemma ExtendedOwned(lo: nat, f0: seq<Frame>, r0: seq<Role>, frames: seq<Frame>, role: seq<Role>, r: nat)
    requires Extended(f0, r0, frames, role, r)
    ensures Owned(lo, f0, r0) ==> Owned(lo, frames, role)
  {
    if Owned(lo, f0, r0) {
      forall q: nat, v: nat | q < |role| && role[q] == Top(2) && v < NVPN ensures LeafOwned(lo, frames, role, q, v) {
        assert LeafOwned(lo, f0, r0, q, v);
      }
    }
  }

  lemma UnmapOwned(lo: nat, f0: seq<Frame>, r0: seq<Role>, frames: seq<Frame>, role: seq<Role>, r: nat, vpn: nat,
                   k: nat, doFree: bool)
    requires UnmapState(f0, r0, frames, role, r, vpn, k, doFree)
    ensures Owned(lo, f0, r0) ==> Owned(lo, frames, role)
  {
    if Owned(lo, f0, r0) {
      forall q: nat, v: nat | q < |role| && role[q] == Top(2) && v < NVPN ensures LeafOwned(lo, frames, role, q, v) {
        assert LeafOwned(lo, f0, r0, q, v);
      }
    }
  }

  lemma FreedOwned(lo: nat, f0: seq<Frame>, r0: seq<Role>, frames: seq<Frame>, role: seq<Role>, r: nat)
    requires |role| == |r0| && SameMap(f0, role, frames) && r < |r0| && r0[r] == Top(2)
    requires forall p: nat :: p < |r0| ==> role[p] == if Holds(r0, r, p) then Free else r0[p]
    ensures Owned(lo, f0, r0) ==> Owned(lo, frames, role)
  {
    if Owned(lo, f0, r0) {
      forall q: nat, v: nat | q < |role| && role[q] == Top(2) && v < NVPN ensures LeafOwned(lo, frames, role, q, v) {
        assert LeafOwned(lo, f0, r0, q, v) && q != r;
      }
    }
  }

  /** The frames from ppn on are no pages of the pool, or pages held outside. */
  ghost predicate Foreign(lo: nat, role: seq<Role>, ppn: nat, k: nat) {
    forall p: nat :: ppn <= p < ppn + k && lo <= p < |role| ==> role[p] == Taken
  }

  lemma MapOwned(lo: nat, f0: seq<Frame>, r0: seq<Role>, frames: seq<Frame>, role: seq<Role>, r: nat, vpn: nat,
                 ppn: nat, perm: nat, k: nat)
    requires perm < 1024 && MapState(f0, r0, frames, role, r, vpn, ppn, perm, k)
    ensures Owned(lo, f0, r0) && Foreign(lo, r0, ppn, k) ==> Owned(lo, frames, role)
  {
    if Owned(lo, f0, r0) && Foreign(lo, r0, ppn, k) {
      forall q: nat, v: nat | q < |role| && role[q] == Top(2) && v < NVPN ensures LeafOwned(lo, frames, role, q, v) {
        assert LeafOwned(lo, f0, r0, q, v);
      }
    }
  }

  lemma SameMapOwned(lo: nat, f0: seq<Frame>, role: seq<Role>, frames: seq<Frame>)
    requires SameMap(f0, role, frames)
    ensures Owned(lo, f0, role) ==> Owned(lo, frames, role)
  {
    if Owned(lo, f0, role) {
      forall q: nat, v: nat | q < |role| && role[q] == Top(2) && v < NVPN ensures LeafOwned(lo, frames, role, q, v) {
        assert LeafOwned(lo, f0, role, q, v);
      }
    }
  }

  /** No mapping leads to p. */
  ghost predicate Unnamed(frames: seq<Frame>, role: seq<Role>, p: nat) {
    forall r: nat, v: nat :: r < |role| && role[r] == Top(2) && v < NVPN && IsValid(Lookup(frames, r, v)) ==>
      Lookup(frames, r, v) / 1024 != p
  }

  /** kalloc and kfree of a page that stays outside the page tables. */
  lemma RetypeOwned(lo: nat, f0: seq<Frame>, r0: seq<Role>, frames: seq<Frame>, p: nat, o: Role)
    requires SameMap(f0, r0, frames) && p < |r0| && (r0[p] == Free || Unnamed(f0, r0, p)) && !r0[p].Top? && !o.Top?
    ensures Owned(lo, f0, r0) ==> Owned(lo, frames, r0[p := o])
  {
    var role := r0[p := o];
    if Owned(lo, f0, r0) {
      forall q: nat, v: nat | q < |role| && role[q] == Top(2) && v < NVPN ensures LeafOwned(lo, frames, role, q, v) {
        assert LeafOwned(lo, f0, r0, q, v);
      }
    }
  }

  class Memory {
    const lo: nat
    var frames: seq<Frame>
    var freelist: seq<nat>
    ghost var role: seq<Role>

    ghost predicate Valid()
      reads this
    {
      MemoryOk(lo, frames, freelist, role, {})
    }

    /** No page is lost or used twice; see Conservation. */
    ghost predicate Sound()
      reads this
    {
      Owned(lo, frames, role)
    }

    /** kinit: every page from the end of the kernel on is free. */
    constructor (lo: nat, n: nat)
      requires 0 < lo <= n < NPPN
      ensures Valid() && Sound() && this.lo == lo && |frames| == n
      ensures forall p: nat :: p in freelist <==> lo <= p < n
    {
      this.lo := lo;
      frames := seq(n, _ => Bytes(Fill(0)));
      freelist := [];
      role := seq(n, p requires 0 <= p < n => if p < lo then Reserved else Taken);
      new;
      var p := lo;
      while p < n
        invariant lo <= p <= n && this.lo == lo && Valid() && |frames| == |role| == n
        invariant forall q: nat :: q < n ==> role[q] == if q < lo then Reserved else if q < p then Free else Taken
      {
        Kfree(p, {});
        p := p + 1;
      }
    }

    ghost predicate IsRoot(r: nat)
      reads this
    {
      r < |role| && role[r] == Top(2)
    }

    method Kalloc() returns (p: nat)
      requires Valid()
      modifies this
      ensures Valid() && |role| == old(|role|)
      ensures p == 0 <==> old(freelist) == []
      ensures p == 0 ==> freelist == old(freelist) && role == old(role) && frames == old(frames)
      ensures p != 0 ==> p < |role| && old(role[p]) == Free && old(freelist) == [p] + freelist
      ensures p != 0 ==> role == old(role)[p := Taken] && frames == old(frames)[p := Bytes(Fill(5))]
      ensures SameMap(old(frames), old(role), frames)
      ensures old(Sound()) ==> Sound()
    {
      if freelist == [] { return 0; }
      p := freelist[0];
      PopOk(freelist, role);
      RetypeOk(frames, role, {}, p, Fill(5), Taken);
      RetypeMap(frames, role, p, Fill(5), Taken);
      RetypeOwned(lo, frames, role, frames[p := Bytes(Fill(5))], p, Taken);
      freelist := freelist[1..];
      frames := frames[p := Bytes(Fill(5))];
      role := role[p := Taken];
    }

    method Kfree(p: nat, ghost hole: set<(nat, nat)>)
      requires MemoryOk(lo, frames, freelist, role, hole) && lo <= p < |frames| && Releasable(role, p)
               && role[p] != Free && Clear(hole, p)
      modifies this
      ensures MemoryOk(lo, frames, freelist, role, hole)
      ensures freelist == [p] + old(freelist) && role == old(role)[p := Free]
              && frames == old(frames)[p := Bytes(Fill(1))]
      ensures hole == {} && old(Sound() && role[p] == Taken && Unnamed(frames, role, p)) ==> Sound()
    {
      if hole == {} && role[p] == Taken && Unnamed(frames, role, p) {
        RetypeMap(frames, role, p, Fill(1), Free);
        RetypeOwned(lo, frames, role, frames[p := Bytes(Fill(1))], p, Free);
      }
      RetypeOk(frames, role, hole, p, Fill(1), Free);
      PushOk(freelist, role, p);
      frames := frames[p := Bytes(Fill(1))];
      freelist := [p] + freelist;
      role := role[p := Free];
    }

    /** walk: the level-0 table that holds the entry for page vpn, 0 if there is none and none could be
        made.  Making tables changes no mapping. */
    method Walk(r: nat, vpn: nat, alloc: bool) returns (l: nat)
      requires Valid() && IsRoot(r) && vpn < NVPN
      modifies this
      ensures Valid() && IsRoot(r) && l == LeafTable(frames, r, vpn)
      ensures Extended(old(frames), old(role), frames, role, r)
      ensures !alloc ==> frames == old(frames) && role == old(role) && freelist == old(freelist)
      ensures alloc && l == 0 ==> freelist == [] && |old(freelist)| < 2
      ensures |old(freelist)| <= |freelist| + 2
    {
      var t, level := r, 2;
      while level > 0
        invariant level <= 2 && Valid() && IsRoot(r) && t == PathTable(frames, r, vpn, level) != 0
        invariant Extended(old(frames), old(role), frames, role, r)
        invariant !alloc ==> frames == old(frames) && role == old(role) && freelist == old(freelist)
        invariant |old(freelist)| <= |freelist| + 2 - level
      {
        PathIsTree(frames, role, r, vpn, level);
        var pte := frames[t].ptes[Px(level, vpn)];
        if IsValid(pte) {
          t := pte / 1024;
        } else {
          if !alloc { return 0; }
          ghost var f, o := frames, role;
          var c := NewTable(r, vpn, level, t);
          if c == 0 { return 0; }
          ExtendedTrans(old(frames), old(role), f, o, frames, role, r);
          t := c;
        }
        level := level - 1;
      }
      l := t;
    }

    /** One turn of walk's loop that allocates. */
    method NewTable(ghost r: nat, vpn: nat, level: nat, t: nat) returns (c: nat)
      requires Valid() && IsRoot(r) && 0 < level <= 2 && t == PathTable(frames, r, vpn, level) != 0
      requires PathTable(frames, r, vpn, level - 1) == 0 && vpn < NVPN
      modifies this
      ensures Valid() && IsRoot(r) && Extended(old(frames), old(role), frames, role, r)
      ensures c == PathTable(frames, r, vpn, level - 1)
      ensures c == 0 ==> freelist == old(freelist) == []
      ensures c != 0 ==> |old(freelist)| == |freelist| + 1
    {
      PathIsTree(frames, role, r, vpn, level);
      c := Kalloc();
      if c == 0 { return; }
      var i := Px(level, vpn);
      NewTableOk(old(frames), old(role), r, vpn, level, c);
      RelabelFree(freelist, role, c, Sub(t, i, level - 1));
      frames := frames[c := Table(NoPtes())];
      frames := Store(frames, t, i, TablePte(c));
      role := role[c := Sub(t, i, level - 1)];
      assert role == old(role)[c := Sub(t, i, level - 1)];
    }

    /** mappages for one page: the entry is set, or no mapping changes and memory is exhausted. */
    method MapOne(r: nat, vpn: nat, ppn: nat, perm: nat) returns (ok: bool)
      requires Valid() && IsRoot(r) && vpn < NVPN && perm < 1024 && ppn < NPPN && !IsValid(Lookup(frames, r, vpn))
      modifies this
      ensures Valid() && IsRoot(r) && Grown(old(role), role, r) && DataKept(old(frames), old(role), frames)
      ensures ok ==> SetMap(old(frames), old(role), frames, r, vpn, MakePte(ppn, perm))
      ensures !ok ==> SameMap(old(frames), old(role), frames) && freelist == [] && |old(freelist)| < 2
      ensures |old(freelist)| <= |freelist| + 2
    {
      var l := Walk(r, vpn, true);
      if l == 0 { return false; }
      var pte := MakePte(ppn, perm);
      SetEntry(old(frames), old(role), frames, role, r, vpn, pte);
      frames := Store(frames, l, Px(0, vpn), pte);
      ok := true;
    }

    /** mappages: the requested pages, all or those before memory ran out, and no others. */
    method Mappages(r: nat, va: nat, size: nat, pa: nat, perm: nat) returns (rc: int, ghost done: nat)
      requires Valid() && IsRoot(r) && perm < 1024 && (pa + size) / PGSIZE < NPPN
      requires va % PGSIZE == 0 && size % PGSIZE == 0 && size > 0 && va + size <= MAXVA
      requires Unmapped(frames, r, va / PGSIZE, size / PGSIZE)
      modifies this
      ensures Valid() && IsRoot(r) && Grown(old(role), role, r) && DataKept(old(frames), old(role), frames)
      ensures RangeMap(old(frames), old(role), frames, r, va / PGSIZE, pa / PGSIZE, perm, done)
      ensures (rc == 0 && done == size / PGSIZE) || (rc == -1 && done < size / PGSIZE && freelist == [])
      ensures old(Sound() && Foreign(lo, role, pa / PGSIZE, size / PGSIZE)) ==> Sound()
    {
      PagesOf(va, size, pa);
      var first := va / PGSIZE;
      var a, last, ppn := first, first + size / PGSIZE - 1, pa / PGSIZE;
      done := 0;
      while true
        invariant Valid() && IsRoot(r)
                  && MapState(old(frames), old(role), frames, role, r, first, pa / PGSIZE, perm, done)
        invariant a == first + done <= last && ppn == pa / PGSIZE + done
        decreases last - a
      {
        RangeNext(old(frames), old(role), frames, r, first, pa / PGSIZE, perm, done, size / PGSIZE);
        ghost var f, o := frames, role;
        var ok := MapOne(r, a, ppn, perm);
        MapMore(old(frames), old(role), f, o, frames, role, r, first, pa / PGSIZE, perm, done);
        if !ok {
          MapOwned(lo, old(frames), old(role), frames, role, r, first, pa / PGSIZE, perm, done);
          return -1, done;
        }
        done := done + 1;
        if a == last { break; }
        a := a + 1;
        ppn := ppn + 1;
      }
      MapOwned(lo, old(frames), old(role), frames, role, r, first, pa / PGSIZE, perm, done);
      rc := 0;
    }

    /** kalloc, then memset or memmove. */
    method TakePage(data: Page) returns (mem: nat)
      requires Valid()
      modifies this
      ensures Valid() && |role| == old(|role|) && SameMap(old(frames), old(role), frames)
      ensures mem == 0 ==> freelist == old(freelist) == [] && role == old(role) && frames == old(frames)
      ensures mem != 0 ==> mem < |role| && old(role[mem]) == Free && old(freelist) == [mem] + freelist
      ensures mem != 0 ==> role == old(role)[mem := Taken] && frames == old(frames)[mem := Bytes(data)]
    {
      mem := Kalloc();
      if mem == 0 { return; }
      RetypeOk(frames, role, {}, mem, data, Taken);
      RetypeMap(frames, role, mem, data, Taken);
      SameMapTrans(old(frames), old(role), frames, role, frames[mem := Bytes(data)]);
      frames := frames[mem := Bytes(data)];
      assert role[mem := Taken] == role && frames == old(frames)[mem := Bytes(data)];
    }

    /** The body of the loops of uvmalloc and uvmcopy: a fresh page with the given bytes at page vpn.
        When either allocation fails no page is lost and no mapping has changed. */
    method AddPage(r: nat, vpn: nat, data: Page, perm: nat) returns (ok: bool)
      requires Valid() && IsRoot(r) && vpn < NVPN && perm < 1024 && !IsValid(Lookup(frames, r, vpn))
      modifies this
      ensures Valid() && IsRoot(r)
      ensures ok ==> PageAdded(old(frames), old(role), frames, role, r, vpn, data, perm)
      ensures ok ==> |old(freelist)| <= |freelist| + 3
      ensures !ok ==> Extended(old(frames), old(role), frames, role, r) && |old(freelist)| < 3
    {
      var mem := TakePage(data);
      if mem == 0 { return false; }
      ghost var f1 := frames;
      ok := MapOne(r, vpn, mem, perm);
      if !ok {
        Undone(old(frames), old(role), f1, frames, role, mem, r);
        Kfree(mem, {});
        return;
      }
      Claimed(old(frames), old(role), f1, frames, role, mem, r, vpn, data, perm);
      RelabelFree(freelist, role, mem, User(r, vpn));
      role := role[mem := User(r, vpn)];
    }

    /** One turn of uvmunmap's loop. */
    method UnmapOne(r: nat, vpn: nat, doFree: bool)
      requires Valid() && IsRoot(r) && vpn < NVPN && Removable(frames, role, r, vpn, doFree)
      modifies this
      ensures Valid() && IsRoot(r)
      ensures UnmapState(old(frames), old(role), frames, role, r, vpn, 1, doFree)
    {
      var l := Walk(r, vpn, false);
      Path(frames, role, {}, r, vpn);
      var pte := frames[l].ptes[Px(0, vpn)];
      UnmapOk(frames, role, r, vpn, doFree);
      if doFree {
        Kfree(pte / 1024, {});
      }
      frames := Store(frames, l, Px(0, vpn), 0);
    }

    /** uvmunmap: exactly those pages go, and no other page or mapping is touched. */
    method Uvmunmap(r: nat, va: nat, npages: nat, doFree: bool)
      requires Valid() && IsRoot(r) && va % PGSIZE == 0 && va / PGSIZE + npages <= NVPN
      requires AllRemovable(frames, role, r, va / PGSIZE, npages, doFree)
      modifies this
      ensures Valid() && IsRoot(r)
      ensures UnmapState(old(frames), old(role), frames, role, r, va / PGSIZE, npages, doFree)
      ensures old(Sound()) ==> Sound()
    {
      UnmapPages(r, va / PGSIZE, npages, doFree);
      UnmapOwned(lo, old(frames), old(role), frames, role, r, va / PGSIZE, npages, doFree);
    }

    method UnmapPages(r: nat, first: nat, npages: nat, doFree: bool)
      requires Valid() && IsRoot(r) && first + npages <= NVPN && AllRemovable(frames, role, r, first, npages, doFree)
      modifies this
      ensures Valid() && IsRoot(r)
      ensures UnmapState(old(frames), old(role), frames, role, r, first, npages, doFree)
    {
      var k := 0;
      NothingUnmapped(frames, role, r, first, doFree);
      while k < npages
        invariant k <= npages && Valid() && IsRoot(r)
        invariant UnmapState(old(frames), old(role), frames, role, r, first, k, doFree)
      {
        ghost var f, o := frames, role;
        UnmapNext(old(frames), old(role), frames, role, r, first, k, npages, doFree);
        UnmapOne(r, first + k, doFree);
        UnmapMore(old(frames), old(role), f, o, frames, role, r, first, k, doFree);
        k := k + 1;
      }
    }

    /** uvmdealloc */
    method Uvmdealloc(r: nat, oldsz: nat, newsz: nat) returns (sz: nat)
      requires Valid() && IsRoot(r) && Pages(oldsz) <= NVPN
      requires newsz < oldsz ==> AllRemovable(frames, role, r, Pages(newsz), Pages(oldsz) - Pages(newsz), true)
      modifies this
      ensures Valid() && IsRoot(r) && sz == if newsz >= oldsz then oldsz else newsz
      ensures newsz >= oldsz ==> frames == old(frames) && role == old(role) && freelist == old(freelist)
      ensures newsz < oldsz ==>
                UnmapState(old(frames), old(role), frames, role, r, Pages(newsz), Pages(oldsz) - Pages(newsz), true)
      ensures old(Sound()) ==> Sound()
    {
      if newsz >= oldsz { return oldsz; }
      if Pages(newsz) < Pages(oldsz) {
        PageOf(0, Pages(newsz));
        Uvmunmap(r, PGSIZE * Pages(newsz), Pages(oldsz) - Pages(newsz), true);
      }
      sz := newsz;
    }

    /** uvmalloc: all of the new pages, zeroed; or none of them and no page lost, which happens only when
        fewer than three free pages, for the page and two tables, were there for each. */
    method Uvmalloc(r: nat, oldsz: nat, newsz: nat, xperm: nat) returns (sz: nat, ghost ok: bool)
      requires Valid() && IsRoot(r) && newsz <= MAXVA && xperm < 1024
      requires newsz >= oldsz ==> Unmapped(frames, r, Pages(oldsz), Pages(newsz) - Pages(oldsz))
      modifies this
      ensures Valid() && IsRoot(r)
      ensures newsz < oldsz ==> sz == oldsz && frames == old(frames) && role == old(role) && freelist == old(freelist)
      ensures newsz >= oldsz && ok ==>
                && sz == newsz
                && AllocState(old(frames), old(role), frames, role, r, Pages(oldsz),
                   Zeroed(Pages(newsz) - Pages(oldsz), UserPerm(xperm)))
      ensures newsz >= oldsz && !ok ==> sz == 0 && Extended(old(frames), old(role), frames, role, r)
      ensures newsz >= oldsz && !ok ==> |old(freelist)| < 3 * (Pages(newsz) - Pages(oldsz))
      ensures old(Sound()) ==> Sound()
    {
      ok := true;
      UserPermBits(xperm);
      if newsz < oldsz { return oldsz, true; }
      PagesMono(oldsz, newsz);
      PagesMono(newsz, MAXVA);
      var all := GrowPages(r, Pages(oldsz), Pages(newsz), UserPerm(xperm));
      if !all {
        ExtendedOwned(lo, old(frames), old(role), frames, role, r);
        return 0, false;
      }
      AllocOwned(lo, old(frames), old(role), frames, role, r, Pages(oldsz),
        Zeroed(Pages(newsz) - Pages(oldsz), UserPerm(xperm)));
      sz := newsz;
    }

    /** uvmalloc's loop over the pages with PGROUNDUP(oldsz) <= a < newsz; see PagesBelow. */
    method GrowPages(r: nat, first: nat, last: nat, perm: nat) returns (ok: bool)
      requires Valid() && IsRoot(r) && first <= last <= NVPN && 1 < perm < 1024
               && Unmapped(frames, r, first, last - first)
      modifies this
      ensures Valid() && IsRoot(r)
      ensures ok ==> AllocState(old(frames), old(role), frames, role, r, first, Zeroed(last - first, perm))
      ensures !ok ==> Extended(old(frames), old(role), frames, role, r) && |old(freelist)| < 3 * (last - first)
    {
      var a := first;
      NothingAllocated(frames, role, r, first);
      ZeroedMore(0, perm);
      while a < last
        invariant first <= a <= last && Valid() && IsRoot(r)
        invariant AllocState(old(frames), old(role), frames, role, r, first, Zeroed(a - first, perm))
        invariant |old(freelist)| <= |freelist| + 3 * (a - first)
      {
        ok := AllocOne(old(frames), old(role), r, first, a, Zeroed(a - first, perm), Want(Fill(0), perm), last - first);
        if !ok {
          ShrinkBack(old(frames), old(role), r, first, a, Zeroed(a - first, perm));
          return;
        }
        ZeroedMore(a - first, perm);
        a := a + 1;
      }
      ok := true;
    }

    /** AddPage as the next step of a growth that began in state f0, r0. */
    method AllocOne(ghost f0: seq<Frame>, ghost r0: seq<Role>, r: nat, ghost first: nat, a: nat,
                    ghost want: seq<Want>, w: Want, ghost n: nat)
      returns (ok: bool)
      requires Valid() && IsRoot(r) && AllocState(f0, r0, frames, role, r, first, want) && a == first + |want|
      requires Unmapped(f0, r, first, n) && |want| < n && first + n <= NVPN && r < |r0| && r0[r] == Top(2)
               && w.perm < 1024
      modifies this
      ensures Valid() && IsRoot(r) && AllocState(f0, r0, frames, role, r, first, if ok then want + [w] else want)
      ensures if ok then |old(freelist)| <= |freelist| + 3 else |old(freelist)| < 3
    {
      AllocNext(f0, r0, frames, role, r, first, want, n);
      ghost var f, o := frames, role;
      ok := AddPage(r, a, w.data, w.perm);
      if ok {
        AllocMore(f0, r0, f, o, frames, role, r, first, want, w);
      } else {
        AllocStays(f0, r0, f, o, frames, role, r, first, want);
      }
    }

    /** uvmalloc's way out: uvmdealloc of what was added. */
    method ShrinkBack(ghost f0: seq<Frame>, ghost r0: seq<Role>, r: nat, first: nat, a: nat, ghost want: seq<Want>)
      requires Valid() && IsRoot(r) && AllocState(f0, r0, frames, role, r, first, want) && a == first + |want| <= NVPN
      requires TreesOk(f0, r0, {}) && Unmapped(f0, r, first, |want|) && r < |r0| && r0[r] == Top(2)
      requires forall i: nat :: i < |want| ==> want[i].perm > 1
      modifies this
      ensures Valid() && IsRoot(r) && Extended(f0, r0, frames, role, r)
    {
      AllocRemovable(f0, r0, frames, role, r, first, want);
      PageOf(PGSIZE - 1, a);
      PageOf(PGSIZE - 1, first);
      NothingUnmapped(frames, role, r, first, true);
      ghost var f, o := frames, role;
      var _ := Uvmdealloc(r, PGSIZE * a, PGSIZE * first);
      AllocUndone(f0, r0, f, o, frames, role, r, first, want);
    }

    /** uvmcopy's way out: uvmunmap of what was added. */
    method RemoveBack(ghost f0: seq<Frame>, ghost r0: seq<Role>, r: nat, n: nat, ghost want: seq<Want>)
      requires Valid() && IsRoot(r) && AllocState(f0, r0, frames, role, r, 0, want) && n == |want| <= NVPN
      requires TreesOk(f0, r0, {}) && Unmapped(f0, r, 0, |want|) && r < |r0| && r0[r] == Top(2)
      requires forall i: nat :: i < |want| ==> want[i].perm > 1
      modifies this
      ensures Valid() && IsRoot(r) && Extended(f0, r0, frames, role, r)
    {
      AllocRemovable(f0, r0, frames, role, r, 0, want);
      ghost var f, o := frames, role;
      Uvmunmap(r, 0, n, true);
      AllocUndone(f0, r0, f, o, frames, role, r, 0, want);
    }

    /** What uvmcopy reads of the parent: the bytes and the flags of a page. */
    method PageToCopy(r: nat, v: nat) returns (w: Want)
      requires Valid() && IsRoot(r) && v < NVPN && IsValid(Lookup(frames, r, v))
      requires Lookup(frames, r, v) / 1024 < |frames| && frames[Lookup(frames, r, v) / 1024].Bytes?
      modifies this
      ensures frames == old(frames) && role == old(role) && freelist == old(freelist) && w == CopyOf(frames, r, v)
    {
      var l := Walk(r, v, false);
      Path(frames, role, {}, r, v);
      var pte := frames[l].ptes[Px(0, v)];
      w := Want(frames[pte / 1024].data, PteFlags(pte));
    }

    /** uvmcopy: the child has the parent's pages, byte for byte and with their flags, in frames of
        its own; or, with fewer than three free pages for each, nothing. */
    method Uvmcopy(old_: nat, new_: nat, sz: nat) returns (rc: int)
      requires Valid() && IsRoot(old_) && IsRoot(new_) && old_ != new_ && sz <= MAXVA
      requires AllRemovable(frames, role, old_, 0, Pages(sz), true) && Unmapped(frames, new_, 0, Pages(sz))
      modifies this
      ensures Valid() && IsRoot(new_)
      ensures rc == 0 ==> AllocState(old(frames), old(role), frames, role, new_, 0, Image(old(frames), old_, Pages(sz)))
      ensures rc != 0 ==> rc == -1 && Extended(old(frames), old(role), frames, role, new_)
      ensures rc != 0 ==> |old(freelist)| < 3 * Pages(sz)
      ensures old(Sound()) ==> Sound()
    {
      rc := CopyPages(old_, new_, sz);
      if rc == 0 {
        AllocOwned(lo, old(frames), old(role), frames, role, new_, 0, Image(old(frames), old_, Pages(sz)));
      } else {
        ExtendedOwned(lo, old(frames), old(role), frames, role, new_);
      }
    }

    /** Its loop, and the way out. */
    method CopyPages(old_: nat, new_: nat, sz: nat) returns (rc: int)
      requires Valid() && IsRoot(old_) && IsRoot(new_) && old_ != new_ && sz <= MAXVA
      requires AllRemovable(frames, role, old_, 0, Pages(sz), true) && Unmapped(frames, new_, 0, Pages(sz))
      modifies this
      ensures Valid() && IsRoot(new_)
      ensures rc == 0 ==> AllocState(old(frames), old(role), frames, role, new_, 0, Image(old(frames), old_, Pages(sz)))
      ensures rc != 0 ==> rc == -1 && Extended(old(frames), old(role), frames, role, new_)
      ensures rc != 0 ==> |old(freelist)| < 3 * Pages(sz)
    {
      PagesMono(sz, MAXVA);
      var i := 0;
      NothingAllocated(frames, role, new_, 0);
      ImageMore(frames, old_, 0);
      while PGSIZE * i < sz
        invariant i <= Pages(sz) && Valid() && IsRoot(old_) && IsRoot(new_)
        invariant AllocState(old(frames), old(role), frames, role, new_, 0, Image(old(frames), old_, i))
        invariant |old(freelist)| <= |freelist| + 3 * i
      {
        PagesBelow(i, sz);
        CopySource(old(frames), old(role), frames, role, old_, new_, i, Pages(sz));
        var w := PageToCopy(old_, i);
        var added := AllocOne(old(frames), old(role), new_, 0, i, Image(old(frames), old_, i), w, Pages(sz));
        if !added {
          RemoveBack(old(frames), old(role), new_, i, Image(old(frames), old_, i));
          return -1;
        }
        ImageMore(old(frames), old_, i);
        i := i + 1;
      }
      PagesBelow(i, sz);
      rc := 0;
    }

    /** freewalk: every table below t and t itself become free pages.  No leaf may be mapped; then
        its panic cannot happen. */
    method Freewalk(t: nat, ghost level: nat, ghost hole: set<(nat, nat)>)
      requires MemoryOk(lo, frames, freelist, role, hole) && t < |role| && role[t] == Top(level) && Clear(hole, t)
      requires NoLeaves(frames, role, t) && NoUsers(role, t)
      modifies this
      ensures MemoryOk(lo, frames, freelist, role, hole) && Freed(old(frames), old(role), frames, role, t)
      decreases level
    {
      var i := 0;
      assert FreeState(frames, role, frames, role, t, 0);
      while i < NPTE
        invariant i <= NPTE && MemoryOk(lo, frames, freelist, role, hole)
        invariant FreeState(old(frames), old(role), frames, role, t, i)
      {
        FreeNext(old(frames), old(role), frames, role, hole, t, i);
        var pte := frames[t].ptes[i];
        if IsValid(pte) && !IsLeaf(pte) {
          var child := pte / 1024;
          FreeChild(old(frames), old(role), t, level, hole, i, child);
          frames := Store(frames, t, i, 0);
        } else {
          assert !IsValid(pte);
          FreeSkip(old(frames), old(role), frames, role, hole, t, i);
        }
        i := i + 1;
      }
      FreeLast(old(frames), old(role), frames, role, hole, t);
      Kfree(t, hole);
    }

    /** The recursive call, for the child that entry i names. */
    method FreeChild(ghost f0: seq<Frame>, ghost r0: seq<Role>, t: nat, ghost level: nat, ghost hole: set<(nat, nat)>,
                     i: nat, child: nat)
      requires MemoryOk(lo, frames, freelist, role, hole) && TreesOk(f0, r0, hole)
               && FreeState(f0, r0, frames, role, t, i)
      requires role[t] == r0[t] == Top(level) && 0 < level && i < NPTE && NoUsers(role, t) && NoLeaves(f0, r0, t)
               && Clear(hole, t)
      requires child < |role| && role[child] == Sub(t, i, level - 1)
      modifies this
      ensures t < |frames| && frames[t].Table? && MemoryOk(lo, Store(frames, t, i, 0), freelist, role, hole)
      ensures FreeState(f0, r0, Store(frames, t, i, 0), role, t, i + 1)
      decreases level, 0
    {
      ghost var f, o := frames, role;
      DetachOk(frames, role, hole, t, i, child, level);
      ChildReady(f0, r0, frames, role, hole, t, i, child, level);
      RelabelFree(freelist, role, child, Top(level - 1));
      role := role[child := Top(level - 1)];
      Freewalk(child, level - 1, hole + {(t, i)});
      FreeMore(f0, r0, f, o, frames, role, hole, t, i, child, level);
      FillHole(frames, role, hole, t, i);
    }

    /** uvmcreate: a page table that maps nothing. */
    method Uvmcreate() returns (r: nat)
      requires Valid()
      modifies this
      ensures Valid() && |role| == old(|role|)
      ensures r == 0 ==> frames == old(frames) && role == old(role) && freelist == old(freelist) == []
      ensures r != 0 ==> r < |role| && old(role[r]) == Free && role == old(role)[r := Top(2)]
      ensures r != 0 ==> frames[r] == Table(NoPtes()) && Unmapped(frames, r, 0, NVPN)
      ensures r != 0 ==> SameMap(old(frames), old(role), frames) && DataKept(old(frames), old(role), frames)
      ensures old(Sound()) ==> Sound()
    {
      r := Kalloc();
      if r == 0 { return; }
      CreateOk(frames, role, r);
      RelabelFree(freelist, role, r, Top(2));
      SameMapTrans(old(frames), old(role), frames, role, frames[r := Table(NoPtes())]);
      frames := frames[r := Table(NoPtes())];
      role := role[r := Top(2)];
      assert role == old(role)[r := Top(2)];
      NewRootOwned(lo, old(frames), old(role), frames, r);
    }

    /** uvmfree: everything the page table held is free again, and nobody else notices. */
    method Uvmfree(r: nat, sz: nat)
      requires Valid() && IsRoot(r) && Pages(sz) <= NVPN
      requires AllRemovable(frames, role, r, 0, Pages(sz), true) && Unmapped(frames, r, Pages(sz), NVPN - Pages(sz))
      modifies this
      ensures Valid() && |role| == old(|role|)
      ensures forall p: nat :: p < |role| ==> role[p] == if Holds(old(role), r, p) then Free else old(role[p])
      ensures SameMap(old(frames), role, frames) && DataKept(old(frames), role, frames)
      ensures old(Sound()) ==> Sound()
    {
      NothingUnmapped(frames, role, r, 0, true);
      if sz > 0 {
        PageOf(0, 0);
        Uvmunmap(r, 0, Pages(sz), true);
      }
      ghost var f, o := frames, role;
      NothingMapped(old(frames), old(role), frames, role, r, Pages(sz));
      Freewalk(r, 2, {});
      AllFreed(old(frames), old(role), f, o, frames, role, r, Pages(sz));
      FreedOwned(lo, old(frames), old(role), frames, role, r);
    }

    /** copyout: the bytes of src are stored from dstva on, up to the first page the user may not write. */
    method Copyout(r: nat, dstva: nat, src: seq<Byte>) returns (rc: int, ghost done: nat)
      requires Valid() && IsRoot(r) && UserBytes(frames, r)
      modifies this
      ensures Valid() && role == old(role) && freelist == old(freelist) && SameMap(old(frames), role, frames)
      ensures done <= |src| && Stands(old(frames), r, dstva, src[..done], frames)
      ensures old(UserOwned(frames, role, r)) ==> Copied(old(frames), frames, role, r, dstva, src[..done])
      ensures rc == 0 ==> done == |src| && AllWritable(old(frames), r, dstva, dstva + |src|)
      ensures rc != 0 ==> rc == -1 && done < |src| && !Writable(old(frames), r, dstva + done)
      ensures old(Sound()) ==> Sound()
    {
      rc, done := CopyLoop(r, dstva, src);
      StoredAll(old(frames), r, dstva, src, done);
      assert Unfold(0);
    }

    method CopyLoop(r: nat, dstva: nat, src: seq<Byte>) returns (rc: int, ghost done: nat)
      requires Valid() && IsRoot(r) && UserBytes(frames, r)
      modifies this
      ensures Valid() && role == old(role) && freelist == old(freelist)
              && CopyState(old(frames), frames, r, dstva, src, done)
      ensures rc == 0 ==> done == |src|
      ensures rc != 0 ==> rc == -1 && done < |src| && Barred(old(frames), r, dstva + done)
    {
      done := 0;
      var k := 0;
      NothingStored(frames, r, dstva, src);
      while k < |src|
        invariant k == done && Valid() && role == old(role) && freelist == old(freelist)
        invariant CopyState(old(frames), frames, r, dstva, src, k)
      {
        var n := CopyChunk(old(frames), r, dstva, src, k);
        if n == 0 { return -1, done; }
        k, done := k + n, done + n;
      }
      rc := 0;
    }

    lemma StoredAll(f0: seq<Frame>, r: nat, dstva: nat, src: seq<Byte>, done: nat)
      requires CopyState(f0, frames, r, dstva, src, done) && TreesOk(f0, role, {}) && IsRoot(r)
      ensures SameMap(f0, role, frames) && (Owned(lo, f0, role) ==> Sound()) && AllWritable(f0, r, dstva, dstva + done)
      ensures Stands(f0, r, dstva, src[..done], frames)
      ensures UserOwned(f0, role, r) ==> Copied(f0, frames, role, r, dstva, src[..done])
    {
      CopyFacts(f0, frames, r, dstva, src, done);
      forall q: nat, v: nat ensures Lookup(frames, q, v) == Lookup(f0, q, v) { TablesMap(f0, frames, q, v); }
      SameMapOwned(lo, f0, role, frames);
      if UserOwned(f0, role, r) {
        var f := StandsCopied(f0, role, r, dstva, src[..done]);
        SameStand(f0, r, dstva, src[..done], frames, f);
      }
    }

    /** One turn of copyout's loop: the rest of src, or as much of it as the page takes; 0 for an
        address the user may not write. */
    method CopyChunk(ghost f0: seq<Frame>, r: nat, dstva: nat, src: seq<Byte>, k: nat) returns (n: nat)
      requires Valid() && IsRoot(r) && UserBytes(f0, r) && k < |src| && CopyState(f0, frames, r, dstva, src, k)
      modifies this
      ensures Valid() && role == old(role) && freelist == old(freelist)
      ensures n == 0 ==> frames == old(frames) && Barred(f0, r, dstva + k)
      ensures CopyState(f0, frames, r, dstva, src, k + n)
    {
      var va := dstva + k;
      CopyFacts(f0, frames, r, dstva, src, k);
      TablesMap(f0, frames, r, va / PGSIZE);
      if va / PGSIZE >= NVPN { return 0; }
      var pte := ReadPte(r, va / PGSIZE);
      if !IsValid(pte) || !IsUser(pte) || !IsWritable(pte) { return 0; }
      n := ChunkLength(va, |src| - k);
      StoreChunk(f0, r, dstva, src, k, n, pte / 1024);
    }

    method StoreChunk(ghost f0: seq<Frame>, ghost r: nat, dstva: nat, src: seq<Byte>, k: nat, n: nat, p: nat)
      requires Valid() && CopyState(f0, frames, r, dstva, src, k) && UserBytes(f0, r) && Writable(frames, r, dstva + k)
      requires k + n <= |src| && 0 < n <= PGSIZE - (dstva + k) % PGSIZE
               && p == Lookup(frames, r, (dstva + k) / PGSIZE) / 1024
      modifies this`frames
      ensures Valid() && CopyState(f0, frames, r, dstva, src, k + n)
    {
      ghost var vpn, o := (dstva + k) / PGSIZE, (dstva + k) % PGSIZE;
      CopyFacts(f0, frames, r, dstva, src, k);
      TablesMap(f0, frames, r, vpn);
      CopyMore(f0, frames, r, dstva, src, k, vpn, o, n);
      frames := PutChunk(frames, p, (dstva + k) % PGSIZE, src[k..k + n]);
      TablesOk(old(frames), frames, role);
    }

    /** copyin: the bytes at srcva, or -1 at the first page the user may not read. */
    method Copyin(r: nat, srcva: nat, len: nat) returns (rc: int, dst: seq<Byte>)
      requires Valid() && IsRoot(r) && UserBytes(frames, r)
      modifies this
      ensures frames == old(frames) && role == old(role) && freelist == old(freelist)
      ensures |dst| <= len && Fetched(frames, r, srcva, dst)
      ensures rc == 0 ==> |dst| == len
      ensures rc != 0 ==> rc == -1 && |dst| < len && !Readable(frames, r, srcva + |dst|)
    {
      dst := [];
      while |dst| < len
        invariant frames == old(frames) && role == old(role) && freelist == old(freelist)
        invariant |dst| <= len && Fetched(frames, r, srcva, dst)
      {
        var chunk := FetchChunk(r, srcva + |dst|, len - |dst|);
        if chunk == [] { return -1, dst; }
        FetchedMore(frames, r, srcva, dst, chunk);
        dst := dst + chunk;
      }
      rc := 0;
    }

    /** One turn of copyin's loop. */
    method FetchChunk(r: nat, va: nat, want: nat) returns (chunk: seq<Byte>)
      requires Valid() && IsRoot(r) && UserBytes(frames, r) && want > 0
      modifies this
      ensures frames == old(frames) && role == old(role) && freelist == old(freelist)
      ensures |chunk| <= want && Fetched(frames, r, va, chunk) && (chunk == [] <==> !Readable(frames, r, va))
    {
      if va / PGSIZE >= NVPN { return []; }
      var pte := ReadPte(r, va / PGSIZE);
      if !IsValid(pte) || !IsUser(pte) { return []; }
      var n := ChunkLength(va, want);
      chunk := frames[pte / 1024].data[va % PGSIZE..va % PGSIZE + n];
      ChunkFetched(frames, r, va, n, chunk);
    }

    /** What copyout stored, copyin fetches. */
    method CopyRoundTrip(r: nat, va: nat, src: seq<Byte>) returns (rc: int, dst: seq<Byte>)
      requires Valid() && IsRoot(r) && UserOwned(frames, role, r)
      modifies this
      ensures rc == 0 ==> dst == src
      ensures rc == 0 <==> old(AllWritable(frames, r, va, va + |src|))
    {
      ghost var done;
      UserBytesOwned(frames, role, r);
      rc, done := Copyout(r, va, src);
      dst := [];
      if rc != 0 { return; }
      StillOwned(old(frames), role, frames, r);
      UserBytesOwned(frames, role, r);
      rc, dst := Copyin(r, va, |src|);
      StillWritable(old(frames), role, frames, r, va, va + |src|);
      assert rc == 0 by {
        assert rc != 0 ==> Writable(frames, r, va + |dst|);
      }
      assert src[..done] == src;
      Stored(old(frames), frames, role, r, va, src, dst);
    }

    /** walk and load, 0 if there is no entry. */
    method ReadPte(r: nat, vpn: nat) returns (pte: nat)
      requires Valid() && IsRoot(r) && vpn < NVPN
      modifies this
      ensures frames == old(frames) && role == old(role) && freelist == old(freelist) && pte == Lookup(frames, r, vpn)
    {
      var l := Walk(r, vpn, false);
      Path(frames, role, {}, r, vpn);
      pte := if l == 0 then 0 else frames[l].ptes[Px(0, vpn)];
    }

    /** Create, grow and free again: every page is back where it was, whether or not memory sufficed. */
    method CreateGrowFree(sz: nat, xperm: nat)
      requires Valid() && sz <= MAXVA && xperm < 1024
      modifies this
      ensures Valid() && role == old(role) && forall p: nat :: p in freelist <==> p in old(freelist)
    {
      var r := Uvmcreate();
      if r == 0 { return; }
      CreatedOnly(old(role), role, frames, r);
      var got := GrowEmpty(old(role), r, sz, xperm);
      ghost var r2 := role;
      Uvmfree(r, got);
      OnlyRestored(old(role), r2, role, r);
    }

    /** Memory that uvmalloc grants with PTE_W can be filled by copyout. */
    method GrowThenFill(r: nat, sz: nat, src: seq<Byte>) returns (ghost ok: bool, rc: int)
      requires Valid() && IsRoot(r) && Unmapped(frames, r, 0, NVPN) && |src| <= sz <= MAXVA
      modifies this
      ensures ok ==> rc == 0
    {
      assert Pages(0) == 0;
      PagesMono(0, sz);
      PagesMono(sz, MAXVA);
      var got;
      got, ok := Uvmalloc(r, 0, sz, PTE_W);
      rc := -1;
      if got != sz { return; }
      ghost var want := Zeroed(Pages(sz), UserPerm(PTE_W));
      OnlyBytes(old(frames), old(role), frames, role, r, want);
      forall va: nat | 0 <= va < |src| ensures Writable(frames, r, va) {
        PageBelow(va, sz);
        GrownSeen(old(frames), old(role), frames, role, r, 0, Pages(sz), PTE_W, va);
      }
      ghost var done;
      rc, done := Copyout(r, 0, src);
    }

    /** uvmalloc on a page table that maps nothing; what it leaves can be freed with the size it returns. */
    method GrowEmpty(ghost r0: seq<Role>, r: nat, sz: nat, xperm: nat) returns (got: nat)
      requires Valid() && IsRoot(r) && OnlyFor(r0, role, r) && Unmapped(frames, r, 0, NVPN)
      requires sz <= MAXVA && xperm < 1024
      modifies this
      ensures Valid() && IsRoot(r) && OnlyFor(r0, role, r) && Pages(got) <= NVPN
      ensures AllRemovable(frames, role, r, 0, Pages(got), true) && Unmapped(frames, r, Pages(got), NVPN - Pages(got))
    {
      assert Pages(0) == 0;
      PagesMono(0, sz);
      PagesMono(sz, MAXVA);
      ghost var ok;
      got, ok := Uvmalloc(r, 0, sz, xperm);
      if ok {
        EmptyGrown(r0, old(frames), old(role), frames, role, r, Zeroed(Pages(sz), UserPerm(xperm)));
      } else {
        ExtendedOnly(r0, old(frames), old(role), frames, role, r);
        ExtendedRest(old(frames), old(role), frames, role, r);
      }
    }
  }

  lemma PopOk(freelist: seq<nat>, role: seq<Role>)
    requires FreeOk(freelist, role) && freelist != []
    ensures freelist[0] < |role| && FreeOk(freelist[1..], role[freelist[0] := Taken])
  {
    assert freelist[0] in freelist;
    var rest, role' := freelist[1..], role[freelist[0] := Taken];
    forall p: nat ensures p in rest <==> p < |role'| && role'[p] == Free {
      assert p in rest ==> p in freelist;
    }
  }

  lemma PushOk(freelist: seq<nat>, role: seq<Role>, p: nat)
    requires FreeOk(freelist, role) && p < |role| && role[p] != Free
    ensures FreeOk([p] + freelist, role[p := Free])
  {
  }
}
