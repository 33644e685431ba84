/** Inode contents and block allocation, kernel/fs.c.

    `blocks` is the disk as the file system sees it (module Journal proves that cache, log and
    disk amount to one such map); block numbers inside an indirect block are little-endian words
    and the free map is bits in bytes, as on disk.  The table of on-disk inodes is the sequence
    `inodes`.  The ghost sequence `owner` says what each block is for; since it is a function of
    the block, no block can serve two purposes. */
module Inode {
  const BSIZE: nat := 1024
  const NDIRECT: nat := 12
  const NINDIRECT: nat := 256          // BSIZE / sizeof(uint)
  const MAXFILE: nat := 268
  const BPB: nat := 8192               // bits per bitmap block
  const UINT: nat := 0x1_0000_0000

  type Byte = x: int | 0 <= x < 256
  type Data = s: seq<Byte> | |s| == BSIZE witness seq(BSIZE, _ => 0)

  function Zeros(): Data { seq(BSIZE, _ => 0) }

  /** The parts of the superblock that matter: blocks on the disk, first bitmap block, first data block. */
  datatype Geometry = Geometry(nblocks: nat, bmapstart: nat, nmeta: nat)

  predicate GeometryOk(g: Geometry) {
    0 < g.bmapstart && g.nmeta <= g.nblocks < UINT && g.bmapstart + (g.nblocks + BPB - 1) / BPB <= g.nmeta
  }

  /** addrs holds NDIRECT block numbers and the number of the indirect block; 0 is none. */
  datatype Inode = Inode(addrs: seq<nat>, size: nat)

  datatype Owner = Unused | Meta | Ind(ino: nat) | File(ino: nat, k: nat)

  // ---------- words and bits ----------

  function GetWord(d: Data, j: nat): (w: nat)
    requires j < NINDIRECT
    ensures w < UINT
  {
    d[4*j] as int + 256 * (d[4*j+1] as int) + 65536 * (d[4*j+2] as int) + 16777216 * (d[4*j+3] as int)
  }

  function PutWord(d: Data, j: nat, w: nat): Data
    requires j < NINDIRECT && w < UINT
  {
    d[4*j := w % 256][4*j+1 := w / 256 % 256][4*j+2 := w / 65536 % 256][4*j+3 := w / 16777216]
  }

  lemma WordBytes(w: nat)
    requires w < UINT
    ensures w % 256 + 256 * (w / 256 % 256) + 65536 * (w / 65536 % 256) + 16777216 * (w / 16777216) == w
  {
    var a := w / 256;
    var b := a / 256;
    assert w / 65536 == b;
    assert w / 16777216 == b / 256;
  }

  lemma WordRoundTrip(d: Data, j: nat, w: nat, i: nat)
    requires j < NINDIRECT && w < UINT && i < NINDIRECT
    ensures GetWord(PutWord(d, j, w), i) == if i == j then w else GetWord(d, i)
  {
    WordBytes(w);
    if i != j {
      assert 4 * i + 3 < 4 * j || 4 * j + 3 < 4 * i;
    }
  }

  /** Bit k of a byte, and the byte after `|= 1 << k` and after `&= ~(1 << k)`. */
  predicate Bit(x: nat, k: nat) {
    if k == 0 then x % 2 == 1 else Bit(x / 2, k - 1)
  }

  function PutBit(x: nat, k: nat, v: bool): (y: nat)
    decreases k
  {
    if k == 0 then x - x % 2 + (if v then 1 else 0) else 2 * PutBit(x / 2, k - 1, v) + x % 2
  }

  lemma {:induction false} BitRoundTrip(x: nat, k: nat, v: bool, i: nat)
    ensures Bit(PutBit(x, k, v), i) == if i == k then v else Bit(x, i)
    decreases k
  {
    if k > 0 && i > 0 {
      BitRoundTrip(x / 2, k - 1, v, i - 1);
    }
  }

  function Pow2(n: nat): nat {
    if n == 0 then 1 else 2 * Pow2(n - 1)
  }

  lemma {:induction false} PutBitBound(x: nat, k: nat, v: bool, n: nat)
    requires n > k && x < Pow2(n)
    ensures PutBit(x, k, v) < Pow2(n)
    decreases k
  {
    var m, h := Pow2(n - 1), x / 2;
    assert x == 2 * h + x % 2 && h <= m - 1;
    if k > 0 {
      PutBitBound(h, k - 1, v, n - 1);
    }
  }

  function PutByteBit(x: Byte, k: nat, v: bool): Byte
    requires k < 8
  {
    assert Pow2(8) == 256;
    PutBitBound(x, k, v, 8);
    PutBit(x, k, v)
  }

  // ---------- the free map ----------

  predicate BlocksOk(g: Geometry, blocks: seq<Data>) {
    GeometryOk(g) && |blocks| == g.nblocks
  }

  predicate InUse(g: Geometry, blocks: seq<Data>, b: nat)
    requires BlocksOk(g, blocks) && b < g.nblocks
  {
    Bit(blocks[g.bmapstart + b / BPB][b % BPB / 8], b % 8)
  }

  function Mark(g: Geometry, blocks: seq<Data>, b: nat, v: bool): seq<Data>
    requires BlocksOk(g, blocks) && b < g.nblocks
  {
    var m := g.bmapstart + b / BPB;
    var i := b % BPB / 8;
    blocks[m := blocks[m][i := PutByteBit(blocks[m][i], b % 8, v)]]
  }

  lemma BitPosition(b: nat)
    ensures b == BPB * (b / BPB) + 8 * (b % BPB / 8) + b % 8
  {
    var q, r := b / BPB, b % BPB;
    assert b == BPB * q + r && r == 8 * (r / 8) + r % 8;
    assert b == 8 * (1024 * q + r / 8) + r % 8;
    assert b / 8 == 1024 * q + r / 8;
  }

  lemma MarkExact(g: Geometry, blocks: seq<Data>, b: nat, v: bool, x: nat)
    requires BlocksOk(g, blocks) && b < g.nblocks && x < g.nblocks
    ensures InUse(g, Mark(g, blocks, b, v), x) == if x == b then v else InUse(g, blocks, x)
  {
    BitPosition(b);
    BitPosition(x);
    var m, i := g.bmapstart + b / BPB, b % BPB / 8;
    if x / BPB == b / BPB && x % BPB / 8 == i {
      BitRoundTrip(blocks[m][i], b % 8, v, x % 8);
    }
  }

  ghost predicate BitmapOk(g: Geometry, blocks: seq<Data>, owner: seq<Owner>) {
    && BlocksOk(g, blocks) && |owner| == g.nblocks
    && (forall b: nat :: b < g.nblocks ==> (InUse(g, blocks, b) <==> owner[b] != Unused))
    && (forall b: nat :: b < g.nblocks ==> (owner[b] == Meta <==> b < g.nmeta))
  }

  lemma MarkKeepsBitmap(g: Geometry, blocks: seq<Data>, owner: seq<Owner>, b: nat, o: Owner)
    requires BitmapOk(g, blocks, owner) && g.nmeta <= b < g.nblocks && o != Meta
    ensures BitmapOk(g, Mark(g, blocks, b, o != Unused), owner[b := o])
  {
    var blocks', owner' := Mark(g, blocks, b, o != Unused), owner[b := o];
    forall x: nat | x < g.nblocks
      ensures InUse(g, blocks', x) <==> owner'[x] != Unused
    {
      MarkExact(g, blocks, b, o != Unused, x);
    }
  }

  // ---------- an inode's blocks and bytes ----------

  predicate AddrsOk(n: Inode) {
    |n.addrs| == NDIRECT + 1
  }

  /** Block number of the file's k-th block, 0 when there is none. */
  function Entry(blocks: seq<Data>, n: Inode, k: nat): nat
    requires AddrsOk(n) && k < MAXFILE
  {
    if k < NDIRECT then n.addrs[k]
    else if n.addrs[NDIRECT] == 0 || n.addrs[NDIRECT] >= |blocks| then 0
    else GetWord(blocks[n.addrs[NDIRECT]], k - NDIRECT)
  }

  /** The byte at position p of the file. */
  function ByteAt(blocks: seq<Data>, n: Inode, p: nat): Byte
    requires AddrsOk(n) && p < MAXFILE * BSIZE
  {
    var b := Entry(blocks, n, p / BSIZE);
    if b == 0 || b >= |blocks| then 0 else blocks[b][p % BSIZE]
  }

  /** The file: `size` bytes. */
  function Content(blocks: seq<Data>, n: Inode): (c: seq<Byte>)
    requires AddrsOk(n) && n.size <= MAXFILE * BSIZE
    ensures |c| == n.size
  {
    seq(n.size, p requires 0 <= p < n.size => ByteAt(blocks, n, p))
  }

  /** Every block the inode names is owned by it for exactly that use; every block below size exists. */
  ghost predicate InodeOk(blocks: seq<Data>, owner: seq<Owner>, ino: nat, n: Inode)
    requires |owner| == |blocks|
  {
    && AddrsOk(n) && n.size <= MAXFILE * BSIZE
    && (n.addrs[NDIRECT] != 0 ==> n.addrs[NDIRECT] < |blocks| && owner[n.addrs[NDIRECT]] == Ind(ino))
    && (forall k: nat :: k < MAXFILE ==> EntryOk(blocks, owner, ino, n, k))
  }

  ghost predicate EntryOk(blocks: seq<Data>, owner: seq<Owner>, ino: nat, n: Inode, k: nat)
    requires |owner| == |blocks| && AddrsOk(n) && k < MAXFILE
  {
    var b := Entry(blocks, n, k);
    && (b != 0 ==> b < |blocks| && owner[b] == File(ino, k))
    && (k * BSIZE < n.size ==> b != 0)
  }

  /** Every owned block is where its owner says: the bitmap has no leaked block. */
  ghost predicate OwnedOk(blocks: seq<Data>, owner: seq<Owner>, inodes: seq<Inode>, b: nat)
    requires |owner| == |blocks| && b < |blocks|
  {
    match owner[b]
    case Unused => true
    case Meta => true
    case Ind(ino) => ino < |inodes| && AddrsOk(inodes[ino]) && inodes[ino].addrs[NDIRECT] == b
    case File(ino, k) => ino < |inodes| && AddrsOk(inodes[ino]) && k < MAXFILE && Entry(blocks, inodes[ino], k) == b
  }

  ghost predicate FsOk(g: Geometry, blocks: seq<Data>, inodes: seq<Inode>, owner: seq<Owner>) {
    && BitmapOk(g, blocks, owner)
    && (forall i: nat :: i < |inodes| ==> InodeOk(blocks, owner, i, inodes[i]))
    && (forall b: nat :: b < g.nblocks ==> OwnedOk(blocks, owner, inodes, b))
  }

  // ---------- what does not change ----------

  predicate OwnedBy(o: Owner, ino: nat) {
    (o.Ind? || o.File?) && o.ino == ino
  }

  /** The blocks of inode ino keep their contents and their owner. */
  ghost predicate Kept(blocks: seq<Data>, owner: seq<Owner>, blocks': seq<Data>, owner': seq<Owner>, ino: nat) {
    && |blocks'| == |blocks| == |owner| == |owner'|
    && forall b: nat :: b < |blocks| && OwnedBy(owner[b], ino) ==> blocks'[b] == blocks[b] && owner'[b] == owner[b]
  }

  /** So it is for every inode but ino. */
  ghost predicate OthersKept(blocks: seq<Data>, owner: seq<Owner>, blocks': seq<Data>, owner': seq<Owner>, ino: nat) {
    forall i: nat :: i != ino ==> Kept(blocks, owner, blocks', owner', i)
  }

  /** The bytes the inode maps are the same, also those past its size. */
  ghost predicate SameBytes(blocks: seq<Data>, n: Inode, blocks': seq<Data>, n': Inode) {
    && AddrsOk(n) && AddrsOk(n')
    && forall p: nat :: p < MAXFILE * BSIZE ==> ByteAt(blocks', n', p) == ByteAt(blocks, n, p)
  }

  ghost predicate OthersSame(blocks: seq<Data>, inodes: seq<Inode>, blocks': seq<Data>, ino: nat) {
    forall i: nat :: i < |inodes| && i != ino ==> SameBytes(blocks, inodes[i], blocks', inodes[i])
  }

  lemma SameContent(blocks: seq<Data>, n: Inode, blocks': seq<Data>, n': Inode)
    requires SameBytes(blocks, n, blocks', n') && n'.size == n.size <= MAXFILE * BSIZE
    ensures Content(blocks', n') == Content(blocks, n)
  {
  }

  lemma KeptEntry(blocks: seq<Data>, owner: seq<Owner>, blocks': seq<Data>, owner': seq<Owner>, ino: nat, n: Inode,
                  k: nat)
    requires Kept(blocks, owner, blocks', owner', ino) && InodeOk(blocks, owner, ino, n) && k < MAXFILE
    ensures Entry(blocks', n, k) == Entry(blocks, n, k) && EntryOk(blocks', owner', ino, n, k)
  {
    assert EntryOk(blocks, owner, ino, n, k);
  }

  lemma KeptInode(blocks: seq<Data>, owner: seq<Owner>, blocks': seq<Data>, owner': seq<Owner>, ino: nat, n: Inode)
    requires Kept(blocks, owner, blocks', owner', ino) && InodeOk(blocks, owner, ino, n)
    ensures InodeOk(blocks', owner', ino, n) && SameBytes(blocks, n, blocks', n)
  {
    forall k: nat | k < MAXFILE ensures EntryOk(blocks', owner', ino, n, k) {
      KeptEntry(blocks, owner, blocks', owner', ino, n, k);
    }
    forall p: nat | p < MAXFILE * BSIZE ensures ByteAt(blocks', n, p) == ByteAt(blocks, n, p) {
      KeptEntry(blocks, owner, blocks', owner', ino, n, p / BSIZE);
      assert EntryOk(blocks, owner, ino, n, p / BSIZE);
    }
  }

  /** A block changes hands only to become unused or inode ino's. */
  ghost predicate OwnersMoved(owner: seq<Owner>, owner': seq<Owner>, ino: nat)
    requires |owner'| == |owner|
  {
    forall x: nat :: x < |owner| && owner'[x] != owner[x] ==> owner'[x] == Unused || OwnedBy(owner'[x], ino)
  }

  /** Inode ino names every block said to be its own. */
  ghost predicate OwnsAll(blocks: seq<Data>, owner: seq<Owner>, inodes: seq<Inode>, ino: nat)
    requires |owner| == |blocks|
  {
    forall x: nat :: x < |blocks| && OwnedBy(owner[x], ino) ==> OwnedOk(blocks, owner, inodes, x)
  }

  /** A step that leaves the blocks of every other inode alone is sound once inode ino is. */
  lemma OthersOk(g: Geometry, blocks: seq<Data>, inodes: seq<Inode>, owner: seq<Owner>, ino: nat,
                 blocks': seq<Data>, inodes': seq<Inode>, owner': seq<Owner>)
    requires FsOk(g, blocks, inodes, owner) && ino < |inodes| && BitmapOk(g, blocks', owner')
    requires |inodes'| == |inodes| && forall i: nat :: i < |inodes| && i != ino ==> inodes'[i] == inodes[i]
    requires OthersKept(blocks, owner, blocks', owner', ino) && InodeOk(blocks', owner', ino, inodes'[ino])
    requires OwnersMoved(owner, owner', ino) && OwnsAll(blocks', owner', inodes', ino)
    ensures FsOk(g, blocks', inodes', owner')
    ensures OthersSame(blocks, inodes, blocks', ino)
  {
    forall i: nat | i < |inodes|
      ensures InodeOk(blocks', owner', i, inodes'[i]) && (i != ino ==> SameBytes(blocks, inodes[i], blocks', inodes[i]))
    {
      if i != ino { KeptInode(blocks, owner, blocks', owner', i, inodes[i]); }
    }
    forall x: nat | x < g.nblocks ensures OwnedOk(blocks', owner', inodes', x) {
      assert OwnedOk(blocks, owner, inodes, x);
      if owner'[x].File? && owner'[x].ino != ino {
        var i := owner'[x].ino;
        KeptEntry(blocks, owner, blocks', owner', i, inodes[i], owner'[x].k);
      }
    }
  }

  // ---------- balloc ----------

  /** balloc's effect: mark b in use and zero it. */
  function Alloc(g: Geometry, blocks: seq<Data>, b: nat): seq<Data>
    requires BlocksOk(g, blocks) && b < g.nblocks
  {
    Mark(g, blocks, b, true)[b := Zeros()]
  }

  lemma AllocBitmap(g: Geometry, blocks: seq<Data>, owner: seq<Owner>, b: nat, o: Owner)
    requires BitmapOk(g, blocks, owner) && b < g.nblocks && owner[b] == Unused && (o.Ind? || o.File?)
    ensures BitmapOk(g, Alloc(g, blocks, b), owner[b := o])
  {
    MarkKeepsBitmap(g, blocks, owner, b, o);
    DataKeepsBitmap(g, Mark(g, blocks, b, true), owner[b := o], b, Zeros());
  }

  /** The contents of a block that is not metadata do not matter to the bitmap. */
  lemma DataKeepsBitmap(g: Geometry, blocks: seq<Data>, owner: seq<Owner>, b: nat, d: Data)
    requires BitmapOk(g, blocks, owner) && b < g.nblocks && owner[b] != Meta
    ensures BitmapOk(g, blocks[b := d], owner)
  {
    var blocks' := blocks[b := d];
    forall x: nat | x < g.nblocks ensures InUse(g, blocks', x) == InUse(g, blocks, x) {
      assert g.bmapstart + x / BPB < g.nmeta <= b;
    }
  }

  /** Allocation touches the bitmap and the new block only, neither of which any file had. */
  lemma AllocOther(g: Geometry, blocks: seq<Data>, owner: seq<Owner>, b: nat, x: nat)
    requires BitmapOk(g, blocks, owner) && b < g.nblocks && x < g.nblocks && owner[x] != Meta
    ensures Alloc(g, blocks, b)[x] == if x == b then Zeros() else blocks[x]
  {
    assert g.bmapstart + b / BPB < g.nmeta;
  }

  // ---------- bmap ----------

  /** The state after an allocation for inode ino, which names the new block b and puts it to use o. */
  ghost predicate Grown(g: Geometry, blocks: seq<Data>, owner: seq<Owner>, ino: nat, blocks': seq<Data>,
                        owner': seq<Owner>, b: nat, o: Owner)
  {
    && |blocks'| == |blocks| == |owner| == |owner'| && b < |blocks| && owner[b] == Unused && owner' == owner[b := o]
    && blocks'[b] == Zeros()
    && (forall x: nat :: x < |blocks| && x != b && owner[x] != Meta && owner[x] != Ind(ino) ==> blocks'[x] == blocks[x])
  }

  /** Entry k, which was 0, becomes b, and nothing else in the block table changes. */
  ghost predicate Gained(blocks: seq<Data>, n: Inode, blocks': seq<Data>, n': Inode, k: nat, b: nat) {
    && AddrsOk(n) && AddrsOk(n') && k < MAXFILE && n'.size == n.size && n'.addrs[NDIRECT] == n.addrs[NDIRECT]
    && Entry(blocks, n, k) == 0 && Entry(blocks', n', k) == b
    && (forall i: nat :: i < MAXFILE && i != k ==> Entry(blocks', n', i) == Entry(blocks, n, i))
  }

  lemma GainedInode(g: Geometry, blocks: seq<Data>, owner: seq<Owner>, ino: nat, n: Inode,
                    blocks': seq<Data>, n': Inode, owner': seq<Owner>, k: nat, b: nat)
    requires |owner| == |blocks| && InodeOk(blocks, owner, ino, n) && Gained(blocks, n, blocks', n', k, b)
    requires b != 0 && Grown(g, blocks, owner, ino, blocks', owner', b, File(ino, k))
    ensures InodeOk(blocks', owner', ino, n') && SameBytes(blocks, n, blocks', n')
  {
    assert EntryOk(blocks, owner, ino, n, k);
    forall i: nat | i < MAXFILE ensures EntryOk(blocks', owner', ino, n', i) {
      assert EntryOk(blocks, owner, ino, n, i);
    }
    forall p: nat | p < MAXFILE * BSIZE ensures ByteAt(blocks', n', p) == ByteAt(blocks, n, p) {
      assert EntryOk(blocks, owner, ino, n, p / BSIZE);
    }
  }

  lemma GrownKeeps(g: Geometry, blocks: seq<Data>, owner: seq<Owner>, ino: nat, blocks': seq<Data>,
                   owner': seq<Owner>, b: nat, o: Owner)
    requires Grown(g, blocks, owner, ino, blocks', owner', b, o)
    ensures OthersKept(blocks, owner, blocks', owner', ino)
  {
  }

  lemma GainedOwned(g: Geometry, blocks: seq<Data>, inodes: seq<Inode>, owner: seq<Owner>, ino: nat,
                    blocks': seq<Data>, n': Inode, owner': seq<Owner>, k: nat, b: nat)
    requires |owner| == |blocks| && ino < |inodes| && Gained(blocks, inodes[ino], blocks', n', k, b)
    requires Grown(g, blocks, owner, ino, blocks', owner', b, File(ino, k))
    requires OwnsAll(blocks, owner, inodes, ino) && !OwnedBy(owner[0], ino)
    ensures OwnsAll(blocks', owner', inodes[ino := n'], ino) && OwnersMoved(owner, owner', ino)
  {
  }

  lemma GainedFs(g: Geometry, blocks: seq<Data>, inodes: seq<Inode>, owner: seq<Owner>, ino: nat,
                 blocks': seq<Data>, n': Inode, owner': seq<Owner>, k: nat, b: nat)
    requires FsOk(g, blocks, inodes, owner) && ino < |inodes| && Gained(blocks, inodes[ino], blocks', n', k, b)
    requires b != 0 && Grown(g, blocks, owner, ino, blocks', owner', b, File(ino, k))
    requires BitmapOk(g, blocks', owner')
    ensures FsOk(g, blocks', inodes[ino := n'], owner')
    ensures SameFiles(blocks, inodes, blocks', inodes[ino := n'])
  {
    GainedFsOk(g, blocks, inodes, owner, ino, blocks', n', owner', k, b);
    FilesSame(blocks, inodes, ino, blocks', n');
  }

  lemma GainedFsOk(g: Geometry, blocks: seq<Data>, inodes: seq<Inode>, owner: seq<Owner>, ino: nat,
                   blocks': seq<Data>, n': Inode, owner': seq<Owner>, k: nat, b: nat)
    requires FsOk(g, blocks, inodes, owner) && ino < |inodes| && Gained(blocks, inodes[ino], blocks', n', k, b)
    requires b != 0 && Grown(g, blocks, owner, ino, blocks', owner', b, File(ino, k))
    requires BitmapOk(g, blocks', owner')
    ensures FsOk(g, blocks', inodes[ino := n'], owner')
    ensures OthersSame(blocks, inodes, blocks', ino)
    ensures n'.size == inodes[ino].size && SameBytes(blocks, inodes[ino], blocks', n')
  {
    GainedInode(g, blocks, owner, ino, inodes[ino], blocks', n', owner', k, b);
    GrownKeeps(g, blocks, owner, ino, blocks', owner', b, File(ino, k));
    GainedOwned(g, blocks, inodes, owner, ino, blocks', n', owner', k, b);
    OthersOk(g, blocks, inodes, owner, ino, blocks', inodes[ino := n'], owner');
  }

  lemma FilesSame(blocks: seq<Data>, inodes: seq<Inode>, ino: nat, blocks': seq<Data>, n': Inode)
    requires ino < |inodes| && OthersSame(blocks, inodes, blocks', ino)
    requires n'.size == inodes[ino].size && SameBytes(blocks, inodes[ino], blocks', n')
    ensures SameFiles(blocks, inodes, blocks', inodes[ino := n'])
  {
  }

  /** Every file has its size and its bytes. */
  ghost predicate SameFiles(blocks: seq<Data>, inodes: seq<Inode>, blocks': seq<Data>, inodes': seq<Inode>) {
    && |inodes'| == |inodes|
    && forall i: nat :: i < |inodes| ==>
         inodes'[i].size == inodes[i].size && SameBytes(blocks, inodes[i], blocks', inodes'[i])
  }

  lemma AllocGrown(g: Geometry, blocks: seq<Data>, owner: seq<Owner>, ino: nat, b: nat, o: Owner)
    requires BitmapOk(g, blocks, owner) && b < g.nblocks && owner[b] == Unused
    ensures Grown(g, blocks, owner, ino, Alloc(g, blocks, b), owner[b := o], b, o)
  {
    var blocks' := Alloc(g, blocks, b);
    forall x: nat | x < |blocks| && owner[x] != Meta ensures blocks'[x] == if x == b then Zeros() else blocks[x] {
      AllocOther(g, blocks, owner, b, x);
    }
  }

  lemma DirectGained(blocks: seq<Data>, n: Inode, blocks': seq<Data>, k: nat, b: nat)
    requires AddrsOk(n) && k < NDIRECT && n.addrs[k] == 0 && |blocks'| == |blocks|
    requires 0 < n.addrs[NDIRECT] < |blocks| ==> blocks'[n.addrs[NDIRECT]] == blocks[n.addrs[NDIRECT]]
    ensures Gained(blocks, n, blocks', n.(addrs := n.addrs[k := b]), k, b)
  {
  }

  lemma LinkDirect(g: Geometry, blocks: seq<Data>, inodes: seq<Inode>, owner: seq<Owner>, ino: nat, k: nat, b: nat)
    requires FsOk(g, blocks, inodes, owner) && ino < |inodes| && k < NDIRECT && inodes[ino].addrs[k] == 0
    requires b < g.nblocks && owner[b] == Unused
    ensures var inodes' := inodes[ino := inodes[ino].(addrs := inodes[ino].addrs[k := b])];
            && FsOk(g, Alloc(g, blocks, b), inodes', owner[b := File(ino, k)])
            && SameFiles(blocks, inodes, Alloc(g, blocks, b), inodes')
  {
    var n, blocks', owner' := inodes[ino], Alloc(g, blocks, b), owner[b := File(ino, k)];
    var n' := n.(addrs := n.addrs[k := b]);
    AllocBitmap(g, blocks, owner, b, File(ino, k));
    AllocGrown(g, blocks, owner, ino, b, File(ino, k));
    if n.addrs[NDIRECT] != 0 { AllocOther(g, blocks, owner, b, n.addrs[NDIRECT]); }
    DirectGained(blocks, n, blocks', k, b);
    GainedFs(g, blocks, inodes, owner, ino, blocks', n', owner', k, b);
  }

  lemma LinkWord(g: Geometry, blocks: seq<Data>, inodes: seq<Inode>, owner: seq<Owner>, ino: nat, j: nat, b: nat)
    requires FsOk(g, blocks, inodes, owner) && ino < |inodes| && j < NINDIRECT
    requires b < g.nblocks && owner[b] == Unused
    requires inodes[ino].addrs[NDIRECT] != 0 && GetWord(blocks[inodes[ino].addrs[NDIRECT]], j) == 0
    ensures var t := inodes[ino].addrs[NDIRECT];
            var blocks' := Alloc(g, blocks, b)[t := PutWord(blocks[t], j, b)];
            && FsOk(g, blocks', inodes, owner[b := File(ino, NDIRECT + j)])
            && SameFiles(blocks, inodes, blocks', inodes)
            && Gained(blocks, inodes[ino], blocks', inodes[ino], NDIRECT + j, b)
  {
    var n, k, t, owner' := inodes[ino], NDIRECT + j, inodes[ino].addrs[NDIRECT], owner[b := File(ino, NDIRECT + j)];
    var mid := Alloc(g, blocks, b);
    var blocks' := mid[t := PutWord(blocks[t], j, b)];
    AllocBitmap(g, blocks, owner, b, File(ino, k));
    DataKeepsBitmap(g, mid, owner', t, PutWord(blocks[t], j, b));
    AllocGrown(g, blocks, owner, ino, b, File(ino, k));
    forall i: nat | NDIRECT <= i < MAXFILE ensures Entry(blocks', n, i) == if i == k then b else Entry(blocks, n, i) {
      WordRoundTrip(blocks[t], j, b, i - NDIRECT);
    }
    GainedFs(g, blocks, inodes, owner, ino, blocks', n, owner', k, b);
    assert inodes[ino := n] == inodes;
  }

  lemma LinkIndirect(g: Geometry, blocks: seq<Data>, inodes: seq<Inode>, owner: seq<Owner>, ino: nat, b: nat)
    requires FsOk(g, blocks, inodes, owner) && ino < |inodes| && inodes[ino].addrs[NDIRECT] == 0
    requires b < g.nblocks && owner[b] == Unused
    ensures var inodes' := inodes[ino := inodes[ino].(addrs := inodes[ino].addrs[NDIRECT := b])];
            && FsOk(g, Alloc(g, blocks, b), inodes', owner[b := Ind(ino)])
            && SameFiles(blocks, inodes, Alloc(g, blocks, b), inodes')
  {
    var n, blocks', owner' := inodes[ino], Alloc(g, blocks, b), owner[b := Ind(ino)];
    var n' := n.(addrs := n.addrs[NDIRECT := b]);
    AllocBitmap(g, blocks, owner, b, Ind(ino));
    AllocGrown(g, blocks, owner, ino, b, Ind(ino));
    IndirectInode(g, blocks, owner, ino, n, blocks', owner', b);
    GrownKeeps(g, blocks, owner, ino, blocks', owner', b, Ind(ino));
    IndirectOwned(g, blocks, inodes, owner, ino, blocks', owner', b);
    OthersOk(g, blocks, inodes, owner, ino, blocks', inodes[ino := n'], owner');
  }

  /** A fresh indirect block names no blocks. */
  lemma EmptyIndirect(blocks: seq<Data>, n: Inode, blocks': seq<Data>, b: nat, k: nat)
    requires AddrsOk(n) && n.addrs[NDIRECT] == 0 && b < |blocks'| && blocks'[b] == Zeros() && k < MAXFILE
    ensures Entry(blocks', n.(addrs := n.addrs[NDIRECT := b]), k) == Entry(blocks, n, k)
  {
  }

  lemma IndirectOwned(g: Geometry, blocks: seq<Data>, inodes: seq<Inode>, owner: seq<Owner>, ino: nat,
                      blocks': seq<Data>, owner': seq<Owner>, b: nat)
    requires |owner| == |blocks| && ino < |inodes| && AddrsOk(inodes[ino]) && inodes[ino].addrs[NDIRECT] == 0
    requires Grown(g, blocks, owner, ino, blocks', owner', b, Ind(ino))
    requires OwnsAll(blocks, owner, inodes, ino) && !OwnedBy(owner[0], ino)
    ensures OwnsAll(blocks', owner', inodes[ino := inodes[ino].(addrs := inodes[ino].addrs[NDIRECT := b])], ino)
    ensures OwnersMoved(owner, owner', ino)
  {
    var inodes' := inodes[ino := inodes[ino].(addrs := inodes[ino].addrs[NDIRECT := b])];
    forall x: nat | x < |blocks| && OwnedBy(owner'[x], ino) ensures OwnedOk(blocks', owner', inodes', x) {
      assert x != b ==> OwnedOk(blocks, owner, inodes, x);
      if x != b { EmptyIndirect(blocks, inodes[ino], blocks', b, owner[x].k); }
    }
  }

  lemma IndirectInode(g: Geometry, blocks: seq<Data>, owner: seq<Owner>, ino: nat, n: Inode, blocks': seq<Data>,
                      owner': seq<Owner>, b: nat)
    requires |owner| == |blocks| && InodeOk(blocks, owner, ino, n) && n.addrs[NDIRECT] == 0
    requires Grown(g, blocks, owner, ino, blocks', owner', b, Ind(ino))
    ensures var n' := n.(addrs := n.addrs[NDIRECT := b]);
            InodeOk(blocks', owner', ino, n') && SameBytes(blocks, n, blocks', n')
  {
    var n' := n.(addrs := n.addrs[NDIRECT := b]);
    forall k: nat | k < MAXFILE ensures EntryOk(blocks', owner', ino, n', k) {
      EmptyIndirect(blocks, n, blocks', b, k);
      assert EntryOk(blocks, owner, ino, n, k);
    }
    forall p: nat | p < MAXFILE * BSIZE ensures ByteAt(blocks', n', p) == ByteAt(blocks, n, p) {
      EmptyIndirect(blocks, n, blocks', b, p / BSIZE);
      assert EntryOk(blocks, owner, ino, n, p / BSIZE);
    }
  }

  // ---------- data written into one block ----------

  /** d with chunk copied over it at position o. */
  function Patch(d: Data, o: nat, chunk: seq<Byte>): (r: Data)
    requires o + |chunk| <= BSIZE
    ensures forall i: nat :: i < BSIZE ==> r[i] == if o <= i < o + |chunk| then chunk[i - o] else d[i]
  {
    d[..o] + chunk + d[o + |chunk|..]
  }

  lemma StoreByte(blocks: seq<Data>, owner: seq<Owner>, ino: nat, n: Inode, k: nat, o: nat, chunk: seq<Byte>, p: nat)
    requires |owner| == |blocks| && InodeOk(blocks, owner, ino, n) && k < MAXFILE && Entry(blocks, n, k) != 0
    requires o + |chunk| <= BSIZE && p < MAXFILE * BSIZE && Entry(blocks, n, k) < |blocks|
    requires n.addrs[NDIRECT] != Entry(blocks, n, k)
    ensures var a := Entry(blocks, n, k);
            ByteAt(blocks[a := Patch(blocks[a], o, chunk)], n, p) ==
            if k * BSIZE + o <= p < k * BSIZE + o + |chunk| then chunk[p - k * BSIZE - o] else ByteAt(blocks, n, p)
  {
    assert p == BSIZE * (p / BSIZE) + p % BSIZE;
    assert EntryOk(blocks, owner, ino, n, k) && EntryOk(blocks, owner, ino, n, p / BSIZE);
  }

  /** Writing into the k-th block of inode ino changes that stretch of that file and nothing else. */
  lemma StoreKeeps(g: Geometry, blocks: seq<Data>, inodes: seq<Inode>, owner: seq<Owner>, ino: nat, k: nat, o: nat,
                   chunk: seq<Byte>)
    requires FsOk(g, blocks, inodes, owner) && ino < |inodes| && k < MAXFILE && Entry(blocks, inodes[ino], k) != 0
    requires o + |chunk| <= BSIZE
    ensures var n := inodes[ino];
            var a := Entry(blocks, n, k);
            && a < |blocks| && n.addrs[NDIRECT] != a
            && FsOk(g, blocks[a := Patch(blocks[a], o, chunk)], inodes, owner)
            && OthersSame(blocks, inodes, blocks[a := Patch(blocks[a], o, chunk)], ino)
  {
    var n := inodes[ino];
    var a := Entry(blocks, n, k);
    assert EntryOk(blocks, owner, ino, n, k);
    var d := Patch(blocks[a], o, chunk);
    DataKeepsBitmap(g, blocks, owner, a, d);
    StoreInode(blocks, owner, ino, n, a, d);
    StoreOthers(blocks, owner, ino, k, a, d);
    StoreOwned(blocks, inodes, owner, ino, k, a, d);
    OthersOk(g, blocks, inodes, owner, ino, blocks[a := d], inodes, owner);
  }

  lemma StoreInode(blocks: seq<Data>, owner: seq<Owner>, ino: nat, n: Inode, a: nat, d: Data)
    requires |owner| == |blocks| && InodeOk(blocks, owner, ino, n) && a < |blocks| && owner[a].File?
    ensures InodeOk(blocks[a := d], owner, ino, n)
  {
    var blocks' := blocks[a := d];
    forall k: nat | k < MAXFILE ensures EntryOk(blocks', owner, ino, n, k) {
      assert EntryOk(blocks, owner, ino, n, k);
    }
  }

  lemma StoreOthers(blocks: seq<Data>, owner: seq<Owner>, ino: nat, k: nat, a: nat, d: Data)
    requires |owner| == |blocks| && a < |blocks| && owner[a] == File(ino, k)
    ensures OthersKept(blocks, owner, blocks[a := d], owner, ino)
  {
  }

  lemma StoreOwned(blocks: seq<Data>, inodes: seq<Inode>, owner: seq<Owner>, ino: nat, k: nat, a: nat, d: Data)
    requires |owner| == |blocks| && ino < |inodes| && InodeOk(blocks, owner, ino, inodes[ino])
    requires a < |blocks| && owner[a] == File(ino, k) && OwnsAll(blocks, owner, inodes, ino)
    ensures OwnsAll(blocks[a := d], owner, inodes, ino)
  {
  }

  /** The size may grow over blocks that exist. */
  lemma ResizeKeeps(g: Geometry, blocks: seq<Data>, inodes: seq<Inode>, owner: seq<Owner>, ino: nat, size: nat)
    requires FsOk(g, blocks, inodes, owner) && ino < |inodes| && size <= MAXFILE * BSIZE
    requires forall k: nat :: k < MAXFILE && k * BSIZE < size ==> Entry(blocks, inodes[ino], k) != 0
    ensures FsOk(g, blocks, inodes[ino := inodes[ino].(size := size)], owner)
  {
    var n, n' := inodes[ino], inodes[ino].(size := size);
    forall k: nat | k < MAXFILE
      ensures EntryOk(blocks, owner, ino, n', k) && Entry(blocks, n', k) == Entry(blocks, n, k)
    {
      assert EntryOk(blocks, owner, ino, n, k);
    }
    forall x: nat | x < g.nblocks && OwnedBy(owner[x], ino) ensures OwnedOk(blocks, owner, inodes[ino := n'], x) {
      assert OwnedOk(blocks, owner, inodes, x);
    }
    OthersOk(g, blocks, inodes, owner, ino, blocks, inodes[ino := n'], owner);
  }

  // ---------- blocks given back ----------

  /** The state after inode ino gave block b back. */
  ghost predicate Shrunk(blocks: seq<Data>, owner: seq<Owner>, ino: nat, blocks': seq<Data>, owner': seq<Owner>,
                         b: nat)
  {
    && |blocks'| == |blocks| == |owner| == |owner'| && b < |blocks| && OwnedBy(owner[b], ino)
       && owner' == owner[b := Unused]
    && (forall x: nat :: x < |blocks| && owner[x] != Meta && owner[x] != Ind(ino) ==> blocks'[x] == blocks[x])
  }

  /** Entry k becomes 0, and nothing else in the block table changes. */
  ghost predicate Lost(blocks: seq<Data>, n: Inode, blocks': seq<Data>, n': Inode, k: nat) {
    && AddrsOk(n) && AddrsOk(n') && k < MAXFILE && n'.size == 0 && n'.addrs[NDIRECT] == n.addrs[NDIRECT]
    && Entry(blocks', n', k) == 0
    && (forall i: nat :: i < MAXFILE && i != k ==> Entry(blocks', n', i) == Entry(blocks, n, i))
  }

  lemma ShrunkKeeps(blocks: seq<Data>, owner: seq<Owner>, ino: nat, blocks': seq<Data>, owner': seq<Owner>, b: nat)
    requires Shrunk(blocks, owner, ino, blocks', owner', b)
    ensures OthersKept(blocks, owner, blocks', owner', ino)
  {
  }

  lemma LostInode(blocks: seq<Data>, owner: seq<Owner>, ino: nat, n: Inode, blocks': seq<Data>, n': Inode,
                  owner': seq<Owner>, k: nat, b: nat)
    requires |owner| == |blocks| && InodeOk(blocks, owner, ino, n) && Lost(blocks, n, blocks', n', k)
    requires Shrunk(blocks, owner, ino, blocks', owner', b) && owner[b] == File(ino, k)
    ensures InodeOk(blocks', owner', ino, n')
  {
    forall i: nat | i < MAXFILE ensures EntryOk(blocks', owner', ino, n', i) {
      assert EntryOk(blocks, owner, ino, n, i);
    }
  }

  lemma LostOwned(blocks: seq<Data>, inodes: seq<Inode>, owner: seq<Owner>, ino: nat,
                  blocks': seq<Data>, n': Inode, owner': seq<Owner>, k: nat, b: nat)
    requires |owner| == |blocks| && ino < |inodes| && Lost(blocks, inodes[ino], blocks', n', k)
    requires Shrunk(blocks, owner, ino, blocks', owner', b) && Entry(blocks, inodes[ino], k) == b
    requires OwnsAll(blocks, owner, inodes, ino)
    ensures OwnsAll(blocks', owner', inodes[ino := n'], ino) && OwnersMoved(owner, owner', ino)
  {
  }

  lemma LostFs(g: Geometry, blocks: seq<Data>, inodes: seq<Inode>, owner: seq<Owner>, ino: nat,
               blocks': seq<Data>, n': Inode, owner': seq<Owner>, k: nat, b: nat)
    requires FsOk(g, blocks, inodes, owner) && ino < |inodes| && Lost(blocks, inodes[ino], blocks', n', k)
    requires Shrunk(blocks, owner, ino, blocks', owner', b) && Entry(blocks, inodes[ino], k) == b
             && owner[b] == File(ino, k)
    requires BitmapOk(g, blocks', owner')
    ensures FsOk(g, blocks', inodes[ino := n'], owner')
    ensures OthersSame(blocks, inodes, blocks', ino)
  {
    LostInode(blocks, owner, ino, inodes[ino], blocks', n', owner', k, b);
    ShrunkKeeps(blocks, owner, ino, blocks', owner', b);
    LostOwned(blocks, inodes, owner, ino, blocks', n', owner', k, b);
    OthersOk(g, blocks, inodes, owner, ino, blocks', inodes[ino := n'], owner');
  }

  lemma MarkOther(g: Geometry, blocks: seq<Data>, owner: seq<Owner>, b: nat, v: bool, x: nat)
    requires BitmapOk(g, blocks, owner) && b < g.nblocks && x < g.nblocks && owner[x] != Meta
    ensures Mark(g, blocks, b, v)[x] == blocks[x]
  {
    assert g.bmapstart + b / BPB < g.nmeta;
  }

  lemma FreeShrunk(g: Geometry, blocks: seq<Data>, owner: seq<Owner>, ino: nat, b: nat)
    requires BitmapOk(g, blocks, owner) && b < g.nblocks && OwnedBy(owner[b], ino)
    ensures Shrunk(blocks, owner, ino, Mark(g, blocks, b, false), owner[b := Unused], b)
  {
    var blocks' := Mark(g, blocks, b, false);
    forall x: nat | x < |blocks| && owner[x] != Meta ensures blocks'[x] == blocks[x] {
      MarkOther(g, blocks, owner, b, false, x);
    }
  }

  lemma DirectLost(blocks: seq<Data>, n: Inode, blocks': seq<Data>, k: nat)
    requires AddrsOk(n) && k < NDIRECT && n.size == 0 && |blocks'| == |blocks|
    requires 0 < n.addrs[NDIRECT] < |blocks| ==> blocks'[n.addrs[NDIRECT]] == blocks[n.addrs[NDIRECT]]
    ensures Lost(blocks, n, blocks', n.(addrs := n.addrs[k := 0]), k)
  {
  }

  lemma UnlinkDirect(g: Geometry, blocks: seq<Data>, inodes: seq<Inode>, owner: seq<Owner>, ino: nat, k: nat)
    requires FsOk(g, blocks, inodes, owner) && ino < |inodes| && k < NDIRECT && inodes[ino].addrs[k] != 0
    requires inodes[ino].size == 0
    ensures var a := inodes[ino].addrs[k];
            && g.nmeta <= a < g.nblocks && owner[a] == File(ino, k)
            && FsOk(g, Mark(g, blocks, a, false), inodes[ino := inodes[ino].(addrs := inodes[ino].addrs[k := 0])],
               owner[a := Unused])
            && OthersSame(blocks, inodes, Mark(g, blocks, a, false), ino)
  {
    var n := inodes[ino];
    var a := n.addrs[k];
    assert EntryOk(blocks, owner, ino, n, k);
    var n', blocks', owner' := n.(addrs := n.addrs[k := 0]), Mark(g, blocks, a, false), owner[a := Unused];
    MarkKeepsBitmap(g, blocks, owner, a, Unused);
    FreeShrunk(g, blocks, owner, ino, a);
    if n.addrs[NDIRECT] != 0 { MarkOther(g, blocks, owner, a, false, n.addrs[NDIRECT]); }
    DirectLost(blocks, n, blocks', k);
    LostFs(g, blocks, inodes, owner, ino, blocks', n', owner', k, a);
  }

  lemma WordLost(blocks: seq<Data>, n: Inode, blocks': seq<Data>, j: nat)
    requires AddrsOk(n) && j < NINDIRECT && n.size == 0 && |blocks'| == |blocks| && 0 < n.addrs[NDIRECT] < |blocks|
    requires blocks'[n.addrs[NDIRECT]] == PutWord(blocks[n.addrs[NDIRECT]], j, 0)
    ensures Lost(blocks, n, blocks', n, NDIRECT + j)
  {
    forall i: nat | NDIRECT <= i < MAXFILE
      ensures Entry(blocks', n, i) == if i == NDIRECT + j then 0 else Entry(blocks, n, i)
    {
      WordRoundTrip(blocks[n.addrs[NDIRECT]], j, 0, i - NDIRECT);
    }
  }

  /** Clearing word j of the indirect block together with its bitmap bit. */
  lemma UnlinkWord(g: Geometry, blocks: seq<Data>, inodes: seq<Inode>, owner: seq<Owner>, ino: nat, j: nat)
    requires FsOk(g, blocks, inodes, owner) && ino < |inodes| && j < NINDIRECT && inodes[ino].size == 0
    requires inodes[ino].addrs[NDIRECT] != 0 && GetWord(blocks[inodes[ino].addrs[NDIRECT]], j) != 0
    ensures var t := inodes[ino].addrs[NDIRECT];
            var a := GetWord(blocks[t], j);
            && g.nmeta <= a < g.nblocks && owner[a] == File(ino, NDIRECT + j)
            && FsOk(g, Mark(g, blocks, a, false)[t := PutWord(blocks[t], j, 0)], inodes, owner[a := Unused])
            && OthersSame(blocks, inodes, Mark(g, blocks, a, false)[t := PutWord(blocks[t], j, 0)], ino)
  {
    var n, k, t := inodes[ino], NDIRECT + j, inodes[ino].addrs[NDIRECT];
    var a := GetWord(blocks[t], j);
    assert EntryOk(blocks, owner, ino, n, k);
    var mid, owner' := Mark(g, blocks, a, false), owner[a := Unused];
    var blocks' := mid[t := PutWord(blocks[t], j, 0)];
    MarkKeepsBitmap(g, blocks, owner, a, Unused);
    DataKeepsBitmap(g, mid, owner', t, PutWord(blocks[t], j, 0));
    FreeShrunk(g, blocks, owner, ino, a);
    WordLost(blocks, n, blocks', j);
    LostFs(g, blocks, inodes, owner, ino, blocks', n, owner', k, a);
    assert inodes[ino := n] == inodes;
  }

  /** Giving back an indirect block that names nothing. */
  lemma UnlinkIndirect(g: Geometry, blocks: seq<Data>, inodes: seq<Inode>, owner: seq<Owner>, ino: nat)
    requires FsOk(g, blocks, inodes, owner) && ino < |inodes| && inodes[ino].size == 0
             && inodes[ino].addrs[NDIRECT] != 0
    requires forall k: nat :: k < MAXFILE ==> Entry(blocks, inodes[ino], k) == 0
    ensures var t := inodes[ino].addrs[NDIRECT];
            && g.nmeta <= t < g.nblocks && owner[t] == Ind(ino)
            && FsOk(g, Mark(g, blocks, t, false),
               inodes[ino := inodes[ino].(addrs := inodes[ino].addrs[NDIRECT := 0])], owner[t := Unused])
            && OthersSame(blocks, inodes, Mark(g, blocks, t, false), ino)
  {
    var n, t := inodes[ino], inodes[ino].addrs[NDIRECT];
    var n', blocks', owner' := n.(addrs := n.addrs[NDIRECT := 0]), Mark(g, blocks, t, false), owner[t := Unused];
    MarkKeepsBitmap(g, blocks, owner, t, Unused);
    FreeShrunk(g, blocks, owner, ino, t);
    ShrunkKeeps(blocks, owner, ino, blocks', owner', t);
    NothingLeft(blocks, n, blocks', owner', ino);
    NothingOwned(blocks, inodes, owner, ino, t, blocks', owner');
    OthersOk(g, blocks, inodes, owner, ino, blocks', inodes[ino := n'], owner');
  }

  lemma NothingLeft(blocks: seq<Data>, n: Inode, blocks': seq<Data>, owner': seq<Owner>, ino: nat)
    requires AddrsOk(n) && n.size == 0 && |owner'| == |blocks'|
    requires forall k: nat :: k < MAXFILE ==> Entry(blocks, n, k) == 0
    ensures InodeOk(blocks', owner', ino, n.(addrs := n.addrs[NDIRECT := 0]))
  {
    forall k: nat | k < NDIRECT ensures n.addrs[k] == 0 { assert Entry(blocks, n, k) == 0; }
  }

  /** When all entries are 0 the inode owns at most its indirect block. */
  lemma NothingOwned(blocks: seq<Data>, inodes: seq<Inode>, owner: seq<Owner>, ino: nat, t: nat,
                     blocks': seq<Data>, owner': seq<Owner>)
    requires |owner| == |blocks| && ino < |inodes| && AddrsOk(inodes[ino]) && inodes[ino].addrs[NDIRECT] == t
    requires forall k: nat :: k < MAXFILE ==> Entry(blocks, inodes[ino], k) == 0
    requires OwnsAll(blocks, owner, inodes, ino) && Shrunk(blocks, owner, ino, blocks', owner', t)
             && !OwnedBy(owner[0], ino)
    ensures OwnsAll(blocks', owner', inodes[ino := inodes[ino].(addrs := inodes[ino].addrs[NDIRECT := 0])], ino)
    ensures OwnersMoved(owner, owner', ino)
  {
  }

  // ---------- what ownership means without the ghost map ----------

  ghost predicate Names(blocks: seq<Data>, n: Inode, b: nat) {
    AddrsOk(n) && (n.addrs[NDIRECT] == b || exists k: nat :: k < MAXFILE && Entry(blocks, n, k) == b)
  }

  /** The bitmap marks exactly the metadata blocks and the blocks some inode names. */
  lemma UsedExactly(g: Geometry, blocks: seq<Data>, inodes: seq<Inode>, owner: seq<Owner>, b: nat)
    requires FsOk(g, blocks, inodes, owner) && b < g.nblocks
    ensures InUse(g, blocks, b) <==> b < g.nmeta || exists i: nat :: i < |inodes| && Names(blocks, inodes[i], b)
  {
    assert OwnedOk(blocks, owner, inodes, b);
    if owner[b].Ind? || owner[b].File? {
      assert Names(blocks, inodes[owner[b].ino], b);
    }
    forall i: nat | i < |inodes| && Names(blocks, inodes[i], b) && b >= g.nmeta ensures owner[b] != Unused {
      if inodes[i].addrs[NDIRECT] != b {
        var k: nat :| k < MAXFILE && Entry(blocks, inodes[i], k) == b;
        assert EntryOk(blocks, owner, i, inodes[i], k);
      }
    }
  }

  /** No block is named twice, by one inode or by two, as a data block or as an indirect block. */
  lemma NamedOnce(g: Geometry, blocks: seq<Data>, inodes: seq<Inode>, owner: seq<Owner>, i: nat, k: nat, i': nat,
                  k': nat)
    requires FsOk(g, blocks, inodes, owner) && i < |inodes| && i' < |inodes| && k < MAXFILE && k' < MAXFILE
    ensures Entry(blocks, inodes[i], k) != 0 ==>
              && (Entry(blocks, inodes[i], k) == Entry(blocks, inodes[i'], k') ==> i == i' && k == k')
              && Entry(blocks, inodes[i], k) != inodes[i'].addrs[NDIRECT]
              && g.nmeta <= Entry(blocks, inodes[i], k) < g.nblocks
    ensures inodes[i].addrs[NDIRECT] != 0 ==>
              && (inodes[i].addrs[NDIRECT] == inodes[i'].addrs[NDIRECT] ==> i == i')
              && g.nmeta <= inodes[i].addrs[NDIRECT] < g.nblocks
  {
    if inodes[i].addrs[NDIRECT] != 0 { IndirectOnce(g, blocks, inodes, owner, i, i'); }
    assert EntryOk(blocks, owner, i, inodes[i], k) && EntryOk(blocks, owner, i', inodes[i'], k');
  }

  /** No two inodes share an indirect block, even one without entries. */
  lemma IndirectOnce(g: Geometry, blocks: seq<Data>, inodes: seq<Inode>, owner: seq<Owner>, i: nat, i': nat)
    requires FsOk(g, blocks, inodes, owner) && i < |inodes| && i' < |inodes| && inodes[i].addrs[NDIRECT] != 0
    ensures inodes[i].addrs[NDIRECT] == inodes[i'].addrs[NDIRECT] ==> i == i'
    ensures g.nmeta <= inodes[i].addrs[NDIRECT] < g.nblocks
  {
    assert InodeOk(blocks, owner, i, inodes[i]) && InodeOk(blocks, owner, i', inodes[i']);
  }

  lemma Position(b: nat, bi: nat)
    requires b % BPB == 0 && bi < BPB
    ensures (b + bi) / BPB == b / BPB && (b + bi) % BPB == bi && (b + bi) % 8 == bi % 8
  {
    var q := b / BPB;
    assert b == BPB * q;
    assert (b + bi) / BPB == q && (b + bi) % BPB == bi;
    BitPosition(b + bi);
  }

  /** Bit bi of the bitmap block for b.. is the bit of block b + bi. */
  lemma BitAt(g: Geometry, blocks: seq<Data>, b: nat, bi: nat, v: bool)
    requires BlocksOk(g, blocks) && b % BPB == 0 && bi < BPB && b + bi < g.nblocks
    ensures var m := g.bmapstart + b / BPB;
            && m < |blocks|
            && InUse(g, blocks, b + bi) == Bit(blocks[m][bi / 8], bi % 8)
            && Mark(g, blocks, b + bi, v) == blocks[m := blocks[m][bi / 8 := PutByteBit(blocks[m][bi / 8], bi % 8, v)]]
  {
    Position(b, bi);
  }

  // ---------- reading and writing across blocks ----------

  function Min(a: int, b: int): int {
    if a < b then a else b
  }

  lemma ChunkBytes(blocks: seq<Data>, n: Inode, at: nat, m: nat)
    requires AddrsOk(n) && n.size <= MAXFILE * BSIZE && at + m <= n.size && 0 < m <= BSIZE - at % BSIZE
    requires 0 < Entry(blocks, n, at / BSIZE) < |blocks|
    ensures blocks[Entry(blocks, n, at / BSIZE)][at % BSIZE..at % BSIZE + m] == Content(blocks, n)[at..at + m]
  {
    var c := Content(blocks, n)[at..at + m];
    forall i: nat | i < m ensures c[i] == blocks[Entry(blocks, n, at / BSIZE)][at % BSIZE + i] {
      SameBlock(at, i);
    }
  }

  /** dst is what c holds at off. */
  predicate SliceAt(c: seq<Byte>, off: nat, dst: seq<Byte>) {
    off + |dst| <= |c| && dst == c[off..off + |dst|]
  }

  lemma SliceMore(c: seq<Byte>, off: nat, dst: seq<Byte>, chunk: seq<Byte>, k: nat)
    requires SliceAt(c, off, dst) && SliceAt(c, off + |dst|, chunk) && k <= |chunk|
    ensures SliceAt(c, off, dst + chunk[..k])
  {
  }

  lemma SameBlock(at: nat, i: nat)
    requires i < BSIZE - at % BSIZE
    ensures (at + i) / BSIZE == at / BSIZE && (at + i) % BSIZE == at % BSIZE + i
  {
    var q, r := at / BSIZE, at % BSIZE;
    assert at + i == BSIZE * q + (r + i);
  }

  /** The file has a block for every position below off. */
  ghost predicate Mapped(blocks: seq<Data>, n: Inode, off: nat) {
    AddrsOk(n) && forall k: nat :: k < MAXFILE && k * BSIZE < off ==> Entry(blocks, n, k) != 0
  }

  lemma MappedMore(blocks: seq<Data>, n: Inode, off: nat, m: nat)
    requires Mapped(blocks, n, off) && off < MAXFILE * BSIZE && m <= BSIZE - off % BSIZE
             && Entry(blocks, n, off / BSIZE) != 0
    ensures Mapped(blocks, n, off + m)
  {
    var q := off / BSIZE;
    assert off + m <= (q + 1) * BSIZE;
    forall k: nat | k < MAXFILE && k * BSIZE < off + m ensures Entry(blocks, n, k) != 0 {
      assert k < q + 1;
    }
  }

  /** src stands at off, and the other bytes are as they were. */
  ghost predicate Written(blocks: seq<Data>, n: Inode, blocks': seq<Data>, n': Inode, off: nat, src: seq<Byte>) {
    && AddrsOk(n) && AddrsOk(n')
    && forall p: nat :: p < MAXFILE * BSIZE ==>
         ByteAt(blocks', n', p) == if off <= p < off + |src| then src[p - off] else ByteAt(blocks, n, p)
  }

  lemma StoreBytes(g: Geometry, blocks: seq<Data>, inodes: seq<Inode>, owner: seq<Owner>, ino: nat, k: nat, o: nat,
                   chunk: seq<Byte>)
    requires FsOk(g, blocks, inodes, owner) && ino < |inodes| && k < MAXFILE
             && 0 < Entry(blocks, inodes[ino], k) < |blocks|
    requires o + |chunk| <= BSIZE && inodes[ino].addrs[NDIRECT] != Entry(blocks, inodes[ino], k)
    ensures var n := inodes[ino];
            var a := Entry(blocks, n, k);
            && Written(blocks, n, blocks[a := Patch(blocks[a], o, chunk)], n, k * BSIZE + o, chunk)
            && forall i: nat :: i < MAXFILE ==>
                 Entry(blocks[a := Patch(blocks[a], o, chunk)], n, i) == Entry(blocks, n, i)
  {
    var n := inodes[ino];
    var a := Entry(blocks, n, k);
    var blocks' := blocks[a := Patch(blocks[a], o, chunk)];
    forall p: nat | p < MAXFILE * BSIZE
      ensures ByteAt(blocks', n, p) ==
              if k * BSIZE + o <= p < k * BSIZE + o + |chunk| then chunk[p - (k * BSIZE + o)] else ByteAt(blocks, n, p)
    {
      StoreByte(blocks, owner, ino, n, k, o, chunk, p);
    }
  }

  /** uint addition, which wraps. */
  function Add32(a: nat, b: nat): nat
    requires a < UINT && b < UINT
  {
    if a + b < UINT then a + b else a + b - UINT
  }

  /** writei's argument checks, with 32-bit off and n. */
  predicate Refuses(n: Inode, off: nat, len: nat) {
    off > n.size || off + len >= UINT || off + len > MAXFILE * BSIZE
  }

  function Overwritten(old_: seq<Byte>, off: nat, src: seq<Byte>): seq<Byte>
    requires off <= |old_|
  {
    old_[..off] + src + (if off + |src| < |old_| then old_[off + |src|..] else [])
  }

  lemma MappedToSize(blocks: seq<Data>, owner: seq<Owner>, ino: nat, n: Inode, off: nat)
    requires |owner| == |blocks| && InodeOk(blocks, owner, ino, n) && off <= n.size
    ensures Mapped(blocks, n, off)
  {
    forall k: nat | k < MAXFILE && k * BSIZE < off ensures Entry(blocks, n, k) != 0 {
      assert EntryOk(blocks, owner, ino, n, k);
    }
  }

  lemma OthersTrans(b0: seq<Data>, i0: seq<Inode>, b1: seq<Data>, i1: seq<Inode>, b2: seq<Data>, ino: nat)
    requires OthersSame(b0, i0, b1, ino) && OthersSame(b1, i1, b2, ino) && |i1| == |i0|
    requires forall i: nat :: i < |i0| && i != ino ==> i1[i] == i0[i]
    ensures OthersSame(b0, i0, b2, ino)
  {
    forall i: nat | i < |i0| && i != ino ensures SameBytes(b0, i0[i], b2, i0[i]) {
      assert SameBytes(b0, i0[i], b1, i0[i]) && SameBytes(b1, i1[i], b2, i1[i]);
    }
  }

  lemma WrittenMore(b0: seq<Data>, n0: Inode, b1: seq<Data>, n1: Inode, b2: seq<Data>, n2: Inode,
                    off: nat, src: seq<Byte>, tot: nat, m: nat)
    requires tot + m <= |src| && Written(b0, n0, b1, n1, off, src[..tot])
    requires Written(b1, n1, b2, n2, off + tot, src[tot..tot + m])
    ensures Written(b0, n0, b2, n2, off, src[..tot + m])
  {
  }

  /** What the bytes amount to with a size that covers the old ones and perhaps some of the new. */
  lemma WrittenContent(b0: seq<Data>, n0: Inode, b1: seq<Data>, n1: Inode, off: nat, src: seq<Byte>, size: nat)
    requires Written(b0, n0, b1, n1, off, src) && off <= n0.size <= MAXFILE * BSIZE && off + |src| <= MAXFILE * BSIZE
    requires n0.size <= size && (size <= n0.size || size <= off + |src|)
    ensures Content(b1, n1.(size := size)) == Overwritten(Content(b0, n0), off, src)[..size]
  {
    var c, o := Content(b1, n1.(size := size)), Overwritten(Content(b0, n0), off, src);
    assert |c| == size <= |o|;
    forall p: nat | p < |c| ensures c[p] == o[p] {
      assert c[p] == ByteAt(b1, n1, p);
    }
  }

  lemma OthersContent(g: Geometry, blocks: seq<Data>, inodes: seq<Inode>, owner: seq<Owner>, blocks': seq<Data>,
                      ino: nat)
    requires FsOk(g, blocks, inodes, owner) && OthersSame(blocks, inodes, blocks', ino)
    ensures forall i: nat :: i < |inodes| && i != ino ==> Content(blocks', inodes[i]) == Content(blocks, inodes[i])
  {
    forall i: nat | i < |inodes| && i != ino ensures Content(blocks', inodes[i]) == Content(blocks, inodes[i]) {
      SameContent(blocks, inodes[i], blocks', inodes[i]);
    }
  }

  // ---------- truncation ----------

  /** The inode table with inode ino read as empty: itrunc clears the size last. */
  function Emptied(inodes: seq<Inode>, ino: nat): seq<Inode>
    requires ino < |inodes|
  {
    inodes[ino := inodes[ino].(size := 0)]
  }

  /** Only blocks of inode ino were given back. */
  ghost predicate GaveBack(owner: seq<Owner>, owner': seq<Owner>, ino: nat) {
    && |owner'| == |owner|
    && forall b: nat :: b < |owner| ==> owner'[b] == owner[b] || (owner'[b] == Unused && OwnedBy(owner[b], ino))
  }

  /** What an unused block holds does not matter. */
  lemma UnusedContents(g: Geometry, blocks: seq<Data>, inodes: seq<Inode>, owner: seq<Owner>, ino: nat, t: nat, d: Data)
    requires FsOk(g, blocks, inodes, owner) && ino < |inodes| && t < g.nblocks && owner[t] == Unused
    ensures FsOk(g, blocks[t := d], inodes, owner) && OthersSame(blocks, inodes, blocks[t := d], ino)
  {
    DataKeepsBitmap(g, blocks, owner, t, d);
    UnusedKept(blocks, owner, ino, t, d);
    UnusedOwned(blocks, inodes, owner, ino, t, d);
    OthersOk(g, blocks, inodes, owner, ino, blocks[t := d], inodes, owner);
  }

  lemma UnusedKept(blocks: seq<Data>, owner: seq<Owner>, ino: nat, t: nat, d: Data)
    requires |owner| == |blocks| && t < |blocks| && owner[t] == Unused
    ensures Kept(blocks, owner, blocks[t := d], owner, ino)
    ensures OthersKept(blocks, owner, blocks[t := d], owner, ino) && OwnersMoved(owner, owner, ino)
  {
  }

  lemma UnusedOwned(blocks: seq<Data>, inodes: seq<Inode>, owner: seq<Owner>, ino: nat, t: nat, d: Data)
    requires |owner| == |blocks| && ino < |inodes| && InodeOk(blocks, owner, ino, inodes[ino])
    requires t < |blocks| && owner[t] == Unused && OwnsAll(blocks, owner, inodes, ino)
    ensures OwnsAll(blocks[t := d], owner, inodes, ino) && InodeOk(blocks[t := d], owner, ino, inodes[ino])
  {
    KeptInode(blocks, owner, blocks[t := d], owner, ino, inodes[ino]);
  }

  /** A truncated inode owns nothing. */
  lemma AllGivenBack(g: Geometry, blocks: seq<Data>, inodes: seq<Inode>, owner0: seq<Owner>, owner: seq<Owner>,
                     ino: nat)
    requires FsOk(g, blocks, inodes, owner) && ino < |inodes| && GaveBack(owner0, owner, ino)
    requires forall i: nat :: i <= NDIRECT ==> inodes[ino].addrs[i] == 0
    ensures forall b: nat :: b < g.nblocks ==> owner[b] == if OwnedBy(owner0[b], ino) then Unused else owner0[b]
  {
    forall b: nat | b < g.nblocks ensures !OwnedBy(owner[b], ino) {
      assert OwnedOk(blocks, owner, inodes, b);
    }
  }

  lemma OthersEmptied(blocks: seq<Data>, inodes: seq<Inode>, blocks': seq<Data>, ino: nat)
    requires ino < |inodes| && OthersSame(blocks, Emptied(inodes, ino), blocks', ino)
    ensures OthersSame(blocks, inodes, blocks', ino)
  {
    forall i: nat | i < |inodes| && i != ino ensures SameBytes(blocks, inodes[i], blocks', inodes[i]) {
      assert Emptied(inodes, ino)[i] == inodes[i];
    }
  }

  lemma OthersRefl(g: Geometry, blocks: seq<Data>, inodes: seq<Inode>, owner: seq<Owner>, ino: nat)
    requires FsOk(g, blocks, inodes, owner)
    ensures OthersSame(blocks, inodes, blocks, ino)
  {
  }

  /** The bitmap can be marked with or without looking at a block that is not metadata. */
  lemma MarkView(g: Geometry, blocks: seq<Data>, owner: seq<Owner>, t: nat, v: Data, b: nat, set_: bool, d: Data)
    requires BlocksOk(g, blocks) && t < g.nblocks && BitmapOk(g, blocks[t := v], owner) && owner[t] != Meta
             && b < g.nblocks
    ensures Mark(g, blocks[t := v], b, set_)[t := d] == Mark(g, blocks, b, set_)[t := d]
    ensures Mark(g, blocks, b, set_)[t] == blocks[t]
    ensures InUse(g, blocks, b) == InUse(g, blocks[t := v], b)
  {
    assert g.bmapstart + b / BPB < g.nmeta <= t;
  }

  lemma FreeWordView(g: Geometry, blocks: seq<Data>, inodes: seq<Inode>, owner: seq<Owner>, ino: nat, t: nat, v: Data,
                     j: nat)
    requires BlocksOk(g, blocks) && t < g.nblocks && FsOk(g, blocks[t := v], inodes, owner) && ino < |inodes|
    requires inodes[ino].size == 0 && inodes[ino].addrs[NDIRECT] == t != 0 && j < NINDIRECT && GetWord(v, j) != 0
    ensures var a := GetWord(v, j);
            && a < g.nblocks && InUse(g, blocks, a) && Mark(g, blocks, a, false)[t] == blocks[t]
            && OwnedBy(owner[a], ino)
            && FsOk(g, Mark(g, blocks, a, false)[t := PutWord(v, j, 0)], inodes, owner[a := Unused])
            && OthersSame(blocks[t := v], inodes, Mark(g, blocks, a, false)[t := PutWord(v, j, 0)], ino)
  {
    UnlinkWord(g, blocks[t := v], inodes, owner, ino, j);
    MarkView(g, blocks, owner, t, v, GetWord(v, j), false, PutWord(v, j, 0));
  }

  lemma EmptyView(g: Geometry, blocks: seq<Data>, inodes: seq<Inode>, owner: seq<Owner>, ino: nat, t: nat, v: Data)
    requires BlocksOk(g, blocks) && t < g.nblocks && FsOk(g, blocks[t := v], inodes, owner) && ino < |inodes|
    requires inodes[ino].size == 0 && inodes[ino].addrs[NDIRECT] == t != 0
    requires forall x: nat :: x < NDIRECT ==> inodes[ino].addrs[x] == 0
    requires forall i: nat :: i < NINDIRECT ==> GetWord(v, i) == 0
    ensures InUse(g, blocks, t) && OwnedBy(owner[t], ino)
    ensures FsOk(g, Mark(g, blocks, t, false), inodes[ino := inodes[ino].(addrs := inodes[ino].addrs[NDIRECT := 0])],
            owner[t := Unused])
    ensures OthersSame(blocks[t := v], inodes, Mark(g, blocks, t, false), ino)
  {
    var inodes' := inodes[ino := inodes[ino].(addrs := inodes[ino].addrs[NDIRECT := 0])];
    var mid := Mark(g, blocks[t := v], t, false);
    UnlinkIndirect(g, blocks[t := v], inodes, owner, ino);
    MarkView(g, blocks, owner, t, v, t, false, blocks[t]);
    UnusedContents(g, mid, inodes', owner[t := Unused], ino, t, blocks[t]);
    assert mid[t := blocks[t]] == Mark(g, blocks, t, false);
    OthersChain(blocks[t := v], inodes, mid, inodes', Mark(g, blocks, t, false), ino);
  }

  lemma OthersChain(b0: seq<Data>, i0: seq<Inode>, b1: seq<Data>, i1: seq<Inode>, b2: seq<Data>, ino: nat)
    requires OthersSame(b0, i0, b1, ino) && OthersSame(b1, i1, b2, ino) && ino < |i0| == |i1|
    requires i1 == i0[ino := i1[ino]]
    ensures OthersSame(b0, i0, b2, ino)
  {
    OthersTrans(b0, i0, b1, i1, b2, ino);
  }

  // ---------- the operations ----------

  function Max(a: int, b: int): int {
    if a < b then b else a
  }

  /** writei works block by block: it starts at off, and then at the beginning of each block. */
  predicate ChunkStart(off: nat, tot: nat) {
    tot == 0 || (off + tot) % BSIZE == 0
  }

  /** How far writei got: to the end; or to where the file had no block and the disk was full; or to the
      block in which the copy failed, where the bytes before the failure are stored but not counted. */
  ghost predicate Stopped(full: bool, off: nat, len: nat, avail: nat, tot: nat, stored: nat) {
    || (tot == stored == len <= avail)
    || (tot == stored < len && tot <= avail && ChunkStart(off, tot) && full)
    || (tot <= stored == avail < len && ChunkStart(off, tot) && (off + avail) / BSIZE == (off + tot) / BSIZE)
  }

  // WriteState keeps its parts under a quantifier, so that they are looked at only where Unfold is
  // mentioned.

  predicate Unfold(x: int) { true }

  /** The first tot bytes of src are laid over file ino; its size and the other files are as they were. */
  ghost predicate WriteState(b0: seq<Data>, i0: seq<Inode>, blocks: seq<Data>, inodes: seq<Inode>, ino: nat, off: nat,
                             src: seq<Byte>, tot: nat) {
    && |inodes| == |i0| && ino < |i0| && tot <= |src|
    && forall x: int :: Unfold(x) ==> WriteParts(b0, i0, blocks, inodes, ino, off, src[..tot])
  }

  ghost predicate WriteParts(b0: seq<Data>, i0: seq<Inode>, blocks: seq<Data>, inodes: seq<Inode>, ino: nat, off: nat,
                             src: seq<Byte>)
    requires |inodes| == |i0| && ino < |i0|
  {
    && inodes[ino].size == i0[ino].size
    && (forall i: nat :: i < |i0| && i != ino ==> inodes[i] == i0[i])
    && OthersSame(b0, i0, blocks, ino) && EntriesKept(b0, i0[ino], blocks, inodes[ino])
    && Written(b0, i0[ino], blocks, inodes[ino], off, src)
  }

  lemma NothingWritten(g: Geometry, blocks: seq<Data>, inodes: seq<Inode>, owner: seq<Owner>, ino: nat, off: nat,
                       src: seq<Byte>)
    requires FsOk(g, blocks, inodes, owner) && ino < |inodes|
    ensures WriteState(blocks, inodes, blocks, inodes, ino, off, src, 0)
  {
    OthersRefl(g, blocks, inodes, owner, ino);
  }

  /** What fits in the block at off + tot. */
  function Chunk(off: nat, len: nat, tot: nat): (m: nat)
    requires tot < len
    ensures 0 < m <= BSIZE - (off + tot) % BSIZE && tot + m <= len && (tot + m == len || ChunkStart(off, tot + m))
  {
    NextBlock(off + tot);
    Min(len - tot, BSIZE - (off + tot) % BSIZE)
  }

  lemma NextBlock(at: nat)
    ensures (at + (BSIZE - at % BSIZE)) % BSIZE == 0
  {
    var q, o := at / BSIZE, at % BSIZE;
    assert at + (BSIZE - o) == BSIZE * (q + 1);
  }

  lemma StoppedShort(full: bool, off: nat, len: nat, avail: nat, tot: nat)
    requires tot < len && tot <= avail < tot + Chunk(off, len, tot) && ChunkStart(off, tot)
    ensures Stopped(full, off, len, avail, tot, avail)
  {
    SameBlock(off + tot, avail - tot);
  }

  /** No block that the file had is gone. */
  ghost predicate EntriesKept(b0: seq<Data>, n0: Inode, b1: seq<Data>, n1: Inode) {
    AddrsOk(n0) && AddrsOk(n1) && forall k: nat :: k < MAXFILE && Entry(b0, n0, k) != 0 ==> Entry(b1, n1, k) != 0
  }

  lemma EntriesTrans(b0: seq<Data>, n0: Inode, b1: seq<Data>, n1: Inode, b2: seq<Data>, n2: Inode)
    requires EntriesKept(b0, n0, b1, n1) && EntriesKept(b1, n1, b2, n2)
    ensures EntriesKept(b0, n0, b2, n2)
  {
  }

  /** Below its size a file has all its blocks. */
  lemma Covered(blocks: seq<Data>, owner: seq<Owner>, ino: nat, n: Inode, at: nat)
    requires |owner| == |blocks| && InodeOk(blocks, owner, ino, n) && at < n.size
    ensures at / BSIZE < MAXFILE && Entry(blocks, n, at / BSIZE) != 0
  {
    assert at / BSIZE * BSIZE <= at;
    assert EntryOk(blocks, owner, ino, n, at / BSIZE);
  }

  /** Every block below n is in use. */
  ghost predicate NoneUnused(owner: seq<Owner>, n: nat) {
    forall b: nat :: b < n && b < |owner| ==> owner[b] != Unused
  }

  class FileSystem {
    const g: Geometry
    var blocks: seq<Data>
    var inodes: seq<Inode>
    ghost var owner: seq<Owner>

    ghost predicate Valid()
      reads this
    {
      FsOk(g, blocks, inodes, owner)
    }

    /** An empty file system, as made on a disk whose bitmap marks the metadata blocks alone. */
    constructor (g: Geometry, blocks: seq<Data>, ninodes: nat)
      requires BlocksOk(g, blocks) && forall b: nat :: b < g.nblocks ==> (InUse(g, blocks, b) <==> b < g.nmeta)
      ensures Valid() && this.g == g && this.blocks == blocks
      ensures inodes == seq(ninodes, _ => Inode(seq(NDIRECT + 1, _ => 0), 0))
    {
      this.g := g;
      this.blocks := blocks;
      inodes := seq(ninodes, _ => Inode(seq(NDIRECT + 1, _ => 0), 0));
      owner := seq(g.nblocks, b => if b < g.nmeta then Meta else Unused);
    }

    /** balloc: the lowest unused block, marked and zeroed; 0 when there is none. */
    method Balloc() returns (r: nat)
      requires BitmapOk(g, blocks, owner)
      modifies this`blocks
      ensures r == 0 ==> blocks == old(blocks) && NoneUnused(owner, g.nblocks)
      ensures r != 0 ==>
                r < g.nblocks && owner[r] == Unused && blocks == Alloc(g, old(blocks), r) && NoneUnused(owner, r)
    {
      var b := 0;
      ghost var q := 0;
      while b < g.nblocks
        invariant b == BPB * q && blocks == old(blocks) && NoneUnused(owner, b)
        decreases g.nblocks - b
      {
        r := ScanBitmapBlock(b);
        if r != 0 {
          blocks := blocks[r := Zeros()];
          return;
        }
        b, q := b + BPB, q + 1;
      }
      r := 0;
    }

    /** The inner loop: the first clear bit among those of blocks b, b + 1, ... is found and set. */
    method ScanBitmapBlock(b: nat) returns (r: nat)
      requires BitmapOk(g, blocks, owner) && b % BPB == 0 && b < g.nblocks && NoneUnused(owner, b)
      modifies this`blocks
      ensures r == 0 ==> blocks == old(blocks) && NoneUnused(owner, b + BPB)
      ensures r != 0 ==>
                r < g.nblocks && owner[r] == Unused && blocks == Mark(g, old(blocks), r, true) && NoneUnused(owner, r)
    {
      var bi := 0;
      var m := g.bmapstart + b / BPB;
      while bi < BPB && b + bi < g.nblocks
        invariant bi <= BPB && blocks == old(blocks) && NoneUnused(owner, b + bi)
        decreases BPB - bi
      {
        BitAt(g, blocks, b, bi, true);
        if !Bit(blocks[m][bi / 8], bi % 8) {
          blocks := blocks[m := blocks[m][bi / 8 := PutByteBit(blocks[m][bi / 8], bi % 8, true)]];
          return b + bi;
        }
        bi := bi + 1;
      }
      r := 0;
    }

    /** bfree: clears the bit.  A caller freeing a free block would panic, so the bit must be set. */
    method Bfree(b: nat)
      requires BlocksOk(g, blocks) && b < g.nblocks && InUse(g, blocks, b)
      modifies this`blocks
      ensures blocks == Mark(g, old(blocks), b, false)
    {
      var m, bi := g.bmapstart + b / BPB, b % BPB;
      BitAt(g, blocks, b - bi, bi, false);
      blocks := blocks[m := blocks[m][bi / 8 := PutByteBit(blocks[m][bi / 8], bi % 8, false)]];
    }

    /** Everything about the other inodes, and the bytes of this one, is as it was. */
    twostate predicate OnlyMaps(ino: nat)
      reads this
    {
      && SameFiles(old(blocks), old(inodes), blocks, inodes)
      && forall i: nat :: i < |inodes| && i != ino ==> inodes[i] == old(inodes[i])
    }

    /** bmap: the block number of the file's bn-th block, allocated (with the indirect block) if
        need be; 0 only when the disk is full.  No byte of any file changes. */
    method Bmap(ino: nat, bn: nat) returns (addr: nat)
      requires Valid() && ino < |inodes| && bn < MAXFILE
      modifies this
      ensures Valid() && |inodes| == old(|inodes|) && OnlyMaps(ino)
      ensures addr == Entry(blocks, inodes[ino], bn)
      ensures old(Entry(blocks, inodes[ino], bn)) != 0 ==>
                blocks == old(blocks) && inodes == old(inodes) && owner == old(owner)
      ensures addr == 0 ==> NoneUnused(owner, g.nblocks)
      ensures forall k: nat :: k < MAXFILE && old(Entry(blocks, inodes[ino], k)) != 0 ==>
                Entry(blocks, inodes[ino], k) != 0
    {
      if bn < NDIRECT {
        addr := inodes[ino].addrs[bn];
        if addr == 0 {
          addr := BmapDirect(ino, bn);
        }
        return;
      }
      if inodes[ino].addrs[NDIRECT] == 0 {
        addr := BmapIndirect(ino);
        if addr == 0 { return; }
      }
      label L:
      var t := inodes[ino].addrs[NDIRECT];
      addr := GetWord(blocks[t], bn - NDIRECT);
      if addr == 0 {
        addr := BmapWord(ino, bn - NDIRECT);
      }
    }

    method BmapDirect(ino: nat, k: nat) returns (addr: nat)
      requires Valid() && ino < |inodes| && k < NDIRECT && inodes[ino].addrs[k] == 0
      modifies this
      ensures Valid() && |inodes| == old(|inodes|) && OnlyMaps(ino)
      ensures addr == inodes[ino].addrs[k]
      ensures addr == 0 ==> NoneUnused(owner, g.nblocks)
      ensures forall k: nat :: k < MAXFILE && old(Entry(blocks, inodes[ino], k)) != 0 ==>
                Entry(blocks, inodes[ino], k) != 0
    {
      addr := Balloc();
      if addr == 0 { return; }
      LinkDirect(g, old(blocks), inodes, owner, ino, k, addr);
      inodes := inodes[ino := inodes[ino].(addrs := inodes[ino].addrs[k := addr])];
      owner := owner[addr := File(ino, k)];
    }

    method BmapIndirect(ino: nat) returns (addr: nat)
      requires Valid() && ino < |inodes| && inodes[ino].addrs[NDIRECT] == 0
      modifies this
      ensures Valid() && |inodes| == old(|inodes|) && OnlyMaps(ino)
      ensures addr == inodes[ino].addrs[NDIRECT]
      ensures addr == 0 ==> NoneUnused(owner, g.nblocks)
      ensures forall k: nat :: k < MAXFILE ==> Entry(blocks, inodes[ino], k) == old(Entry(blocks, inodes[ino], k))
    {
      addr := Balloc();
      if addr == 0 { return; }
      LinkIndirect(g, old(blocks), inodes, owner, ino, addr);
      inodes := inodes[ino := inodes[ino].(addrs := inodes[ino].addrs[NDIRECT := addr])];
      owner := owner[addr := Ind(ino)];
    }

    method BmapWord(ino: nat, j: nat) returns (addr: nat)
      requires Valid() && ino < |inodes| && j < NINDIRECT
      requires inodes[ino].addrs[NDIRECT] != 0 && GetWord(blocks[inodes[ino].addrs[NDIRECT]], j) == 0
      modifies this
      ensures Valid() && inodes == old(inodes) && OnlyMaps(ino)
      ensures addr == Entry(blocks, inodes[ino], NDIRECT + j)
      ensures addr == 0 ==> NoneUnused(owner, g.nblocks)
      ensures forall k: nat :: k < MAXFILE && old(Entry(blocks, inodes[ino], k)) != 0 ==>
                Entry(blocks, inodes[ino], k) != 0
    {
      addr := Balloc();
      if addr == 0 { return; }
      LinkWord(g, old(blocks), inodes, owner, ino, j, addr);
      var t := inodes[ino].addrs[NDIRECT];
      AllocOther(g, old(blocks), owner, addr, t);
      blocks := blocks[t := PutWord(blocks[t], j, addr)];
      owner := owner[addr := File(ino, NDIRECT + j)];
    }

    /** readi: the bytes at off, as many as the file has.  The user can take `room` bytes before a copy
        fails; with fewer than asked for the result is -1, and the user has those. */
    method Readi(ino: nat, off: nat, n: nat, room: nat) returns (r: int, dst: seq<Byte>)
      requires Valid() && ino < |inodes| && off < UINT && n < UINT
      modifies this
      ensures blocks == old(blocks) && inodes == old(inodes) && owner == old(owner)
      ensures off > inodes[ino].size || off + n >= UINT ==> r == 0 && dst == []
      ensures off <= inodes[ino].size && off + n < UINT ==>
                var len := Min(n, inodes[ino].size - off);
                && dst == Content(blocks, inodes[ino])[off..off + Min(len, room)]
                && r == if room < len then -1 else len
    {
      if off > inodes[ino].size || Add32(off, n) < off { return 0, []; }
      var n' := if off + n > inodes[ino].size then inodes[ino].size - off else n;
      r, dst := ReadBlocks(ino, off, n', room);
    }

    /** The loop of readi. */
    method ReadBlocks(ino: nat, off: nat, n: nat, room: nat) returns (r: int, dst: seq<Byte>)
      requires Valid() && ino < |inodes| && off + n <= inodes[ino].size
      modifies this
      ensures blocks == old(blocks) && inodes == old(inodes) && owner == old(owner)
      ensures SliceAt(Content(blocks, inodes[ino]), off, dst) && |dst| == Min(n, room)
      ensures r == if room < n then -1 else n
    {
      var tot := 0;
      dst := [];
      ghost var content := Content(blocks, inodes[ino]);
      while tot < n
        invariant tot == |dst| <= n && tot <= room
        invariant blocks == old(blocks) && inodes == old(inodes) && owner == old(owner)
        invariant SliceAt(content, off, dst)
      {
        var chunk := ReadChunk(ino, off + tot, n - tot);
        if chunk == [] { break; }
        var copied := Min(|chunk|, room - tot);
        SliceMore(content, off, dst, chunk, copied);
        dst := dst + chunk[..copied];
        if copied < |chunk| { return -1, dst; }
        tot := tot + |chunk|;
      }
      r := tot;
    }

    /** One turn of readi's loop; no block below the size is missing. */
    method ReadChunk(ino: nat, at: nat, want: nat) returns (chunk: seq<Byte>)
      requires Valid() && ino < |inodes| && at + want <= inodes[ino].size && 0 < want
      modifies this
      ensures blocks == old(blocks) && inodes == old(inodes) && owner == old(owner)
      ensures 0 < |chunk| <= want && SliceAt(Content(blocks, inodes[ino]), at, chunk)
    {
      var m := Min(want, BSIZE - at % BSIZE);
      assert EntryOk(blocks, owner, ino, inodes[ino], at / BSIZE);
      var addr := Bmap(ino, at / BSIZE);
      ChunkBytes(blocks, inodes[ino], at, m);
      chunk := if addr == 0 then [] else blocks[addr][at % BSIZE..at % BSIZE + m];
    }

    /** One turn of writei's loop: chunk goes to position off of the file, inside one block. */
    method WriteChunk(ino: nat, off: nat, chunk: seq<Byte>) returns (ok: bool)
      requires Valid() && ino < |inodes| && off < MAXFILE * BSIZE && |chunk| <= BSIZE - off % BSIZE
      requires Mapped(blocks, inodes[ino], off)
      modifies this
      ensures Valid() && |inodes| == old(|inodes|) && inodes[ino].size == old(inodes[ino].size)
      ensures forall i: nat :: i < |inodes| && i != ino ==> inodes[i] == old(inodes[i])
      ensures OthersSame(old(blocks), old(inodes), blocks, ino)
      ensures EntriesKept(old(blocks), old(inodes[ino]), blocks, inodes[ino])
      ensures !ok ==> NoneUnused(owner, g.nblocks) && SameBytes(old(blocks), old(inodes[ino]), blocks, inodes[ino])
      ensures !ok ==> old(Entry(blocks, inodes[ino], off / BSIZE)) == 0
      ensures !ok ==> Mapped(blocks, inodes[ino], off)
      ensures ok ==> Mapped(blocks, inodes[ino], off + |chunk|)
      ensures ok ==> Written(old(blocks), old(inodes[ino]), blocks, inodes[ino], off, chunk)
    {
      var addr := Bmap(ino, off / BSIZE);
      if addr == 0 { return false; }
      MappedMore(blocks, inodes[ino], off, |chunk|);
      StoreChunk(ino, off / BSIZE, off % BSIZE, chunk);
      ok := true;
    }

    method StoreChunk(ino: nat, k: nat, o: nat, chunk: seq<Byte>)
      requires Valid() && ino < |inodes| && k < MAXFILE && Entry(blocks, inodes[ino], k) != 0 && o + |chunk| <= BSIZE
      modifies this`blocks
      ensures Valid() && OthersSame(old(blocks), inodes, blocks, ino)
      ensures Written(old(blocks), inodes[ino], blocks, inodes[ino], k * BSIZE + o, chunk)
      ensures forall i: nat :: i < MAXFILE ==> Entry(blocks, inodes[ino], i) == old(Entry(blocks, inodes[ino], i))
    {
      StoreKeeps(g, blocks, inodes, owner, ino, k, o, chunk);
      StoreBytes(g, blocks, inodes, owner, ino, k, o, chunk);
      var addr := Entry(blocks, inodes[ino], k);
      blocks := blocks[addr := Patch(blocks[addr], o, chunk)];
    }

    /** The disk is full, and was already without a block for position at of that file. */
    ghost predicate Full(b0: seq<Data>, n0: Inode, at: nat)
      reads this
    {
      NoneUnused(owner, g.nblocks) && AddrsOk(n0) && at / BSIZE < MAXFILE && Entry(b0, n0, at / BSIZE) == 0
    }

    /** writei: old[..off] + src[..r] + old[off + r..], where r < |src| only if the disk is full or a copy
        from the user fails.  The first `avail` bytes of src can be read; when a copy fails half-way, those
        that it had copied stand in the block as well, within the file's size. */
    method Writei(ino: nat, off: nat, src: seq<Byte>, avail: nat) returns (r: int, ghost stored: nat)
      requires Valid() && ino < |inodes| && off < UINT && |src| < UINT
      modifies this
      ensures Valid() && |inodes| == old(|inodes|)
      ensures Refuses(old(inodes[ino]), off, |src|) ==>
                r == -1 && blocks == old(blocks) && inodes == old(inodes) && owner == old(owner)
      ensures !Refuses(old(inodes[ino]), off, |src|) ==>
                && 0 <= r <= |src|
                && Stopped(Full(old(blocks), old(inodes[ino]), off + r), off, |src|, avail, r, stored)
                && inodes[ino].size == Max(old(inodes[ino].size), off + r)
                && Content(blocks, inodes[ino]) ==
                   Overwritten(old(Content(blocks, inodes[ino])), off, src[..stored])[..inodes[ino].size]
      ensures off + |src| <= old(inodes[ino].size) && off + |src| < UINT && |src| <= avail ==> r == |src|
      ensures forall i: nat :: i < |inodes| && i != ino ==> inodes[i] == old(inodes[i])
      ensures forall i: nat :: i < |inodes| && i != ino ==>
                Content(blocks, inodes[i]) == old(Content(blocks, inodes[i]))
    {
      stored := 0;
      if off > inodes[ino].size || Add32(off, |src|) < off { return -1, 0; }
      if off + |src| > MAXFILE * BSIZE { return -1, 0; }
      var tot;
      tot, stored := WriteBlocks(ino, off, src, avail);
      assert Unfold(0);
      WrittenContent(old(blocks), old(inodes[ino]), blocks, inodes[ino], off, src[..stored],
        Max(inodes[ino].size, off + tot));
      if off + tot > inodes[ino].size {
        ResizeKeeps(g, blocks, inodes, owner, ino, off + tot);
        inodes := inodes[ino := inodes[ino].(size := off + tot)];
      }
      OthersContent(g, old(blocks), old(inodes), old(owner), blocks, ino);
      if off + tot < old(inodes[ino].size) { Covered(old(blocks), old(owner), ino, old(inodes[ino]), off + tot); }
      r := tot;
    }

    /** The loop of writei, which leaves the size alone. */
    method WriteBlocks(ino: nat, off: nat, src: seq<Byte>, avail: nat) returns (tot: nat, ghost stored: nat)
      requires Valid() && ino < |inodes| && off <= inodes[ino].size && off + |src| <= MAXFILE * BSIZE
      modifies this
      ensures Valid() && WriteState(old(blocks), old(inodes), blocks, inodes, ino, off, src, stored)
      ensures tot <= |src| && Stopped(Full(old(blocks), old(inodes[ino]), off + tot), off, |src|, avail, tot, stored)
      ensures Mapped(blocks, inodes[ino], off + tot)
    {
      tot, stored := 0, 0;
      MappedToSize(blocks, owner, ino, inodes[ino], off);
      NothingWritten(g, blocks, inodes, owner, ino, off, src);
      while tot < |src|
        invariant Valid() && tot == stored <= |src| && tot <= avail && (tot == |src| || ChunkStart(off, tot))
        invariant WriteState(old(blocks), old(inodes), blocks, inodes, ino, off, src, tot)
        invariant Mapped(blocks, inodes[ino], off + tot)
      {
        var m := Chunk(off, |src|, tot);
        var copied := Min(m, avail - tot);
        var ok := WritePart(old(blocks), old(inodes), ino, off, src, tot, copied);
        if !ok { return; }
        stored := tot + copied;
        if copied < m {
          StoppedShort(Full(old(blocks), old(inodes[ino]), off + tot), off, |src|, avail, tot);
          return;
        }
        tot := tot + m;
      }
    }

    /** The part of a block that the copy delivers. */
    method WritePart(ghost b0: seq<Data>, ghost i0: seq<Inode>, ino: nat, off: nat, src: seq<Byte>, tot: nat,
                     copied: nat)
      returns (ok: bool)
      requires Valid() && WriteState(b0, i0, blocks, inodes, ino, off, src, tot) && off + tot < MAXFILE * BSIZE
      requires tot < |src| && copied <= Chunk(off, |src|, tot) && Mapped(blocks, inodes[ino], off + tot)
      modifies this
      ensures Valid() && WriteState(b0, i0, blocks, inodes, ino, off, src, if ok then tot + copied else tot)
      ensures Mapped(blocks, inodes[ino], if ok then off + tot + copied else off + tot)
      ensures !ok ==> Full(b0, i0[ino], off + tot)
    {
      assert Unfold(0);
      ok := WriteChunk(ino, off + tot, src[tot..tot + copied]);
      OthersTrans(b0, i0, old(blocks), old(inodes), blocks, ino);
      EntriesTrans(b0, i0[ino], old(blocks), old(inodes[ino]), blocks, inodes[ino]);
      if ok {
        WrittenMore(b0, i0[ino], old(blocks), old(inodes[ino]), blocks, inodes[ino], off, src, tot, copied);
      }
    }

    /** The file system is in order once inode ino's size is 0. */
    ghost predicate Truncating(ino: nat)
      reads this
    {
      ino < |inodes| && AddrsOk(inodes[ino]) && FsOk(g, blocks, Emptied(inodes, ino), owner)
    }

    /** itrunc: the file becomes empty and exactly its blocks become free. */
    method Itrunc(ino: nat)
      requires Valid() && ino < |inodes|
      modifies this
      ensures Valid() && |inodes| == old(|inodes|)
      ensures inodes == old(inodes)[ino := Inode(seq(NDIRECT + 1, _ => 0), 0)]
      ensures forall b: nat :: b < g.nblocks ==> owner[b] == if OwnedBy(old(owner[b]), ino) then Unused
              else old(owner[b])
      ensures forall i: nat :: i < |inodes| && i != ino ==>
                Content(blocks, inodes[i]) == old(Content(blocks, inodes[i]))
    {
      ResizeKeeps(g, blocks, inodes, owner, ino, 0);
      var i := 0;
      while i < NDIRECT
        invariant i <= NDIRECT && |inodes| == old(|inodes|) && Truncating(ino)
        invariant OthersSame(old(blocks), old(inodes), blocks, ino) && GaveBack(old(owner), owner, ino)
        invariant forall x: nat :: x < |inodes| && x != ino ==> inodes[x] == old(inodes[x])
        invariant forall x: nat :: x < i ==> inodes[ino].addrs[x] == 0
      {
        if inodes[ino].addrs[i] != 0 {
          label L:
          FreeDirect(ino, i);
          OthersTrans(old(blocks), old(inodes), old@L(blocks), old@L(inodes), blocks, ino);
        }
        i := i + 1;
      }
      if inodes[ino].addrs[NDIRECT] != 0 {
        label M:
        FreeIndirect(ino);
        OthersTrans(old(blocks), old(inodes), old@M(blocks), old@M(inodes), blocks, ino);
      }
      inodes := inodes[ino := inodes[ino].(size := 0)];
      assert inodes[ino].addrs == seq(NDIRECT + 1, _ => 0);
      AllGivenBack(g, blocks, inodes, old(owner), owner, ino);
      OthersContent(g, old(blocks), old(inodes), old(owner), blocks, ino);
    }

    method FreeDirect(ino: nat, i: nat)
      requires Truncating(ino) && i < NDIRECT && inodes[ino].addrs[i] != 0
      modifies this
      ensures inodes == old(inodes)[ino := old(inodes[ino]).(addrs := old(inodes[ino].addrs)[i := 0])]
      ensures Truncating(ino) && OthersSame(old(blocks), old(inodes), blocks, ino)
      ensures GaveBack(old(owner), owner, ino)
    {
      var a := inodes[ino].addrs[i];
      UnlinkDirect(g, blocks, Emptied(inodes, ino), owner, ino, i);
      assert OthersSame(blocks, inodes, Mark(g, blocks, a, false), ino) by {
        OthersEmptied(blocks, inodes, Mark(g, blocks, a, false), ino);
      }
      Bfree(a);
      inodes := inodes[ino := inodes[ino].(addrs := inodes[ino].addrs[i := 0])];
      owner := owner[a := Unused];
      assert Emptied(inodes, ino) ==
        Emptied(old(inodes), ino)[ino := Emptied(old(inodes), ino)[ino].(addrs := inodes[ino].addrs)];
    }

    /** The second half of itrunc.  The words of the indirect block are not cleared; the ghost v is
        that block as if each freed word had been. */
    method FreeIndirect(ino: nat)
      requires Truncating(ino) && inodes[ino].addrs[NDIRECT] != 0
      requires forall x: nat :: x < NDIRECT ==> inodes[ino].addrs[x] == 0
      modifies this
      ensures inodes == old(inodes)[ino := old(inodes[ino]).(addrs := old(inodes[ino].addrs)[NDIRECT := 0])]
      ensures Truncating(ino) && OthersSame(old(blocks), old(inodes), blocks, ino)
      ensures GaveBack(old(owner), owner, ino)
    {
      var t := inodes[ino].addrs[NDIRECT];
      ghost var v := FreeWords(ino);
      EmptyView(g, blocks, Emptied(inodes, ino), owner, ino, t, v);
      OthersEmptied(blocks[t := v], inodes, Mark(g, blocks, t, false), ino);
      OthersTrans(old(blocks), old(inodes), blocks[t := v], inodes, Mark(g, blocks, t, false), ino);
      Bfree(t);
      inodes := inodes[ino := inodes[ino].(addrs := inodes[ino].addrs[NDIRECT := 0])];
      owner := owner[t := Unused];
      assert Emptied(inodes, ino) ==
        Emptied(old(inodes), ino)[ino := Emptied(old(inodes), ino)[ino].(addrs := inodes[ino].addrs)];
    }

    method FreeWords(ino: nat) returns (ghost v: Data)
      requires Truncating(ino) && inodes[ino].addrs[NDIRECT] != 0
      modifies this`blocks, this`owner
      ensures |blocks| == old(|blocks|) && inodes[ino].addrs[NDIRECT] < |blocks|
      ensures FsOk(g, blocks[inodes[ino].addrs[NDIRECT] := v], Emptied(inodes, ino), owner)
      ensures OthersSame(old(blocks), inodes, blocks[inodes[ino].addrs[NDIRECT] := v], ino)
      ensures GaveBack(old(owner), owner, ino)
      ensures forall i: nat :: i < NINDIRECT ==> GetWord(v, i) == 0
    {
      var t := inodes[ino].addrs[NDIRECT];
      ghost var empty := Emptied(inodes, ino);
      assert InodeOk(blocks, owner, ino, empty[ino]);
      v := blocks[t];
      assert blocks[t := v] == blocks;
      OthersRefl(g, blocks, empty, owner, ino);
      OthersEmptied(blocks, inodes, blocks, ino);
      var j := 0;
      while j < NINDIRECT
        invariant j <= NINDIRECT && |blocks| == old(|blocks|) && blocks[t] == old(blocks[t])
        invariant FsOk(g, blocks[t := v], empty, owner) && GaveBack(old(owner), owner, ino)
        invariant OthersSame(old(blocks), inodes, blocks[t := v], ino)
        invariant forall i: nat :: i < NINDIRECT ==> GetWord(v, i) == if i < j then 0 else GetWord(blocks[t], i)
      {
        var a := GetWord(blocks[t], j);
        if a != 0 {
          FreeWordView(g, blocks, empty, owner, ino, t, v, j);
          OthersEmptied(blocks[t := v], inodes, Mark(g, blocks, a, false)[t := PutWord(v, j, 0)], ino);
          OthersTrans(old(blocks), inodes, blocks[t := v], inodes,
            Mark(g, blocks, a, false)[t := PutWord(v, j, 0)], ino);
          Bfree(a);
          forall i: nat | i < NINDIRECT ensures GetWord(PutWord(v, j, 0), i) == if i == j then 0 else GetWord(v, i) {
            WordRoundTrip(v, j, 0, i);
          }
          v := PutWord(v, j, 0);
          owner := owner[a := Unused];
        }
        j := j + 1;
      }
    }
  }
}
