/** The explicit producer of the concurrent queue: a circular list of blocks that are reused in
    place, and a circular block index, replaced by a larger one when full, through which dequeuers
    find the block of an element index they have claimed.

    One thread enqueues single elements; any number of threads dequeue, singly or in bulk. Every step
    is one access to memory that another thread may touch. Which indices a dequeuer may claim is
    decided by the ticket protocol (module TicketDequeue): consecutive ones, below the tail, and none
    before the first element was enqueued. A bulk call that asks for nothing claims nothing, and still
    looks its index up. */
module ExplicitProducer {
  import opened Arith
  import opened Words
  import opened Positions

  datatype Block<T> = Block(next: nat, flags: seq<bool>, data: seq<T>)
  datatype Entry = Entry(base: nat, block: nat)

  /** `origin` and `top` are never read by the code: the entry of block number q belongs in slot
      (q - origin) mod size, and the front slot holds the entry of block number top (-1: no entry). */
  datatype Header = Header(size: nat, front: nat, entries: seq<Entry>, origin: nat, top: int)

  datatype Ptr = Null | At(id: nat)

  datatype Producer<T> =
    | PIdle
    | PScan(v: T, i: nat)
    | PLoadHead(v: T)
    | PGrow(v: T)
    | PRequisition(v: T)
    | PWriteBase(v: T)
    | PWriteBlock(v: T)
    | PStoreFront(v: T)
    | PStoreElement(v: T)
    | PStoreTail

  /** The lookup of a dequeuer that has claimed nothing: it follows no pointer to a block. */
  datatype Lookup = LoadIndex | LoadFront(h: nat) | LoadBase(h: nat, f: nat) | LoadBlock(h: nat, slot: nat)

  /** A dequeuer that has claimed the indices from a up to e, or nothing. `qf` is never read by the code. */
  datatype Consumer =
    | CIdle
    | CNone(a: Pos, st: Lookup)
    | CLoadIndex(a: Pos, e: Pos)
    | CLoadFront(a: Pos, e: Pos, h: nat)
    | CLoadBase(a: Pos, e: Pos, h: nat, f: nat, qf: nat)
    | CLoadBlock(a: Pos, e: Pos, h: nat, slot: nat)
    | CRead(a: Pos, e: Pos, h: nat, slot: nat, b: nat, o: nat)
    | CFlag(a: Pos, e: Pos, h: nat, slot: nat, b: nat, o: nat)

  /** The last three fields record history and are never read by the code: hist[q] is the block that
      holds block number q, lo the oldest block number in the ring, log[q] the values enqueued in it. */
  datatype Mem<T> = Mem(
    bs: nat,
    blocks: seq<Block<T>>,
    headers: seq<Header>,
    tail: Pos,
    head: Pos,
    tailBlock: Ptr,
    slotsUsed: nat,
    indexFront: nat,
    p: Producer<T>,
    hist: seq<nat>,
    lo: nat,
    log: seq<seq<T>>)

  datatype State<T> = State(m: Mem<T>, c: seq<Consumer>)

  /** What the memory allocator does when asked: fail, or supply a block with arbitrary contents. */
  datatype Supply<T> = NoMemory | Fresh(junk: seq<T>)

  datatype Action<T> =
    | Enqueue(v: T)
    | Produce(m: Supply<T>)
    | Claim(t: nat, e: Pos)
    | Consume(t: nat)

  // ---------------------------------------------------------------- the enqueuer

  function Cur(s: Mem): nat requires s.headers != [] { |s.headers| - 1 }

  predicate Shaped<T>(s: Mem<T>) {
    && s.bs >= 2
    && s.headers != []
    && s.headers[Cur(s)].size >= 1
    && |s.headers[Cur(s)].entries| == s.headers[Cur(s)].size
    && s.indexFront < s.headers[Cur(s)].size
    && (s.tailBlock.At? ==> s.tailBlock.id < |s.blocks| && s.blocks[s.tailBlock.id].next < |s.blocks|)
    && s.tail.o < s.bs
  }

  /** enqueue: decide whether a new block must be started. */
  function StartEnqueue<T>(s: Mem<T>, v: T): Mem<T> {
    if s.tail.o != 0 then s.(p := PStoreElement(v))
    else if s.tailBlock.At? then s.(p := PScan(v, 0))
    else s.(p := PLoadHead(v))
  }

  function NextBlock<T>(s: Mem<T>): nat
    requires Shaped(s) && s.tailBlock.At?
  {
    s.blocks[s.tailBlock.id].next
  }

  function AllFalse(n: nat): seq<bool> { seq(n, i => false) }

  /** is_empty: look at one flag of the block ahead; after the last one, take that block over. */
  function Scan<T>(s: Mem<T>, v: T, i: nat): Mem<T>
    requires Shaped(s) && s.tailBlock.At? && i < |s.blocks[NextBlock(s)].flags|
  {
    if !s.blocks[NextBlock(s)].flags[i] then s.(p := PLoadHead(v))
    else if i + 1 < s.bs then s.(p := PScan(v, i + 1))
    else
      var b := NextBlock(s);
      s.(p := PWriteBase(v), tailBlock := At(b),
         blocks := s.blocks[b := s.blocks[b].(flags := AllFalse(s.bs))],
         hist := s.hist + [b], lo := s.lo + 1, log := s.log + [[]])
  }

  function LoadHead<T>(s: Mem<T>, v: T): Mem<T>
    requires Shaped(s)
  {
    if !CircularLessThan(Wrap(Index(s.head, s.bs)), Wrap(Index(s.tail, s.bs) + s.bs)) then s.(p := PIdle)
    else if s.slotsUsed == s.headers[Cur(s)].size then s.(p := PGrow(v))
    else s.(p := PRequisition(v))
  }

  /** The entries of the doubled block index: the used ones of the old index, oldest first. */
  function Doubled(entries: seq<Entry>, first: nat, used: nat): (r: seq<Entry>)
    requires |entries| >= 1
    requires first < |entries|
    ensures |r| == 2 * |entries|
  {
    seq(2 * |entries|, j => if 0 <= j < used then entries[Ahead(first, j, |entries|)] else Entry(0, 0))
  }

  /** new_block_index: the copy is private to the enqueuer, its publication is one store. The index
      cannot be larger than the index space divided by the block size. */
  function Grow<T>(s: Mem<T>, v: T, m: Supply<T>): Mem<T>
    requires Shaped(s)
  {
    var h := s.headers[Cur(s)];
    if m.NoMemory? || 2 * h.size * s.bs > WORD || s.slotsUsed > h.size then s.(p := PIdle)
    else
      var first := Behind(s.indexFront, s.slotsUsed, h.size);
      var h' := Header(2 * h.size, Dec(s.slotsUsed), Doubled(h.entries, first, s.slotsUsed), s.lo, h.top);
      s.(p := PRequisition(v), headers := s.headers + [h'], indexFront := s.slotsUsed)
  }

  function Insert<T>(s: Mem<T>, v: T, m: Supply<T>): Mem<T>
    requires Shaped(s)
  {
    if m.NoMemory? || |m.junk| != s.bs then s.(p := PIdle)
    else
      var b := |s.blocks|;
      var blocks1 :=
        if s.tailBlock.Null? then s.blocks + [Block(b, AllFalse(s.bs), m.junk)]
        else s.blocks[s.tailBlock.id := s.blocks[s.tailBlock.id].(next := b)]
             + [Block(NextBlock(s), AllFalse(s.bs), m.junk)];
      s.(p := PWriteBase(v), blocks := blocks1, tailBlock := At(b), slotsUsed := s.slotsUsed + 1,
         hist := s.hist + [b], log := s.log + [[]])
  }

  function SetEntry<T>(s: Mem<T>, e: Entry): Mem<T>
    requires Shaped(s)
  {
    var h := s.headers[Cur(s)];
    s.(headers := s.headers[Cur(s) := h.(entries := h.entries[s.indexFront := e])])
  }

  function WriteBase<T>(s: Mem<T>, v: T): Mem<T>
    requires Shaped(s)
  {
    var was := s.headers[Cur(s)].entries[s.indexFront];
    SetEntry(s, was.(base := Wrap(s.tail.q * s.bs))).(p := PWriteBlock(v))
  }

  function WriteBlock<T>(s: Mem<T>, v: T): Mem<T>
    requires Shaped(s) && s.tailBlock.At?
  {
    var was := s.headers[Cur(s)].entries[s.indexFront];
    SetEntry(s, was.(block := s.tailBlock.id)).(p := PStoreFront(v))
  }

  function StoreFront<T>(s: Mem<T>, v: T): Mem<T>
    requires Shaped(s)
  {
    var h := s.headers[Cur(s)];
    s.(headers := s.headers[Cur(s) := h.(front := s.indexFront, top := s.tail.q)],
       indexFront := Ahead(s.indexFront, 1, h.size), p := PStoreElement(v))
  }

  function StoreElement<T>(s: Mem<T>, v: T): Mem<T>
    requires Shaped(s) && s.tailBlock.At? && s.tail.o < |s.blocks[s.tailBlock.id].data| && s.log != []
  {
    var b := s.tailBlock.id;
    s.(blocks := s.blocks[b := s.blocks[b].(data := s.blocks[b].data[s.tail.o := v])],
       log := s.log[|s.log| - 1 := s.log[|s.log| - 1] + [v]], p := PStoreTail)
  }

  function StoreTail<T>(s: Mem<T>): Mem<T> {
    s.(tail := Succ(s.tail, s.bs), p := PIdle)
  }

  // ---------------------------------------------------------------- the dequeuers

  function ReadBase<T>(s: Mem<T>, a: Pos, e: Pos, h: nat, f: nat): Consumer
    requires h < |s.headers| && f < |s.headers[h].entries| && s.bs > 0 && s.headers[h].size > 0
  {
    var base := s.headers[h].entries[f].base;
    CLoadBlock(a, e, h, SlotOf(f, base, Wrap(a.q * s.bs), s.bs, s.headers[h].size))
  }

  /** The dequeuer that has claimed nothing: the block that it finds gets no flag. */
  function NoneStep<T>(s: Mem<T>, a: Pos, st: Lookup): Consumer
    requires CanConsume(s, CNone(a, st))
  {
    match st
    case LoadIndex => CNone(a, LoadFront(Cur(s)))
    case LoadFront(h) => CNone(a, LoadBase(h, s.headers[h].front))
    case LoadBase(h, f) =>
      CNone(a, LoadBlock(h, SlotOf(f, s.headers[h].entries[f].base, Wrap(a.q * s.bs), s.bs, s.headers[h].size)))
    case LoadBlock(_, _) => CIdle
  }

  /** Moves one element out (its value is data[o] of block b). */
  function Read(a: Pos, e: Pos, h: nat, slot: nat, b: nat, o: nat, bs: nat): Consumer {
    if o + 1 < Stop(a, e, bs) then CRead(a, e, h, slot, b, o + 1) else CFlag(a, e, h, slot, b, Stop(a, e, bs))
  }

  /** set_empty / set_many_empty: the flags are stored in reverse, from the last element down. */
  function SetFlag<T>(s: Mem<T>, b: nat, o: nat): Mem<T>
    requires b < |s.blocks| && 1 <= o <= |s.blocks[b].flags|
  {
    var flags := s.blocks[b].flags;
    s.(blocks := s.blocks[b := s.blocks[b].(flags := flags[|flags| - o := true])])
  }

  function AfterFlag(a: Pos, e: Pos, h: nat, slot: nat, b: nat, o: nat, bs: nat, size: nat): Consumer
    requires o >= 1 && size > 0
  {
    if o - 1 > a.o then CFlag(a, e, h, slot, b, o - 1)
    else if AfterBlock(a, e, bs) == e then CIdle
    else CLoadBlock(AfterBlock(a, e, bs), e, h, Ahead(slot, 1, size))
  }

  // ---------------------------------------------------------------- steps

  predicate CanProduce<T>(s: Mem<T>) {
    && Shaped(s)
    && match s.p
       case PScan(_, i) => s.tailBlock.At? && i < |s.blocks[NextBlock(s)].flags|
       case PWriteBlock(_) => s.tailBlock.At?
       case PStoreElement(_) => s.tailBlock.At? && s.tail.o < |s.blocks[s.tailBlock.id].data| && s.log != []
       case _ => true
  }

  function ProduceStep<T>(s: Mem<T>, m: Supply<T>): Mem<T>
    requires CanProduce(s)
  {
    match s.p
    case PIdle => s
    case PScan(v, i) => Scan(s, v, i)
    case PLoadHead(v) => LoadHead(s, v)
    case PGrow(v) => Grow(s, v, m)
    case PRequisition(v) => Insert(s, v, m)
    case PWriteBase(v) => WriteBase(s, v)
    case PWriteBlock(v) => WriteBlock(s, v)
    case PStoreFront(v) => StoreFront(s, v)
    case PStoreElement(v) => StoreElement(s, v)
    case PStoreTail => StoreTail(s)
  }

  predicate CanConsume<T>(s: Mem<T>, pc: Consumer) {
    && s.bs > 0 && s.headers != []
    && match pc
       case CNone(_, LoadFront(h)) => h < |s.headers|
       case CNone(_, LoadBase(h, f)) => h < |s.headers| && f < |s.headers[h].entries| && s.headers[h].size > 0
       case CNone(_, LoadBlock(h, slot)) => h < |s.headers| && slot < |s.headers[h].entries|
       case CLoadFront(_, _, h) => h < |s.headers|
       case CLoadBase(_, _, h, f, _) => h < |s.headers| && f < |s.headers[h].entries| && s.headers[h].size > 0
       case CLoadBlock(_, _, h, slot) => h < |s.headers| && slot < |s.headers[h].entries|
       case CFlag(_, _, h, _, b, o) =>
         b < |s.blocks| && 1 <= o <= |s.blocks[b].flags| && h < |s.headers| && s.headers[h].size > 0
       case _ => true
  }

  function ConsumeStep<T>(s: Mem<T>, pc: Consumer): (Mem<T>, Consumer)
    requires CanConsume(s, pc)
  {
    match pc
    case CIdle => (s, pc)
    case CNone(a, st) => (s, NoneStep(s, a, st))
    case CLoadIndex(a, e) => (s, CLoadFront(a, e, Cur(s)))
    case CLoadFront(a, e, h) =>
      var hd := s.headers[h];
      (s, CLoadBase(a, e, h, hd.front, if hd.top < 0 then 0 else hd.top))
    case CLoadBase(a, e, h, f, _) => (s, ReadBase(s, a, e, h, f))
    case CLoadBlock(a, e, h, slot) => (s, CRead(a, e, h, slot, s.headers[h].entries[slot].block, a.o))
    case CRead(a, e, h, slot, b, o) => (s, Read(a, e, h, slot, b, o, s.bs))
    case CFlag(a, e, h, slot, b, o) =>
      (SetFlag(s, b, o), AfterFlag(a, e, h, slot, b, o, s.bs, s.headers[h].size))
  }

  function Do<T>(s: State<T>, act: Action<T>): State<T> {
    match act
    case Enqueue(v) => if s.m.p == PIdle then s.(m := StartEnqueue(s.m, v)) else s
    case Produce(m) => if CanProduce(s.m) then s.(m := ProduceStep(s.m, m)) else s
    case Claim(t, e) =>
      if t < |s.c| && s.c[t] == CIdle && e.o < s.m.bs && Less(s.m.head, e) && AtMost(e, s.m.tail)
      then State(s.m.(head := e), s.c[t := CLoadIndex(s.m.head, e)])
      else if t < |s.c| && s.c[t] == CIdle && e == s.m.head && s.m.tail != Pos(0, 0)
      then State(s.m, s.c[t := CNone(e, LoadIndex)])
      else s
    case Consume(t) =>
      if t < |s.c| && CanConsume(s.m, s.c[t])
      then var (m', pc') := ConsumeStep(s.m, s.c[t]); State(m', s.c[t := pc'])
      else s
  }

  /** The constructor: an empty ring and an index of `size` entries. */
  function Start<T>(bs: nat, size: nat, dequeuers: nat): State<T> {
    State(Mem(bs, [], [Header(size, WORD - 1, seq(size, i => Entry(0, 0)), 0, -1)], Pos(0, 0), Pos(0, 0), Null,
              0, 0, PIdle, [], 0, []),
          seq(dequeuers, i => CIdle))
  }

  // ---------------------------------------------------------------- the invariant

  predicate Live<T>(s: Mem<T>, q: nat) { s.lo <= q < |s.hist| }

  function Slot(h: Header, q: nat): nat
    requires h.origin <= q && h.size > 0
  {
    (q - h.origin) % h.size
  }

  /** Block number q of the ring: its block, and the link to the next block of the ring. */
  predicate RingAt<T>(s: Mem<T>, q: nat)
    requires Live(s, q)
  {
    && s.hist[q] < |s.blocks|
    && s.blocks[s.hist[q]].next == s.hist[if q + 1 < |s.hist| then q + 1 else s.lo]
    && |s.blocks[s.hist[q]].flags| == |s.blocks[s.hist[q]].data| == s.bs
  }

  predicate Ring<T>(s: Mem<T>) {
    && s.lo <= |s.hist| == |s.log|
    && s.tailBlock == (if s.hist == [] then Null else At(s.hist[|s.hist| - 1]))
    && (s.hist != [] ==> s.lo < |s.hist|)
    && (forall q :: s.lo <= q < |s.hist| ==> RingAt(s, q))
    && (forall q, r :: s.lo <= q < r < |s.hist| ==> s.hist[q] != s.hist[r])
  }

  predicate Flag<T>(s: Mem<T>, q: nat, o: nat)
    requires Live(s, q) && RingAt(s, q) && o < s.bs
  {
    s.blocks[s.hist[q]].flags[s.bs - 1 - o]
  }

  /** No element that is not yet claimed is marked as dequeued. */
  predicate FlagsAt<T>(s: Mem<T>, q: nat)
    requires Live(s, q) && RingAt(s, q)
  {
    forall o :: 0 <= o < s.bs && AtMost(s.head, Pos(q, o)) ==> !Flag(s, q, o)
  }

  /** The values enqueued under block number q are in its block. */
  ghost predicate DataAt<T>(s: Mem<T>, q: nat)
    requires Live(s, q) && RingAt(s, q) && |s.log| == |s.hist|
  {
    && |s.log[q]| <= s.bs
    && (forall o :: 0 <= o < |s.log[q]| ==> s.blocks[s.hist[q]].data[o] == s.log[q][o])
  }

  predicate EntryAt<T>(s: Mem<T>, h: nat, q: nat)
    requires h < |s.headers| && q < |s.hist|
  {
    var hd := s.headers[h];
    && hd.origin <= q && hd.size > 0 && |hd.entries| == hd.size
    && Slot(hd, q) < hd.size
    && hd.entries[Slot(hd, q)] == Entry(Wrap(q * s.bs), s.hist[q])
  }

  /** Every block index ever published, current or superseded, finds every block number of the ring
      that is not newer than its front. */
  ghost predicate HeaderAt<T>(s: Mem<T>, h: nat)
    requires h < |s.headers|
  {
    var hd := s.headers[h];
    && IndexFits(s.bs, hd.size) && |hd.entries| == hd.size && -1 <= hd.top < |s.hist|
    && (hd.top >= 0 ==> hd.origin <= hd.top && hd.front == Slot(hd, hd.top))
    && (forall q :: s.lo <= q <= hd.top ==> EntryAt(s, h, q))
  }

  /** Claimed by a dequeuer at pc and not yet marked as dequeued. */
  predicate Owns(pc: Consumer, p: Pos) {
    match pc
    case CIdle => false
    case CNone(_, _) => false
    case CFlag(a, e, _, _, _, o) => (p.q == a.q && a.o <= p.o < o) || (p.q > a.q && Less(p, e))
    case _ => AtMost(pc.a, p) && Less(p, pc.e)
  }

  ghost predicate OwnsClear<T>(s: Mem<T>, pc: Consumer)
    requires Ring(s)
  {
    forall q, o :: Live(s, q) && RingAt(s, q) && 0 <= o < s.bs && Owns(pc, Pos(q, o)) ==> !Flag(s, q, o)
  }

  /** The lookup of a dequeuer that has claimed nothing stays within the index. */
  predicate NoneOk<T>(s: Mem<T>, st: Lookup) {
    && s.tail != Pos(0, 0)
    && match st
       case LoadIndex => true
       case LoadFront(h) => h < |s.headers| && s.headers[h].top >= 0
       case LoadBase(h, f) => h < |s.headers| && f < s.headers[h].size
       case LoadBlock(h, slot) => h < |s.headers| && slot < s.headers[h].size
  }

  predicate Holding(pc: Consumer) { !pc.CIdle? && !pc.CNone? }

  ghost predicate ConsumerOk<T>(s: Mem<T>, pc: Consumer)
    requires Ring(s)
  {
    (pc.CNone? ==> NoneOk(s, pc.st)) &&
    (Holding(pc) ==> (
      && pc.a.o < s.bs && pc.e.o < s.bs && Less(pc.a, pc.e) && AtMost(pc.e, s.head)
      && s.lo <= pc.a.q && LastBlock(pc.e) < |s.hist|
      && OwnsClear(s, pc)
      && (!pc.CLoadIndex? ==> pc.h < |s.headers| && LastBlock(pc.e) <= s.headers[pc.h].top)
      && match pc
         case CLoadBase(a, e, h, f, qf) =>
           var hd := s.headers[h];
           LastBlock(e) <= qf <= hd.top && hd.origin <= qf && hd.size > 0 && f == Slot(hd, qf)
         case CLoadBlock(a, e, h, slot) =>
           var hd := s.headers[h];
           hd.origin <= a.q && hd.size > 0 && slot == Slot(hd, a.q)
         case CRead(a, e, h, slot, b, o) =>
           var hd := s.headers[h];
           hd.origin <= a.q && hd.size > 0 && slot == Slot(hd, a.q) && b == s.hist[a.q]
           && a.o <= o < Stop(a, e, s.bs)
         case CFlag(a, e, h, slot, b, o) =>
           var hd := s.headers[h];
           hd.origin <= a.q && hd.size > 0 && slot == Slot(hd, a.q) && b == s.hist[a.q]
           && a.o < o <= Stop(a, e, s.bs)
         case _ => true))
  }

  ghost predicate Disjoint(c: seq<Consumer>, t: nat, u: nat)
    requires t < |c| && u < |c|
  {
    forall p :: !(Owns(c[t], p) && Owns(c[u], p))
  }

  /** Between a block being started and its entry being published, the ring is one ahead of the index. */
  predicate Publishing<T>(p: Producer<T>) { p.PWriteBase? || p.PWriteBlock? || p.PStoreFront? }
  predicate Choosing<T>(p: Producer<T>) { p.PScan? || p.PLoadHead? || p.PGrow? || p.PRequisition? }

  /** The tail is at a block boundary and the next block has not been started. */
  predicate AtBoundary<T>(s: Mem<T>) { s.tail.o == 0 && (s.p.PIdle? || Choosing(s.p)) }

  predicate CountsOk<T>(s: Mem<T>)
    requires Shaped(s)
  {
    var hd := s.headers[Cur(s)];
    var n := |s.hist|;
    && s.head.o < s.bs && AtMost(s.head, s.tail) && s.lo <= s.head.q
    && s.slotsUsed == n - s.lo <= hd.size
    && hd.top == (if Publishing(s.p) then n - 2 else n - 1)
    && hd.origin <= hd.top + 1 && s.indexFront == Slot(hd, hd.top + 1)
    && n == s.tail.q + (if AtBoundary(s) then 0 else 1)
    && (Choosing(s.p) || Publishing(s.p) ==> s.tail.o == 0)
  }

  predicate LogOk<T>(s: Mem<T>)
    requires |s.log| == |s.hist|
  {
    var n := |s.hist|;
    && (forall q :: 0 <= q < n - 1 ==> |s.log[q]| == s.bs)
    && (n > 0 ==>
          |s.log[n - 1]| == (if s.p.PStoreTail? then s.tail.o + 1 else if AtBoundary(s) then s.bs else s.tail.o))
  }

  predicate PcOk<T>(s: Mem<T>)
    requires Shaped(s) && Ring(s)
  {
    var hd := s.headers[Cur(s)];
    match s.p
    case PScan(v, i) =>
      && s.hist != [] && RingAt(s, s.lo) && i < s.bs
      && (forall j :: 0 <= j < i ==> s.blocks[s.hist[s.lo]].flags[j])
    case PRequisition(_) => s.slotsUsed < hd.size
    case PGrow(_) => s.slotsUsed == hd.size
    case PWriteBase(_) => s.hist != []
    case PWriteBlock(_) => s.hist != [] && hd.entries[s.indexFront].base == Wrap(s.tail.q * s.bs)
    case PStoreFront(_) =>
      s.hist != [] && hd.entries[s.indexFront] == Entry(Wrap(s.tail.q * s.bs), s.hist[|s.hist| - 1])
    case _ => true
  }

  ghost predicate MemOk<T>(s: Mem<T>) {
    && Shaped(s) && Ring(s) && CountsOk(s) && LogOk(s) && PcOk(s)
    && (forall q :: s.lo <= q < |s.hist| ==> FlagsAt(s, q) && DataAt(s, q))
    && (forall h :: 0 <= h < |s.headers| ==> HeaderAt(s, h))
  }

  ghost predicate Inv<T>(s: State<T>) {
    && MemOk(s.m)
    && (forall t :: 0 <= t < |s.c| ==> ConsumerOk(s.m, s.c[t]))
    && (forall t, u :: 0 <= t < u < |s.c| ==> Disjoint(s.c, t, u))
  }

  // ---------------------------------------------------------------- dequeuers keep the invariant

  /** Dequeuer t moves to pc' without touching shared memory. */
  lemma MoveKeeps<T>(s: State<T>, t: nat, pc': Consumer)
    requires Inv(s) && t < |s.c| && ConsumerOk(s.m, pc')
    requires forall p :: Owns(pc', p) ==> Owns(s.c[t], p)
    ensures Inv(State(s.m, s.c[t := pc']))
  {
    var c' := s.c[t := pc'];
    forall u, v | 0 <= u < v < |c'| ensures Disjoint(c', u, v) {
      assert Disjoint(s.c, u, v);
    }
  }

  lemma LoadFrontKeeps<T>(s: State<T>, t: nat, a: Pos, e: Pos, h: nat)
    requires Inv(s) && t < |s.c| && s.c[t] == CLoadFront(a, e, h) && ConsumerOk(s.m, s.c[t])
    ensures Inv(State(s.m, s.c[t := ConsumeStep(s.m, s.c[t]).1]))
  {
    assert HeaderAt(s.m, h);
    MoveKeeps(s, t, ConsumeStep(s.m, s.c[t]).1);
  }

  /** The slot computed by a dequeuer is the slot of its block, even from a stale front. */
  lemma LookupSlot<T>(m: Mem<T>, h: nat, f: nat, qf: nat, q: nat)
    requires m.bs >= 2 && h < |m.headers| && HeaderAt(m, h)
    requires m.lo <= q <= qf <= m.headers[h].top && m.headers[h].origin <= qf && f == Slot(m.headers[h], qf)
    ensures f < m.headers[h].size && m.headers[h].origin <= q
    ensures SlotOf(f, m.headers[h].entries[f].base, Wrap(q * m.bs), m.bs, m.headers[h].size) == Slot(m.headers[h], q)
  {
    var hd := m.headers[h];
    assert EntryAt(m, h, q) && EntryAt(m, h, qf);
    SlotIsSignedDistance(f, qf, q, m.bs, hd.size);
    ModEarly(qf - hd.origin, q - qf, hd.size);
  }

  lemma LoadBaseKeeps<T>(s: State<T>, t: nat, a: Pos, e: Pos, h: nat, f: nat, qf: nat)
    requires Inv(s) && t < |s.c| && s.c[t] == CLoadBase(a, e, h, f, qf) && ConsumerOk(s.m, s.c[t])
    ensures CanConsume(s.m, s.c[t])
    ensures Inv(State(s.m, s.c[t := ConsumeStep(s.m, s.c[t]).1]))
  {
    assert HeaderAt(s.m, h);
    LookupSlot(s.m, h, f, qf, a.q);
    MoveKeeps(s, t, ConsumeStep(s.m, s.c[t]).1);
  }

  lemma LoadBlockKeeps<T>(s: State<T>, t: nat, a: Pos, e: Pos, h: nat, slot: nat)
    requires Inv(s) && t < |s.c| && s.c[t] == CLoadBlock(a, e, h, slot) && ConsumerOk(s.m, s.c[t])
    ensures CanConsume(s.m, s.c[t])
    ensures Inv(State(s.m, s.c[t := ConsumeStep(s.m, s.c[t]).1]))
  {
    assert HeaderAt(s.m, h);
    assert EntryAt(s.m, h, a.q);
    MoveKeeps(s, t, ConsumeStep(s.m, s.c[t]).1);
  }

  /** A claim of nothing is harmless: its lookup reads within an index that has an entry, and changes
      nothing, even when the block of its index does not exist. */
  lemma NoneKeeps<T>(s: State<T>, t: nat, a: Pos, st: Lookup)
    requires Inv(s) && t < |s.c| && s.c[t] == CNone(a, st) && ConsumerOk(s.m, s.c[t])
    ensures CanConsume(s.m, s.c[t]) && ConsumeStep(s.m, s.c[t]).0 == s.m
    ensures Inv(State(s.m, s.c[t := ConsumeStep(s.m, s.c[t]).1]))
  {
    NoneNext(s.m, a, st);
    MoveKeeps(s, t, ConsumeStep(s.m, s.c[t]).1);
  }

  lemma NoneNext<T>(m: Mem<T>, a: Pos, st: Lookup)
    requires MemOk(m) && NoneOk(m, st)
    ensures CanConsume(m, CNone(a, st))
    ensures NoneStep(m, a, st).CNone? ==> NoneOk(m, NoneStep(m, a, st).st)
  {
    match st
    case LoadIndex =>
    case LoadFront(h) =>
      assert HeaderAt(m, h);
      SlotWithin(m.headers[h], m.headers[h].top);
    case LoadBase(h, f) =>
      assert HeaderAt(m, h);
      SlotOfWithin(f, m.headers[h].entries[f].base, Wrap(a.q * m.bs), m.bs, m.headers[h].size);
    case LoadBlock(h, slot) => assert HeaderAt(m, h);
  }

  lemma SlotWithin(hd: Header, q: nat)
    requires hd.origin <= q && hd.size > 0
    ensures Slot(hd, q) < hd.size
  {
    Euclid(q - hd.origin, hd.size);
  }

  lemma ReadKeeps<T>(s: State<T>, t: nat, a: Pos, e: Pos, h: nat, slot: nat, b: nat, o: nat)
    requires Inv(s) && t < |s.c| && s.c[t] == CRead(a, e, h, slot, b, o) && ConsumerOk(s.m, s.c[t])
    ensures Inv(State(s.m, s.c[t := ConsumeStep(s.m, s.c[t]).1]))
  {
    MoveKeeps(s, t, ConsumeStep(s.m, s.c[t]).1);
  }

  /** Marking offset o - 1 of the block of number q0 changes that flag and nothing else of the ring. */
  lemma FlagEffect<T>(m: Mem<T>, q0: nat, o: nat, q: nat)
    requires Ring(m) && Live(m, q0) && RingAt(m, q0) && 1 <= o <= m.bs && Live(m, q)
    ensures var m' := SetFlag(m, m.hist[q0], o);
            && RingAt(m, q) && RingAt(m', q)
            && m'.blocks[m.hist[q]].data == m.blocks[m.hist[q]].data
            && (forall x :: 0 <= x < m.bs ==> (Flag(m', q, x) <==> Flag(m, q, x) || (q == q0 && x == o - 1)))
  {
    assert RingAt(m, q);
    assert q < q0 ==> m.hist[q] != m.hist[q0];
    assert q0 < q ==> m.hist[q0] != m.hist[q];
  }

  lemma FlagKeepsRing<T>(m: Mem<T>, q0: nat, o: nat)
    requires Ring(m) && Live(m, q0) && RingAt(m, q0) && 1 <= o <= m.bs
    ensures Ring(SetFlag(m, m.hist[q0], o))
  {
    var m' := SetFlag(m, m.hist[q0], o);
    forall q | m.lo <= q < |m.hist| ensures RingAt(m', q) { FlagEffect(m, q0, o, q); }
  }

  /** A block index stays good while the ring only gains newer and loses older blocks. */
  lemma HeaderFrame<T>(m: Mem<T>, m': Mem<T>, h: nat)
    requires h < |m.headers| && h < |m'.headers| && HeaderAt(m, h)
    requires m'.headers[h] == m.headers[h] && m'.bs == m.bs && m.lo <= m'.lo && m.hist <= m'.hist
    ensures HeaderAt(m', h)
  {
    forall q | m'.lo <= q <= m.headers[h].top ensures EntryAt(m', h, q) {
      assert EntryAt(m, h, q);
    }
  }

  lemma OwnsBelowHead<T>(m: Mem<T>, pc: Consumer, p: Pos)
    requires Ring(m) && ConsumerOk(m, pc) && Owns(pc, p)
    ensures Less(p, m.head)
  {
  }

  lemma FlagKeepsMem<T>(m: Mem<T>, q0: nat, o: nat)
    requires MemOk(m) && Live(m, q0) && RingAt(m, q0) && 1 <= o <= m.bs && Less(Pos(q0, o - 1), m.head)
    ensures MemOk(SetFlag(m, m.hist[q0], o))
  {
    var m' := SetFlag(m, m.hist[q0], o);
    FlagKeepsRing(m, q0, o);
    forall q | m.lo <= q < |m.hist| ensures FlagsAt(m', q) && DataAt(m', q) {
      FlagEffect(m, q0, o, q);
      assert FlagsAt(m, q) && DataAt(m, q);
    }
    forall h | 0 <= h < |m.headers| ensures HeaderAt(m', h) { HeaderFrame(m, m', h); }
    FlagKeepsPc(m, q0, o);
  }

  lemma FlagKeepsPc<T>(m: Mem<T>, q0: nat, o: nat)
    requires Shaped(m) && Ring(m) && PcOk(m) && Live(m, q0) && RingAt(m, q0) && 1 <= o <= m.bs
    requires Ring(SetFlag(m, m.hist[q0], o))
    ensures Shaped(SetFlag(m, m.hist[q0], o)) && PcOk(SetFlag(m, m.hist[q0], o))
  {
    var m' := SetFlag(m, m.hist[q0], o);
    if m.p.PScan? { assert RingAt(m', m.lo); }
  }

  lemma FlagKeepsOther<T>(m: Mem<T>, q0: nat, o: nat, pc: Consumer)
    requires MemOk(m) && Live(m, q0) && RingAt(m, q0) && 1 <= o <= m.bs
    requires ConsumerOk(m, pc) && !Owns(pc, Pos(q0, o - 1)) && Ring(SetFlag(m, m.hist[q0], o))
    ensures ConsumerOk(SetFlag(m, m.hist[q0], o), pc)
  {
    if Holding(pc) { FlagKeepsClear(m, q0, o, pc); }
  }

  lemma FlagKeepsClear<T>(m: Mem<T>, q0: nat, o: nat, pc: Consumer)
    requires Ring(m) && Live(m, q0) && RingAt(m, q0) && 1 <= o <= m.bs
    requires OwnsClear(m, pc) && !Owns(pc, Pos(q0, o - 1)) && Ring(SetFlag(m, m.hist[q0], o))
    ensures OwnsClear(SetFlag(m, m.hist[q0], o), pc)
  {
    var m' := SetFlag(m, m.hist[q0], o);
    forall q: nat, x: nat | Live(m', q) && RingAt(m', q) && 0 <= x < m.bs && Owns(pc, Pos(q, x)) ensures !Flag(m', q, x) {
      FlagEffect(m, q0, o, q);
      assert !Flag(m, q, x);
    }
  }

  /** After the marked element, the dequeuer owns exactly the rest of its claim. */
  lemma AfterFlagOk<T>(m: Mem<T>, a: Pos, e: Pos, h: nat, slot: nat, b: nat, o: nat)
    requires MemOk(m) && ConsumerOk(m, CFlag(a, e, h, slot, b, o)) && HeaderAt(m, h)
    ensures var pc' := AfterFlag(a, e, h, slot, b, o, m.bs, m.headers[h].size);
            && ConsumerOk(m, pc')
            && (forall p :: Owns(pc', p) ==> Owns(CFlag(a, e, h, slot, b, o), p) && p != Pos(a.q, o - 1))
  {
    var pc' := AfterFlag(a, e, h, slot, b, o, m.bs, m.headers[h].size);
    var pc := CFlag(a, e, h, slot, b, o);
    if pc'.CLoadBlock? { SlotStep(m.headers[h], a.q); }
    AfterFlagOwns(a, e, h, slot, b, o, m.bs, m.headers[h].size);
    LessIsClear(m, pc, pc');
  }

  lemma AfterFlagOwns(a: Pos, e: Pos, h: nat, slot: nat, b: nat, o: nat, bs: nat, size: nat)
    requires size > 0 && a.o < bs && e.o < bs && Less(a, e) && a.o < o <= Stop(a, e, bs)
    ensures var pc' := AfterFlag(a, e, h, slot, b, o, bs, size);
            forall p :: Owns(pc', p) ==> Owns(CFlag(a, e, h, slot, b, o), p) && p != Pos(a.q, o - 1)
  {
  }

  /** Whoever owns less owns nothing that is marked. */
  lemma LessIsClear<T>(m: Mem<T>, pc: Consumer, pc': Consumer)
    requires Ring(m) && OwnsClear(m, pc) && forall p :: Owns(pc', p) ==> Owns(pc, p)
    ensures OwnsClear(m, pc')
  {
  }

  lemma SlotStep(hd: Header, q: nat)
    requires hd.origin <= q && hd.size > 0
    ensures Ahead(Slot(hd, q), 1, hd.size) == Slot(hd, q + 1)
  {
    Euclid(q - hd.origin, hd.size);
    AheadIsMod(Slot(hd, q), 1, hd.size);
    ModEarly(q - hd.origin, 1, hd.size);
  }

  lemma FlagKeeps<T>(s: State<T>, t: nat, a: Pos, e: Pos, h: nat, slot: nat, b: nat, o: nat)
    requires Inv(s) && t < |s.c| && s.c[t] == CFlag(a, e, h, slot, b, o) && ConsumerOk(s.m, s.c[t])
    ensures CanConsume(s.m, s.c[t])
    ensures !Flag(s.m, a.q, o - 1)
    ensures var (m', pc') := ConsumeStep(s.m, s.c[t]); Inv(State(m', s.c[t := pc']))
  {
    assert HeaderAt(s.m, h) && RingAt(s.m, a.q);
    assert Owns(s.c[t], Pos(a.q, o - 1));
    FlagKeepsMem(s.m, a.q, o);
    AfterFlagOk(s.m, a, e, h, slot, b, o);
    var pc' := AfterFlag(a, e, h, slot, b, o, s.m.bs, s.m.headers[h].size);
    FlagKeepsOthers(s, t, a.q, o, pc');
    StaysDisjoint(s, t, pc');
    Assembled(SetFlag(s.m, b, o), s.c[t := pc']);
  }

  lemma Assembled<T>(m: Mem<T>, c: seq<Consumer>)
    requires MemOk(m) && (forall t :: 0 <= t < |c| ==> ConsumerOk(m, c[t]))
    requires forall t, u :: 0 <= t < u < |c| ==> Disjoint(c, t, u)
    ensures Inv(State(m, c))
  {
  }

  lemma FlagKeepsOthers<T>(s: State<T>, t: nat, q0: nat, o: nat, pc': Consumer)
    requires Inv(s) && t < |s.c| && Live(s.m, q0) && RingAt(s.m, q0) && 1 <= o <= s.m.bs
    requires Owns(s.c[t], Pos(q0, o - 1)) && MemOk(SetFlag(s.m, s.m.hist[q0], o))
    requires ConsumerOk(s.m, pc') && !Owns(pc', Pos(q0, o - 1))
    ensures var c' := s.c[t := pc'];
            forall u :: 0 <= u < |c'| ==> ConsumerOk(SetFlag(s.m, s.m.hist[q0], o), c'[u])
  {
    var c' := s.c[t := pc'];
    forall u | 0 <= u < |c'| ensures ConsumerOk(SetFlag(s.m, s.m.hist[q0], o), c'[u]) {
      if u != t { assert Disjoint(s.c, if u < t then u else t, if u < t then t else u); }
      FlagKeepsOther(s.m, q0, o, c'[u]);
    }
  }

  lemma StaysDisjoint<T>(s: State<T>, t: nat, pc': Consumer)
    requires Inv(s) && t < |s.c| && forall p :: Owns(pc', p) ==> Owns(s.c[t], p)
    ensures var c' := s.c[t := pc']; forall u, v :: 0 <= u < v < |c'| ==> Disjoint(c', u, v)
  {
    var c' := s.c[t := pc'];
    forall u, v | 0 <= u < v < |c'| ensures Disjoint(c', u, v) {
      assert Disjoint(s.c, u, v);
    }
  }

  lemma ClaimKeeps<T>(s: State<T>, t: nat, e: Pos)
    requires Inv(s) && t < |s.c| && s.c[t] == CIdle && e.o < s.m.bs && Less(s.m.head, e) && AtMost(e, s.m.tail)
    ensures Inv(State(s.m.(head := e), s.c[t := CLoadIndex(s.m.head, e)]))
  {
    var m' := s.m.(head := e);
    var pc' := CLoadIndex(s.m.head, e);
    var c' := s.c[t := pc'];
    ClaimKeepsMem(s.m, e);
    ClaimOk(s.m, e);
    forall u | 0 <= u < |c'| ensures ConsumerOk(m', c'[u]) {
      if u != t { ClaimKeepsOther(s.m, e, c'[u]); }
    }
    ClaimDisjoint(s, t, e);
  }

  /** Indices from the head on are owned by nobody. */
  lemma ClaimDisjoint<T>(s: State<T>, t: nat, e: Pos)
    requires Inv(s) && t < |s.c|
    ensures var c' := s.c[t := CLoadIndex(s.m.head, e)]; forall u, v :: 0 <= u < v < |c'| ==> Disjoint(c', u, v)
  {
    var c' := s.c[t := CLoadIndex(s.m.head, e)];
    forall u, v | 0 <= u < v < |c'| ensures Disjoint(c', u, v) {
      assert Disjoint(s.c, u, v);
      forall p | Owns(c'[u], p) && Owns(c'[v], p) ensures false {
        OwnsBelowHead(s.m, s.c[if u == t then v else u], p);
      }
    }
  }

  lemma ClaimKeepsOther<T>(m: Mem<T>, e: Pos, pc: Consumer)
    requires Ring(m) && Less(m.head, e) && ConsumerOk(m, pc) && Ring(m.(head := e))
    ensures ConsumerOk(m.(head := e), pc)
  {
    var m' := m.(head := e);
    forall q: nat, o: nat | Live(m', q) && RingAt(m', q) && 0 <= o < m.bs && Owns(pc, Pos(q, o)) ensures !Flag(m', q, o) {
      assert RingAt(m, q);
      assert !Flag(m, q, o);
    }
  }

  lemma ClaimKeepsMem<T>(m: Mem<T>, e: Pos)
    requires MemOk(m) && e.o < m.bs && Less(m.head, e) && AtMost(e, m.tail)
    ensures MemOk(m.(head := e))
  {
    var m' := m.(head := e);
    forall q | m.lo <= q < |m.hist| ensures RingAt(m', q) { assert RingAt(m, q); }
    forall q | m.lo <= q < |m.hist| ensures FlagsAt(m', q) && DataAt(m', q) { ClaimKeepsBlock(m, e, q); }
    forall h | 0 <= h < |m.headers| ensures HeaderAt(m', h) { HeaderFrame(m, m', h); }
  }

  lemma ClaimOk<T>(m: Mem<T>, e: Pos)
    requires MemOk(m) && MemOk(m.(head := e)) && e.o < m.bs && Less(m.head, e) && AtMost(e, m.tail)
    ensures ConsumerOk(m.(head := e), CLoadIndex(m.head, e))
  {
    var m' := m.(head := e);
    forall q: nat, o: nat | Live(m', q) && RingAt(m', q) && 0 <= o < m.bs && Owns(CLoadIndex(m.head, e), Pos(q, o))
      ensures !Flag(m', q, o)
    {
      assert FlagsAt(m, q);
      assert !Flag(m, q, o);
    }
  }

  lemma ClaimKeepsBlock<T>(m: Mem<T>, e: Pos, q: nat)
    requires Live(m, q) && RingAt(m, q) && |m.log| == |m.hist| && FlagsAt(m, q) && DataAt(m, q) && Less(m.head, e)
    ensures RingAt(m.(head := e), q) && FlagsAt(m.(head := e), q) && DataAt(m.(head := e), q)
  {
    var m' := m.(head := e);
    forall o | 0 <= o < m.bs && AtMost(e, Pos(q, o)) ensures !Flag(m', q, o) {
      assert !Flag(m, q, o);
    }
  }

  // ---------------------------------------------------------------- the enqueuer keeps the invariant

  /** How the enqueuer may change what dequeuers rely on. */
  ghost predicate Extends<T>(m: Mem<T>, m': Mem<T>)
    requires Ring(m) && Ring(m')
  {
    && m'.bs == m.bs && m'.head == m.head && m.hist <= m'.hist && m.lo <= m'.lo
    && |m.headers| <= |m'.headers| && (m.tail != Pos(0, 0) ==> m'.tail != Pos(0, 0))
    && (forall h :: 0 <= h < |m.headers| ==>
          && m'.headers[h].size == m.headers[h].size && m'.headers[h].origin == m.headers[h].origin
          && m.headers[h].top <= m'.headers[h].top)
    && (forall q, o :: m'.lo <= q < |m.hist| && RingAt(m, q) && RingAt(m', q) && 0 <= o < m.bs ==>
          Flag(m', q, o) == Flag(m, q, o))
  }

  lemma ConsumerFrame<T>(m: Mem<T>, m': Mem<T>, pc: Consumer)
    requires Ring(m) && Ring(m') && Extends(m, m') && ConsumerOk(m, pc) && (Holding(pc) ==> m'.lo <= pc.a.q)
    ensures ConsumerOk(m', pc)
  {
    if Holding(pc) {
      forall q: nat, o: nat | Live(m', q) && RingAt(m', q) && 0 <= o < m.bs && Owns(pc, Pos(q, o)) ensures !Flag(m', q, o) {
        assert q < |m.hist|;
        assert RingAt(m, q);
        assert !Flag(m, q, o);
      }
    }
  }

  /** A block whose contents and place in the ring did not change. */
  lemma BlockFrame<T>(m: Mem<T>, m': Mem<T>, q: nat)
    requires Live(m, q) && RingAt(m, q) && |m.log| == |m.hist| && FlagsAt(m, q) && DataAt(m, q)
    requires Live(m', q) && RingAt(m', q) && |m'.log| == |m'.hist|
    requires m'.bs == m.bs && m'.head == m.head && m'.hist[q] == m.hist[q] && m'.log[q] == m.log[q]
    requires m'.blocks[m.hist[q]].flags == m.blocks[m.hist[q]].flags
    requires m'.blocks[m.hist[q]].data == m.blocks[m.hist[q]].data
    ensures FlagsAt(m', q) && DataAt(m', q)
    ensures forall o :: 0 <= o < m.bs ==> Flag(m', q, o) == Flag(m, q, o)
  {
    forall o | 0 <= o < m.bs ensures Flag(m', q, o) == Flag(m, q, o) {
    }
  }

  /** Steps that change neither blocks nor headers nor history. */
  lemma PlainKeeps<T>(m: Mem<T>, m': Mem<T>)
    requires MemOk(m) && m' == m.(p := m'.p, tail := m'.tail) && (m.tail != Pos(0, 0) ==> m'.tail != Pos(0, 0))
    requires Shaped(m') && CountsOk(m') && LogOk(m')
    requires Ring(m') ==> PcOk(m')
    ensures MemOk(m') && Extends(m, m')
  {
    forall q | m.lo <= q < |m.hist| ensures RingAt(m', q) { assert RingAt(m, q); }
    forall q | m.lo <= q < |m.hist| ensures FlagsAt(m', q) && DataAt(m', q) {
      assert FlagsAt(m, q) && DataAt(m, q);
      BlockFrame(m, m', q);
    }
    forall q, o | m'.lo <= q < |m.hist| && RingAt(m, q) && RingAt(m', q) && 0 <= o < m.bs
      ensures Flag(m', q, o) == Flag(m, q, o)
    {
      assert FlagsAt(m, q) && DataAt(m, q);
      BlockFrame(m, m', q);
    }
    forall h | 0 <= h < |m.headers| ensures HeaderAt(m', h) { HeaderFrame(m, m', h); }
  }

  lemma StartEnqueueKeeps<T>(m: Mem<T>, v: T)
    requires MemOk(m) && m.p.PIdle?
    ensures MemOk(StartEnqueue(m, v)) && Extends(m, StartEnqueue(m, v))
  {
    if m.hist != [] { assert RingAt(m, m.lo); }
    PlainKeeps(m, StartEnqueue(m, v));
  }

  lemma LoadHeadKeeps<T>(m: Mem<T>, v: T)
    requires MemOk(m) && m.p == PLoadHead(v)
    ensures MemOk(LoadHead(m, v)) && Extends(m, LoadHead(m, v))
  {
    PlainKeeps(m, LoadHead(m, v));
  }

  lemma StoreTailKeeps<T>(m: Mem<T>)
    requires MemOk(m) && m.p.PStoreTail?
    ensures MemOk(StoreTail(m)) && Extends(m, StoreTail(m))
  {
    PlainKeeps(m, StoreTail(m));
  }

  lemma StoreElementKeeps<T>(m: Mem<T>, v: T)
    requires MemOk(m) && m.p == PStoreElement(v)
    ensures CanProduce(m) && MemOk(StoreElement(m, v)) && Extends(m, StoreElement(m, v))
  {
    var n := |m.hist|;
    assert RingAt(m, n - 1);
    var m' := StoreElement(m, v);
    forall q | m.lo <= q < n
      ensures RingAt(m', q) && FlagsAt(m', q) && DataAt(m', q) && (forall o :: 0 <= o < m.bs ==> Flag(m', q, o) == Flag(m, q, o))
    {
      StoreElementBlock(m, v, q);
    }
    forall h | 0 <= h < |m.headers| ensures HeaderAt(m', h) { HeaderFrame(m, m', h); }
  }

  lemma StoreElementBlock<T>(m: Mem<T>, v: T, q: nat)
    requires MemOk(m) && m.p == PStoreElement(v) && Live(m, q) && CanProduce(m)
    ensures var m' := StoreElement(m, v);
            && RingAt(m', q) && |m'.log| == |m'.hist| && FlagsAt(m', q) && DataAt(m', q)
            && (forall o :: 0 <= o < m.bs ==> Flag(m', q, o) == Flag(m, q, o))
  {
    var m' := StoreElement(m, v);
    var n := |m.hist|;
    assert RingAt(m, q) && RingAt(m, n - 1) && FlagsAt(m, q) && DataAt(m, q);
    if q < n - 1 {
      assert m.hist[q] != m.hist[n - 1];
      BlockFrame(m, m', q);
    } else {
      forall o | 0 <= o < m.bs ensures Flag(m', q, o) == Flag(m, q, o) {
      }
    }
  }

  lemma SlotDistinct(hd: Header, q: nat, r: nat)
    requires hd.origin <= q < r < q + hd.size
    ensures Slot(hd, q) != Slot(hd, r)
  {
    if Slot(hd, q) == Slot(hd, r) { ModDistinct(q - hd.origin, r - hd.origin, hd.size); }
  }

  /** Writing the entry being prepared leaves every entry of the ring alone. */
  lemma SetEntryKeeps<T>(m: Mem<T>, e: Entry, p': Producer<T>)
    requires MemOk(m) && Publishing(m.p) && m.hist != [] && Publishing(p')
    requires var m' := SetEntry(m, e).(p := p'); Ring(m') ==> PcOk(m')
    ensures MemOk(SetEntry(m, e).(p := p')) && Extends(m, SetEntry(m, e).(p := p'))
  {
    var m' := SetEntry(m, e).(p := p');
    forall q | m.lo <= q < |m.hist|
      ensures RingAt(m', q) && FlagsAt(m', q) && DataAt(m', q) && (forall o :: 0 <= o < m.bs ==> Flag(m', q, o) == Flag(m, q, o))
    {
      assert RingAt(m, q) && FlagsAt(m, q) && DataAt(m, q);
      BlockFrame(m, m', q);
    }
    forall h | 0 <= h < |m.headers| ensures HeaderAt(m', h) {
      if h == Cur(m) { SetEntryHeader(m, e); } else { HeaderFrame(m, m', h); }
    }
  }

  lemma SetEntryHeader<T>(m: Mem<T>, e: Entry)
    requires MemOk(m) && Publishing(m.p) && m.hist != []
    ensures HeaderAt(SetEntry(m, e), Cur(m))
    ensures forall p' :: HeaderAt(SetEntry(m, e).(p := p'), Cur(m))
  {
    var h := Cur(m);
    assert HeaderAt(m, h);
    var hd := m.headers[h];
    forall p': Producer<T>, q | m.lo <= q <= hd.top
      ensures EntryAt(SetEntry(m, e), h, q) && EntryAt(SetEntry(m, e).(p := p'), h, q)
    {
      assert EntryAt(m, h, q);
      SlotDistinct(hd, q, hd.top + 1);
    }
  }

  lemma WriteBaseKeeps<T>(m: Mem<T>, v: T)
    requires MemOk(m) && m.p == PWriteBase(v)
    ensures MemOk(WriteBase(m, v)) && Extends(m, WriteBase(m, v))
  {
    SetEntryKeeps(m, m.headers[Cur(m)].entries[m.indexFront].(base := Wrap(m.tail.q * m.bs)), PWriteBlock(v));
  }

  lemma WriteBlockKeeps<T>(m: Mem<T>, v: T)
    requires MemOk(m) && m.p == PWriteBlock(v)
    ensures MemOk(WriteBlock(m, v)) && Extends(m, WriteBlock(m, v))
  {
    SetEntryKeeps(m, m.headers[Cur(m)].entries[m.indexFront].(block := m.tailBlock.id), PStoreFront(v));
  }

  lemma StoreFrontKeeps<T>(m: Mem<T>, v: T)
    requires MemOk(m) && m.p == PStoreFront(v)
    ensures MemOk(StoreFront(m, v)) && Extends(m, StoreFront(m, v))
  {
    var m' := StoreFront(m, v);
    var hd := m.headers[Cur(m)];
    SlotStep(hd, hd.top + 1);
    assert HeaderAt(m, Cur(m));
    assert |hd.entries| == hd.size;
    forall q | m.lo <= q < |m.hist|
      ensures RingAt(m', q) && FlagsAt(m', q) && DataAt(m', q) && (forall o :: 0 <= o < m.bs ==> Flag(m', q, o) == Flag(m, q, o))
    {
      assert RingAt(m, q) && FlagsAt(m, q) && DataAt(m, q);
      BlockFrame(m, m', q);
    }
    forall h | 0 <= h < |m.headers| ensures HeaderAt(m', h) {
      if h == Cur(m) { StoreFrontHeader(m, v); } else { HeaderFrame(m, m', h); }
    }
  }

  lemma StoreFrontHeader<T>(m: Mem<T>, v: T)
    requires MemOk(m) && m.p == PStoreFront(v)
    ensures HeaderAt(StoreFront(m, v), Cur(m))
  {
    var m' := StoreFront(m, v);
    var h := Cur(m);
    assert HeaderAt(m, h);
    var hd := m.headers[h];
    forall q | m.lo <= q <= m'.headers[h].top ensures EntryAt(m', h, q) {
      if q <= hd.top {
        assert EntryAt(m, h, q);
      }
    }
  }

  // Reusing the oldest block of the ring.

  /** The whole scan has succeeded: this step takes the block over. */
  predicate Reusing<T>(m: Mem<T>) {
    && CanProduce(m) && m.p.PScan? && m.p.i + 1 == m.bs && m.blocks[NextBlock(m)].flags[m.p.i]
  }

  lemma ReuseFacts<T>(m: Mem<T>)
    requires MemOk(m) && Reusing(m)
    ensures m.hist != [] && NextBlock(m) == m.hist[m.lo] && RingAt(m, m.lo)
    ensures forall o :: 0 <= o < m.bs ==> Flag(m, m.lo, o)
    ensures m.lo < m.head.q
  {
    assert RingAt(m, |m.hist| - 1) && RingAt(m, m.lo) && FlagsAt(m, m.lo);
    forall o | 0 <= o < m.bs ensures Flag(m, m.lo, o) {
      assert m.blocks[m.hist[m.lo]].flags[m.bs - 1 - o];
    }
    assert Flag(m, m.lo, m.bs - 1);
  }

  lemma ReuseBlock<T>(m: Mem<T>, q: nat)
    requires MemOk(m) && Reusing(m)
    ensures var m' := Scan(m, m.p.v, m.p.i);
            && (Live(m', q) ==> RingAt(m', q) && |m'.log| == |m'.hist| && FlagsAt(m', q) && DataAt(m', q))
            && (Live(m', q) && q < |m.hist| ==> RingAt(m, q) && forall o :: 0 <= o < m.bs ==> Flag(m', q, o) == Flag(m, q, o))
  {
    var m' := Scan(m, m.p.v, m.p.i);
    var n := |m.hist|;
    ReuseFacts(m);
    if Live(m', q) && q < n {
      assert RingAt(m, q) && FlagsAt(m, q) && DataAt(m, q);
      assert m.hist[m.lo] != m.hist[q];
      BlockFrame(m, m', q);
    }
  }

  lemma ReuseRing<T>(m: Mem<T>)
    requires MemOk(m) && Reusing(m)
    ensures Ring(Scan(m, m.p.v, m.p.i))
  {
    var m' := Scan(m, m.p.v, m.p.i);
    ReuseFacts(m);
    forall q: nat | m'.lo <= q < |m'.hist| ensures RingAt(m', q) { ReuseBlock(m, q); }
  }

  lemma ReuseKeeps<T>(m: Mem<T>)
    requires MemOk(m) && Reusing(m)
    ensures MemOk(Scan(m, m.p.v, m.p.i)) && Extends(m, Scan(m, m.p.v, m.p.i))
  {
    var m' := Scan(m, m.p.v, m.p.i);
    ReuseRing(m);
    ReuseCounts(m);
    forall q: nat | m'.lo <= q < |m'.hist| ensures FlagsAt(m', q) && DataAt(m', q) { ReuseBlock(m, q); }
    forall q: nat, o: nat | m'.lo <= q < |m.hist| && RingAt(m, q) && RingAt(m', q) && 0 <= o < m.bs
      ensures Flag(m', q, o) == Flag(m, q, o)
    {
      ReuseBlock(m, q);
    }
    forall h | 0 <= h < |m.headers| ensures HeaderAt(m', h) { HeaderFrame(m, m', h); }
  }

  lemma ReuseCounts<T>(m: Mem<T>)
    requires MemOk(m) && Reusing(m)
    ensures var m' := Scan(m, m.p.v, m.p.i); Shaped(m') && CountsOk(m') && |m'.log| == |m'.hist| && LogOk(m')
  {
    ReuseFacts(m);
    if m.lo + 1 < |m.hist| { assert RingAt(m, m.lo + 1); }
  }

  lemma ScanKeeps<T>(m: Mem<T>)
    requires MemOk(m) && m.p.PScan?
    ensures CanProduce(m) && MemOk(Scan(m, m.p.v, m.p.i)) && Extends(m, Scan(m, m.p.v, m.p.i))
  {
    assert RingAt(m, |m.hist| - 1) && RingAt(m, m.lo);
    if Reusing(m) { ReuseKeeps(m); } else { PlainKeeps(m, Scan(m, m.p.v, m.p.i)); }
  }

  /** A dequeuer still at work in the oldest block keeps it from being reused. */
  lemma ScanKeepsPinned<T>(m: Mem<T>, pc: Consumer)
    requires MemOk(m) && m.p.PScan? && CanProduce(m) && ConsumerOk(m, pc) && Holding(pc)
    ensures Scan(m, m.p.v, m.p.i).lo <= pc.a.q
  {
    if Reusing(m) {
      ReuseFacts(m);
      assert Owns(pc, pc.a);
    }
  }

  // Inserting a new block into the ring.

  lemma InsertBlock<T>(m: Mem<T>, v: T, sup: Supply<T>, q: nat)
    requires MemOk(m) && m.p == PRequisition(v) && sup.Fresh? && |sup.junk| == m.bs
    ensures var m' := Insert(m, v, sup);
            && (Live(m', q) ==> RingAt(m', q) && |m'.log| == |m'.hist| && FlagsAt(m', q) && DataAt(m', q))
            && (Live(m, q) ==> RingAt(m, q) && RingAt(m', q) && forall o :: 0 <= o < m.bs ==> Flag(m', q, o) == Flag(m, q, o))
  {
    var m' := Insert(m, v, sup);
    var n := |m.hist|;
    if n > 0 { assert RingAt(m, n - 1) && RingAt(m, m.lo); }
    if Live(m, q) {
      assert RingAt(m, q) && FlagsAt(m, q) && DataAt(m, q);
      assert q < n - 1 ==> m.hist[q] != m.hist[n - 1];
      assert RingAt(m', q);
      BlockFrame(m, m', q);
    }
  }

  lemma InsertRing<T>(m: Mem<T>, v: T, sup: Supply<T>)
    requires MemOk(m) && m.p == PRequisition(v) && sup.Fresh? && |sup.junk| == m.bs
    ensures var m' := Insert(m, v, sup);
            Ring(m') && forall q :: m'.lo <= q < |m'.hist| ==> FlagsAt(m', q) && DataAt(m', q)
  {
    var m' := Insert(m, v, sup);
    forall q: nat | m'.lo <= q < |m'.hist| ensures RingAt(m', q) && FlagsAt(m', q) && DataAt(m', q) {
      InsertBlock(m, v, sup, q);
    }
    InsertInjective(m, v, sup);
  }

  lemma InsertCounts<T>(m: Mem<T>, v: T, sup: Supply<T>)
    requires MemOk(m) && m.p == PRequisition(v) && sup.Fresh? && |sup.junk| == m.bs && Ring(Insert(m, v, sup))
    ensures var m' := Insert(m, v, sup); Shaped(m') && CountsOk(m') && LogOk(m') && PcOk(m')
  {
    if m.hist != [] { assert RingAt(m, |m.hist| - 1) && RingAt(m, m.lo); }
  }

  lemma InsertKeeps<T>(m: Mem<T>, v: T, sup: Supply<T>)
    requires MemOk(m) && m.p == PRequisition(v)
    ensures MemOk(Insert(m, v, sup)) && Extends(m, Insert(m, v, sup))
  {
    var m' := Insert(m, v, sup);
    if sup.NoMemory? || |sup.junk| != m.bs {
      PlainKeeps(m, m');
    } else {
      InsertRing(m, v, sup);
      InsertCounts(m, v, sup);
      forall q: nat, o: nat | m'.lo <= q < |m.hist| && RingAt(m, q) && RingAt(m', q) && 0 <= o < m.bs
        ensures Flag(m', q, o) == Flag(m, q, o)
      {
        InsertBlock(m, v, sup, q);
      }
      forall h | 0 <= h < |m.headers| ensures HeaderAt(m', h) { HeaderFrame(m, m', h); }
    }
  }

  lemma InsertInjective<T>(m: Mem<T>, v: T, sup: Supply<T>)
    requires MemOk(m) && m.p == PRequisition(v) && sup.Fresh? && |sup.junk| == m.bs
    ensures var h := Insert(m, v, sup).hist; forall q, r :: m.lo <= q < r < |h| ==> h[q] != h[r]
  {
    var h := Insert(m, v, sup).hist;
    forall q, r | m.lo <= q < r < |h| ensures h[q] != h[r] {
      assert RingAt(m, q);
    }
  }

  // Replacing a full block index by one of twice the size.

  /** Counting back `used` entries from the slot after block number top, then forward to block
      number q, reaches the slot of q. */
  lemma CountedSlot(hd: Header, used: nat, q: nat)
    requires hd.size > 0 && hd.origin <= q <= hd.top < q + used && used <= hd.size
    ensures var f := Slot(hd, hd.top + 1);
            f < hd.size && Ahead(Behind(f, used, hd.size), q + used - (hd.top + 1), hd.size) == Slot(hd, q)
  {
    var x := hd.top + 1 - hd.origin;
    Euclid(x, hd.size);
    BehindIsMod(x % hd.size, used, hd.size);
    AheadIsMod(Behind(x % hd.size, used, hd.size), q + used - (hd.top + 1), hd.size);
    ModEarly(x, 0 - used, hd.size);
    ModEarly(x - used, q + used - (hd.top + 1), hd.size);
  }

  lemma GrowEntry<T>(m: Mem<T>, v: T, sup: Supply<T>, q: nat)
    requires MemOk(m) && m.p == PGrow(v) && sup.Fresh? && 2 * m.headers[Cur(m)].size * m.bs <= WORD
    requires m.lo <= q < |m.hist|
    ensures EntryAt(Grow(m, v, sup), |m.headers|, q)
  {
    var h := Cur(m);
    var hd := m.headers[h];
    assert HeaderAt(m, h);
    assert EntryAt(m, h, q);
    CountedSlot(hd, m.slotsUsed, q);
    ModSmall(q - m.lo, 2 * hd.size);
  }

  lemma GrowHeader<T>(m: Mem<T>, v: T, sup: Supply<T>)
    requires MemOk(m) && m.p == PGrow(v) && sup.Fresh? && 2 * m.headers[Cur(m)].size * m.bs <= WORD
    ensures var m' := Grow(m, v, sup);
            HeaderAt(m', |m.headers|) && m'.indexFront == Slot(m'.headers[|m.headers|], |m.hist|)
  {
    var m' := Grow(m, v, sup);
    var hd := m.headers[Cur(m)];
    assert HeaderAt(m, Cur(m));
    IndexDoubles(m.bs, hd.size);
    ModSmall(m.slotsUsed - 1, 2 * hd.size);
    ModSmall(m.slotsUsed, 2 * hd.size);
    forall q: nat | m'.lo <= q <= hd.top ensures EntryAt(m', |m.headers|, q) { GrowEntry(m, v, sup, q); }
  }

  lemma GrowKeeps<T>(m: Mem<T>, v: T, sup: Supply<T>)
    requires MemOk(m) && m.p == PGrow(v)
    ensures MemOk(Grow(m, v, sup)) && Extends(m, Grow(m, v, sup))
  {
    var m' := Grow(m, v, sup);
    if m'.p.PIdle? {
      PlainKeeps(m, m');
    } else {
      GrowHeader(m, v, sup);
      forall q | m.lo <= q < |m.hist|
        ensures RingAt(m', q) && FlagsAt(m', q) && DataAt(m', q) && (forall o :: 0 <= o < m.bs ==> Flag(m', q, o) == Flag(m, q, o))
      {
        assert RingAt(m, q) && FlagsAt(m, q) && DataAt(m, q);
        BlockFrame(m, m', q);
      }
      forall h | 0 <= h < |m'.headers| ensures HeaderAt(m', h) {
        if h < |m.headers| { HeaderFrame(m, m', h); }
      }
    }
  }

  // ---------------------------------------------------------------- all runs

  lemma ProduceKeepsMem<T>(m: Mem<T>, sup: Supply<T>)
    requires MemOk(m)
    ensures CanProduce(m) && MemOk(ProduceStep(m, sup)) && Extends(m, ProduceStep(m, sup))
  {
    if m.hist != [] { assert RingAt(m, |m.hist| - 1) && RingAt(m, m.lo); }
    match m.p
    case PIdle => PlainKeeps(m, m);
    case PScan(v, i) => ScanKeeps(m);
    case PLoadHead(v) => LoadHeadKeeps(m, v);
    case PGrow(v) => GrowKeeps(m, v, sup);
    case PRequisition(v) => InsertKeeps(m, v, sup);
    case PWriteBase(v) => WriteBaseKeeps(m, v);
    case PWriteBlock(v) => WriteBlockKeeps(m, v);
    case PStoreFront(v) => StoreFrontKeeps(m, v);
    case PStoreElement(v) => StoreElementKeeps(m, v);
    case PStoreTail => StoreTailKeeps(m);
  }

  lemma ProduceKeeps<T>(s: State<T>, sup: Supply<T>)
    requires Inv(s)
    ensures CanProduce(s.m) && Inv(s.(m := ProduceStep(s.m, sup)))
  {
    ProduceKeepsMem(s.m, sup);
    var m' := ProduceStep(s.m, sup);
    forall t | 0 <= t < |s.c| ensures ConsumerOk(m', s.c[t]) {
      if s.m.p.PScan? && Holding(s.c[t]) { ScanKeepsPinned(s.m, s.c[t]); }
      ConsumerFrame(s.m, m', s.c[t]);
    }
  }

  lemma EnqueueKeeps<T>(s: State<T>, v: T)
    requires Inv(s) && s.m.p.PIdle?
    ensures Inv(s.(m := StartEnqueue(s.m, v)))
  {
    StartEnqueueKeeps(s.m, v);
    forall t | 0 <= t < |s.c| ensures ConsumerOk(StartEnqueue(s.m, v), s.c[t]) {
      ConsumerFrame(s.m, StartEnqueue(s.m, v), s.c[t]);
    }
  }

  lemma ConsumeKeeps<T>(s: State<T>, t: nat)
    requires Inv(s) && t < |s.c|
    ensures CanConsume(s.m, s.c[t])
    ensures var (m', pc') := ConsumeStep(s.m, s.c[t]); Inv(State(m', s.c[t := pc']))
  {
    assert ConsumerOk(s.m, s.c[t]);
    match s.c[t]
    case CIdle => assert s.c[t := CIdle] == s.c;
    case CNone(a, st) => NoneKeeps(s, t, a, st);
    case CLoadIndex(a, e) => MoveKeeps(s, t, CLoadFront(a, e, Cur(s.m)));
    case CLoadFront(a, e, h) => LoadFrontKeeps(s, t, a, e, h);
    case CLoadBase(a, e, h, f, qf) => LoadBaseKeeps(s, t, a, e, h, f, qf);
    case CLoadBlock(a, e, h, slot) => LoadBlockKeeps(s, t, a, e, h, slot);
    case CRead(a, e, h, slot, b, o) => ReadKeeps(s, t, a, e, h, slot, b, o);
    case CFlag(a, e, h, slot, b, o) => FlagKeeps(s, t, a, e, h, slot, b, o);
  }

  lemma DoKeeps<T>(s: State<T>, act: Action<T>)
    requires Inv(s)
    ensures Inv(Do(s, act))
  {
    match act
    case Enqueue(v) => if s.m.p.PIdle? { EnqueueKeeps(s, v); }
    case Produce(sup) => ProduceKeeps(s, sup);
    case Claim(t, e) =>
      if t < |s.c| && s.c[t] == CIdle {
        if e.o < s.m.bs && Less(s.m.head, e) && AtMost(e, s.m.tail) {
          ClaimKeeps(s, t, e);
        } else if e == s.m.head && s.m.tail != Pos(0, 0) {
          MoveKeeps(s, t, CNone(e, LoadIndex));
        }
      }
    case Consume(t) => if t < |s.c| { ConsumeKeeps(s, t); }
  }

  function Run<T>(s: State<T>, schedule: seq<Action<T>>): State<T> {
    if schedule == [] then s else Do(Run(s, schedule[..|schedule| - 1]), schedule[|schedule| - 1])
  }

  lemma {:induction false} RunInv<T>(bs: nat, size: nat, dequeuers: nat, schedule: seq<Action<T>>)
    requires IndexFits(bs, size)
    ensures Inv(Run(Start(bs, size, dequeuers), schedule))
  {
    if schedule == [] {
      var m := IndexTurns(bs, size);
      ModSmall(0, size);
    } else {
      RunInv(bs, size, dequeuers, schedule[..|schedule| - 1]);
      DoKeeps(Run(Start(bs, size, dequeuers), schedule[..|schedule| - 1]), schedule[|schedule| - 1]);
    }
  }

  /** What the block index promises to a dequeuer at pc. */
  ghost predicate Served<T>(m: Mem<T>, pc: Consumer) {
    match pc
    case CRead(a, _, _, _, b, o) =>
      // the element about to be moved out is the one that was enqueued under that index
      && a.q < |m.log| && o < |m.log[a.q]| && b < |m.blocks| && o < |m.blocks[b].data|
      && m.blocks[b].data[o] == m.log[a.q][o]
    case CFlag(a, _, _, _, b, o) =>
      // and it is not marked as dequeued before this dequeuer does so
      b < |m.blocks| && 1 <= o <= |m.blocks[b].flags| && !m.blocks[b].flags[|m.blocks[b].flags| - o]
    case CLoadBlock(a, _, h, slot) =>
      // the entry about to be read is that of the block whose base is the index rounded down
      && h < |m.headers| && slot < |m.headers[h].entries| && a.q < |m.hist|
      && m.headers[h].entries[slot] == Entry(Wrap(a.q * m.bs), m.hist[a.q])
    case CNone(_, LoadBase(h, f)) => h < |m.headers| && f < |m.headers[h].entries|
    case CNone(_, LoadBlock(h, slot)) => h < |m.headers| && slot < |m.headers[h].entries|
    case _ => true
  }

  /** In every run of enqueues and of single and bulk dequeues, through block reuse, block insertion,
      index growth, stale fronts and superseded indices, and with bulk calls that ask for nothing, a
      dequeuer finds the block of every index it has claimed, moves out the value enqueued under that
      index, and no two dequeuers own one index. */
  lemma LookupsServed<T>(bs: nat, size: nat, dequeuers: nat, schedule: seq<Action<T>>)
    requires IndexFits(bs, size)
    ensures var s := Run(Start(bs, size, dequeuers), schedule);
            && (forall t :: 0 <= t < |s.c| ==> Served(s.m, s.c[t]))
            && (forall t, u, p :: 0 <= t < u < |s.c| ==> !(Owns(s.c[t], p) && Owns(s.c[u], p)))
            && AtMost(s.m.head, s.m.tail)
  {
    var s := Run(Start(bs, size, dequeuers), schedule);
    RunInv(bs, size, dequeuers, schedule);
    forall t | 0 <= t < |s.c| ensures Served(s.m, s.c[t]) { InvServes(s, t); }
    forall t, u, p | 0 <= t < u < |s.c| ensures !(Owns(s.c[t], p) && Owns(s.c[u], p)) {
      assert Disjoint(s.c, t, u);
    }
  }

  lemma InvServes<T>(s: State<T>, t: nat)
    requires Inv(s) && t < |s.c|
    ensures Served(s.m, s.c[t])
  {
    assert ConsumerOk(s.m, s.c[t]);
    match s.c[t]
    case CRead(a, e, h, slot, b, o) => ReadsLogged(s.m, a, e, o);
    case CFlag(a, e, h, slot, b, o) =>
      assert RingAt(s.m, a.q);
      assert Owns(s.c[t], Pos(a.q, o - 1));
      assert !Flag(s.m, a.q, o - 1);
    case CLoadBlock(a, e, h, slot) =>
      assert HeaderAt(s.m, h);
      assert EntryAt(s.m, h, a.q);
    case CNone(a, st) => NoneNext(s.m, a, st);
    case _ =>
  }

  /** The same in plain indices: what a dequeuer moves out under index i is element number i of all
      elements ever enqueued, the base of the entry that it finds is i rounded down, and the head index
      does not pass the tail index. */
  lemma LookupsByIndex<T>(bs: nat, size: nat, dequeuers: nat, schedule: seq<Action<T>>, t: nat)
    requires IndexFits(bs, size)
    ensures var s := Run(Start(bs, size, dequeuers), schedule);
            && (t < |s.c| ==> ServedByIndex(s.m, s.c[t]))
            && Index(s.m.head, s.m.bs) <= Index(s.m.tail, s.m.bs)
  {
    var s := Run(Start(bs, size, dequeuers), schedule);
    RunInv(bs, size, dequeuers, schedule);
    PosIsIndex(s.m.tail, s.m.head, s.m.bs);
    if t < |s.c| { InvServesByIndex(s, t); }
  }

  ghost predicate ServedByIndex<T>(m: Mem<T>, pc: Consumer) {
    match pc
    case CRead(a, _, _, _, b, o) =>
      var i := Index(Pos(a.q, o), m.bs);
      && b < |m.blocks| && o < |m.blocks[b].data| && i < |Flat(m.log)| && m.blocks[b].data[o] == Flat(m.log)[i]
    case CLoadBlock(a, _, h, slot) =>
      && h < |m.headers| && slot < |m.headers[h].entries| && m.bs > 0
      && m.headers[h].entries[slot].base == Wrap(Index(a, m.bs) - Index(a, m.bs) % m.bs)
    case _ => true
  }

  lemma InvServesByIndex<T>(s: State<T>, t: nat)
    requires Inv(s) && t < |s.c|
    ensures ServedByIndex(s.m, s.c[t])
  {
    InvServes(s, t);
    assert ConsumerOk(s.m, s.c[t]);
    match s.c[t]
    case CRead(a, _, _, _, _, o) => FlatAt(s.m.log, s.m.bs, Pos(a.q, o));
    case CLoadBlock(a, _, _, _) => BaseIsRounded(a, s.m.bs);
    case _ =>
  }

  lemma ReadsLogged<T>(m: Mem<T>, a: Pos, e: Pos, o: nat)
    requires MemOk(m) && a.o <= o < Stop(a, e, m.bs) && e.o < m.bs && Less(a, e) && AtMost(e, m.head)
    requires m.lo <= a.q <= LastBlock(e) < |m.hist|
    ensures RingAt(m, a.q) && o < |m.log[a.q]| && m.blocks[m.hist[a.q]].data[o] == m.log[a.q][o]
  {
    assert RingAt(m, a.q) && DataAt(m, a.q);
    assert a.q < |m.hist| - 1 ==> |m.log[a.q]| == m.bs;
  }

  // ---------------------------------------------------------------- new_block_index

  /** The loop of new_block_index that copies the used entries of the old index, oldest first. It
      stops when it returns to the front slot, which happens exactly after the used entries. */
  method CopyEntries(entries: array<Entry>, front: nat, used: nat) returns (copy: array<Entry>, j: nat)
    requires 1 <= used <= entries.Length && front < entries.Length
    ensures fresh(copy) && copy.Length == 2 * entries.Length && j == used
    ensures copy[..] == Doubled(entries[..], Behind(front, used, entries.Length), used)
  {
    var n := entries.Length;
    var first := Behind(front, used, n);
    copy := new Entry[2 * n](_ => Entry(0, 0));
    j := 0;
    var i := first;
    while true
      invariant 0 <= j < used && i == Ahead(first, j, n)
      invariant forall k :: 0 <= k < j ==> copy[k] == entries[Ahead(first, k, n)]
      invariant forall k :: j <= k < 2 * n ==> copy[k] == Entry(0, 0)
      decreases used - j
    {
      copy[j] := entries[i];
      j := j + 1;
      i := Ahead(i, 1, n);
      if i == front { break; }
    }
  }
}
