/** The implicit producer of the concurrent queue: blocks taken from a shared pool and returned to
    it by the dequeuer of their last element, and a circular index of key/value entries through which
    dequeuers find the block of an element index they have claimed.

    One thread enqueues single elements; any number of threads dequeue, singly or in bulk. Every step
    is one access to memory that another thread may touch. Which indices a dequeuer may claim is
    decided by the ticket protocol (module TicketDequeue): consecutive ones, below the tail, none before
    the first element was enqueued, and none at all exactly for a bulk call that asks for nothing. */
module ImplicitProducer {
  import opened Arith
  import opened Words
  import opened Positions
  import Sets

  const INVALID_BLOCK_BASE: nat := 1

  datatype Ptr = Null | At(id: nat)
  datatype Block<T> = Block(count: nat, data: seq<T>)
  datatype Entry = Entry(key: nat, value: Ptr)

  /** Published once, except for the slot `tail`. The last three fields are never read by the code:
      block number q belongs in slot (q - origin) mod capacity, `top` is the newest block number that
      ever got a key here and `cur` the block number that the tail slot stands for (-1: none). */
  datatype Header = Header(capacity: nat, tail: nat, index: seq<nat>, origin: nat, top: int, cur: int)

  datatype Producer<T> =
    | PIdle
    | PLoadHead(v: T)
    | PProbe(v: T)
    | PGrow(v: T)
    | PStoreKey(v: T, grown: bool)
    | PStoreSlot(v: T)
    | PRequisition(v: T)
    | PRewind
    | PNullValue
    | PCommit(v: T, b: nat)
    | PStoreElement(v: T)
    | PStoreTail

  /** A dequeuer that has claimed the indices from a up to e. `qf` is never read by the code. */
  datatype Consumer =
    | CIdle
    | CLoadIndex(a: Pos, e: Pos)
    | CLoadTail(a: Pos, e: Pos, h: nat)
    | CLoadKey(a: Pos, e: Pos, h: nat, f: nat, qf: nat)
    | CLoadValue(a: Pos, e: Pos, h: nat, slot: nat)
    | CRead(a: Pos, e: Pos, h: nat, slot: nat, x: nat, b: nat, o: nat)
    | CCount(a: Pos, e: Pos, h: nat, slot: nat, x: nat, b: nat)
    | CNull(a: Pos, e: Pos, h: nat, slot: nat, x: nat, b: nat)
    | CFree(a: Pos, e: Pos, h: nat, slot: nat, b: nat)

  /** Active: some element not yet dequeued; Full: all dequeued, entry still set; Nulled: entry
      cleared, block not yet in the pool; Recycled: given back to the pool. */
  datatype Life = Active | Full | Nulled | Recycled

  /** The fields from `pool` on record history: the code reads `pool` only by asking it for a block.
      For block number q, ent[q] is its index entry, hist[q] its block, log[q] the values enqueued in
      it, dn[q] the offsets already counted as dequeued and life[q] its stage; block numbers below lo
      have given up their entry. */
  datatype Mem<T> = Mem(
    bs: nat,
    blocks: seq<Block<T>>,
    entries: seq<Entry>,
    headers: seq<Header>,
    tail: Pos,
    head: Pos,
    tailBlock: Ptr,
    p: Producer<T>,
    pool: set<nat>,
    ent: seq<nat>,
    hist: seq<nat>,
    log: seq<seq<T>>,
    dn: seq<set<nat>>,
    life: seq<Life>,
    lo: nat)

  datatype State<T> = State(m: Mem<T>, c: seq<Consumer>)

  /** What a memory request yields: nothing, a block of the pool, or new memory. */
  datatype Supply<T> = NoMemory | Pooled(b: nat) | Fresh(junk: seq<T>)

  datatype Action<T> =
    | Enqueue(v: T)
    | Produce(m: Supply<T>)
    | Claim(t: nat, max: nat, e: Pos)
    | Consume(t: nat)

  // ---------------------------------------------------------------- the enqueuer

  function Cur(s: Mem): nat requires s.headers != [] { |s.headers| - 1 }

  predicate Shaped<T>(s: Mem<T>) {
    && s.bs >= 2
    && s.headers != []
    && (forall h :: 0 <= h < |s.headers| ==>
          s.headers[h].capacity >= 1 && |s.headers[h].index| == s.headers[h].capacity)
    && s.headers[Cur(s)].tail < s.headers[Cur(s)].capacity
    && (forall h, i :: 0 <= h < |s.headers| && 0 <= i < |s.headers[h].index| ==> s.headers[h].index[i] < |s.entries|)
    && s.tail.o < s.bs
  }

  function StartEnqueue<T>(s: Mem<T>, v: T): Mem<T> {
    s.(p := if s.tail.o != 0 then PStoreElement(v) else PLoadHead(v))
  }

  function LoadHead<T>(s: Mem<T>, v: T): Mem<T> {
    if !CircularLessThan(Wrap(Index(s.head, s.bs)), Wrap(Index(s.tail, s.bs) + s.bs)) then s.(p := PIdle)
    else s.(p := PProbe(v))
  }

  /** The slot after the tail of the current index, and its entry. */
  function NextSlot<T>(s: Mem<T>): nat
    requires Shaped(s)
  {
    Ahead(s.headers[Cur(s)].tail, 1, s.headers[Cur(s)].capacity)
  }

  function NextEntry<T>(s: Mem<T>): nat
    requires Shaped(s)
  {
    s.headers[Cur(s)].index[NextSlot(s)]
  }

  /** insert_block_index_entry: is the next entry free? */
  function Probe<T>(s: Mem<T>, v: T): Mem<T>
    requires Shaped(s)
  {
    var x := s.entries[NextEntry(s)];
    s.(p := if x.key == INVALID_BLOCK_BASE || x.value.Null? then PStoreKey(v, false) else PGrow(v))
  }

  /** new_block_index: the old entries from the one after the tail on, then as many new ones. */
  function Grow<T>(s: Mem<T>, v: T, m: Supply<T>): Mem<T>
    requires Shaped(s)
  {
    var h := s.headers[Cur(s)];
    var n := h.capacity;
    if m.NoMemory? || 2 * n * s.bs > WORD then s.(p := PIdle)
    else
      var index := seq(2 * n, i => if 0 <= i < n then h.index[Ahead(h.tail, i + 1, n)] else |s.entries| + i - n);
      var h' := Header(2 * n, n - 1, index, s.lo, h.top, h.cur);
      s.(p := PStoreKey(v, true), headers := s.headers + [h'],
         entries := s.entries + seq(n, i => Entry(INVALID_BLOCK_BASE, At(0))))
  }

  function StoreKey<T>(s: Mem<T>, v: T): Mem<T>
    requires Shaped(s)
  {
    var x := NextEntry(s);
    var q := s.tail.q;
    var h := s.headers[Cur(s)];
    var s1 := s.(p := PStoreSlot(v), entries := s.entries[x := s.entries[x].(key := Wrap(q * s.bs))],
                 headers := s.headers[Cur(s) := h.(top := q)]);
    if |s.ent| == q
    then s1.(ent := s.ent + [x], lo := if s.lo + h.capacity == q then s.lo + 1 else s.lo)
    else s1
  }

  function StoreSlot<T>(s: Mem<T>, v: T): Mem<T>
    requires Shaped(s)
  {
    var h := s.headers[Cur(s)];
    s.(p := PRequisition(v), headers := s.headers[Cur(s) := h.(tail := NextSlot(s), cur := h.cur + 1)])
  }

  /** requisition_block, and resetting the counter of the block while it is private. */
  function Requisition<T>(s: Mem<T>, v: T, m: Supply<T>): Mem<T> {
    match m
    case NoMemory => s.(p := PRewind)
    case Pooled(b) =>
      if b in s.pool && b < |s.blocks|
      then s.(p := PCommit(v, b), pool := s.pool - {b}, blocks := s.blocks[b := s.blocks[b].(count := 0)])
      else s.(p := PRewind)
    case Fresh(junk) =>
      if |junk| == s.bs
      then s.(p := PCommit(v, |s.blocks|), blocks := s.blocks + [Block(0, junk)])
      else s.(p := PRewind)
  }

  /** rewind_block_index_tail */
  function Rewind<T>(s: Mem<T>): Mem<T>
    requires Shaped(s)
  {
    var h := s.headers[Cur(s)];
    s.(p := PNullValue, headers := s.headers[Cur(s) := h.(tail := Behind(h.tail, 1, h.capacity), cur := h.cur - 1)])
  }

  /** The entry that was being prepared is the one after the rewound tail. */
  function NullValue<T>(s: Mem<T>): Mem<T>
    requires Shaped(s)
  {
    var x := NextEntry(s);
    s.(p := PIdle, entries := s.entries[x := s.entries[x].(value := Null)])
  }

  function TailEntry<T>(s: Mem<T>): nat
    requires Shaped(s)
  {
    s.headers[Cur(s)].index[s.headers[Cur(s)].tail]
  }

  function Commit<T>(s: Mem<T>, v: T, b: nat): Mem<T>
    requires Shaped(s)
  {
    var x := TailEntry(s);
    s.(p := PStoreElement(v), entries := s.entries[x := s.entries[x].(value := At(b))], tailBlock := At(b),
       hist := s.hist + [b], log := s.log + [[]], dn := s.dn + [{}], life := s.life + [Active])
  }

  predicate CanStoreElement<T>(s: Mem<T>) {
    && s.tailBlock.At? && s.tailBlock.id < |s.blocks| && s.tail.o < |s.blocks[s.tailBlock.id].data|
    && s.log != []
  }

  function StoreElement<T>(s: Mem<T>, v: T): Mem<T>
    requires CanStoreElement(s)
  {
    var b := s.tailBlock.id;
    s.(blocks := s.blocks[b := s.blocks[b].(data := s.blocks[b].data[s.tail.o := v])],
       log := s.log[|s.log| - 1 := s.log[|s.log| - 1] + [v]], p := PStoreTail)
  }

  function StoreTail<T>(s: Mem<T>): Mem<T> {
    s.(tail := Succ(s.tail, s.bs), p := PIdle)
  }

  predicate CanProduce<T>(s: Mem<T>) {
    Shaped(s) && (s.p.PStoreElement? ==> CanStoreElement(s))
  }

  function ProduceStep<T>(s: Mem<T>, m: Supply<T>): Mem<T>
    requires CanProduce(s)
  {
    match s.p
    case PIdle => s
    case PLoadHead(v) => LoadHead(s, v)
    case PProbe(v) => Probe(s, v)
    case PGrow(v) => Grow(s, v, m)
    case PStoreKey(v, _) => StoreKey(s, v)
    case PStoreSlot(v) => StoreSlot(s, v)
    case PRequisition(v) => Requisition(s, v, m)
    case PRewind => Rewind(s)
    case PNullValue => NullValue(s)
    case PCommit(v, b) => Commit(s, v, b)
    case PStoreElement(v) => StoreElement(s, v)
    case PStoreTail => StoreTail(s)
  }

  // ---------------------------------------------------------------- the dequeuers

  /** get_block_index_index_for_index */
  function LoadKey<T>(s: Mem<T>, a: Pos, e: Pos, h: nat, f: nat): Consumer
    requires Shaped(s) && h < |s.headers| && f < s.headers[h].capacity
  {
    var key := s.entries[s.headers[h].index[f]].key;
    CLoadValue(a, e, h, SlotOf(f, key, Wrap(a.q * s.bs), s.bs, s.headers[h].capacity))
  }

  function LoadValue<T>(s: Mem<T>, a: Pos, e: Pos, h: nat, slot: nat): Consumer
    requires Shaped(s) && h < |s.headers| && slot < s.headers[h].capacity
    requires s.entries[s.headers[h].index[slot]].value.At?
  {
    var x := s.headers[h].index[slot];
    if a == e then CCount(a, e, h, slot, x, s.entries[x].value.id)
    else CRead(a, e, h, slot, x, s.entries[x].value.id, a.o)
  }

  /** Moves one element out (its value is data[o] of block b). */
  function Read(a: Pos, e: Pos, h: nat, slot: nat, x: nat, b: nat, o: nat, bs: nat): Consumer {
    if o + 1 < Stop(a, e, bs) then CRead(a, e, h, slot, x, b, o + 1) else CCount(a, e, h, slot, x, b)
  }

  /** The offsets of the claim in the block of a. */
  function Part(a: Pos, e: Pos, bs: nat): set<nat>
    requires a.o <= Stop(a, e, bs)
  {
    Sets.Between(a.o, Stop(a, e, bs))
  }

  /** set_empty / set_many_empty: one addition to the counter of the block. */
  function AddCount<T>(s: Mem<T>, a: Pos, e: Pos, b: nat): Mem<T>
    requires b < |s.blocks| && Stop(a, e, s.bs) >= a.o && a.q < |s.dn| == |s.life|
  {
    var n := s.blocks[b].count + (Stop(a, e, s.bs) - a.o);
    s.(blocks := s.blocks[b := s.blocks[b].(count := n)],
       dn := s.dn[a.q := s.dn[a.q] + Part(a, e, s.bs)],
       life := if n == s.bs then s.life[a.q := Full] else s.life)
  }

  function NextPart(a: Pos, e: Pos, h: nat, slot: nat, bs: nat, capacity: nat): Consumer {
    if AfterBlock(a, e, bs) == e then CIdle
    else CLoadValue(AfterBlock(a, e, bs), e, h, Ahead(slot, 1, capacity))
  }

  function ClearEntry<T>(s: Mem<T>, x: nat, q: nat): Mem<T>
    requires x < |s.entries| && q < |s.life|
  {
    s.(entries := s.entries[x := s.entries[x].(value := Null)], life := s.life[q := Nulled])
  }

  /** add_block_to_free_list */
  function GiveBack<T>(s: Mem<T>, b: nat, q: nat): Mem<T>
    requires q < |s.life|
  {
    s.(pool := s.pool + {b}, life := s.life[q := Recycled])
  }

  predicate CanConsume<T>(s: Mem<T>, pc: Consumer) {
    && Shaped(s) && |s.dn| == |s.life|
    && match pc
       case CLoadTail(_, _, h) => h < |s.headers|
       case CLoadKey(_, _, h, f, _) => h < |s.headers| && f < s.headers[h].capacity
       case CLoadValue(_, _, h, slot) =>
         && h < |s.headers| && slot < s.headers[h].capacity
         && s.entries[s.headers[h].index[slot]].value.At?
       case CCount(a, e, h, _, _, b) =>
         b < |s.blocks| && Stop(a, e, s.bs) >= a.o && a.q < |s.dn| && h < |s.headers|
       case CNull(a, _, _, _, x, _) => x < |s.entries| && a.q < |s.life|
       case CFree(a, _, h, _, _) => h < |s.headers| && a.q < |s.life|
       case _ => true
  }

  function ConsumeStep<T>(s: Mem<T>, pc: Consumer): (Mem<T>, Consumer)
    requires CanConsume(s, pc)
  {
    match pc
    case CIdle => (s, pc)
    case CLoadIndex(a, e) => (s, CLoadTail(a, e, Cur(s)))
    case CLoadTail(a, e, h) =>
      var hd := s.headers[h];
      (s, CLoadKey(a, e, h, hd.tail, if hd.cur < 0 then 0 else hd.cur))
    case CLoadKey(a, e, h, f, _) => (s, LoadKey(s, a, e, h, f))
    case CLoadValue(a, e, h, slot) => (s, LoadValue(s, a, e, h, slot))
    case CRead(a, e, h, slot, x, b, o) => (s, Read(a, e, h, slot, x, b, o, s.bs))
    case CCount(a, e, h, slot, x, b) =>
      var m' := AddCount(s, a, e, b);
      (m', if m'.blocks[b].count == s.bs then CNull(a, e, h, slot, x, b)
           else NextPart(a, e, h, slot, s.bs, s.headers[h].capacity))
    case CNull(a, e, h, slot, x, b) => (ClearEntry(s, x, a.q), CFree(a, e, h, slot, b))
    case CFree(a, e, h, slot, b) =>
      (GiveBack(s, b, a.q), NextPart(a, e, h, slot, s.bs, s.headers[h].capacity))
  }

  /** What the tickets let a call that asks for at most `max` elements claim: something if it asks for
      something, and nothing beyond the tail. */
  predicate CanClaim<T>(s: Mem<T>, max: nat, e: Pos) {
    && e.o < s.bs && AtMost(s.head, e) && AtMost(e, s.tail) && s.tail != Pos(0, 0)
    && (e == s.head <==> max == 0)
  }

  function Do<T>(s: State<T>, act: Action<T>): State<T> {
    match act
    case Enqueue(v) => if s.m.p.PIdle? then s.(m := StartEnqueue(s.m, v)) else s
    case Produce(m) => if CanProduce(s.m) then s.(m := ProduceStep(s.m, m)) else s
    case Claim(t, max, e) =>
      if t < |s.c| && s.c[t] == CIdle && CanClaim(s.m, max, e)
      then State(s.m.(head := e), s.c[t := CLoadIndex(s.m.head, e)])
      else s
    case Consume(t) =>
      if t < |s.c| && CanConsume(s.m, s.c[t])
      then var (m', pc') := ConsumeStep(s.m, s.c[t]); State(m', s.c[t := pc'])
      else s
  }

  /** The constructor: an index of `capacity` unused entries. */
  function Start<T>(bs: nat, capacity: nat, dequeuers: nat): State<T>
    requires capacity >= 1
  {
    State(Mem(bs, [], seq(capacity, i => Entry(INVALID_BLOCK_BASE, At(0))),
              [Header(capacity, capacity - 1, seq(capacity, i => i), 0, -1, -1)], Pos(0, 0), Pos(0, 0), Null,
              PIdle, {}, [], [], [], [], [], 0),
          seq(dequeuers, i => CIdle))
  }

  // ---------------------------------------------------------------- the invariant

  function Slot(h: Header, q: int): nat
    requires h.origin <= q + 1 && h.capacity > 0
  {
    (q - h.origin) % h.capacity
  }

  /** Sizes of the histories, and how far they run ahead of the tail. */
  predicate CountsOk<T>(s: Mem<T>)
    requires Shaped(s)
  {
    var hd := s.headers[Cur(s)];
    var n := |s.hist|;
    && |s.log| == |s.dn| == |s.life| == n
    && n <= |s.ent| <= n + 1 && s.lo <= n && |s.ent| - s.lo <= hd.capacity
    && s.head.o < s.bs && AtMost(s.head, s.tail)
    && n == s.tail.q + (if Unstarted(s) then 0 else 1)
    && hd.top == |s.ent| - 1
    && hd.cur == (if Reserved(s.p) then n else n - 1)
    && (if n == 0 then hd.origin == 0 else hd.origin < n) && hd.tail == Slot(hd, hd.cur)
    && (Opening(s.p) ==> s.tail.o == 0)
    && (Reserved(s.p) || s.p.PStoreSlot? || s.p.PNullValue? ==> |s.ent| == n + 1)
    && (s.p.PGrow? ==> |s.ent| == n && s.lo + hd.capacity == n)
    && (s.p.PStoreKey? && s.p.grown ==> |s.ent| == n < s.lo + hd.capacity)
    && (!Unstarted(s) ==> |s.ent| == n)
  }

  /** Program counters between the start of a new block and its commitment. */
  predicate Opening<T>(p: Producer<T>) {
    p.PLoadHead? || p.PProbe? || p.PGrow? || p.PStoreKey? || p.PStoreSlot? || p.PNullValue? || Reserved(p)
  }

  /** The tail slot of the index stands for a block that is not committed. */
  predicate Reserved<T>(p: Producer<T>) { p.PRequisition? || p.PRewind? || p.PCommit? }

  predicate Unstarted<T>(s: Mem<T>) { s.tail.o == 0 && (s.p.PIdle? || Opening(s.p)) }

  predicate LogOk<T>(s: Mem<T>)
    requires |s.log| == |s.hist|
  {
    var n := |s.hist|;
    && (forall q :: 0 <= q < n - 1 ==> |s.log[q]| == s.bs)
    && (n > 0 ==>
          |s.log[n - 1]| == (if s.p.PStoreTail? then s.tail.o + 1 else if Unstarted(s) then s.bs else s.tail.o))
    && (n > 0 && !Unstarted(s) ==> s.tailBlock == At(s.hist[n - 1]))
  }

  /** The entries of the block numbers from lo on: keyed with their base, and distinct. */
  predicate EntAt<T>(s: Mem<T>, q: nat)
    requires q < |s.ent|
  {
    s.ent[q] < |s.entries| && s.entries[s.ent[q]].key == Wrap(q * s.bs)
  }

  predicate EntsOk<T>(s: Mem<T>) {
    && (forall q :: s.lo <= q < |s.ent| ==> EntAt(s, q))
    && (forall q, r :: s.lo <= q < r < |s.ent| ==> s.ent[q] != s.ent[r])
  }

  /** Every index ever published finds the entries of all block numbers from lo up to its top. */
  predicate IndexAt<T>(s: Mem<T>, h: nat, q: nat)
    requires h < |s.headers| && q < |s.ent|
  {
    var hd := s.headers[h];
    && hd.origin <= q && hd.capacity > 0 && |hd.index| == hd.capacity
    && Slot(hd, q) < hd.capacity && hd.index[Slot(hd, q)] == s.ent[q]
  }

  ghost predicate HeaderAt<T>(s: Mem<T>, h: nat)
    requires h < |s.headers|
  {
    var hd := s.headers[h];
    && IndexFits(s.bs, hd.capacity) && -1 <= hd.cur <= hd.top < |s.ent|
    && (hd.cur >= 0 ==> hd.origin <= hd.cur && hd.tail == Slot(hd, hd.cur))
    && (forall q :: s.lo <= q <= hd.top ==> IndexAt(s, h, q))
  }

  /** The slots of the current index that no live block number uses hold unused entries. */
  predicate UnusedAt<T>(s: Mem<T>, q: nat)
    requires Shaped(s)
  {
    var hd := s.headers[Cur(s)];
    && hd.origin <= q && Slot(hd, q) < hd.capacity
    && s.entries[hd.index[Slot(hd, q)]].key == INVALID_BLOCK_BASE
  }

  predicate CurrentOk<T>(s: Mem<T>)
    requires Shaped(s)
  {
    var hd := s.headers[Cur(s)];
    && (forall i, j :: 0 <= i < j < |hd.index| ==> hd.index[i] != hd.index[j])
    && (forall q :: |s.ent| <= q < s.lo + hd.capacity ==> UnusedAt(s, q))
  }

  /** Block number q through its life. */
  ghost predicate LifeAt<T>(s: Mem<T>, q: nat)
    requires q < |s.hist| && |s.log| == |s.dn| == |s.life| == |s.hist| <= |s.ent| && s.bs > 0
  {
    && (forall o :: o in s.dn[q] ==> o < s.bs && Less(Pos(q, o), s.head))
    && (s.life[q].Active? <==> |s.dn[q]| != s.bs)
    && |s.dn[q]| <= s.bs
    && (!s.life[q].Recycled? ==>
          && s.hist[q] < |s.blocks| && s.hist[q] !in s.pool
          && s.blocks[s.hist[q]].count == |s.dn[q]| && |s.blocks[s.hist[q]].data| == s.bs)
    && (s.life[q].Active? ==>
          |s.log[q]| <= s.bs && forall o :: 0 <= o < |s.log[q]| ==> s.blocks[s.hist[q]].data[o] == s.log[q][o])
    && (q < s.lo ==> s.life[q].Nulled? || s.life[q].Recycled?)
    && (q >= s.lo && s.ent[q] < |s.entries| ==>
          s.entries[s.ent[q]].value == if s.life[q].Active? || s.life[q].Full? then At(s.hist[q]) else Null)
  }

  /** Blocks in use are distinct. */
  predicate BlocksApart<T>(s: Mem<T>)
    requires |s.life| == |s.hist|
  {
    forall q, r :: 0 <= q < r < |s.hist| && !s.life[q].Recycled? && !s.life[r].Recycled? ==> s.hist[q] != s.hist[r]
  }

  predicate PcOk<T>(s: Mem<T>)
    requires Shaped(s) && |s.life| == |s.hist|
  {
    && (s.p.PCommit? ==>
          var b := s.p.b;
          && b < |s.blocks| && b !in s.pool && s.blocks[b].count == 0 && |s.blocks[b].data| == s.bs
          && (forall q :: 0 <= q < |s.hist| && !s.life[q].Recycled? ==> s.hist[q] != b))
    && (forall b :: b in s.pool ==> b < |s.blocks| && |s.blocks[b].data| == s.bs)
    // an abandoned reservation leaves an empty entry behind
    && (|s.ent| == |s.hist| + 1 && (s.p.PIdle? || s.p.PLoadHead? || s.p.PProbe?) ==>
          s.ent[|s.hist|] < |s.entries| && s.entries[s.ent[|s.hist|]].value.Null?)
    && (s.p.PStoreKey? && |s.ent| == |s.hist| && s.lo + s.headers[Cur(s)].capacity == |s.hist| ==>
          s.lo < |s.life| && (s.life[s.lo].Nulled? || s.life[s.lo].Recycled?))
  }

  ghost predicate MemOk<T>(s: Mem<T>) {
    && Shaped(s) && CountsOk(s) && LogOk(s) && EntsOk(s) && CurrentOk(s) && BlocksApart(s) && PcOk(s)
    && (forall h :: 0 <= h < |s.headers| ==> HeaderAt(s, h))
    && (forall q :: 0 <= q < |s.hist| ==> LifeAt(s, q))
  }

  /** Claimed by a dequeuer at pc and not yet counted as dequeued. */
  predicate Owns(pc: Consumer, p: Pos) {
    match pc
    case CIdle => false
    case CNull(a, e, _, _, _, _) => p.q > a.q && Less(p, e)
    case CFree(a, e, _, _, _) => p.q > a.q && Less(p, e)
    case _ => AtMost(pc.a, p) && Less(p, pc.e)
  }

  /** The dequeuer of the last element of a block must retire it. */
  predicate Retires(pc: Consumer, q: nat) {
    (pc.CNull? || pc.CFree?) && pc.a.q == q
  }

  ghost predicate OwnsOpen<T>(s: Mem<T>, pc: Consumer)
    requires |s.dn| == |s.hist|
  {
    forall q, o :: 0 <= q && 0 <= o < s.bs && Owns(pc, Pos(q, o)) ==> q < |s.hist| && o !in s.dn[q]
  }

  ghost predicate ConsumerOk<T>(s: Mem<T>, pc: Consumer)
    requires Shaped(s) && |s.dn| == |s.life| == |s.hist| <= |s.ent|
  {
    !pc.CIdle? ==> (
      && pc.a.o < s.bs && pc.e.o < s.bs && Less(pc.a, pc.e) && AtMost(pc.e, s.head)
      && LastBlock(pc.e) < |s.hist|
      && OwnsOpen(s, pc)
      && (!pc.CLoadIndex? ==> pc.h < |s.headers| && LastBlock(pc.e) <= s.headers[pc.h].cur)
      && match pc
         case CLoadIndex(_, _) => true
         case CLoadTail(_, _, _) => true
         case CLoadKey(a, e, h, f, qf) =>
           var hd := s.headers[h];
           LastBlock(e) <= qf <= hd.top && hd.origin <= qf && f == Slot(hd, qf)
         case CLoadValue(a, e, h, slot) =>
           var hd := s.headers[h];
           hd.origin <= a.q && slot == Slot(hd, a.q)
         case CRead(a, e, h, slot, x, b, o) =>
           var hd := s.headers[h];
           hd.origin <= a.q && slot == Slot(hd, a.q) && x == s.ent[a.q] && b == s.hist[a.q]
           && a.o <= o < Stop(a, e, s.bs)
         case CCount(a, e, h, slot, x, b) =>
           var hd := s.headers[h];
           hd.origin <= a.q && slot == Slot(hd, a.q) && x == s.ent[a.q] && b == s.hist[a.q]
         case CNull(a, e, h, slot, x, b) =>
           var hd := s.headers[h];
           hd.origin <= a.q && slot == Slot(hd, a.q) && x == s.ent[a.q] && b == s.hist[a.q] && s.life[a.q].Full?
         case CFree(a, e, h, slot, b) =>
           var hd := s.headers[h];
           hd.origin <= a.q && slot == Slot(hd, a.q) && b == s.hist[a.q] && s.life[a.q].Nulled?)
  }

  ghost predicate Apart(c: seq<Consumer>, t: nat, u: nat)
    requires t < |c| && u < |c|
  {
    && (forall p :: !(Owns(c[t], p) && Owns(c[u], p)))
    && (forall q :: !(Retires(c[t], q) && Retires(c[u], q)))
  }

  ghost predicate Inv<T>(s: State<T>) {
    && MemOk(s.m)
    && (forall t :: 0 <= t < |s.c| ==> ConsumerOk(s.m, s.c[t]))
    && (forall t, u :: 0 <= t < u < |s.c| ==> Apart(s.c, t, u))
  }

  // ---------------------------------------------------------------- dequeuers keep the invariant

  /** Dequeuer t moves to pc' without touching shared memory. */
  lemma MoveKeeps<T>(s: State<T>, t: nat, pc': Consumer)
    requires Inv(s) && t < |s.c| && ConsumerOk(s.m, pc')
    requires forall p :: Owns(pc', p) ==> Owns(s.c[t], p)
    requires forall q :: Retires(pc', q) ==> Retires(s.c[t], q)
    ensures Inv(State(s.m, s.c[t := pc']))
  {
    var c' := s.c[t := pc'];
    forall u, v | 0 <= u < v < |c'| ensures Apart(c', u, v) {
      assert Apart(s.c, u, v);
    }
  }

  /** A block with an element that is not counted is in use, and keeps its entry. */
  lemma OpenIsActive<T>(m: Mem<T>, q: nat, o: nat)
    requires MemOk(m) && q < |m.hist| && o < m.bs && o !in m.dn[q]
    ensures m.life[q].Active? && m.lo <= q && EntAt(m, q)
    ensures m.entries[m.ent[q]].value == At(m.hist[q]) && m.hist[q] < |m.blocks|
  {
    assert LifeAt(m, q);
    if |m.dn[q]| == m.bs { Sets.FullSet(m.dn[q], m.bs, o); }
    assert EntAt(m, q);
  }

  /** The block of the first index of a claim that is not counted yet. */
  lemma ClaimIsOpen<T>(m: Mem<T>, pc: Consumer)
    requires MemOk(m) && ConsumerOk(m, pc) && !pc.CIdle? && !pc.CNull? && !pc.CFree?
    ensures pc.a.q < |m.hist| && pc.a.o !in m.dn[pc.a.q]
    ensures m.life[pc.a.q].Active? && m.lo <= pc.a.q && EntAt(m, pc.a.q)
    ensures m.entries[m.ent[pc.a.q]].value == At(m.hist[pc.a.q]) && m.hist[pc.a.q] < |m.blocks|
  {
    assert Owns(pc, Pos(pc.a.q, pc.a.o));
    OpenIsActive(m, pc.a.q, pc.a.o);
  }

  lemma LoadTailKeeps<T>(s: State<T>, t: nat, a: Pos, e: Pos, h: nat)
    requires Inv(s) && t < |s.c| && s.c[t] == CLoadTail(a, e, h) && ConsumerOk(s.m, s.c[t])
    ensures Inv(State(s.m, s.c[t := ConsumeStep(s.m, s.c[t]).1]))
  {
    assert HeaderAt(s.m, h);
    MoveKeeps(s, t, ConsumeStep(s.m, s.c[t]).1);
  }

  /** The slot computed by a dequeuer is the slot of its block, even from a stale tail. */
  lemma LookupSlot<T>(m: Mem<T>, h: nat, f: nat, qf: nat, q: nat)
    requires Shaped(m) && h < |m.headers| && HeaderAt(m, h) && EntsOk(m)
    requires m.lo <= q <= qf <= m.headers[h].top && m.headers[h].origin <= qf && f == Slot(m.headers[h], qf)
    ensures f < m.headers[h].capacity && m.headers[h].origin <= q
    ensures SlotOf(f, m.entries[m.headers[h].index[f]].key, Wrap(q * m.bs), m.bs, m.headers[h].capacity)
            == Slot(m.headers[h], q)
  {
    var hd := m.headers[h];
    assert IndexAt(m, h, q) && IndexAt(m, h, qf) && EntAt(m, qf);
    SlotIsSignedDistance(f, qf, q, m.bs, hd.capacity);
    ModEarly(qf - hd.origin, q - qf, hd.capacity);
  }

  lemma LoadKeyKeeps<T>(s: State<T>, t: nat, a: Pos, e: Pos, h: nat, f: nat, qf: nat)
    requires Inv(s) && t < |s.c| && s.c[t] == CLoadKey(a, e, h, f, qf) && ConsumerOk(s.m, s.c[t])
    ensures CanConsume(s.m, s.c[t])
    ensures Inv(State(s.m, s.c[t := ConsumeStep(s.m, s.c[t]).1]))
  {
    assert HeaderAt(s.m, h);
    ClaimIsOpen(s.m, s.c[t]);
    LookupSlot(s.m, h, f, qf, a.q);
    MoveKeeps(s, t, ConsumeStep(s.m, s.c[t]).1);
  }

  /** The assertion of the lookup: the entry found has the base of the index as key, and a block. */
  lemma LookupEntry<T>(m: Mem<T>, a: Pos, e: Pos, h: nat, slot: nat)
    requires MemOk(m) && ConsumerOk(m, CLoadValue(a, e, h, slot))
    ensures a.q < |m.hist| && slot < m.headers[h].capacity && m.headers[h].index[slot] == m.ent[a.q]
    ensures m.entries[m.headers[h].index[slot]] == Entry(Wrap(a.q * m.bs), At(m.hist[a.q]))
  {
    assert HeaderAt(m, h);
    ClaimIsOpen(m, CLoadValue(a, e, h, slot));
    assert IndexAt(m, h, a.q);
  }

  lemma LoadValueKeeps<T>(s: State<T>, t: nat, a: Pos, e: Pos, h: nat, slot: nat)
    requires Inv(s) && t < |s.c| && s.c[t] == CLoadValue(a, e, h, slot) && ConsumerOk(s.m, s.c[t])
    ensures CanConsume(s.m, s.c[t])
    ensures Inv(State(s.m, s.c[t := ConsumeStep(s.m, s.c[t]).1]))
  {
    LookupEntry(s.m, a, e, h, slot);
    MoveKeeps(s, t, ConsumeStep(s.m, s.c[t]).1);
  }

  lemma ReadKeeps<T>(s: State<T>, t: nat, a: Pos, e: Pos, h: nat, slot: nat, x: nat, b: nat, o: nat)
    requires Inv(s) && t < |s.c| && s.c[t] == CRead(a, e, h, slot, x, b, o) && ConsumerOk(s.m, s.c[t])
    ensures Inv(State(s.m, s.c[t := ConsumeStep(s.m, s.c[t]).1]))
  {
    MoveKeeps(s, t, ConsumeStep(s.m, s.c[t]).1);
  }

  /** A dequeuer changes neither the index nor the keys nor the history of the enqueuer. */
  ghost predicate SameIndex<T>(m: Mem<T>, m': Mem<T>) {
    && m'.bs == m.bs && m'.headers == m.headers && m'.tail == m.tail && m'.p == m.p && m'.tailBlock == m.tailBlock
    && m'.ent == m.ent && m'.hist == m.hist && m'.log == m.log && m'.lo == m.lo
    && |m'.dn| == |m.dn| && |m'.life| == |m.life| && |m'.entries| == |m.entries|
    && (forall x :: 0 <= x < |m.entries| ==> m'.entries[x].key == m.entries[x].key)
  }

  lemma IndexFrame<T>(m: Mem<T>, m': Mem<T>)
    requires MemOk(m) && SameIndex(m, m') && m'.head == m.head
    ensures Shaped(m') && CountsOk(m') && LogOk(m') && EntsOk(m') && CurrentOk(m')
    ensures forall h :: 0 <= h < |m'.headers| ==> HeaderAt(m', h)
  {
    forall q | m.lo <= q < |m.ent| ensures EntAt(m', q) { assert EntAt(m, q); }
    forall q | |m.ent| <= q < m.lo + m.headers[Cur(m)].capacity ensures UnusedAt(m', q) { assert UnusedAt(m, q); }
    forall h | 0 <= h < |m'.headers| ensures HeaderAt(m', h) {
      assert HeaderAt(m, h);
      forall q | m'.lo <= q <= m'.headers[h].top ensures IndexAt(m', h, q) { assert IndexAt(m, h, q); }
    }
  }

  lemma SlotStep(hd: Header, q: int)
    requires hd.origin <= q + 1 && hd.capacity > 0
    ensures Ahead(Slot(hd, q), 1, hd.capacity) == Slot(hd, q + 1)
  {
    Euclid(q - hd.origin, hd.capacity);
    AheadIsMod(Slot(hd, q), 1, hd.capacity);
    ModEarly(q - hd.origin, 1, hd.capacity);
  }

  /** The part of a claim after the block of a, looked up through the same index. */
  lemma NextPartOk<T>(m: Mem<T>, pc: Consumer)
    requires Shaped(m) && |m.dn| == |m.life| == |m.hist| <= |m.ent| && ConsumerOk(m, pc)
    requires pc.CCount? || pc.CNull? || pc.CFree?
    ensures var pc' := NextPart(pc.a, pc.e, pc.h, pc.slot, m.bs, m.headers[pc.h].capacity);
            && ConsumerOk(m, pc')
            && (forall p :: Owns(pc', p) ==> Owns(pc, p) && p.q > pc.a.q)
            && (forall q :: !Retires(pc', q))
  {
    var pc' := NextPart(pc.a, pc.e, pc.h, pc.slot, m.bs, m.headers[pc.h].capacity);
    SlotStep(m.headers[pc.h], pc.a.q);
    assert forall p :: Owns(pc', p) ==> Owns(pc, p) && p.q > pc.a.q;
  }

  // Counting elements as dequeued.

  predicate Sized<T>(m: Mem<T>) { Shaped(m) && |m.dn| == |m.life| == |m.hist| <= |m.ent| }

  /** What a dequeuer is about to count: elements of a block in use that nobody has counted. */
  ghost predicate Countable<T>(m: Mem<T>, pc: Consumer)
    requires Sized(m) && pc.CCount?
  {
    && pc.a.q < |m.dn| && pc.a.o < Stop(pc.a, pc.e, m.bs) <= m.bs
    && m.life[pc.a.q].Active? && m.hist[pc.a.q] < |m.blocks| && pc.b == m.hist[pc.a.q]
    && var part := Part(pc.a, pc.e, m.bs);
       && part !! m.dn[pc.a.q] && |m.dn[pc.a.q] + part| == |m.dn[pc.a.q]| + |part|
       && (forall o :: o in part ==> o < m.bs && Owns(pc, Pos(pc.a.q, o)) && Less(Pos(pc.a.q, o), m.head))
       && |m.dn[pc.a.q] + part| <= m.bs
       && m.blocks[pc.b].count == |m.dn[pc.a.q]|
  }

  lemma CountedPart<T>(m: Mem<T>, pc: Consumer)
    requires MemOk(m) && ConsumerOk(m, pc) && pc.CCount?
    ensures Sized(m) && Countable(m, pc)
  {
    ClaimIsOpen(m, pc);
    PartOpen(m, pc);
    assert LifeAt(m, pc.a.q);
    PartFits(m, pc);
  }

  lemma PartOpen<T>(m: Mem<T>, pc: Consumer)
    requires Sized(m) && ConsumerOk(m, pc) && pc.CCount? && pc.a.q < |m.dn|
    ensures pc.a.o < Stop(pc.a, pc.e, m.bs) <= m.bs && pc.b == m.hist[pc.a.q]
    ensures forall o :: o in Part(pc.a, pc.e, m.bs) ==>
              o < m.bs && Owns(pc, Pos(pc.a.q, o)) && Less(Pos(pc.a.q, o), m.head) && o !in m.dn[pc.a.q]
  {
    forall o | o in Part(pc.a, pc.e, m.bs) ensures Owns(pc, Pos(pc.a.q, o)) && o !in m.dn[pc.a.q] {
      assert Owns(pc, Pos(pc.a.q, o));
    }
  }

  lemma PartFits<T>(m: Mem<T>, pc: Consumer)
    requires Sized(m) && pc.CCount? && pc.a.q < |m.hist| && |m.log| == |m.hist| && LifeAt(m, pc.a.q)
    requires pc.a.o < Stop(pc.a, pc.e, m.bs)
    requires forall o :: o in Part(pc.a, pc.e, m.bs) ==> o < m.bs && o !in m.dn[pc.a.q]
    ensures var part := Part(pc.a, pc.e, m.bs);
            |m.dn[pc.a.q] + part| == |m.dn[pc.a.q]| + |part| && |m.dn[pc.a.q] + part| <= m.bs
  {
    var part := Part(pc.a, pc.e, m.bs);
    Sets.DisjointUnionSize(m.dn[pc.a.q], part);
    Sets.BoundedSize(m.dn[pc.a.q] + part, m.bs);
  }

  lemma CountKeepsLife<T>(m: Mem<T>, pc: Consumer, q: nat)
    requires MemOk(m) && ConsumerOk(m, pc) && pc.CCount? && q < |m.hist|
    requires CanConsume(m, pc)
    ensures LifeAt(AddCount(m, pc.a, pc.e, pc.b), q)
  {
    if q == pc.a.q {
      CountKeepsOwnLife(m, pc);
    } else {
      ClaimIsOpen(m, pc);
      assert LifeAt(m, q);
      BlocksDiffer(m, q, pc.a.q);
    }
  }

  lemma CountKeepsOwnLife<T>(m: Mem<T>, pc: Consumer)
    requires MemOk(m) && ConsumerOk(m, pc) && pc.CCount? && CanConsume(m, pc)
    ensures LifeAt(AddCount(m, pc.a, pc.e, pc.b), pc.a.q)
  {
    assert LifeAt(m, pc.a.q);
    CountedPart(m, pc);
    CountedLife(m, pc);
  }

  lemma CountedLife<T>(m: Mem<T>, pc: Consumer)
    requires Sized(m) && |m.log| == |m.hist| && pc.CCount? && CanConsume(m, pc) && Countable(m, pc)
    requires LifeAt(m, pc.a.q)
    ensures LifeAt(AddCount(m, pc.a, pc.e, pc.b), pc.a.q)
  {
  }

  lemma BlocksDiffer<T>(m: Mem<T>, q: nat, r: nat)
    requires |m.life| == |m.hist| && BlocksApart(m) && q < |m.hist| && r < |m.hist| && q != r
    ensures !m.life[q].Recycled? && !m.life[r].Recycled? ==> m.hist[q] != m.hist[r]
  {
  }

  lemma CountKeepsMem<T>(m: Mem<T>, pc: Consumer)
    requires MemOk(m) && ConsumerOk(m, pc) && pc.CCount? && CanConsume(m, pc)
    ensures MemOk(AddCount(m, pc.a, pc.e, pc.b))
  {
    var m' := AddCount(m, pc.a, pc.e, pc.b);
    IndexFrame(m, m');
    CountKeepsPc(m, pc);
    forall q | 0 <= q < |m.hist| ensures LifeAt(m', q) { CountKeepsLife(m, pc, q); }
  }

  lemma CountKeepsPc<T>(m: Mem<T>, pc: Consumer)
    requires MemOk(m) && ConsumerOk(m, pc) && pc.CCount? && CanConsume(m, pc)
    requires Shaped(AddCount(m, pc.a, pc.e, pc.b))
    ensures PcOk(AddCount(m, pc.a, pc.e, pc.b)) && BlocksApart(AddCount(m, pc.a, pc.e, pc.b))
  {
    ClaimIsOpen(m, pc);
    assert LifeAt(m, pc.a.q);
  }

  /** What another dequeuer owns stays uncounted. */
  lemma CountKeepsOpen<T>(m: Mem<T>, pc: Consumer, pd: Consumer)
    requires Sized(m) && pc.CCount? && CanConsume(m, pc) && Countable(m, pc) && OwnsOpen(m, pd)
    requires forall o :: o in Part(pc.a, pc.e, m.bs) ==> !Owns(pd, Pos(pc.a.q, o))
    ensures Sized(Counted(m, pc)) && OwnsOpen(Counted(m, pc), pd)
  {
    CountedSized(m, pc);
    var m' := Counted(m, pc);
    forall q, o | 0 <= q && 0 <= o < m.bs && Owns(pd, Pos(q, o)) ensures q < |m'.hist| && o !in m'.dn[q] {
      assert q < |m.hist| && o !in m.dn[q];
    }
  }

  lemma CountKeepsOther<T>(m: Mem<T>, pc: Consumer, pd: Consumer)
    requires Sized(m) && pc.CCount? && CanConsume(m, pc) && Countable(m, pc) && ConsumerOk(m, pd)
    requires forall p :: !(Owns(pc, p) && Owns(pd, p))
    ensures Sized(Counted(m, pc)) && ConsumerOk(Counted(m, pc), pd)
  {
    CountedSized(m, pc);
    if !pd.CIdle? { CountKeepsOpen(m, pc, pd); }
  }

  /** The memory after the addition, and what the dequeuer does next. */
  function Counted<T>(m: Mem<T>, pc: Consumer): Mem<T>
    requires pc.CCount? && CanConsume(m, pc)
  {
    AddCount(m, pc.a, pc.e, pc.b)
  }

  function CountNext<T>(m: Mem<T>, pc: Consumer): Consumer
    requires pc.CCount? && CanConsume(m, pc)
  {
    ConsumeStep(m, pc).1
  }

  lemma CountedSized<T>(m: Mem<T>, pc: Consumer)
    requires Sized(m) && pc.CCount? && CanConsume(m, pc)
    ensures Sized(Counted(m, pc)) && ConsumeStep(m, pc) == (Counted(m, pc), CountNext(m, pc))
  {
  }

  /** The next program counter, against the memory before the addition. */
  lemma CountNextOk<T>(m: Mem<T>, pc: Consumer)
    requires Sized(m) && ConsumerOk(m, pc) && pc.CCount? && CanConsume(m, pc) && Countable(m, pc)
    ensures var pc' := CountNext(m, pc);
            && (!pc'.CIdle? ==> OwnsOpen(m, pc'))
            && (forall p :: Owns(pc', p) ==> Owns(pc, p))
            && (forall q :: Retires(pc', q) ==> q == pc.a.q)
            && (forall o :: o in Part(pc.a, pc.e, m.bs) ==> !Owns(pc', Pos(pc.a.q, o)))
  {
    NextPartOk(m, pc);
  }

  lemma CountKeepsOwn<T>(m: Mem<T>, pc: Consumer)
    requires Sized(m) && ConsumerOk(m, pc) && pc.CCount? && CanConsume(m, pc) && Countable(m, pc)
    ensures Sized(Counted(m, pc)) && ConsumerOk(Counted(m, pc), CountNext(m, pc))
  {
    CountedSized(m, pc);
    CountNextOk(m, pc);
    NextPartOk(m, pc);
    if !CountNext(m, pc).CIdle? { CountKeepsOpen(m, pc, CountNext(m, pc)); }
  }

  lemma CountKeeps<T>(s: State<T>, t: nat)
    requires Inv(s) && t < |s.c| && s.c[t].CCount?
    ensures CanConsume(s.m, s.c[t])
    ensures var (m', pc') := ConsumeStep(s.m, s.c[t]); Inv(State(m', s.c[t := pc']))
  {
    var pc := s.c[t];
    assert ConsumerOk(s.m, pc);
    CountedPart(s.m, pc);
    CountKeepsMem(s.m, pc);
    CountKeepsOwn(s.m, pc);
    CountNextOk(s.m, pc);
    CountedKeeps(s, t);
  }

  lemma CountedKeeps<T>(s: State<T>, t: nat)
    requires Inv(s) && t < |s.c| && s.c[t].CCount? && CanConsume(s.m, s.c[t]) && Countable(s.m, s.c[t])
    requires MemOk(Counted(s.m, s.c[t])) && ConsumerOk(Counted(s.m, s.c[t]), CountNext(s.m, s.c[t]))
    requires forall p :: Owns(CountNext(s.m, s.c[t]), p) ==> Owns(s.c[t], p)
    requires forall q :: Retires(CountNext(s.m, s.c[t]), q) ==> q == s.c[t].a.q
    ensures var (m', pc') := ConsumeStep(s.m, s.c[t]); Inv(State(m', s.c[t := pc']))
  {
    var pc' := CountNext(s.m, s.c[t]);
    StepKeepsApart(s, t, pc');
    CountKeepsAll(s, t, pc');
    CountedSized(s.m, s.c[t]);
    Assembled(Counted(s.m, s.c[t]), s.c[t := pc']);
  }

  lemma Assembled<T>(m: Mem<T>, c: seq<Consumer>)
    requires MemOk(m) && (forall t :: 0 <= t < |c| ==> ConsumerOk(m, c[t]))
    requires forall t, u :: 0 <= t < u < |c| ==> Apart(c, t, u)
    ensures Inv(State(m, c))
  {
  }

  lemma CountKeepsAll<T>(s: State<T>, t: nat, pc': Consumer)
    requires Sized(s.m) && t < |s.c| && s.c[t].CCount? && CanConsume(s.m, s.c[t]) && Countable(s.m, s.c[t])
    requires forall u :: 0 <= u < |s.c| ==> ConsumerOk(s.m, s.c[u])
    requires forall u, v :: 0 <= u < v < |s.c| ==> Apart(s.c, u, v)
    requires Sized(Counted(s.m, s.c[t])) && ConsumerOk(Counted(s.m, s.c[t]), pc')
    ensures var c' := s.c[t := pc']; forall u :: 0 <= u < |c'| ==> ConsumerOk(Counted(s.m, s.c[t]), c'[u])
  {
    var c' := s.c[t := pc'];
    forall u | 0 <= u < |c'| ensures ConsumerOk(Counted(s.m, s.c[t]), c'[u]) {
      if u != t {
        assert Apart(s.c, if u < t then u else t, if u < t then t else u);
        CountKeepsOther(s.m, s.c[t], s.c[u]);
      }
    }
  }

  /** Dequeuer t may take over the duty to retire the block in which it has just counted. */
  lemma StepKeepsApart<T>(s: State<T>, t: nat, pc': Consumer)
    requires Inv(s) && t < |s.c| && !s.c[t].CIdle?
    requires forall p :: Owns(pc', p) ==> Owns(s.c[t], p)
    requires forall q :: Retires(pc', q) ==> q == s.c[t].a.q
    requires s.c[t].a.q < |s.m.life| && (s.m.life[s.c[t].a.q].Active? || Retires(s.c[t], s.c[t].a.q))
    ensures var c' := s.c[t := pc']; forall u, v :: 0 <= u < v < |c'| ==> Apart(c', u, v)
  {
    var c' := s.c[t := pc'];
    forall u, v | 0 <= u < v < |c'| ensures Apart(c', u, v) {
      assert Apart(s.c, u, v);
      assert ConsumerOk(s.m, s.c[u]) && ConsumerOk(s.m, s.c[v]);
    }
  }

  // Retiring a block.

  lemma NullKeepsMem<T>(m: Mem<T>, pc: Consumer)
    requires MemOk(m) && ConsumerOk(m, pc) && pc.CNull?
    ensures CanConsume(m, pc) && MemOk(ClearEntry(m, pc.x, pc.a.q))
  {
    var q0 := pc.a.q;
    assert LifeAt(m, q0);
    assert EntAt(m, q0);
    var m' := ClearEntry(m, pc.x, q0);
    IndexFrame(m, m');
    NullKeepsPc(m, pc.x, q0);
    forall q | 0 <= q < |m.hist| ensures LifeAt(m', q) { NullKeepsLife(m, pc, q); }
  }

  lemma NullKeepsPc<T>(m: Mem<T>, x: nat, q0: nat)
    requires Sized(m) && BlocksApart(m) && PcOk(m) && x < |m.entries| && q0 < |m.life| && m.life[q0].Full?
    requires Shaped(ClearEntry(m, x, q0))
    ensures BlocksApart(ClearEntry(m, x, q0)) && PcOk(ClearEntry(m, x, q0))
  {
  }

  lemma NullKeepsLife<T>(m: Mem<T>, pc: Consumer, q: nat)
    requires MemOk(m) && ConsumerOk(m, pc) && pc.CNull? && CanConsume(m, pc) && q < |m.hist|
    ensures LifeAt(ClearEntry(m, pc.x, pc.a.q), q)
  {
    var q0 := pc.a.q;
    assert LifeAt(m, q0) && LifeAt(m, q);
    assert m.lo <= q < q0 ==> m.ent[q] != m.ent[q0];
    assert q0 < q ==> m.ent[q0] != m.ent[q];
  }

  lemma NullKeeps<T>(s: State<T>, t: nat)
    requires Inv(s) && t < |s.c| && s.c[t].CNull?
    ensures CanConsume(s.m, s.c[t])
    ensures var (m', pc') := ConsumeStep(s.m, s.c[t]); Inv(State(m', s.c[t := pc']))
  {
    assert ConsumerOk(s.m, s.c[t]);
    NullKeepsMem(s.m, s.c[t]);
    var (m', pc') := ConsumeStep(s.m, s.c[t]);
    StepKeepsApart(s, t, pc');
    RetireKeepsOthers(s, t, m');
    assert OwnsOpen(m', pc');
  }

  lemma RetireKeepsOther<T>(m: Mem<T>, m': Mem<T>, q0: nat, pd: Consumer)
    requires MemOk(m) && ConsumerOk(m, pd) && q0 < |m.life| && !Retires(pd, q0)
    requires MemOk(m') && SameIndex(m, m') && m'.head == m.head && m'.dn == m.dn
    requires forall q :: 0 <= q < |m.life| && q != q0 ==> m'.life[q] == m.life[q]
    ensures ConsumerOk(m', pd)
  {
    if !pd.CIdle? { assert OwnsOpen(m', pd); }
  }

  lemma RetireKeepsOthers<T>(s: State<T>, t: nat, m': Mem<T>)
    requires Inv(s) && t < |s.c| && (s.c[t].CNull? || s.c[t].CFree?) && s.c[t].a.q < |s.m.life|
    requires MemOk(m') && SameIndex(s.m, m') && m'.head == s.m.head && m'.dn == s.m.dn
    requires forall q :: 0 <= q < |s.m.life| && q != s.c[t].a.q ==> m'.life[q] == s.m.life[q]
    ensures forall u :: 0 <= u < |s.c| && u != t ==> ConsumerOk(m', s.c[u])
  {
    forall u | 0 <= u < |s.c| && u != t ensures ConsumerOk(m', s.c[u]) {
      assert Apart(s.c, if u < t then u else t, if u < t then t else u);
      assert Retires(s.c[t], s.c[t].a.q);
      RetireKeepsOther(s.m, m', s.c[t].a.q, s.c[u]);
    }
  }

  lemma FreeKeepsMem<T>(m: Mem<T>, pc: Consumer)
    requires MemOk(m) && ConsumerOk(m, pc) && pc.CFree?
    ensures CanConsume(m, pc) && pc.b !in m.pool && MemOk(GiveBack(m, pc.b, pc.a.q))
  {
    var q0 := pc.a.q;
    assert LifeAt(m, q0);
    var m' := GiveBack(m, pc.b, q0);
    IndexFrame(m, m');
    FreeKeepsPc(m, q0);
    forall q | 0 <= q < |m.hist| ensures LifeAt(m', q) { FreeKeepsLife(m, pc, q); }
  }

  lemma FreeKeepsPc<T>(m: Mem<T>, q0: nat)
    requires Sized(m) && BlocksApart(m) && PcOk(m) && q0 < |m.life| && m.life[q0].Nulled?
    requires m.hist[q0] < |m.blocks| && |m.blocks[m.hist[q0]].data| == m.bs && Shaped(GiveBack(m, m.hist[q0], q0))
    ensures BlocksApart(GiveBack(m, m.hist[q0], q0)) && PcOk(GiveBack(m, m.hist[q0], q0))
  {
  }

  lemma FreeKeepsLife<T>(m: Mem<T>, pc: Consumer, q: nat)
    requires MemOk(m) && ConsumerOk(m, pc) && pc.CFree? && CanConsume(m, pc) && q < |m.hist|
    ensures LifeAt(GiveBack(m, pc.b, pc.a.q), q)
  {
    var q0 := pc.a.q;
    assert LifeAt(m, q0) && LifeAt(m, q);
    if q != q0 { BlocksDiffer(m, q, q0); }
  }

  lemma FreeKeeps<T>(s: State<T>, t: nat)
    requires Inv(s) && t < |s.c| && s.c[t].CFree?
    ensures CanConsume(s.m, s.c[t])
    ensures var (m', pc') := ConsumeStep(s.m, s.c[t]); Inv(State(m', s.c[t := pc']))
  {
    var pc := s.c[t];
    assert ConsumerOk(s.m, pc);
    FreeKeepsMem(s.m, pc);
    FreedKeeps(s, t);
  }

  lemma FreedKeeps<T>(s: State<T>, t: nat)
    requires Inv(s) && t < |s.c| && s.c[t].CFree? && ConsumerOk(s.m, s.c[t])
    requires MemOk(GiveBack(s.m, s.c[t].b, s.c[t].a.q))
    ensures var (m', pc') := ConsumeStep(s.m, s.c[t]); Inv(State(m', s.c[t := pc']))
  {
    var pc := s.c[t];
    NextPartOk(s.m, pc);
    var m' := GiveBack(s.m, pc.b, pc.a.q);
    var pc' := NextPart(pc.a, pc.e, pc.h, pc.slot, s.m.bs, s.m.headers[pc.h].capacity);
    StepKeepsApart(s, t, pc');
    RetireKeepsOthers(s, t, m');
    RetireKeepsOther(s.m, m', pc.a.q, pc');
    Assembled(m', s.c[t := pc']);
  }

  lemma ClaimKeepsMem<T>(m: Mem<T>, e: Pos)
    requires MemOk(m) && e.o < m.bs && Less(m.head, e) && AtMost(e, m.tail)
    ensures MemOk(m.(head := e))
  {
    var m' := m.(head := e);
    forall q | m.lo <= q < |m.ent| ensures EntAt(m', q) { assert EntAt(m, q); }
    forall q | |m.ent| <= q < m.lo + m.headers[Cur(m)].capacity ensures UnusedAt(m', q) { assert UnusedAt(m, q); }
    forall h | 0 <= h < |m'.headers| ensures HeaderAt(m', h) {
      assert HeaderAt(m, h);
      forall q | m'.lo <= q <= m'.headers[h].top ensures IndexAt(m', h, q) { assert IndexAt(m, h, q); }
    }
    forall q | 0 <= q < |m.hist| ensures LifeAt(m', q) { assert LifeAt(m, q); }
  }

  lemma ClaimOk<T>(m: Mem<T>, e: Pos)
    requires MemOk(m) && MemOk(m.(head := e)) && e.o < m.bs && Less(m.head, e) && AtMost(e, m.tail)
    ensures ConsumerOk(m.(head := e), CLoadIndex(m.head, e))
  {
    var pc := CLoadIndex(m.head, e);
    forall q: nat, o: nat | 0 <= o < m.bs && Owns(pc, Pos(q, o)) ensures q < |m.hist| && o !in m.dn[q] {
      assert q <= LastBlock(e);
      assert LifeAt(m, q);
    }
  }

  lemma ClaimKeeps<T>(s: State<T>, t: nat, e: Pos)
    requires Inv(s) && t < |s.c| && s.c[t] == CIdle && e.o < s.m.bs && Less(s.m.head, e) && AtMost(e, s.m.tail)
    ensures Inv(State(s.m.(head := e), s.c[t := CLoadIndex(s.m.head, e)]))
  {
    var m' := s.m.(head := e);
    var c' := s.c[t := CLoadIndex(s.m.head, e)];
    ClaimKeepsMem(s.m, e);
    ClaimOk(s.m, e);
    forall u | 0 <= u < |c'| ensures ConsumerOk(m', c'[u]) {
      if u != t { ClaimKeepsOther(s.m, e, c'[u]); }
    }
    ClaimApart(s, t, e);
  }

  /** Indices from the head on are owned by nobody. */
  lemma ClaimApart<T>(s: State<T>, t: nat, e: Pos)
    requires Inv(s) && t < |s.c|
    ensures var c' := s.c[t := CLoadIndex(s.m.head, e)]; forall u, v :: 0 <= u < v < |c'| ==> Apart(c', u, v)
  {
    var c' := s.c[t := CLoadIndex(s.m.head, e)];
    forall u, v | 0 <= u < v < |c'| ensures Apart(c', u, v) {
      assert Apart(s.c, u, v);
      forall p | Owns(c'[u], p) && Owns(c'[v], p) ensures false {
        OwnsBelowHead(s.m, s.c[if u == t then v else u], p);
      }
    }
  }

  lemma ClaimKeepsOther<T>(m: Mem<T>, e: Pos, pc: Consumer)
    requires MemOk(m) && Less(m.head, e) && ConsumerOk(m, pc) && MemOk(m.(head := e))
    ensures ConsumerOk(m.(head := e), pc)
  {
    if !pc.CIdle? { assert OwnsOpen(m.(head := e), pc); }
  }

  lemma OwnsBelowHead<T>(m: Mem<T>, pc: Consumer, p: Pos)
    requires MemOk(m) && ConsumerOk(m, pc) && Owns(pc, p)
    ensures Less(p, m.head)
  {
  }

  // ---------------------------------------------------------------- the enqueuer keeps the invariant

  /** How the enqueuer may change what dequeuers rely on. */
  ghost predicate Extends<T>(m: Mem<T>, m': Mem<T>)
    requires |m.dn| == |m.hist| == |m.life|
  {
    && m'.bs == m.bs && m'.head == m.head && m.hist <= m'.hist && m.ent <= m'.ent
    && m.dn <= m'.dn && m.life <= m'.life && |m.headers| <= |m'.headers|
    && (forall h :: 0 <= h < |m.headers| ==>
          && m'.headers[h].capacity == m.headers[h].capacity && m'.headers[h].origin == m.headers[h].origin
          && m.headers[h].top <= m'.headers[h].top
          && (m.headers[h].cur <= m'.headers[h].cur || |m.hist| - 1 <= m'.headers[h].cur))
  }

  lemma ConsumerFrame<T>(m: Mem<T>, m': Mem<T>, pc: Consumer)
    requires MemOk(m) && MemOk(m') && Extends(m, m') && ConsumerOk(m, pc)
    ensures ConsumerOk(m', pc)
  {
    if !pc.CIdle? { OpenFrame(m, m', pc); }
  }

  lemma OpenFrame<T>(m: Mem<T>, m': Mem<T>, pc: Consumer)
    requires |m.dn| == |m.hist| && |m'.dn| == |m'.hist| && m'.bs == m.bs && m.dn <= m'.dn && OwnsOpen(m, pc)
    ensures OwnsOpen(m', pc)
  {
    forall q, o | 0 <= q && 0 <= o < m.bs && Owns(pc, Pos(q, o)) ensures q < |m'.hist| && o !in m'.dn[q] {
      assert q < |m.hist| && o !in m.dn[q];
    }
  }

  /** An index stays good while entries are only added for newer and given up for older blocks. */
  lemma HeaderFrame<T>(m: Mem<T>, m': Mem<T>, h: nat)
    requires h < |m.headers| && h < |m'.headers| && HeaderAt(m, h)
    requires m'.headers[h] == m.headers[h] && m'.bs == m.bs && m.lo <= m'.lo && m.ent <= m'.ent
    ensures HeaderAt(m', h)
  {
    forall q | m'.lo <= q <= m'.headers[h].top ensures IndexAt(m', h, q) { assert IndexAt(m, h, q); }
  }

  /** Steps that change nothing but the program counter and the tail. */
  lemma PlainKeeps<T>(m: Mem<T>, m': Mem<T>)
    requires MemOk(m) && m' == m.(p := m'.p, tail := m'.tail)
    requires Shaped(m') && CountsOk(m') && LogOk(m') && PcOk(m')
    ensures MemOk(m') && Extends(m, m')
  {
    forall q | m.lo <= q < |m.ent| ensures EntAt(m', q) { assert EntAt(m, q); }
    forall q | |m.ent| <= q < m.lo + m.headers[Cur(m)].capacity ensures UnusedAt(m', q) { assert UnusedAt(m, q); }
    forall h | 0 <= h < |m'.headers| ensures HeaderAt(m', h) { HeaderFrame(m, m', h); }
    forall q | 0 <= q < |m.hist| ensures LifeAt(m', q) { assert LifeAt(m, q); }
  }

  lemma StartEnqueueKeeps<T>(m: Mem<T>, v: T)
    requires MemOk(m) && m.p.PIdle?
    ensures MemOk(StartEnqueue(m, v)) && Extends(m, StartEnqueue(m, v))
  {
    PlainKeeps(m, StartEnqueue(m, v));
  }

  lemma LoadHeadKeeps<T>(m: Mem<T>, v: T)
    requires MemOk(m) && m.p == PLoadHead(v)
    ensures MemOk(LoadHead(m, v)) && Extends(m, LoadHead(m, v))
  {
    PlainKeeps(m, LoadHead(m, v));
  }

  lemma StoreTailKeeps<T>(m: Mem<T>)
    requires MemOk(m) && m.p.PStoreTail?
    ensures MemOk(StoreTail(m)) && Extends(m, StoreTail(m))
  {
    PlainKeeps(m, StoreTail(m));
  }

  /** The slot after the tail belongs to the block number about to be started. */
  lemma NextIs<T>(m: Mem<T>)
    requires MemOk(m)
    ensures var hd := m.headers[Cur(m)];
            && hd.origin <= hd.cur + 2 && NextSlot(m) == Slot(hd, hd.cur + 1) < hd.capacity
  {
    var hd := m.headers[Cur(m)];
    SlotStep(hd, hd.cur);
    Euclid(hd.cur + 1 - hd.origin, hd.capacity);
  }

  /** When the index is full, that slot is the one of the oldest block number. */
  lemma NextIsOldest<T>(m: Mem<T>)
    requires MemOk(m) && !Reserved(m.p) && |m.ent| == |m.hist| == m.lo + m.headers[Cur(m)].capacity
    ensures NextEntry(m) == m.ent[m.lo] && m.entries[NextEntry(m)].key != INVALID_BLOCK_BASE
    ensures m.entries[NextEntry(m)].value.Null? <==> m.life[m.lo].Nulled? || m.life[m.lo].Recycled?
  {
    var h := Cur(m);
    var hd := m.headers[h];
    assert HeaderAt(m, h);
    NextIs(m);
    assert IndexAt(m, h, m.lo) && EntAt(m, m.lo) && LifeAt(m, m.lo);
    assert hd.cur + 1 - hd.origin == m.lo - hd.origin + 1 * hd.capacity;
    ModTurns(m.lo - hd.origin, 1, hd.capacity);
    BaseIsNotOne(m.lo, m.bs, hd.capacity);
  }

  lemma ProbeKeeps<T>(m: Mem<T>, v: T)
    requires MemOk(m) && m.p == PProbe(v)
    ensures MemOk(Probe(m, v)) && Extends(m, Probe(m, v))
  {
    var n := |m.hist|;
    NextIs(m);
    assert HeaderAt(m, Cur(m));
    if |m.ent| == n + 1 {
      assert IndexAt(m, Cur(m), n);
    } else if n < m.lo + m.headers[Cur(m)].capacity {
      assert UnusedAt(m, n);
    } else {
      NextIsOldest(m);
    }
    PlainKeeps(m, Probe(m, v));
  }

  // Growing the index.

  predicate Growing<T>(m: Mem<T>, sup: Supply<T>) {
    Shaped(m) && m.p.PGrow? && !sup.NoMemory? && 2 * m.headers[Cur(m)].capacity * m.bs <= WORD
  }

  lemma GrowSlot(hd: Header, lo: nat, i: nat)
    requires hd.capacity > 0 && hd.origin <= lo && i < hd.capacity
    ensures Ahead(Slot(hd, lo + hd.capacity - 1), i + 1, hd.capacity) == Slot(hd, lo + i)
  {
    var n := hd.capacity;
    var x := lo + n - 1 - hd.origin;
    Euclid(x, n);
    AheadIsMod(x % n, i + 1, n);
    ModEarly(x, i + 1, n);
    assert x + i + 1 == lo + i - hd.origin + 1 * n;
    ModTurns(lo + i - hd.origin, 1, n);
  }

  lemma GrowIndex<T>(m: Mem<T>, v: T, sup: Supply<T>, q: nat)
    requires MemOk(m) && Growing(m, sup) && m.lo <= q < |m.ent|
    ensures IndexAt(Grow(m, v, sup), |m.headers|, q)
  {
    var h := Cur(m);
    var hd := m.headers[h];
    assert HeaderAt(m, h);
    assert IndexAt(m, h, q) && IndexAt(m, h, m.lo);
    GrowSlot(hd, m.lo, q - m.lo);
    ModSmall(q - m.lo, 2 * hd.capacity);
  }

  lemma GrowHeader<T>(m: Mem<T>, v: T, sup: Supply<T>)
    requires MemOk(m) && Growing(m, sup)
    ensures HeaderAt(Grow(m, v, sup), |m.headers|)
  {
    var m' := Grow(m, v, sup);
    var hd := m.headers[Cur(m)];
    assert HeaderAt(m, Cur(m));
    IndexDoubles(m.bs, hd.capacity);
    ModSmall(hd.capacity - 1, 2 * hd.capacity);
    forall q: nat | m'.lo <= q <= hd.top ensures IndexAt(m', |m.headers|, q) { GrowIndex(m, v, sup, q); }
  }

  lemma GrowCurrent<T>(m: Mem<T>, v: T, sup: Supply<T>)
    requires MemOk(m) && Growing(m, sup) && Shaped(Grow(m, v, sup))
    ensures CurrentOk(Grow(m, v, sup))
  {
    var m' := Grow(m, v, sup);
    var hd, hd' := m.headers[Cur(m)], m'.headers[Cur(m')];
    forall i, j | 0 <= i < j < |hd'.index| ensures hd'.index[i] != hd'.index[j] {
      if j < hd.capacity {
        GrowDistinct(hd, i, j);
      } else if i < hd.capacity {
        assert m.headers[Cur(m)].index[Ahead(hd.tail, i + 1, hd.capacity)] < |m.entries|;
      }
    }
    forall q | |m'.ent| <= q < m'.lo + hd'.capacity ensures UnusedAt(m', q) {
      ModSmall(q - m.lo, hd'.capacity);
    }
  }

  lemma GrowDistinct(hd: Header, i: nat, j: nat)
    requires hd.tail < hd.capacity == |hd.index| && i < j < hd.capacity
    requires forall i, j :: 0 <= i < j < |hd.index| ==> hd.index[i] != hd.index[j]
    ensures hd.index[Ahead(hd.tail, i + 1, hd.capacity)] != hd.index[Ahead(hd.tail, j + 1, hd.capacity)]
  {
    assert Ahead(hd.tail, i + 1, hd.capacity) != Ahead(hd.tail, j + 1, hd.capacity);
  }

  lemma GrowShape<T>(m: Mem<T>, v: T, sup: Supply<T>)
    requires MemOk(m) && Growing(m, sup)
    ensures Shaped(Grow(m, v, sup))
  {
    var m' := Grow(m, v, sup);
    var hd := m.headers[Cur(m)];
    forall h, i | 0 <= h < |m'.headers| && 0 <= i < |m'.headers[h].index|
      ensures m'.headers[h].index[i] < |m'.entries|
    {
      if h == |m.headers| && i < hd.capacity {
        assert m.headers[Cur(m)].index[Ahead(hd.tail, i + 1, hd.capacity)] < |m.entries|;
      }
    }
  }

  lemma GrowCounts<T>(m: Mem<T>, v: T, sup: Supply<T>)
    requires MemOk(m) && Growing(m, sup) && Shaped(Grow(m, v, sup))
    ensures CountsOk(Grow(m, v, sup))
  {
    ModSmall(m.headers[Cur(m)].capacity - 1, 2 * m.headers[Cur(m)].capacity);
  }

  lemma GrowKeepsOld<T>(m: Mem<T>, v: T, sup: Supply<T>)
    requires MemOk(m) && Growing(m, sup)
    ensures EntsOk(Grow(m, v, sup))
    ensures forall h :: 0 <= h < |m.headers| ==> HeaderAt(Grow(m, v, sup), h)
    ensures forall q :: 0 <= q < |m.hist| ==> LifeAt(Grow(m, v, sup), q)
  {
    var m' := Grow(m, v, sup);
    forall q | m.lo <= q < |m.ent| ensures EntAt(m', q) { assert EntAt(m, q); }
    forall h | 0 <= h < |m.headers| ensures HeaderAt(m', h) { HeaderFrame(m, m', h); }
    forall q | 0 <= q < |m.hist| ensures LifeAt(m', q) {
      assert LifeAt(m, q);
      if q >= m.lo { assert EntAt(m, q); }
    }
  }

  lemma GrowKeeps<T>(m: Mem<T>, v: T, sup: Supply<T>)
    requires MemOk(m) && m.p == PGrow(v)
    ensures MemOk(Grow(m, v, sup)) && Extends(m, Grow(m, v, sup))
  {
    var m' := Grow(m, v, sup);
    if m'.p.PIdle? {
      PlainKeeps(m, m');
    } else {
      GrowShape(m, v, sup);
      GrowCounts(m, v, sup);
      GrowCurrent(m, v, sup);
      GrowHeader(m, v, sup);
      GrowKeepsOld(m, v, sup);
    }
  }

  // Reserving an entry.

  lemma SlotDistinct(hd: Header, q: nat, r: nat)
    requires hd.origin <= q < r < q + hd.capacity
    ensures Slot(hd, q) != Slot(hd, r)
  {
    if Slot(hd, q) == Slot(hd, r) { ModDistinct(q - hd.origin, r - hd.origin, hd.capacity); }
  }

  /** The entry about to be keyed is used by no block number that keeps its entry. */
  lemma NextIsFree<T>(m: Mem<T>, q: nat)
    requires MemOk(m) && m.p.PStoreKey? && |m.ent| == |m.hist| && StoreKey(m, m.p.v).lo <= q < |m.hist|
    ensures m.ent[q] != NextEntry(m)
  {
    var h := Cur(m);
    assert HeaderAt(m, h);
    assert IndexAt(m, h, q);
    NextIs(m);
    SlotDistinct(m.headers[h], q, |m.hist|);
  }

  lemma StoreKeyEnts<T>(m: Mem<T>, v: T, grown: bool)
    requires MemOk(m) && m.p == PStoreKey(v, grown) && |m.ent| == |m.hist|
    ensures EntsOk(StoreKey(m, v))
  {
    var m' := StoreKey(m, v);
    forall q | m'.lo <= q < |m'.ent| ensures EntAt(m', q) {
      if q < |m.ent| {
        assert EntAt(m, q);
        NextIsFree(m, q);
      }
    }
    forall q, r | m'.lo <= q < r < |m'.ent| ensures m'.ent[q] != m'.ent[r] {
      if r == |m.ent| { NextIsFree(m, q); }
    }
  }

  lemma StoreKeyHeader<T>(m: Mem<T>, v: T, grown: bool)
    requires MemOk(m) && m.p == PStoreKey(v, grown) && |m.ent| == |m.hist|
    ensures HeaderAt(StoreKey(m, v), Cur(m))
  {
    var m' := StoreKey(m, v);
    var h := Cur(m);
    assert HeaderAt(m, h);
    NextIs(m);
    forall q | m'.lo <= q <= m'.headers[h].top ensures IndexAt(m', h, q) {
      if q < |m.ent| { assert IndexAt(m, h, q); }
    }
  }

  lemma StoreKeyCurrent<T>(m: Mem<T>, v: T, grown: bool)
    requires MemOk(m) && m.p == PStoreKey(v, grown) && |m.ent| == |m.hist| && Shaped(StoreKey(m, v))
    ensures CurrentOk(StoreKey(m, v))
  {
    var m' := StoreKey(m, v);
    var hd := m.headers[Cur(m)];
    NextIs(m);
    forall q | |m'.ent| <= q < m'.lo + hd.capacity ensures UnusedAt(m', q) {
      assert UnusedAt(m, q);
      SlotDistinct(hd, |m.hist|, q);
    }
  }

  lemma StoreKeyCounts<T>(m: Mem<T>, v: T, grown: bool)
    requires MemOk(m) && m.p == PStoreKey(v, grown) && |m.ent| == |m.hist|
    ensures var m' := StoreKey(m, v); Shaped(m') && CountsOk(m') && LogOk(m')
  {
  }

  lemma StoreKeyHeaders<T>(m: Mem<T>, v: T, grown: bool)
    requires MemOk(m) && m.p == PStoreKey(v, grown) && |m.ent| == |m.hist|
    ensures forall h :: 0 <= h < |m.headers| ==> HeaderAt(StoreKey(m, v), h)
  {
    var m' := StoreKey(m, v);
    StoreKeyHeader(m, v, grown);
    forall h | 0 <= h < |m.headers| ensures HeaderAt(m', h) {
      if h != Cur(m) { HeaderFrame(m, m', h); }
    }
  }

  lemma StoreKeyLives<T>(m: Mem<T>, v: T, grown: bool)
    requires MemOk(m) && m.p == PStoreKey(v, grown) && |m.ent| == |m.hist|
    ensures forall q :: 0 <= q < |m.hist| ==> LifeAt(StoreKey(m, v), q)
  {
    forall q | 0 <= q < |m.hist| ensures LifeAt(StoreKey(m, v), q) { assert LifeAt(m, q); }
  }

  lemma StoreKeyKeeps<T>(m: Mem<T>, v: T, grown: bool)
    requires MemOk(m) && m.p == PStoreKey(v, grown)
    ensures MemOk(StoreKey(m, v)) && Extends(m, StoreKey(m, v))
  {
    var m' := StoreKey(m, v);
    if |m.ent| == |m.hist| {
      StoreKeyCounts(m, v, grown);
      StoreKeyEnts(m, v, grown);
      StoreKeyHeaders(m, v, grown);
      StoreKeyCurrent(m, v, grown);
      StoreKeyLives(m, v, grown);
    } else {
      StoreKeyAgain(m, v, grown);
      PlainKeeps(m, m');
    }
  }

  /** After an abandoned reservation the same key is stored in the same entry. */
  lemma StoreKeyAgain<T>(m: Mem<T>, v: T, grown: bool)
    requires MemOk(m) && m.p == PStoreKey(v, grown) && |m.ent| == |m.hist| + 1
    ensures StoreKey(m, v) == m.(p := PStoreSlot(v))
  {
    var n := |m.hist|;
    assert HeaderAt(m, Cur(m));
    NextIs(m);
    assert IndexAt(m, Cur(m), n) && EntAt(m, n);
    assert m.entries[m.ent[n] := m.entries[m.ent[n]].(key := Wrap(n * m.bs))] == m.entries;
    assert m.headers[Cur(m) := m.headers[Cur(m)].(top := n)] == m.headers;
  }

  /** Moving the tail slot of the current index between a reserved and a committed block number. */
  function MoveSlot<T>(m: Mem<T>, p': Producer<T>, tail': nat, cur': int): Mem<T>
    requires m.headers != []
  {
    m.(p := p', headers := m.headers[Cur(m) := m.headers[Cur(m)].(tail := tail', cur := cur')])
  }

  lemma MoveSlotKeeps<T>(m: Mem<T>, p': Producer<T>, tail': nat, cur': int)
    requires MemOk(m) && cur' <= m.headers[Cur(m)].top
    requires var m' := MoveSlot(m, p', tail', cur'); Shaped(m') && CountsOk(m') && LogOk(m') && PcOk(m')
    ensures MemOk(MoveSlot(m, p', tail', cur')) && Extends(m, MoveSlot(m, p', tail', cur'))
  {
    var m' := MoveSlot(m, p', tail', cur');
    forall q | m.lo <= q < |m.ent| ensures EntAt(m', q) { assert EntAt(m, q); }
    forall h | 0 <= h < |m'.headers| ensures HeaderAt(m', h) {
      if h == Cur(m) { MoveSlotHeader(m, p', tail', cur'); } else { HeaderFrame(m, m', h); }
    }
    MoveSlotCurrent(m, p', tail', cur');
    forall q | 0 <= q < |m.hist| ensures LifeAt(m', q) { assert LifeAt(m, q); }
  }

  lemma MoveSlotHeader<T>(m: Mem<T>, p': Producer<T>, tail': nat, cur': int)
    requires MemOk(m) && cur' <= m.headers[Cur(m)].top
    requires var m' := MoveSlot(m, p', tail', cur'); Shaped(m') && CountsOk(m')
    ensures HeaderAt(MoveSlot(m, p', tail', cur'), Cur(m))
  {
    var m' := MoveSlot(m, p', tail', cur');
    var h := Cur(m);
    assert HeaderAt(m, h);
    forall q | m'.lo <= q <= m'.headers[h].top ensures IndexAt(m', h, q) { assert IndexAt(m, h, q); }
  }

  lemma MoveSlotCurrent<T>(m: Mem<T>, p': Producer<T>, tail': nat, cur': int)
    requires MemOk(m) && Shaped(MoveSlot(m, p', tail', cur'))
    ensures CurrentOk(MoveSlot(m, p', tail', cur'))
  {
    var m' := MoveSlot(m, p', tail', cur');
    forall q | |m.ent| <= q < m.lo + m.headers[Cur(m)].capacity ensures UnusedAt(m', q) { assert UnusedAt(m, q); }
  }

  lemma StoreSlotKeeps<T>(m: Mem<T>, v: T)
    requires MemOk(m) && m.p == PStoreSlot(v)
    ensures MemOk(StoreSlot(m, v)) && Extends(m, StoreSlot(m, v))
  {
    var hd := m.headers[Cur(m)];
    NextIs(m);
    MoveSlotKeeps(m, PRequisition(v), NextSlot(m), hd.cur + 1);
  }

  lemma RewindKeeps<T>(m: Mem<T>)
    requires MemOk(m) && m.p.PRewind?
    ensures MemOk(Rewind(m)) && Extends(m, Rewind(m))
  {
    var hd := m.headers[Cur(m)];
    assert HeaderAt(m, Cur(m));
    SlotBack(hd, hd.cur);
    MoveSlotKeeps(m, PNullValue, Behind(hd.tail, 1, hd.capacity), hd.cur - 1);
  }

  lemma SlotBack(hd: Header, q: nat)
    requires hd.origin <= q && hd.capacity > 0
    ensures Behind(Slot(hd, q), 1, hd.capacity) == Slot(hd, q - 1)
  {
    Euclid(q - hd.origin, hd.capacity);
    BehindIsMod(Slot(hd, q), 1, hd.capacity);
    ModEarly(q - hd.origin, -1, hd.capacity);
  }

  /** Writing the value of the reserved entry touches no block in use. */
  lemma ValueKeepsLife<T>(m: Mem<T>, m': Mem<T>, q: nat)
    requires MemOk(m) && |m.ent| == |m.hist| + 1 && q < |m.hist| && m.ent[|m.hist|] < |m.entries|
    requires |m'.log| == |m'.dn| == |m'.life| == |m'.hist| <= |m'.ent|
    requires m'.bs == m.bs && m'.head == m.head && m'.blocks == m.blocks && m'.pool == m.pool && m'.lo == m.lo
    requires m.hist <= m'.hist && m.log <= m'.log && m.dn <= m'.dn && m.life <= m'.life && m'.ent == m.ent
    requires exists p :: m'.entries == m.entries[m.ent[|m.hist|] := m.entries[m.ent[|m.hist|]].(value := p)]
    ensures LifeAt(m', q)
  {
    assert LifeAt(m, q);
    assert q >= m.lo ==> m.ent[q] != m.ent[|m.hist|];
  }

  lemma ValueKeepsIndex<T>(m: Mem<T>, m': Mem<T>, x: nat, p: Ptr)
    requires MemOk(m) && m'.bs == m.bs && m'.headers == m.headers && m'.lo == m.lo && m'.ent == m.ent && Shaped(m')
    requires x < |m.entries| && m'.entries == m.entries[x := m.entries[x].(value := p)]
    ensures EntsOk(m') && CurrentOk(m') && (forall h :: 0 <= h < |m'.headers| ==> HeaderAt(m', h))
  {
    forall q | m.lo <= q < |m.ent| ensures EntAt(m', q) { assert EntAt(m, q); }
    forall q | |m.ent| <= q < m.lo + m.headers[Cur(m)].capacity ensures UnusedAt(m', q) { assert UnusedAt(m, q); }
    forall h | 0 <= h < |m'.headers| ensures HeaderAt(m', h) { HeaderFrame(m, m', h); }
  }

  lemma NullValueKeeps<T>(m: Mem<T>)
    requires MemOk(m) && m.p.PNullValue?
    ensures MemOk(NullValue(m)) && Extends(m, NullValue(m))
  {
    var m' := NullValue(m);
    var n := |m.hist|;
    NextIs(m);
    assert HeaderAt(m, Cur(m));
    assert IndexAt(m, Cur(m), n) && EntAt(m, n);
    ValueKeepsIndex(m, m', m.ent[n], Null);
    forall q | 0 <= q < n ensures LifeAt(m', q) { ValueKeepsLife(m, m', q); }
  }

  lemma CommitKeeps<T>(m: Mem<T>, v: T, b: nat)
    requires MemOk(m) && m.p == PCommit(v, b)
    ensures MemOk(Commit(m, v, b)) && Extends(m, Commit(m, v, b))
  {
    var m' := Commit(m, v, b);
    var n := |m.hist|;
    assert HeaderAt(m, Cur(m));
    assert IndexAt(m, Cur(m), n) && EntAt(m, n);
    ValueKeepsIndex(m, m', m.ent[n], At(b));
    forall q | 0 <= q < n + 1 ensures LifeAt(m', q) {
      if q < n { ValueKeepsLife(m, m', q); }
    }
  }

  /** Entries, keys and headers untouched. */
  lemma SameIndexParts<T>(m: Mem<T>, m': Mem<T>)
    requires MemOk(m) && m'.bs == m.bs && m'.headers == m.headers && m'.lo == m.lo && m'.ent == m.ent
    requires m'.entries == m.entries && m'.tail == m.tail
    ensures Shaped(m') && EntsOk(m') && CurrentOk(m') && (forall h :: 0 <= h < |m'.headers| ==> HeaderAt(m', h))
  {
    forall q | m.lo <= q < |m.ent| ensures EntAt(m', q) { assert EntAt(m, q); }
    forall q | |m.ent| <= q < m.lo + m.headers[Cur(m)].capacity ensures UnusedAt(m', q) { assert UnusedAt(m, q); }
    forall h | 0 <= h < |m'.headers| ensures HeaderAt(m', h) { HeaderFrame(m, m', h); }
  }

  lemma RequisitionLives<T>(m: Mem<T>, v: T, sup: Supply<T>)
    requires MemOk(m) && m.p == PRequisition(v) && Requisition(m, v, sup).p.PCommit?
    ensures var m' := Requisition(m, v, sup);
            forall q :: 0 <= q < |m.hist| ==> LifeAt(m', q) && (!m.life[q].Recycled? ==> m.hist[q] != m'.p.b)
  {
    var m' := Requisition(m, v, sup);
    forall q | 0 <= q < |m.hist| ensures LifeAt(m', q) && (!m.life[q].Recycled? ==> m.hist[q] != m'.p.b) {
      assert LifeAt(m, q);
    }
  }

  lemma RequisitionKeeps<T>(m: Mem<T>, v: T, sup: Supply<T>)
    requires MemOk(m) && m.p == PRequisition(v)
    ensures MemOk(Requisition(m, v, sup)) && Extends(m, Requisition(m, v, sup))
  {
    var m' := Requisition(m, v, sup);
    if m'.p.PRewind? {
      PlainKeeps(m, m');
    } else {
      SameIndexParts(m, m');
      RequisitionLives(m, v, sup);
      RequisitionPc(m, v, sup);
    }
  }

  /** The block obtained is in nobody's use and not in the pool. */
  lemma RequisitionPc<T>(m: Mem<T>, v: T, sup: Supply<T>)
    requires Sized(m) && PcOk(m) && BlocksApart(m) && m.p == PRequisition(v) && Requisition(m, v, sup).p.PCommit?
    requires var m' := Requisition(m, v, sup);
             && Shaped(m') && forall q :: 0 <= q < |m.hist| && !m.life[q].Recycled? ==> m.hist[q] != m'.p.b
    ensures PcOk(Requisition(m, v, sup)) && BlocksApart(Requisition(m, v, sup))
  {
  }

  lemma StoreElementKeeps<T>(m: Mem<T>, v: T)
    requires MemOk(m) && m.p == PStoreElement(v)
    ensures CanProduce(m) && MemOk(StoreElement(m, v)) && Extends(m, StoreElement(m, v))
  {
    StoreElementOpen(m, v);
    var m' := StoreElement(m, v);
    SameIndexParts(m, m');
    forall q | 0 <= q < |m.hist| ensures LifeAt(m', q) { StoreElementLife(m, v, q); }
  }

  lemma StoreElementOpen<T>(m: Mem<T>, v: T)
    requires MemOk(m) && m.p == PStoreElement(v)
    ensures CanStoreElement(m) && m.life[|m.hist| - 1].Active? && |m.log[|m.hist| - 1]| == m.tail.o
    ensures m.tailBlock == At(m.hist[|m.hist| - 1])
  {
    var n := |m.hist|;
    assert LifeAt(m, n - 1);
    OpenIsActive(m, n - 1, m.tail.o);
  }

  lemma StoreElementLife<T>(m: Mem<T>, v: T, q: nat)
    requires MemOk(m) && m.p == PStoreElement(v) && CanStoreElement(m) && q < |m.hist|
    ensures LifeAt(StoreElement(m, v), q)
  {
    StoreElementOpen(m, v);
    var n := |m.hist|;
    assert LifeAt(m, q) && LifeAt(m, n - 1);
    if q != n - 1 { BlocksDiffer(m, q, n - 1); }
  }

  // ---------------------------------------------------------------- every run

  lemma ProduceKeepsMem<T>(m: Mem<T>, sup: Supply<T>)
    requires MemOk(m)
    ensures CanProduce(m) && MemOk(ProduceStep(m, sup)) && Extends(m, ProduceStep(m, sup))
  {
    if Reserved(m.p) || m.p.PNullValue? {
      CommitKeepsMem(m, sup);
    } else if m.p.PProbe? || m.p.PGrow? || m.p.PStoreKey? || m.p.PStoreSlot? {
      ReserveKeepsMem(m, sup);
    } else {
      FrameKeepsMem(m, sup);
    }
  }

  /** The first and the last accesses of an enqueue. */
  lemma FrameKeepsMem<T>(m: Mem<T>, sup: Supply<T>)
    requires MemOk(m) && (m.p.PIdle? || m.p.PLoadHead? || m.p.PStoreElement? || m.p.PStoreTail?)
    ensures CanProduce(m) && MemOk(ProduceStep(m, sup)) && Extends(m, ProduceStep(m, sup))
  {
    match m.p
    case PIdle => PlainKeeps(m, m);
    case PLoadHead(v) => LoadHeadKeeps(m, v);
    case PStoreElement(v) => StoreElementKeeps(m, v);
    case PStoreTail => StoreTailKeeps(m);
  }

  /** From the reservation of an entry to its commitment or its abandonment. */
  lemma CommitKeepsMem<T>(m: Mem<T>, sup: Supply<T>)
    requires MemOk(m) && (Reserved(m.p) || m.p.PNullValue?)
    ensures MemOk(ProduceStep(m, sup)) && Extends(m, ProduceStep(m, sup))
  {
    match m.p
    case PRequisition(v) => RequisitionKeeps(m, v, sup);
    case PRewind => RewindKeeps(m);
    case PNullValue => NullValueKeeps(m);
    case PCommit(v, b) => CommitKeeps(m, v, b);
  }

  /** insert_block_index_entry */
  lemma ReserveKeepsMem<T>(m: Mem<T>, sup: Supply<T>)
    requires MemOk(m)
    requires m.p.PProbe? || m.p.PGrow? || m.p.PStoreKey? || m.p.PStoreSlot?
    ensures MemOk(ProduceStep(m, sup)) && Extends(m, ProduceStep(m, sup))
  {
    match m.p
    case PProbe(v) => ProbeKeeps(m, v);
    case PGrow(v) => GrowKeeps(m, v, sup);
    case PStoreKey(v, grown) => StoreKeyKeeps(m, v, grown);
    case PStoreSlot(v) => StoreSlotKeeps(m, v);
  }

  lemma ProducerKeeps<T>(s: State<T>, m': Mem<T>)
    requires Inv(s) && MemOk(m') && Extends(s.m, m')
    ensures Inv(State(m', s.c))
  {
    forall t | 0 <= t < |s.c| ensures ConsumerOk(m', s.c[t]) { ConsumerFrame(s.m, m', s.c[t]); }
  }

  lemma LoadIndexKeeps<T>(s: State<T>, t: nat, a: Pos, e: Pos)
    requires Inv(s) && t < |s.c| && s.c[t] == CLoadIndex(a, e) && ConsumerOk(s.m, s.c[t])
    ensures Inv(State(s.m, s.c[t := CLoadTail(a, e, Cur(s.m))]))
  {
    assert OwnsOpen(s.m, CLoadTail(a, e, Cur(s.m)));
    MoveKeeps(s, t, CLoadTail(a, e, Cur(s.m)));
  }

  lemma ConsumeKeeps<T>(s: State<T>, t: nat)
    requires Inv(s) && t < |s.c|
    ensures CanConsume(s.m, s.c[t]) && Inv(Do(s, Consume(t)))
  {
    assert ConsumerOk(s.m, s.c[t]);
    match s.c[t]
    case CIdle => assert s.c[t := CIdle] == s.c;
    case CLoadIndex(a, e) => LoadIndexKeeps(s, t, a, e);
    case CLoadTail(a, e, h) => LoadTailKeeps(s, t, a, e, h);
    case CLoadKey(a, e, h, f, qf) => LoadKeyKeeps(s, t, a, e, h, f, qf);
    case CLoadValue(a, e, h, slot) => LoadValueKeeps(s, t, a, e, h, slot);
    case CRead(a, e, h, slot, x, b, o) => ReadKeeps(s, t, a, e, h, slot, x, b, o);
    case CCount(_, _, _, _, _, _) => CountKeeps(s, t);
    case CNull(_, _, _, _, _, _) => NullKeeps(s, t);
    case CFree(_, _, _, _, _) => FreeKeeps(s, t);
  }

  lemma DoKeeps<T>(s: State<T>, act: Action<T>)
    requires Inv(s) && (act.Claim? ==> act.max >= 1)
    ensures Inv(Do(s, act))
  {
    match act
    case Enqueue(v) =>
      if s.m.p.PIdle? {
        StartEnqueueKeeps(s.m, v);
        ProducerKeeps(s, StartEnqueue(s.m, v));
      }
    case Produce(sup) =>
      ProduceKeepsMem(s.m, sup);
      ProducerKeeps(s, ProduceStep(s.m, sup));
    case Claim(t, max, e) => if t < |s.c| && s.c[t] == CIdle && CanClaim(s.m, max, e) { ClaimKeeps(s, t, e); }
    case Consume(t) => if t < |s.c| { ConsumeKeeps(s, t); }
  }

  function Run<T>(s: State<T>, schedule: seq<Action<T>>): State<T> {
    if schedule == [] then s else Do(Run(s, schedule[..|schedule| - 1]), schedule[|schedule| - 1])
  }

  lemma StartInv<T>(bs: nat, capacity: nat, dequeuers: nat)
    requires IndexFits(bs, capacity)
    ensures capacity >= 1 && Inv<T>(Start(bs, capacity, dequeuers))
  {
    var j := IndexTurns(bs, capacity);
    var s: State<T> := Start(bs, capacity, dequeuers);
    LastSlot(capacity);
    forall q: nat | q < capacity ensures UnusedAt(s.m, q) { ModSmall(q, capacity); }
    assert HeaderAt(s.m, 0);
  }

  lemma LastSlot(capacity: nat)
    requires capacity >= 1
    ensures -1 % capacity == capacity - 1
  {
    ModUnique(-1, -1, capacity - 1, capacity);
  }

  /** Every call asks for at least so many elements (a single dequeue asks for one). */
  predicate AsksAtLeast<T>(schedule: seq<Action<T>>, least: nat) {
    forall i :: 0 <= i < |schedule| && schedule[i].Claim? ==> schedule[i].max >= least
  }

  lemma {:induction false} RunInv<T>(bs: nat, capacity: nat, dequeuers: nat, schedule: seq<Action<T>>)
    requires IndexFits(bs, capacity) && capacity >= 1 && AsksAtLeast(schedule, 1)
    ensures Inv(Run(Start(bs, capacity, dequeuers), schedule))
  {
    if schedule == [] {
      StartInv<T>(bs, capacity, dequeuers);
    } else {
      RunInv(bs, capacity, dequeuers, schedule[..|schedule| - 1]);
      DoKeeps(Run(Start(bs, capacity, dequeuers), schedule[..|schedule| - 1]), schedule[|schedule| - 1]);
    }
  }

  // ---------------------------------------------------------------- lookups and recycling

  /** What a dequeuer at pc relies on. */
  ghost predicate Served<T>(m: Mem<T>, pc: Consumer) {
    match pc
    case CLoadKey(_, _, h, f, _) =>
      // the tail slot of any index that a dequeuer can see stands for a block
      && h < |m.headers| && f < |m.headers[h].index| && m.headers[h].index[f] < |m.entries|
      && m.entries[m.headers[h].index[f]].key != INVALID_BLOCK_BASE
    case CLoadValue(a, _, h, slot) =>
      // the entry found is keyed with the index rounded down and has the block of that number
      && h < |m.headers| && slot < |m.headers[h].index| && m.headers[h].index[slot] < |m.entries|
      && a.q < |m.hist|
      && m.entries[m.headers[h].index[slot]] == Entry(Wrap(a.q * m.bs), At(m.hist[a.q]))
    case CRead(a, _, _, _, _, b, o) =>
      // the element about to be moved out is the one that was enqueued under that index
      && a.q < |m.log| && o < |m.log[a.q]| && b < |m.blocks| && o < |m.blocks[b].data|
      && m.blocks[b].data[o] == m.log[a.q][o]
    case CCount(a, e, _, _, _, b) =>
      // the counter does not run over
      a.o <= Stop(a, e, m.bs) && b < |m.blocks| && m.blocks[b].count + (Stop(a, e, m.bs) - a.o) <= m.bs
    case CFree(a, _, _, _, b) =>
      // every element of the block was dequeued, and it is not in the pool already
      a.q < |m.dn| && b !in m.pool && forall o :: 0 <= o < m.bs ==> o in m.dn[a.q]
    case _ => true
  }

  /** Blocks named by index entries in use are distinct and not in the pool. */
  ghost predicate EntriesApart<T>(m: Mem<T>) {
    && |m.hist| <= |m.ent|
    && (forall q :: m.lo <= q < |m.hist| ==> m.ent[q] < |m.entries|)
    && (forall q :: m.lo <= q < |m.hist| && m.entries[m.ent[q]].value.At? ==>
          m.entries[m.ent[q]].value.id !in m.pool)
    && (forall q, r :: m.lo <= q < r < |m.hist| && m.entries[m.ent[q]].value.At? && m.entries[m.ent[r]].value.At? ==>
          m.entries[m.ent[q]].value != m.entries[m.ent[r]].value)
  }

  lemma InvServes<T>(s: State<T>, t: nat)
    requires Inv(s) && t < |s.c|
    ensures Served(s.m, s.c[t])
  {
    assert ConsumerOk(s.m, s.c[t]);
    match s.c[t]
    case CLoadKey(a, e, h, f, qf) => TailKeyed(s.m, s.c[t]);
    case CLoadValue(a, e, h, slot) => LookupEntry(s.m, a, e, h, slot);
    case CRead(a, e, h, slot, x, b, o) => ReadsLogged(s.m, s.c[t]);
    case CCount(_, _, _, _, _, _) => CountedPart(s.m, s.c[t]);
    case CFree(a, e, h, slot, b) => FreesAll(s.m, a.q);
    case _ =>
  }

  lemma TailKeyed<T>(m: Mem<T>, pc: Consumer)
    requires MemOk(m) && ConsumerOk(m, pc) && pc.CLoadKey?
    ensures Served(m, pc)
  {
    assert HeaderAt(m, pc.h);
    ClaimIsOpen(m, pc);
    assert IndexAt(m, pc.h, pc.qf) && EntAt(m, pc.qf);
    BaseIsNotOne(pc.qf, m.bs, m.headers[pc.h].capacity);
  }

  lemma ReadsLogged<T>(m: Mem<T>, pc: Consumer)
    requires MemOk(m) && ConsumerOk(m, pc) && pc.CRead?
    ensures Served(m, pc)
  {
    ClaimIsOpen(m, pc);
    assert LifeAt(m, pc.a.q);
    assert pc.a.q < |m.hist| - 1 ==> |m.log[pc.a.q]| == m.bs;
  }

  lemma FreesAll<T>(m: Mem<T>, q: nat)
    requires MemOk(m) && q < |m.hist| && !m.life[q].Active?
    ensures !m.life[q].Recycled? ==> m.hist[q] !in m.pool
    ensures forall o :: 0 <= o < m.bs ==> o in m.dn[q]
  {
    assert LifeAt(m, q);
    forall o: nat | o < m.bs ensures o in m.dn[q] {
      if o !in m.dn[q] { Sets.FullSet(m.dn[q], m.bs, o); }
    }
  }

  lemma InvApart<T>(m: Mem<T>)
    requires MemOk(m)
    ensures EntriesApart(m)
  {
    forall q | m.lo <= q < |m.hist| ensures m.ent[q] < |m.entries| { EntryInUse(m, q); }
    forall q, r | m.lo <= q < r < |m.hist| && m.entries[m.ent[q]].value.At? && m.entries[m.ent[r]].value.At?
      ensures m.entries[m.ent[q]].value != m.entries[m.ent[r]].value
    {
      EntryInUse(m, q);
      EntryInUse(m, r);
      BlocksDiffer(m, q, r);
    }
    forall q | m.lo <= q < |m.hist| && m.entries[m.ent[q]].value.At?
      ensures m.entries[m.ent[q]].value.id !in m.pool
    {
      EntryInUse(m, q);
    }
  }

  lemma EntryInUse<T>(m: Mem<T>, q: nat)
    requires MemOk(m) && m.lo <= q < |m.hist|
    ensures m.ent[q] < |m.entries|
    ensures m.entries[m.ent[q]].value.At? ==>
              m.entries[m.ent[q]].value == At(m.hist[q]) && !m.life[q].Recycled? && m.hist[q] !in m.pool
  {
    assert EntAt(m, q) && LifeAt(m, q);
  }

  /** After growing, the entry about to be keyed is unused. */
  predicate GrownIsUnused<T>(m: Mem<T>) {
    Shaped(m) && (m.p.PStoreKey? && m.p.grown ==> m.entries[NextEntry(m)].key == INVALID_BLOCK_BASE)
  }

  /** What the block index and the recycling of blocks promise of one state: every lookup finds the entry
      of its block, moves out the value enqueued under that index, a block enters the pool only when all
      of its elements were dequeued and it is not there, by one dequeuer, and no block is named by two
      entries in use or by one of them and the pool. */
  ghost predicate Safe<T>(s: State<T>) {
    && (forall t :: 0 <= t < |s.c| ==> Served(s.m, s.c[t]))
    && (forall t, u, p :: 0 <= t < u < |s.c| ==> !(Owns(s.c[t], p) && Owns(s.c[u], p)))
    && (forall t, u, q :: 0 <= t < u < |s.c| ==> !(Retires(s.c[t], q) && Retires(s.c[u], q)))
    && EntriesApart(s.m) && GrownIsUnused(s.m) && AtMost(s.m.head, s.m.tail)
  }

  /** In every run of enqueues (block reuse, reservations abandoned for lack of memory, index growth
      and wrap-around) and of single and bulk dequeues that ask for something. */
  lemma LookupsServed<T>(bs: nat, capacity: nat, dequeuers: nat, schedule: seq<Action<T>>)
    requires IndexFits(bs, capacity) && capacity >= 1 && AsksAtLeast(schedule, 1)
    ensures Safe(Run(Start(bs, capacity, dequeuers), schedule))
  {
    RunInv(bs, capacity, dequeuers, schedule);
    InvSafe(Run(Start(bs, capacity, dequeuers), schedule));
  }

  lemma InvSafe<T>(s: State<T>)
    requires Inv(s)
    ensures Safe(s)
  {
    InvApart(s.m);
    GrownUnused(s.m);
    InvExclusive(s);
    forall t | 0 <= t < |s.c| ensures Served(s.m, s.c[t]) { InvServes(s, t); }
  }

  lemma InvExclusive<T>(s: State<T>)
    requires Inv(s)
    ensures forall t, u, p :: 0 <= t < u < |s.c| ==> !(Owns(s.c[t], p) && Owns(s.c[u], p))
    ensures forall t, u, q :: 0 <= t < u < |s.c| ==> !(Retires(s.c[t], q) && Retires(s.c[u], q))
  {
    forall t, u, p | 0 <= t < u < |s.c| ensures !(Owns(s.c[t], p) && Owns(s.c[u], p)) {
      assert Apart(s.c, t, u);
    }
    forall t, u, q | 0 <= t < u < |s.c| ensures !(Retires(s.c[t], q) && Retires(s.c[u], q)) {
      assert Apart(s.c, t, u);
    }
  }

  lemma GrownUnused<T>(m: Mem<T>)
    requires MemOk(m)
    ensures GrownIsUnused(m)
  {
    if m.p.PStoreKey? && m.p.grown {
      NextIs(m);
      assert UnusedAt(m, |m.hist|);
    }
  }

  // ---------------------------------------------------------------- no block is lost

  /** A claimed index is counted or owned; a block with nothing left to count is being retired, or
      was recycled. */
  ghost predicate CountedAt<T>(s: State<T>, q: nat, o: nat)
    requires |s.m.dn| == |s.m.hist|
  {
    q < |s.m.hist| && o < s.m.bs && Less(Pos(q, o), s.m.head) ==>
      o in s.m.dn[q] || exists t :: 0 <= t < |s.c| && Owns(s.c[t], Pos(q, o))
  }

  ghost predicate RetiredAt<T>(s: State<T>, q: nat)
    requires |s.m.life| == |s.m.hist|
  {
    q < |s.m.hist| && (s.m.life[q].Full? || s.m.life[q].Nulled?) ==>
      exists t :: 0 <= t < |s.c| && Retires(s.c[t], q)
  }

  ghost predicate Accounted<T>(s: State<T>)
    requires |s.m.dn| == |s.m.life| == |s.m.hist|
  {
    && (forall q: nat, o: nat :: CountedAt(s, q, o))
    && (forall q: nat :: RetiredAt(s, q))
  }

  /** Dequeuer t goes on to pc': what it gives up has been counted or recycled. */
  lemma StepAccounts<T>(s: State<T>, m': Mem<T>, t: nat, pc': Consumer)
    requires |s.m.dn| == |s.m.life| == |s.m.hist| && Accounted(s) && t < |s.c|
    requires m'.hist == s.m.hist && m'.bs == s.m.bs && |m'.dn| == |m'.life| == |m'.hist|
    requires forall q: nat, o: nat :: q < |m'.hist| && o < m'.bs && Less(Pos(q, o), m'.head) ==>
               || o in m'.dn[q] || Owns(pc', Pos(q, o))
               || (Less(Pos(q, o), s.m.head) && o !in s.m.dn[q] && !Owns(s.c[t], Pos(q, o)))
    requires forall q: nat :: q < |m'.hist| && (m'.life[q].Full? || m'.life[q].Nulled?) ==>
               || Retires(pc', q)
               || ((s.m.life[q].Full? || s.m.life[q].Nulled?) && !Retires(s.c[t], q))
    ensures Accounted(State(m', s.c[t := pc']))
  {
    var s' := State(m', s.c[t := pc']);
    forall q: nat, o: nat ensures CountedAt(s', q, o) {
      assert CountedAt(s, q, o);
      if q < |m'.hist| && o < m'.bs && Less(Pos(q, o), m'.head) && o !in m'.dn[q] {
        if Owns(pc', Pos(q, o)) {
          assert Owns(s'.c[t], Pos(q, o));
        } else {
          var u :| 0 <= u < |s.c| && Owns(s.c[u], Pos(q, o));
          assert s'.c[u] == s.c[u];
        }
      }
    }
    forall q: nat ensures RetiredAt(s', q) {
      assert RetiredAt(s, q);
      if q < |m'.hist| && (m'.life[q].Full? || m'.life[q].Nulled?) {
        if Retires(pc', q) {
          assert Retires(s'.c[t], q);
        } else {
          var u :| 0 <= u < |s.c| && Retires(s.c[u], q);
          assert s'.c[u] == s.c[u];
        }
      }
    }
  }

  lemma CountAccounts<T>(s: State<T>, t: nat)
    requires Inv(s) && t < |s.c| && s.c[t].CCount? && CanConsume(s.m, s.c[t]) && Accounted(s)
    ensures Accounted(Do(s, Consume(t)))
  {
    var pc := s.c[t];
    assert ConsumerOk(s.m, pc);
    CountedPart(s.m, pc);
    CountGivesUp(s.m, pc);
    CountedAccounts(s, t);
  }

  lemma CountedAccounts<T>(s: State<T>, t: nat)
    requires Sized(s.m) && Accounted(s) && t < |s.c| && s.c[t].CCount? && CanConsume(s.m, s.c[t])
    requires var (m', pc') := ConsumeStep(s.m, s.c[t]);
             && (forall q: nat, o: nat :: q < |s.m.dn| && o < s.m.bs && Owns(s.c[t], Pos(q, o)) && o !in m'.dn[q] ==>
                   Owns(pc', Pos(q, o)))
             && (forall q: nat, o: nat :: q < |s.m.dn| && o !in m'.dn[q] ==> o !in s.m.dn[q])
             && (forall q: nat :: q < |s.m.life| && m'.life[q] != s.m.life[q] ==> Retires(pc', q))
             && (forall q: nat :: !Retires(s.c[t], q))
    ensures Accounted(Do(s, Consume(t)))
  {
    var (m', pc') := ConsumeStep(s.m, s.c[t]);
    StepAccounts(s, m', t, pc');
  }

  /** What a dequeuer ceases to own when it counts is what it has counted. */
  lemma CountGivesUp<T>(m: Mem<T>, pc: Consumer)
    requires Sized(m) && ConsumerOk(m, pc) && pc.CCount? && CanConsume(m, pc) && Countable(m, pc)
    ensures var (m', pc') := ConsumeStep(m, pc);
            && (forall q: nat, o: nat :: q < |m.dn| && o < m.bs && Owns(pc, Pos(q, o)) && o !in m'.dn[q] ==>
                  Owns(pc', Pos(q, o)))
            && (forall q: nat, o: nat :: q < |m.dn| && o !in m'.dn[q] ==> o !in m.dn[q])
            && (forall q: nat :: q < |m.life| && m'.life[q] != m.life[q] ==> Retires(pc', q))
            && (forall q: nat :: !Retires(pc, q))
  {
    var (m', pc') := ConsumeStep(m, pc);
    forall q: nat, o: nat | q < |m.dn| && o < m.bs && Owns(pc, Pos(q, o)) && o !in m'.dn[q]
      ensures Owns(pc', Pos(q, o))
    {
      LeavesPart(m, pc, q, o);
    }
  }

  lemma LeavesPart<T>(m: Mem<T>, pc: Consumer, q: nat, o: nat)
    requires Shaped(m) && pc.CCount? && CanConsume(m, pc) && pc.e.o < m.bs && Less(pc.a, pc.e)
    requires o < m.bs && Owns(pc, Pos(q, o)) && !(q == pc.a.q && o < Stop(pc.a, pc.e, m.bs))
    ensures Owns(ConsumeStep(m, pc).1, Pos(q, o))
  {
  }

  lemma ConsumeAccounts<T>(s: State<T>, t: nat)
    requires Inv(s) && t < |s.c| && Accounted(s)
    ensures Inv(Do(s, Consume(t))) && Accounted(Do(s, Consume(t)))
  {
    ConsumeKeeps(s, t);
    if s.c[t].CCount? { CountAccounts(s, t); } else { PassAccounts(s, t); }
  }

  lemma PassAccounts<T>(s: State<T>, t: nat)
    requires Inv(s) && t < |s.c| && !s.c[t].CCount? && CanConsume(s.m, s.c[t]) && Accounted(s)
    ensures Accounted(Do(s, Consume(t)))
  {
    assert ConsumerOk(s.m, s.c[t]);
    PassOwns(s.m, s.c[t]);
    PassedAccounts(s, t);
  }

  /** A step that counts nothing gives up nothing, except a block that was recycled. */
  lemma PassOwns<T>(m: Mem<T>, pc: Consumer)
    requires Sized(m) && !pc.CCount? && CanConsume(m, pc) && ConsumerOk(m, pc)
    ensures var (m', pc') := ConsumeStep(m, pc);
            && m'.dn == m.dn && (forall q: nat, o: nat :: o < m.bs && Owns(pc, Pos(q, o)) ==> Owns(pc', Pos(q, o)))
            && (forall q: nat :: q < |m.life| && (m'.life[q].Full? || m'.life[q].Nulled?) ==>
                  Retires(pc', q) || ((m.life[q].Full? || m.life[q].Nulled?) && !Retires(pc, q)))
  {
  }

  lemma PassedAccounts<T>(s: State<T>, t: nat)
    requires Sized(s.m) && Accounted(s) && t < |s.c| && !s.c[t].CCount? && CanConsume(s.m, s.c[t])
    requires var (m', pc') := ConsumeStep(s.m, s.c[t]);
             && m'.dn == s.m.dn
             && (forall q: nat, o: nat :: o < s.m.bs && Owns(s.c[t], Pos(q, o)) ==> Owns(pc', Pos(q, o)))
             && (forall q: nat :: q < |s.m.life| && (m'.life[q].Full? || m'.life[q].Nulled?) ==>
                   Retires(pc', q) || ((s.m.life[q].Full? || s.m.life[q].Nulled?) && !Retires(s.c[t], q)))
    ensures Accounted(Do(s, Consume(t)))
  {
    var (m', pc') := ConsumeStep(s.m, s.c[t]);
    StepAccounts(s, m', t, pc');
  }

  lemma ProduceAccounts<T>(s: State<T>, m': Mem<T>)
    requires Inv(s) && MemOk(m') && Extends(s.m, m') && Accounted(s)
    requires forall q :: |s.m.hist| <= q < |m'.hist| ==> m'.life[q].Active?
    ensures Accounted(State(m', s.c))
  {
    var s' := State(m', s.c);
    forall q: nat, o: nat ensures CountedAt(s', q, o) { assert CountedAt(s, q, o); }
    forall q: nat ensures RetiredAt(s', q) { assert RetiredAt(s, q); }
  }

  lemma ProduceStepAccounts<T>(s: State<T>, sup: Supply<T>)
    requires Inv(s) && Accounted(s)
    ensures CanProduce(s.m) && Accounted(State(ProduceStep(s.m, sup), s.c))
  {
    ProduceKeepsMem(s.m, sup);
    ProduceAccounts(s, ProduceStep(s.m, sup));
  }

  lemma ClaimAccounts<T>(s: State<T>, t: nat, e: Pos)
    requires Inv(s) && Accounted(s) && t < |s.c| && s.c[t] == CIdle && Less(s.m.head, e)
    ensures Accounted(State(s.m.(head := e), s.c[t := CLoadIndex(s.m.head, e)]))
  {
    forall q: nat, o: nat | q < |s.m.hist| && o < s.m.bs && Less(Pos(q, o), e) && !Less(Pos(q, o), s.m.head)
      ensures Owns(CLoadIndex(s.m.head, e), Pos(q, o))
    {
    }
    forall q: nat, o: nat | q < |s.m.hist| && Less(Pos(q, o), s.m.head) && o in s.m.dn[q]
      ensures o in s.m.(head := e).dn[q]
    {
    }
    StepAccounts(s, s.m.(head := e), t, CLoadIndex(s.m.head, e));
  }

  lemma DoAccounts<T>(s: State<T>, act: Action<T>)
    requires Inv(s) && Accounted(s) && (act.Claim? ==> act.max >= 1)
    ensures Inv(Do(s, act)) && Accounted(Do(s, act))
  {
    DoKeeps(s, act);
    match act
    case Enqueue(v) =>
      if s.m.p.PIdle? {
        StartEnqueueKeeps(s.m, v);
        ProduceAccounts(s, StartEnqueue(s.m, v));
      }
    case Produce(sup) => ProduceStepAccounts(s, sup);
    case Claim(t, max, e) => if t < |s.c| && s.c[t] == CIdle && CanClaim(s.m, max, e) { ClaimAccounts(s, t, e); }
    case Consume(t) => if t < |s.c| { ConsumeAccounts(s, t); }
  }

  // Every block is in the pool or in use.

  /** Block b is the block of some number, or about to become one. */
  predicate InUse<T>(m: Mem<T>, b: nat)
    requires |m.life| == |m.hist|
  {
    || (m.p.PCommit? && m.p.b == b)
    || exists q :: 0 <= q < |m.hist| && !m.life[q].Recycled? && m.hist[q] == b
  }

  predicate Kept<T>(m: Mem<T>, b: nat)
    requires |m.life| == |m.hist|
  {
    b in m.pool || InUse(m, b)
  }

  ghost predicate Covered<T>(m: Mem<T>)
    requires |m.life| == |m.hist|
  {
    forall b: nat :: b < |m.blocks| ==> Kept(m, b)
  }

  /** A step that neither takes a block from the pool nor gives one back. */
  lemma PassCovered<T>(m: Mem<T>, m': Mem<T>)
    requires |m.life| == |m.hist| && |m'.life| == |m'.hist| && Covered(m)
    requires |m'.blocks| == |m.blocks| && m'.pool == m.pool && m'.hist == m.hist
    requires m.p.PCommit? ==> m'.p == m.p
    requires forall q :: 0 <= q < |m.hist| && m'.life[q].Recycled? ==> m.life[q].Recycled?
    ensures Covered(m')
  {
    forall b: nat | b < |m'.blocks| ensures Kept(m', b) {
      assert Kept(m, b);
      if b !in m.pool && !(m.p.PCommit? && m.p.b == b) {
        var q :| 0 <= q < |m.hist| && !m.life[q].Recycled? && m.hist[q] == b;
        assert !m'.life[q].Recycled?;
      }
    }
  }

  lemma RequisitionCovered<T>(m: Mem<T>, sup: Supply<T>)
    requires |m.life| == |m.hist| && Covered(m) && m.p.PRequisition?
    ensures Covered(Requisition(m, m.p.v, sup))
  {
    var m' := Requisition(m, m.p.v, sup);
    forall b: nat | b < |m'.blocks| ensures Kept(m', b) { assert b < |m.blocks| ==> Kept(m, b); }
  }

  lemma CommitCovered<T>(m: Mem<T>)
    requires Shaped(m) && |m.life| == |m.hist| && Covered(m) && m.p.PCommit?
    ensures Covered(Commit(m, m.p.v, m.p.b))
  {
    var m' := Commit(m, m.p.v, m.p.b);
    forall b: nat | b < |m'.blocks| ensures Kept(m', b) {
      assert Kept(m, b);
      if b == m.p.b {
        assert m'.hist[|m.hist|] == b && !m'.life[|m.hist|].Recycled?;
      } else if b !in m.pool {
        var q :| 0 <= q < |m.hist| && !m.life[q].Recycled? && m.hist[q] == b;
        assert m'.hist[q] == b && !m'.life[q].Recycled?;
      }
    }
  }

  lemma GiveBackCovered<T>(m: Mem<T>, b: nat, q: nat)
    requires |m.life| == |m.hist| && Covered(m) && q < |m.hist| && m.hist[q] == b
    ensures Covered(GiveBack(m, b, q))
  {
    var m' := GiveBack(m, b, q);
    forall x: nat | x < |m'.blocks| ensures Kept(m', x) {
      assert Kept(m, x);
      if x != b && x !in m.pool && !(m.p.PCommit? && m.p.b == x) {
        var r :| 0 <= r < |m.hist| && !m.life[r].Recycled? && m.hist[r] == x;
        assert m'.hist[r] == x && !m'.life[r].Recycled?;
      }
    }
  }

  lemma ProduceCovered<T>(m: Mem<T>, sup: Supply<T>)
    requires Sized(m) && CanProduce(m) && Covered(m)
    ensures |ProduceStep(m, sup).life| == |ProduceStep(m, sup).hist| && Covered(ProduceStep(m, sup))
  {
    match m.p
    case PRequisition(_) => RequisitionCovered(m, sup);
    case PCommit(_, _) => CommitCovered(m);
    case _ => PassCovered(m, ProduceStep(m, sup));
  }

  lemma ConsumeCovered<T>(m: Mem<T>, pc: Consumer)
    requires Sized(m) && CanConsume(m, pc) && ConsumerOk(m, pc) && Covered(m)
    ensures var m' := ConsumeStep(m, pc).0; |m'.life| == |m'.hist| && Covered(m')
  {
    match pc
    case CFree(a, _, _, _, b) => GiveBackCovered(m, b, a.q);
    case _ => PassCovered(m, ConsumeStep(m, pc).0);
  }

  lemma DoCovered<T>(s: State<T>, act: Action<T>)
    requires Sized(s.m) && Covered(s.m) && forall t :: 0 <= t < |s.c| ==> ConsumerOk(s.m, s.c[t])
    ensures |Do(s, act).m.life| == |Do(s, act).m.hist| && Covered(Do(s, act).m)
  {
    match act
    case Enqueue(v) => if s.m.p.PIdle? { PassCovered(s.m, StartEnqueue(s.m, v)); }
    case Produce(sup) => if CanProduce(s.m) { ProduceCovered(s.m, sup); }
    case Claim(t, max, e) => PassCovered(s.m, s.m.(head := e));
    case Consume(t) => if t < |s.c| && CanConsume(s.m, s.c[t]) { ConsumeCovered(s.m, s.c[t]); }
  }

  lemma {:induction false} RunAccounts<T>(bs: nat, capacity: nat, dequeuers: nat, schedule: seq<Action<T>>)
    requires IndexFits(bs, capacity) && capacity >= 1 && AsksAtLeast(schedule, 1)
    ensures var s := Run(Start(bs, capacity, dequeuers), schedule); Inv(s) && Accounted(s) && Covered(s.m)
  {
    if schedule == [] {
      StartInv<T>(bs, capacity, dequeuers);
    } else {
      RunAccounts(bs, capacity, dequeuers, schedule[..|schedule| - 1]);
      DoAccounts(Run(Start(bs, capacity, dequeuers), schedule[..|schedule| - 1]), schedule[|schedule| - 1]);
      DoCovered(Run(Start(bs, capacity, dequeuers), schedule[..|schedule| - 1]), schedule[|schedule| - 1]);
    }
  }

  predicate Quiet<T>(s: State<T>) { forall t :: 0 <= t < |s.c| ==> s.c[t] == CIdle }

  /** Exactly the blocks whose elements have all been dequeued were given back, and a block is in the pool
      exactly if it is not in use. */
  ghost predicate AllGivenBack<T>(m: Mem<T>)
    requires |m.life| == |m.hist|
  {
    && (forall q :: 0 <= q < |m.life| ==> (m.life[q].Recycled? <==> q < m.head.q))
    && (forall b: nat :: b < |m.blocks| ==> (b in m.pool <==> !InUse(m, b)))
  }

  lemma PoolIsUnused<T>(m: Mem<T>, b: nat)
    requires MemOk(m) && Covered(m) && b < |m.blocks|
    ensures b in m.pool <==> !InUse(m, b)
  {
    assert Kept(m, b);
    if exists q :: 0 <= q < |m.hist| && !m.life[q].Recycled? && m.hist[q] == b {
      var q :| 0 <= q < |m.hist| && !m.life[q].Recycled? && m.hist[q] == b;
      assert LifeAt(m, q);
    }
  }

  lemma QuietAccounts<T>(s: State<T>)
    requires Inv(s) && Accounted(s) && Covered(s.m) && Quiet(s)
    ensures AllGivenBack(s.m)
  {
    forall q: nat | q < |s.m.life| ensures s.m.life[q].Recycled? <==> q < s.m.head.q { BlockAccounted(s, q); }
    forall b: nat | b < |s.m.blocks| ensures b in s.m.pool <==> !InUse(s.m, b) { PoolIsUnused(s.m, b); }
  }

  /** Whenever no dequeue is in flight, no block is lost. */
  lemma NoBlockLost<T>(bs: nat, capacity: nat, dequeuers: nat, schedule: seq<Action<T>>)
    requires IndexFits(bs, capacity) && capacity >= 1 && AsksAtLeast(schedule, 1)
    ensures var s := Run(Start(bs, capacity, dequeuers), schedule);
            |s.m.life| == |s.m.hist| && (Quiet(s) ==> AllGivenBack(s.m))
  {
    var s := Run(Start(bs, capacity, dequeuers), schedule);
    RunAccounts(bs, capacity, dequeuers, schedule);
    if Quiet(s) { QuietAccounts(s); }
  }

  lemma BlockAccounted<T>(s: State<T>, q: nat)
    requires Inv(s) && Accounted(s) && q < |s.m.life|
    requires Quiet(s)
    ensures s.m.life[q].Recycled? <==> q < s.m.head.q
  {
    assert LifeAt(s.m, q) && RetiredAt(s, q);
    if q < s.m.head.q {
      forall o: nat | o < s.m.bs ensures o in s.m.dn[q] { assert CountedAt(s, q, o); }
      Sets.FullIsBound(s.m.dn[q], s.m.bs);
    } else if s.m.life[q].Recycled? {
      FreesAll(s.m, q);
    }
  }
}
