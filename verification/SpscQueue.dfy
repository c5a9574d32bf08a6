/** The single-producer single-consumer queue: a circular list of circular blocks. The producer owns
    the tail indices, the `next` links and the tail block; the consumer owns the front indices and the
    front block; each keeps a shadow of the other's index in every block.

    One producer thread calls `enqueue` and `try_enqueue`, one consumer thread calls `try_dequeue`,
    `pop` and `peek`. Every step is one access to memory that the other thread may touch, together
    with the accesses to the thread's own variables around it. */
module SpscQueue {
  import opened Words
  import opened Arith

  /** `lo` is never read by the code: how many elements were enqueued before the one at `front`. */
  datatype Block<T> = Block(
    front: nat, localTail: nat, tail: nat, localFront: nat, next: nat, data: seq<T>,
    lo: nat)

  datatype Producer<T> =
    | PDone(ok: bool)
    | PLoadFront(v: T, alloc: bool)
    | PLoadFrontBlock(v: T, alloc: bool)
    | PWrite(v: T)
    | PStoreTail(v: T)
    | PReuse(v: T)
    | PReuseWrite(v: T, b: nat)
    | PReuseTail(v: T, b: nat)
    | PAllocate(v: T)
    | PLink(v: T, b: nat)
    | PSetTail(v: T, b: nat)

  datatype Consumer<T> =
    | CDone
    | CGot(v: T)
    | CPeeked(v: T)
    | CEmpty
    | CLoadTail(peek: bool)
    | CLoadTailBlock(peek: bool)
    | CReloadTail(peek: bool)
    | CNext(peek: bool)
    | CNextTail(b: nat)
    | CPeekNext(b: nat)
    | CMove(b: nat)
    | CRead(peek: bool)
    | CStore(v: T)

  /** `goal` is the size asked for at construction, `minSize` the size of the first block. The fields
      from `ring` on are never read by the code: the blocks in list order from the front block on, the
      position of the tail block in it, the elements ever enqueued and dequeued, and how many were in
      the queue when the producer's and the consumer's current call began. */
  datatype State<T> = State(
    maxBlock: nat, goal: nat, minSize: nat,
    blocks: seq<Block<T>>, frontBlock: nat, tailBlock: nat, largest: nat,
    p: Producer<T>, c: Consumer<T>,
    ring: seq<nat>, tpos: nat, enq: seq<T>, deq: seq<T>, pHeld: int, cHeld: int)

  /** What an allocation yields: nothing, or memory with arbitrary content. */
  datatype Supply<T> = NoMemory | Memory(junk: seq<T>)

  datatype Action<T> = StartEnqueue(v: T, alloc: bool) | Produce(m: Supply<T>) | StartDequeue(peek: bool) | Consume

  // ---------------------------------------------------------------- circular indices

  function Next(i: nat, n: nat): nat { if i + 1 == n then 0 else i + 1 }

  /** Steps from index i forward to index k. */
  function Dist(i: nat, k: nat, n: nat): int { if i <= k then k - i else k - i + n }

  function Size<T>(b: Block<T>): nat { |b.data| }

  function Used<T>(b: Block<T>): int { Dist(b.front, b.tail, Size(b)) }

  /** The elements of a block, front first. */
  function Contents<T>(b: Block<T>): seq<T>
    requires Shaped(b)
  {
    seq(Used(b), k requires 0 <= k < Used(b) => b.data[Ahead(b.front, k, Size(b))])
  }

  predicate Shaped<T>(b: Block<T>) {
    && Size(b) >= 2 && b.front < Size(b) && b.tail < Size(b) && b.localTail < Size(b) && b.localFront < Size(b)
  }

  predicate WellFormed<T>(s: State<T>) {
    && s.frontBlock < |s.blocks| && s.tailBlock < |s.blocks| && s.tpos < |s.ring|
    && (forall b :: 0 <= b < |s.blocks| ==> Shaped(s.blocks[b]) && s.blocks[b].next < |s.blocks|)
    && (s.p.PReuseWrite? || s.p.PReuseTail? || s.p.PLink? || s.p.PSetTail? ==> s.p.b < |s.blocks|)
    && (s.c.CNextTail? || s.c.CPeekNext? || s.c.CMove? ==> s.c.b < |s.blocks|)
  }

  function Held<T>(s: State<T>): int { |s.enq| - |s.deq| }

  // ---------------------------------------------------------------- the producer

  function Tail<T>(s: State<T>): Block<T> requires WellFormed(s) { s.blocks[s.tailBlock] }

  function Front<T>(s: State<T>): Block<T> requires WellFormed(s) { s.blocks[s.frontBlock] }

  /** inner_enqueue up to the first access to the consumer's memory. */
  function StartEnqueueStep<T>(s: State<T>, v: T, alloc: bool): State<T>
    requires WellFormed(s)
  {
    var b := Tail(s);
    s.(p := if Next(b.tail, Size(b)) != b.localFront then PWrite(v) else PLoadFront(v, alloc), pHeld := Held(s))
  }

  function LoadFront<T>(s: State<T>, v: T, alloc: bool): State<T>
    requires WellFormed(s)
  {
    var b := Tail(s);
    s.(blocks := s.blocks[s.tailBlock := b.(localFront := b.front)],
       p := if Next(b.tail, Size(b)) != b.front then PWrite(v) else PLoadFrontBlock(v, alloc))
  }

  function LoadFrontBlock<T>(s: State<T>, v: T, alloc: bool): State<T>
    requires WellFormed(s)
  {
    s.(p := if Tail(s).next != s.frontBlock then PReuse(v) else if alloc then PAllocate(v) else PDone(false))
  }

  function Write<T>(s: State<T>, v: T): State<T>
    requires WellFormed(s)
  {
    var b := Tail(s);
    s.(blocks := s.blocks[s.tailBlock := b.(data := b.data[b.tail := v])], p := PStoreTail(v))
  }

  function StoreTail<T>(s: State<T>, v: T): State<T>
    requires WellFormed(s)
  {
    var b := Tail(s);
    s.(blocks := s.blocks[s.tailBlock := b.(tail := Next(b.tail, Size(b)))], p := PDone(true), enq := s.enq + [v])
  }

  /** Loads the front index of the next block into its shadow. */
  function Reuse<T>(s: State<T>, v: T): State<T>
    requires WellFormed(s)
  {
    var n := Tail(s).next;
    s.(blocks := s.blocks[n := s.blocks[n].(localFront := s.blocks[n].front)], p := PReuseWrite(v, n))
  }

  function ReuseWrite<T>(s: State<T>, v: T, n: nat): State<T>
    requires WellFormed(s) && n < |s.blocks|
  {
    var b := s.blocks[n];
    s.(blocks := s.blocks[n := b.(data := b.data[b.tail := v])], p := PReuseTail(v, n))
  }

  function ReuseTail<T>(s: State<T>, v: T, n: nat): State<T>
    requires WellFormed(s) && n < |s.blocks|
  {
    var b := s.blocks[n];
    s.(blocks := s.blocks[n := b.(tail := Next(b.tail, Size(b)))], p := PSetTail(v, n))
  }

  /** The size of the next block to be allocated. */
  function NextSize<T>(s: State<T>): nat { if s.largest >= s.maxBlock then s.largest else s.largest * 2 }

  /** The allocation yields memory for the block asked for. */
  predicate Yields<T>(s: State<T>, m: Supply<T>) { m.Memory? && |m.junk| == NextSize(s) }

  /** A new block, still private: the element in slot 0, linked to the block after the tail block. */
  function Allocate<T>(s: State<T>, v: T, m: Supply<T>): State<T>
    requires WellFormed(s)
  {
    if !Yields(s, m) || NextSize(s) < 2 then s.(p := PDone(false))
    else
      s.(blocks := s.blocks + [Block(0, 1, 1, 0, Tail(s).next, m.junk[0 := v], 0)], largest := NextSize(s),
         p := PLink(v, |s.blocks|))
  }

  function Link<T>(s: State<T>, v: T, n: nat): State<T>
    requires WellFormed(s)
  {
    s.(blocks := s.blocks[s.tailBlock := Tail(s).(next := n)], p := PSetTail(v, n),
       ring := s.ring[..s.tpos + 1] + [n] + s.ring[s.tpos + 1..])
  }

  function SetTail<T>(s: State<T>, v: T, n: nat): State<T>
    requires WellFormed(s) && n < |s.blocks|
  {
    s.(tailBlock := n, p := PDone(true), tpos := s.tpos + 1, enq := s.enq + [v],
       blocks := s.blocks[n := s.blocks[n].(lo := |s.enq|)])
  }

  function ProduceStep<T>(s: State<T>, m: Supply<T>): State<T>
    requires WellFormed(s)
  {
    match s.p
    case PDone(_) => s
    case PLoadFront(v, alloc) => LoadFront(s, v, alloc)
    case PLoadFrontBlock(v, alloc) => LoadFrontBlock(s, v, alloc)
    case PWrite(v) => Write(s, v)
    case PStoreTail(v) => StoreTail(s, v)
    case PReuse(v) => Reuse(s, v)
    case PReuseWrite(v, n) => ReuseWrite(s, v, n)
    case PReuseTail(v, n) => ReuseTail(s, v, n)
    case PAllocate(v) => Allocate(s, v, m)
    case PLink(v, n) => Link(s, v, n)
    case PSetTail(v, n) => SetTail(s, v, n)
  }

  // ---------------------------------------------------------------- the consumer

  function StartDequeueStep<T>(s: State<T>, peek: bool): State<T>
    requires WellFormed(s)
  {
    s.(c := if Front(s).front != Front(s).localTail then CRead(peek) else CLoadTail(peek), cHeld := Held(s))
  }

  /** The tail of the front block, loaded into its shadow. */
  function ShadowTail<T>(s: State<T>, b: nat): seq<Block<T>>
    requires b < |s.blocks|
  {
    s.blocks[b := s.blocks[b].(localTail := s.blocks[b].tail)]
  }

  function LoadTail<T>(s: State<T>, peek: bool): State<T>
    requires WellFormed(s)
  {
    s.(blocks := ShadowTail(s, s.frontBlock),
       c := if Front(s).front != Front(s).tail then CRead(peek) else CLoadTailBlock(peek))
  }

  function LoadTailBlock<T>(s: State<T>, peek: bool): State<T> {
    s.(c := if s.frontBlock != s.tailBlock then CReloadTail(peek) else CEmpty)
  }

  function ReloadTail<T>(s: State<T>, peek: bool): State<T>
    requires WellFormed(s)
  {
    s.(blocks := ShadowTail(s, s.frontBlock),
       c := if Front(s).front != Front(s).tail then CRead(peek) else CNext(peek))
  }

  function LoadNext<T>(s: State<T>, peek: bool): State<T>
    requires WellFormed(s)
  {
    s.(c := if peek then CPeekNext(Front(s).next) else CNextTail(Front(s).next))
  }

  function PeekNext<T>(s: State<T>, n: nat): State<T>
    requires WellFormed(s) && n < |s.blocks|
  {
    s.(c := CPeeked(s.blocks[n].data[s.blocks[n].front]))
  }

  /** The front block gives way to the next one. */
  function Move<T>(s: State<T>, n: nat): State<T>
    requires s.ring != []
  {
    s.(frontBlock := n, c := CRead(false), ring := s.ring[1..] + s.ring[..1],
       tpos := if s.tpos == 0 then |s.ring| - 1 else s.tpos - 1)
  }

  function Read<T>(s: State<T>, peek: bool): State<T>
    requires WellFormed(s)
  {
    var v := Front(s).data[Front(s).front];
    s.(c := if peek then CPeeked(v) else CStore(v))
  }

  function Store<T>(s: State<T>, v: T): State<T>
    requires WellFormed(s)
  {
    var b := Front(s);
    s.(blocks := s.blocks[s.frontBlock := b.(front := Next(b.front, Size(b)), lo := b.lo + 1)],
       c := CGot(v), deq := s.deq + [v])
  }

  function ConsumeStep<T>(s: State<T>): State<T>
    requires WellFormed(s)
  {
    match s.c
    case CLoadTail(peek) => LoadTail(s, peek)
    case CLoadTailBlock(peek) => LoadTailBlock(s, peek)
    case CReloadTail(peek) => ReloadTail(s, peek)
    case CNext(peek) => LoadNext(s, peek)
    case CNextTail(n) => s.(blocks := ShadowTail(s, n), c := CMove(n))
    case CPeekNext(n) => PeekNext(s, n)
    case CMove(n) => Move(s, n)
    case CRead(peek) => Read(s, peek)
    case CStore(v) => Store(s, v)
    case _ => s
  }

  predicate ConsumerDone<T>(c: Consumer<T>) { c.CDone? || c.CGot? || c.CPeeked? || c.CEmpty? }

  function Do<T>(s: State<T>, act: Action<T>): State<T> {
    if !WellFormed(s) then s
    else
      match act
      case StartEnqueue(v, alloc) => if s.p.PDone? then StartEnqueueStep(s, v, alloc) else s
      case Produce(m) => ProduceStep(s, m)
      case StartDequeue(peek) => if ConsumerDone(s.c) then StartDequeueStep(s, peek) else s
      case Consume => ConsumeStep(s)
  }

  function Run<T>(s: State<T>, schedule: seq<Action<T>>): State<T> {
    if schedule == [] then s else Do(Run(s, schedule[..|schedule| - 1]), schedule[|schedule| - 1])
  }

  // ---------------------------------------------------------------- the invariant

  /** The shadow of the tail lies between front and tail, and the shadow of the front behind the front
      by no more than the free room. */
  predicate Shadows<T>(b: Block<T>) {
    && Dist(b.front, b.localTail, Size(b)) <= Used(b)
    && Dist(b.localFront, b.front, Size(b)) + Used(b) <= Size(b) - 1
  }

  /** The elements of the block are those enqueued from number lo on. */
  ghost predicate Keeps<T>(b: Block<T>, enq: seq<T>)
    requires Shaped(b)
  {
    && b.lo + Used(b) <= |enq|
    && (forall k :: 0 <= k < Used(b) ==> b.data[Ahead(b.front, k, Size(b))] == enq[b.lo + k])
  }

  predicate Full<T>(b: Block<T>) { Used(b) == Size(b) - 1 }

  /** What is known of the block at position i of the ring. */
  ghost predicate SlotAt<T>(s: State<T>, i: nat)
    requires i < |s.ring|
  {
    && s.ring[i] < |s.blocks|
    && var b := s.blocks[s.ring[i]];
       var after := s.ring[if i + 1 == |s.ring| then 0 else i + 1];
       && Shaped(b) && Shadows(b) && Size(b) >= s.minSize
       && b.next == after < |s.blocks|
       && (i <= s.tpos ==> Keeps(b, s.enq))
       && (i == 0 ==> b.lo == |s.deq|)
       && (i < s.tpos ==> s.blocks[after].lo == b.lo + Used(b))
       && (i == s.tpos ==> b.lo + Used(b) == |s.enq|)
       && (1 <= i < s.tpos ==> Full(b))
       && (i == s.tpos && i >= 1 ==> Used(b) >= 1)
       && (i > s.tpos ==> Used(b) == 0 || (s.p.PSetTail? && i == s.tpos + 1))
  }

  predicate RingOk<T>(s: State<T>) {
    && s.tpos < |s.ring| && s.ring[0] == s.frontBlock && s.ring[s.tpos] == s.tailBlock
    && (forall i, j :: 0 <= i < j < |s.ring| ==> s.ring[i] != s.ring[j])
  }

  /** Usable slots of all but one of n blocks. */
  function Slots(n: nat, size: nat): int { (n - 1) * (size - 1) }

  /** Enough room that when nothing more can be enqueued without allocating, `goal` elements are in. */
  predicate Roomy<T>(s: State<T>) {
    && s.minSize >= 2
    && (|s.ring| == 1 ==> s.minSize - 1 >= s.goal)
    && (|s.ring| >= 2 ==> Slots(|s.ring|, s.minSize) >= s.goal)
    && s.largest >= s.minSize
  }

  /** The tail block was seen full, and stays so unless the consumer is in it. */
  predicate Sealed<T>(s: State<T>)
    requires WellFormed(s)
  {
    s.tpos >= 1 ==> Full(Tail(s))
  }

  ghost predicate ProducerOk<T>(s: State<T>)
    requires WellFormed(s)
  {
    && (!s.p.PDone? ==> Held(s) <= s.pHeld)
    && match s.p
       case PDone(ok) => !ok ==> s.pHeld >= s.goal
       case PLoadFront(_, _) => true
       case PLoadFrontBlock(_, _) => Sealed(s) && (|s.ring| == 1 ==> s.pHeld >= s.goal)
       case PWrite(_) => Dist(Tail(s).localFront, Tail(s).tail, Size(Tail(s))) < Size(Tail(s)) - 1
       case PStoreTail(v) =>
         && Dist(Tail(s).localFront, Tail(s).tail, Size(Tail(s))) < Size(Tail(s)) - 1
         && Tail(s).data[Tail(s).tail] == v
       case PReuse(_) => Sealed(s) && s.tpos + 1 < |s.ring|
       case PReuseWrite(_, b) =>
         && Sealed(s) && s.tpos + 1 < |s.ring| && b == s.ring[s.tpos + 1] < |s.blocks|
         && s.blocks[b].localFront == s.blocks[b].front
       case PReuseTail(v, b) =>
         && Sealed(s) && s.tpos + 1 < |s.ring| && b == s.ring[s.tpos + 1] < |s.blocks|
         && s.blocks[b].localFront == s.blocks[b].front
         && s.blocks[b].data[s.blocks[b].tail] == v
       case PAllocate(_) => Sealed(s) && s.pHeld >= s.goal
       case PLink(v, b) =>
         && Sealed(s) && b < |s.blocks| && (forall i :: 0 <= i < |s.ring| ==> s.ring[i] != b)
         && Private(s.blocks[b], v, s.minSize) && s.blocks[b].next == Tail(s).next
       case PSetTail(v, b) =>
         && Sealed(s) && s.tpos + 1 < |s.ring| && b == s.ring[s.tpos + 1] < |s.blocks|
         && Used(s.blocks[b]) == 1 && s.blocks[b].data[s.blocks[b].front] == v
  }

  ghost predicate Private<T>(b: Block<T>, v: T, minSize: nat) {
    && Shaped(b) && b.front == 0 && b.localFront == 0 && b.tail == 1 && b.localTail == 1 && b.data[0] == v
    && Size(b) >= minSize
  }

  /** The front block is empty and there is another one after it. */
  predicate Drained<T>(s: State<T>)
    requires WellFormed(s)
  {
    s.tpos >= 1 && Used(Front(s)) == 0 && Front(s).localTail == Front(s).tail
  }

  ghost predicate ConsumerOk<T>(s: State<T>)
    requires WellFormed(s)
  {
    && (!ConsumerDone(s.c) ==> Held(s) >= s.cHeld)
    && match s.c
       case CEmpty => s.cHeld == 0
       case CPeeked(v) => |s.deq| < |s.enq| && s.enq[|s.deq|] == v
       case CGot(v) => s.deq != [] && s.deq[|s.deq| - 1] == v
       case CLoadTailBlock(_) => (s.tpos == 0 ==> s.cHeld == 0) && Front(s).front == Front(s).localTail
       case CReloadTail(_) => s.tpos >= 1
       case CNext(_) => Drained(s)
       case CNextTail(b) => Drained(s) && b == s.ring[1]
       case CPeekNext(b) => Drained(s) && b == s.ring[1]
       case CMove(b) => Drained(s) && b == s.ring[1] && s.blocks[b].front != s.blocks[b].localTail
       case CRead(_) => Front(s).front != Front(s).localTail
       case CStore(v) =>
         Front(s).front != Front(s).localTail && |s.deq| < |s.enq| && s.enq[|s.deq|] == v
       case _ => true
  }

  ghost predicate Memory<T>(s: State<T>) {
    && RingOk(s) && Roomy(s) && 0 <= s.cHeld
    && |s.deq| <= |s.enq| && s.deq == s.enq[..|s.deq|]
    && (forall i :: 0 <= i < |s.ring| ==> SlotAt(s, i))
  }

  ghost predicate Inv<T>(s: State<T>) {
    WellFormed(s) && Memory(s) && ProducerOk(s) && ConsumerOk(s)
  }

  // ---------------------------------------------------------------- the consumer keeps the invariant

  /** Steps that change program counters only, none of them to or from the pending tail block. */
  lemma SlotsFrame<T>(s: State<T>, s': State<T>)
    requires Memory(s) && s' == s.(p := s'.p, c := s'.c, pHeld := s'.pHeld, cHeld := s'.cHeld)
    requires (s.p.PSetTail? ==> s'.p.PSetTail?) && 0 <= s'.cHeld
    ensures Memory(s')
  {
    forall i | 0 <= i < |s.ring| ensures SlotAt(s', i) { assert SlotAt(s, i); }
  }

  lemma StartDequeueKeeps<T>(s: State<T>, peek: bool)
    requires Inv(s) && ConsumerDone(s.c)
    ensures Inv(StartDequeueStep(s, peek))
  {
    SlotsFrame(s, StartDequeueStep(s, peek));
  }

  /** Loading a tail into its shadow. */
  lemma ShadowTailKeeps<T>(s: State<T>, i: nat, c': Consumer<T>)
    requires WellFormed(s) && Memory(s) && i < |s.ring|
    ensures s.ring[i] < |s.blocks|
    ensures var s' := s.(blocks := ShadowTail(s, s.ring[i]), c := c'); Memory(s')
  {
    assert SlotAt(s, i);
    var s' := s.(blocks := ShadowTail(s, s.ring[i]), c := c');
    forall j | 0 <= j < |s.ring| ensures SlotAt(s', j) { ShadowTailKeepsSlot(s, i, c', j); }
  }

  lemma ShadowTailKeepsSlot<T>(s: State<T>, i: nat, c': Consumer<T>, j: nat)
    requires WellFormed(s) && RingOk(s) && i < |s.ring| && j < |s.ring| && SlotAt(s, i) && SlotAt(s, j)
    ensures SlotAt(s.(blocks := ShadowTail(s, s.ring[i]), c := c'), j)
  {
  }

  /** The producer does not look at the shadow of the tail of a block in the ring. */
  lemma ShadowTailProducer<T>(s: State<T>, i: nat, c': Consumer<T>)
    requires WellFormed(s) && ProducerOk(s) && i < |s.ring| && s.ring[i] < |s.blocks|
    requires WellFormed(s.(blocks := ShadowTail(s, s.ring[i]), c := c'))
    ensures ProducerOk(s.(blocks := ShadowTail(s, s.ring[i]), c := c'))
  {
  }

  lemma LoadTailKeeps<T>(s: State<T>, peek: bool)
    requires Inv(s) && s.c == CLoadTail(peek)
    ensures Inv(LoadTail(s, peek))
  {
    assert SlotAt(s, 0);
    ShadowTailKeeps(s, 0, LoadTail(s, peek).c);
    ShadowTailProducer(s, 0, LoadTail(s, peek).c);
  }

  lemma LoadTailBlockKeeps<T>(s: State<T>, peek: bool)
    requires Inv(s) && s.c == CLoadTailBlock(peek)
    ensures Inv(LoadTailBlock(s, peek))
  {
    SlotsFrame(s, LoadTailBlock(s, peek));
  }

  lemma ReloadTailKeeps<T>(s: State<T>, peek: bool)
    requires Inv(s) && s.c == CReloadTail(peek)
    ensures Inv(ReloadTail(s, peek))
  {
    assert SlotAt(s, 0);
    ShadowTailKeeps(s, 0, ReloadTail(s, peek).c);
    ShadowTailProducer(s, 0, ReloadTail(s, peek).c);
  }

  lemma LoadNextKeeps<T>(s: State<T>, peek: bool)
    requires Inv(s) && s.c == CNext(peek)
    ensures Inv(LoadNext(s, peek))
  {
    assert SlotAt(s, 0);
    SlotsFrame(s, LoadNext(s, peek));
  }

  /** The assertion of try_dequeue, pop and peek: the block after an empty front block is not empty,
      and its first element is the next one to be dequeued. */
  lemma NextNotEmpty<T>(s: State<T>)
    requires WellFormed(s) && Memory(s) && Drained(s)
    ensures s.ring[1] < |s.blocks|
    ensures var b := s.blocks[s.ring[1]];
            && b.front != b.tail && |s.deq| < |s.enq| && b.data[b.front] == s.enq[|s.deq|]
  {
    assert SlotAt(s, 0) && SlotAt(s, 1);
    var b := s.blocks[s.ring[1]];
    assert b.data[Ahead(b.front, 0, Size(b))] == s.enq[b.lo + 0];
  }

  lemma NextTailKeeps<T>(s: State<T>, b: nat)
    requires Inv(s) && s.c == CNextTail(b)
    ensures Inv(ConsumeStep(s))
  {
    NextNotEmpty(s);
    ShadowTailKeeps(s, 1, CMove(b));
    ShadowTailProducer(s, 1, CMove(b));
  }

  lemma PeekNextKeeps<T>(s: State<T>, b: nat)
    requires Inv(s) && s.c == CPeekNext(b)
    ensures Inv(PeekNext(s, b))
  {
    NextNotEmpty(s);
    SlotsFrame(s, PeekNext(s, b));
  }

  lemma MoveKeepsSlot<T>(s: State<T>, b: nat, i: nat)
    requires Inv(s) && s.c == CMove(b) && i < |s.ring|
    ensures SlotAt(Move(s, b), i)
  {
    var n := |s.ring|;
    assert SlotAt(s, if i + 1 == n then 0 else i + 1) && SlotAt(s, 0);
  }

  lemma MoveKeeps<T>(s: State<T>, b: nat)
    requires Inv(s) && s.c == CMove(b)
    ensures Inv(Move(s, b))
  {
    var s' := Move(s, b);
    MoveKeepsMemory(s, b);
    if s.p.PLink? {
      forall i | 0 <= i < |s'.ring| ensures s'.ring[i] != s.p.b {}
    }
  }

  lemma MoveKeepsMemory<T>(s: State<T>, b: nat)
    requires Inv(s) && s.c == CMove(b)
    ensures Memory(Move(s, b))
  {
    var s' := Move(s, b);
    forall i | 0 <= i < |s'.ring| ensures SlotAt(s', i) { MoveKeepsSlot(s, b, i); }
  }

  /** The element at the front of a front block that is not empty is the next one to be dequeued. */
  lemma FrontIsNext<T>(s: State<T>)
    requires WellFormed(s) && Memory(s) && Front(s).front != Front(s).localTail
    ensures Front(s).front != Front(s).tail && |s.deq| < |s.enq|
    ensures Front(s).data[Front(s).front] == s.enq[|s.deq|]
  {
    assert SlotAt(s, 0);
    var b := Front(s);
    assert b.data[Ahead(b.front, 0, Size(b))] == s.enq[b.lo + 0];
  }

  lemma ReadKeeps<T>(s: State<T>, peek: bool)
    requires Inv(s) && s.c == CRead(peek)
    ensures Inv(Read(s, peek))
  {
    FrontIsNext(s);
    SlotsFrame(s, Read(s, peek));
  }

  lemma StoreKeepsBlock<T>(b: Block<T>, b': Block<T>, enq: seq<T>)
    requires Shaped(b) && Shadows(b) && Keeps(b, enq) && b.front != b.localTail
    requires b' == b.(front := Next(b.front, Size(b)), lo := b.lo + 1)
    ensures Shaped(b') && Shadows(b') && Keeps(b', enq) && Used(b') == Used(b) - 1
  {
    forall k | 0 <= k < Used(b') ensures b'.data[Ahead(b'.front, k, Size(b))] == enq[b'.lo + k] {
      assert b.data[Ahead(b.front, k + 1, Size(b))] == enq[b.lo + (k + 1)];
    }
  }

  lemma StoreKeepsSlot<T>(s: State<T>, v: T, i: nat)
    requires WellFormed(s) && Memory(s) && Front(s).front != Front(s).localTail && i < |s.ring|
    ensures SlotAt(Store(s, v), i)
  {
    assert SlotAt(s, 0) && SlotAt(s, i);
    StoreKeepsBlock(Front(s), Front(s).(front := Next(Front(s).front, Size(Front(s))), lo := Front(s).lo + 1), s.enq);
  }

  lemma StoreKeeps<T>(s: State<T>, v: T)
    requires Inv(s) && s.c == CStore(v)
    ensures Inv(Store(s, v))
  {
    assert SlotAt(s, 0);
    StoreKeepsMemory(s, v);
    StoreKeepsProducer(s, v);
  }

  /** The producer's tail block changes only if it is the front block. */
  lemma StoreKeepsProducer<T>(s: State<T>, v: T)
    requires WellFormed(s) && RingOk(s) && ProducerOk(s) && WellFormed(Store(s, v))
    requires forall i :: 0 < i < |s.ring| ==> s.ring[i] != s.frontBlock
    ensures ProducerOk(Store(s, v))
  {
  }

  lemma StoreKeepsMemory<T>(s: State<T>, v: T)
    requires WellFormed(s) && Memory(s) && ConsumerOk(s) && s.c == CStore(v)
    ensures Memory(Store(s, v))
  {
    forall i | 0 <= i < |s.ring| ensures SlotAt(Store(s, v), i) { StoreKeepsSlot(s, v, i); }
  }

  lemma ConsumeKeeps<T>(s: State<T>)
    requires Inv(s)
    ensures Inv(ConsumeStep(s))
  {
    match s.c
    case CLoadTail(peek) => LoadTailKeeps(s, peek);
    case CLoadTailBlock(peek) => LoadTailBlockKeeps(s, peek);
    case CReloadTail(peek) => ReloadTailKeeps(s, peek);
    case CNext(peek) => LoadNextKeeps(s, peek);
    case CNextTail(n) => NextTailKeeps(s, n);
    case CPeekNext(n) => PeekNextKeeps(s, n);
    case CMove(n) => MoveKeeps(s, n);
    case CRead(peek) => ReadKeeps(s, peek);
    case CStore(v) => StoreKeeps(s, v);
    case _ =>
  }

  // ---------------------------------------------------------------- the producer keeps the invariant

  /** What the producer may change without disturbing the consumer. */
  ghost predicate Extends<T>(s: State<T>, s': State<T>)
    requires WellFormed(s) && WellFormed(s')
  {
    && s'.c == s.c && s'.frontBlock == s.frontBlock && s'.deq == s.deq && s'.cHeld == s.cHeld
    && s.enq <= s'.enq && s.tpos <= s'.tpos && |s.blocks| <= |s'.blocks|
    && (forall b :: 0 <= b < |s.blocks| ==>
          && s'.blocks[b].front == s.blocks[b].front && s'.blocks[b].localTail == s.blocks[b].localTail
          && Size(s'.blocks[b]) == Size(s.blocks[b]))
    && (s.tpos >= 1 ==> Front(s').tail == Front(s).tail && |s'.ring| >= 2 && s'.ring[1] == s.ring[1])
  }

  lemma ConsumerFrame<T>(s: State<T>, s': State<T>)
    requires Inv(s) && WellFormed(s') && Extends(s, s')
    ensures ConsumerOk(s')
  {
  }

  lemma StartEnqueueKeeps<T>(s: State<T>, v: T, alloc: bool)
    requires Inv(s) && s.p.PDone?
    ensures Inv(StartEnqueueStep(s, v, alloc))
  {
    var s' := StartEnqueueStep(s, v, alloc);
    SlotsFrame(s, s');
    assert SlotAt(s, s.tpos);
    ConsumerFrame(s, s');
  }

  lemma ShadowFrontKeeps<T>(s: State<T>, i: nat, p': Producer<T>)
    requires WellFormed(s) && Memory(s) && i < |s.ring| && !s.p.PSetTail?
    ensures s.ring[i] < |s.blocks|
    ensures var b := s.ring[i]; Memory(s.(blocks := s.blocks[b := s.blocks[b].(localFront := s.blocks[b].front)], p := p'))
  {
    assert SlotAt(s, i);
    var b := s.ring[i];
    var s' := s.(blocks := s.blocks[b := s.blocks[b].(localFront := s.blocks[b].front)], p := p');
    forall j | 0 <= j < |s.ring| ensures SlotAt(s', j) { ShadowFrontKeepsSlot(s, i, p', j); }
  }

  lemma ShadowFrontKeepsSlot<T>(s: State<T>, i: nat, p': Producer<T>, j: nat)
    requires WellFormed(s) && RingOk(s) && i < |s.ring| && j < |s.ring| && SlotAt(s, i) && SlotAt(s, j) && !s.p.PSetTail?
    ensures var b := s.ring[i];
            SlotAt(s.(blocks := s.blocks[b := s.blocks[b].(localFront := s.blocks[b].front)], p := p'), j)
  {
  }

  /** In a queue of one block, a full tail block means that the queue holds all it may be asked to. */
  lemma OneBlock<T>(s: State<T>)
    requires WellFormed(s) && Memory(s) && |s.ring| == 1 && Full(Tail(s))
    ensures Held(s) >= s.goal
  {
    assert SlotAt(s, 0);
  }

  lemma LoadFrontKeeps<T>(s: State<T>, v: T, alloc: bool)
    requires Inv(s) && s.p == PLoadFront(v, alloc)
    ensures Inv(LoadFront(s, v, alloc))
  {
    var s' := LoadFront(s, v, alloc);
    assert SlotAt(s, s.tpos);
    ShadowFrontKeeps(s, s.tpos, s'.p);
    if s'.p.PLoadFrontBlock? && |s.ring| == 1 { OneBlock(s); }
    ConsumerFrame(s, s');
  }

  /** Elements before the block at position i: all blocks after the front one and before it are full. */
  lemma {:induction false} FullBefore<T>(s: State<T>, i: nat)
    requires WellFormed(s) && Memory(s) && 1 <= i <= s.tpos
    ensures s.ring[i] < |s.blocks|
    ensures s.blocks[s.ring[i]].lo >= |s.deq| + (i - 1) * (s.minSize - 1)
  {
    assert SlotAt(s, i - 1) && SlotAt(s, i);
    if i > 1 {
      FullBefore(s, i - 1);
      Distribute(i - 2, 1, s.minSize - 1);
    }
  }

  /** The capacity guarantee: with several blocks, a full tail block right before the front block. */
  lemma RingFull<T>(s: State<T>)
    requires WellFormed(s) && Memory(s) && s.tpos == |s.ring| - 1 >= 1 && Full(Tail(s))
    ensures Held(s) >= s.goal
  {
    FullBefore(s, s.tpos);
    assert SlotAt(s, s.tpos);
    Distribute(s.tpos - 1, 1, s.minSize - 1);
  }

  lemma LoadFrontBlockKeeps<T>(s: State<T>, v: T, alloc: bool)
    requires Inv(s) && s.p == PLoadFrontBlock(v, alloc)
    ensures Inv(LoadFrontBlock(s, v, alloc))
  {
    var s' := LoadFrontBlock(s, v, alloc);
    SlotsFrame(s, s');
    assert SlotAt(s, s.tpos);
    if Tail(s).next == s.frontBlock && |s.ring| >= 2 { RingFull(s); }
    ConsumerFrame(s, s');
  }

  lemma WriteKeepsSlot<T>(s: State<T>, v: T, i: nat)
    requires Inv(s) && s.p == PWrite(v) && i < |s.ring|
    ensures SlotAt(Write(s, v), i)
  {
    assert SlotAt(s, i) && SlotAt(s, s.tpos);
    if i == s.tpos { FreeSlot(Tail(s), Write(s, v).blocks[s.tailBlock], v, s.enq); }
    WrittenSlot(s, v, i);
  }

  lemma WrittenSlot<T>(s: State<T>, v: T, i: nat)
    requires WellFormed(s) && RingOk(s) && s.p == PWrite(v) && i < |s.ring| && SlotAt(s, i)
    requires var b' := Write(s, v).blocks[s.tailBlock]; Shaped(b') && (i == s.tpos ==> Keeps(b', s.enq))
    ensures SlotAt(Write(s, v), i)
  {
  }

  /** Writing to the slot at the tail of a block that is not full touches no element. */
  lemma FreeSlot<T>(b: Block<T>, b': Block<T>, v: T, enq: seq<T>)
    requires Shaped(b) && Keeps(b, enq) && Used(b) < Size(b)
    requires b' == b.(data := b.data[b.tail := v])
    ensures Shaped(b') && Keeps(b', enq)
  {
    forall k | 0 <= k < Used(b) ensures b'.data[Ahead(b.front, k, Size(b))] == enq[b.lo + k] {
      assert b.data[Ahead(b.front, k, Size(b))] == enq[b.lo + k];
    }
  }

  lemma WriteKeeps<T>(s: State<T>, v: T)
    requires Inv(s) && s.p == PWrite(v)
    ensures Inv(Write(s, v))
  {
    var s' := Write(s, v);
    forall i | 0 <= i < |s.ring| ensures SlotAt(s', i) { WriteKeepsSlot(s, v, i); }
    ConsumerFrame(s, s');
  }

  /** A longer history. */
  lemma KeepsLonger<T>(b: Block<T>, enq: seq<T>, v: T)
    requires Shaped(b) && Keeps(b, enq)
    ensures Keeps(b, enq + [v])
  {
    forall k | 0 <= k < Used(b) ensures b.data[Ahead(b.front, k, Size(b))] == (enq + [v])[b.lo + k] {
      assert b.data[Ahead(b.front, k, Size(b))] == enq[b.lo + k];
    }
  }

  /** Storing the tail makes the element at the tail the last one of the block. */
  lemma AppendKeepsBlock<T>(b: Block<T>, b': Block<T>, enq: seq<T>)
    requires Shaped(b) && Shadows(b) && Keeps(b, enq) && b.lo + Used(b) == |enq|
    requires Dist(b.localFront, b.tail, Size(b)) < Size(b) - 1
    requires b' == b.(tail := Next(b.tail, Size(b)))
    ensures Shaped(b') && Shadows(b') && Keeps(b', enq + [b.data[b.tail]]) && Used(b') == Used(b) + 1
  {
    var v := b.data[b.tail];
    KeepsLonger(b, enq, v);
    forall k | 0 <= k < Used(b') ensures b'.data[Ahead(b'.front, k, Size(b))] == (enq + [v])[b'.lo + k] {
      if k < Used(b) { assert b.data[Ahead(b.front, k, Size(b))] == (enq + [v])[b.lo + k]; }
    }
  }

  lemma StoreTailKeepsSlot<T>(s: State<T>, v: T, i: nat)
    requires Inv(s) && s.p == PStoreTail(v) && i < |s.ring|
    ensures SlotAt(StoreTail(s, v), i)
  {
    assert SlotAt(s, i) && SlotAt(s, s.tpos);
    if i == s.tpos {
      AppendKeepsBlock(Tail(s), StoreTail(s, v).blocks[s.tailBlock], s.enq);
    } else if i < s.tpos {
      KeepsLonger(s.blocks[s.ring[i]], s.enq, v);
    }
  }

  lemma StoreTailKeeps<T>(s: State<T>, v: T)
    requires Inv(s) && s.p == PStoreTail(v)
    ensures Inv(StoreTail(s, v))
  {
    var s' := StoreTail(s, v);
    forall i | 0 <= i < |s.ring| ensures SlotAt(s', i) { StoreTailKeepsSlot(s, v, i); }
    ConsumerFrame(s, s');
  }

  // Moving on to the next block.

  /** The assertion of inner_enqueue: the block after the tail block, not being the front block, is
      empty. */
  lemma ReusedIsEmpty<T>(s: State<T>)
    requires WellFormed(s) && Memory(s) && s.tpos + 1 < |s.ring| && !s.p.PSetTail?
    ensures Tail(s).next == s.ring[s.tpos + 1] < |s.blocks|
    ensures s.blocks[s.ring[s.tpos + 1]].front == s.blocks[s.ring[s.tpos + 1]].tail
  {
    assert SlotAt(s, s.tpos) && SlotAt(s, s.tpos + 1);
  }

  lemma ReuseKeeps<T>(s: State<T>, v: T)
    requires Inv(s) && s.p == PReuse(v)
    ensures Inv(Reuse(s, v))
  {
    ReusedIsEmpty(s);
    ShadowFrontKeeps(s, s.tpos + 1, Reuse(s, v).p);
    ConsumerFrame(s, Reuse(s, v));
  }

  lemma ReuseWriteKeepsSlot<T>(s: State<T>, v: T, n: nat, i: nat)
    requires Inv(s) && s.p == PReuseWrite(v, n) && i < |s.ring|
    ensures SlotAt(ReuseWrite(s, v, n), i)
  {
    assert SlotAt(s, i) && SlotAt(s, s.tpos + 1);
  }

  lemma ReuseWriteKeeps<T>(s: State<T>, v: T, n: nat)
    requires Inv(s) && s.p == PReuseWrite(v, n)
    ensures Inv(ReuseWrite(s, v, n))
  {
    ReuseWriteKeepsMemory(s, v, n);
    ConsumerFrame(s, ReuseWrite(s, v, n));
  }

  lemma ReuseWriteKeepsMemory<T>(s: State<T>, v: T, n: nat)
    requires Inv(s) && s.p == PReuseWrite(v, n)
    ensures Memory(ReuseWrite(s, v, n))
  {
    forall i | 0 <= i < |s.ring| ensures SlotAt(ReuseWrite(s, v, n), i) { ReuseWriteKeepsSlot(s, v, n, i); }
  }

  lemma ReuseTailKeepsSlot<T>(s: State<T>, v: T, n: nat, i: nat)
    requires Inv(s) && s.p == PReuseTail(v, n) && i < |s.ring|
    ensures SlotAt(ReuseTail(s, v, n), i)
  {
    assert SlotAt(s, i) && SlotAt(s, s.tpos + 1);
  }

  lemma ReuseTailKeeps<T>(s: State<T>, v: T, n: nat)
    requires Inv(s) && s.p == PReuseTail(v, n)
    ensures Inv(ReuseTail(s, v, n))
  {
    ReusedIsEmpty(s);
    ReuseTailKeepsMemory(s, v, n);
    ConsumerFrame(s, ReuseTail(s, v, n));
  }

  lemma ReuseTailKeepsMemory<T>(s: State<T>, v: T, n: nat)
    requires Inv(s) && s.p == PReuseTail(v, n)
    ensures Memory(ReuseTail(s, v, n))
  {
    forall i | 0 <= i < |s.ring| ensures SlotAt(ReuseTail(s, v, n), i) { ReuseTailKeepsSlot(s, v, n, i); }
  }

  lemma SetTailKeepsSlot<T>(s: State<T>, v: T, n: nat, i: nat)
    requires Inv(s) && s.p == PSetTail(v, n) && i < |s.ring|
    ensures SlotAt(SetTail(s, v, n), i)
  {
    if i <= s.tpos {
      SetTailKeepsEarly(s, v, n, i);
    } else if i == s.tpos + 1 {
      SetTailKeepsNew(s, v, n);
    } else {
      assert SlotAt(s, i);
    }
  }

  lemma SetTailKeepsEarly<T>(s: State<T>, v: T, n: nat, i: nat)
    requires Inv(s) && s.p == PSetTail(v, n) && i <= s.tpos
    ensures SlotAt(SetTail(s, v, n), i)
  {
    assert SlotAt(s, i);
    KeepsLonger(s.blocks[s.ring[i]], s.enq, v);
    SetTailEarlySlot(s, v, n, i);
  }

  lemma SetTailEarlySlot<T>(s: State<T>, v: T, n: nat, i: nat)
    requires WellFormed(s) && RingOk(s) && i <= s.tpos && s.tpos + 1 < |s.ring| && n == s.ring[s.tpos + 1] < |s.blocks|
    requires SlotAt(s, i) && Keeps(s.blocks[s.ring[i]], s.enq + [v]) && (i == s.tpos >= 1 ==> Full(s.blocks[s.ring[i]]))
    ensures SlotAt(SetTail(s, v, n), i)
  {
  }

  lemma SetTailKeepsNew<T>(s: State<T>, v: T, n: nat)
    requires Inv(s) && s.p == PSetTail(v, n)
    ensures SlotAt(SetTail(s, v, n), s.tpos + 1)
  {
    assert SlotAt(s, s.tpos + 1);
    SetTailSlot(s, v, n);
  }

  lemma SetTailSlot<T>(s: State<T>, v: T, n: nat)
    requires WellFormed(s) && RingOk(s) && s.tpos + 1 < |s.ring| && n == s.ring[s.tpos + 1] < |s.blocks|
    requires SlotAt(s, s.tpos + 1) && Used(s.blocks[n]) == 1 && s.blocks[n].data[s.blocks[n].front] == v
    ensures SlotAt(SetTail(s, v, n), s.tpos + 1)
  {
  }

  lemma SetTailKeeps<T>(s: State<T>, v: T, n: nat)
    requires Inv(s) && s.p == PSetTail(v, n)
    ensures Inv(SetTail(s, v, n))
  {
    var s' := SetTail(s, v, n);
    forall i | 0 <= i < |s.ring| ensures SlotAt(s', i) { SetTailKeepsSlot(s, v, n, i); }
    ConsumerFrame(s, s');
  }

  // A new block.

  lemma AllocateKeeps<T>(s: State<T>, v: T, m: Supply<T>)
    requires Inv(s) && s.p == PAllocate(v)
    ensures Inv(Allocate(s, v, m))
  {
    var s' := Allocate(s, v, m);
    assert SlotAt(s, s.tpos);
    AllocateKeepsMemory(s, v, m);
    ConsumerFrame(s, s');
  }

  lemma AllocateKeepsMemory<T>(s: State<T>, v: T, m: Supply<T>)
    requires Inv(s) && s.p == PAllocate(v)
    ensures Memory(Allocate(s, v, m))
    ensures forall i :: 0 <= i < |s.ring| ==> s.ring[i] != |s.blocks|
  {
    var s' := Allocate(s, v, m);
    forall i | 0 <= i < |s.ring| ensures SlotAt(s', i) && s.ring[i] != |s.blocks| { AllocateKeepsSlot(s, v, m, i); }
    assert RingOk(s') && Roomy(s');
  }

  lemma AllocateKeepsSlot<T>(s: State<T>, v: T, m: Supply<T>, i: nat)
    requires Inv(s) && s.p == PAllocate(v) && i < |s.ring|
    ensures SlotAt(Allocate(s, v, m), i) && s.ring[i] != |s.blocks|
  {
    assert SlotAt(s, i);
  }

  lemma LinkKeepsSlot<T>(s: State<T>, v: T, n: nat, i: nat)
    requires Inv(s) && s.p == PLink(v, n) && i < |s.ring| + 1
    ensures SlotAt(Link(s, v, n), i)
  {
    assert SlotAt(s, s.tpos);
    if i <= s.tpos { LinkKeepsEarly(s, v, n, i); } else if i > s.tpos + 1 { LinkKeepsLate(s, v, n, i); }
  }

  lemma LinkKeepsEarly<T>(s: State<T>, v: T, n: nat, i: nat)
    requires Inv(s) && s.p == PLink(v, n) && i <= s.tpos
    ensures SlotAt(Link(s, v, n), i)
  {
    assert SlotAt(s, i);
    if i < s.tpos { assert Link(s, v, n).ring[i + 1] == s.ring[i + 1]; }
  }

  lemma LinkKeepsLate<T>(s: State<T>, v: T, n: nat, i: nat)
    requires Inv(s) && s.p == PLink(v, n) && s.tpos + 1 < i < |s.ring| + 1
    ensures SlotAt(Link(s, v, n), i)
  {
    assert SlotAt(s, i - 1);
  }

  lemma LinkRing<T>(s: State<T>, v: T, n: nat)
    requires Inv(s) && s.p == PLink(v, n)
    ensures RingOk(Link(s, v, n)) && Roomy(Link(s, v, n))
  {
    var s' := Link(s, v, n);
    Distribute(|s.ring| - 1, 1, s.minSize - 1);
    forall i, j | 0 <= i < j < |s'.ring| ensures s'.ring[i] != s'.ring[j] {
      if i == s.tpos + 1 { assert s'.ring[j] == s.ring[j - 1]; }
      if j == s.tpos + 1 { assert s'.ring[i] == s.ring[i]; }
    }
  }

  lemma LinkKeeps<T>(s: State<T>, v: T, n: nat)
    requires Inv(s) && s.p == PLink(v, n)
    ensures Inv(Link(s, v, n))
  {
    var s' := Link(s, v, n);
    LinkRing(s, v, n);
    forall i | 0 <= i < |s'.ring| ensures SlotAt(s', i) { LinkKeepsSlot(s, v, n, i); }
    ConsumerFrame(s, s');
  }

  lemma ProduceKeeps<T>(s: State<T>, m: Supply<T>)
    requires Inv(s)
    ensures Inv(ProduceStep(s, m))
  {
    match s.p
    case PDone(_) =>
    case PLoadFront(v, alloc) => LoadFrontKeeps(s, v, alloc);
    case PLoadFrontBlock(v, alloc) => LoadFrontBlockKeeps(s, v, alloc);
    case PWrite(v) => WriteKeeps(s, v);
    case PStoreTail(v) => StoreTailKeeps(s, v);
    case PReuse(v) => ReuseKeeps(s, v);
    case PReuseWrite(v, n) => ReuseWriteKeeps(s, v, n);
    case PReuseTail(v, n) => ReuseTailKeeps(s, v, n);
    case PAllocate(v) => AllocateKeeps(s, v, m);
    case PLink(v, n) => LinkKeeps(s, v, n);
    case PSetTail(v, n) => SetTailKeeps(s, v, n);
  }

  lemma DoKeeps<T>(s: State<T>, act: Action<T>)
    requires Inv(s)
    ensures Inv(Do(s, act))
  {
    match act
    case StartEnqueue(v, alloc) => if s.p.PDone? { StartEnqueueKeeps(s, v, alloc); }
    case Produce(m) => ProduceKeeps(s, m);
    case StartDequeue(peek) => if ConsumerDone(s.c) { StartDequeueKeeps(s, peek); }
    case Consume => ConsumeKeeps(s);
  }

  // ---------------------------------------------------------------- the constructor

  function Uninitialised<T>(size: nat, junk: T): seq<T> { seq(size, i => junk) }

  function MakeBlock<T>(size: nat, next: nat, junk: T): Block<T> {
    Block(0, 0, 0, 0, next, Uninitialised(size, junk), 0)
  }

  /** n empty blocks of one size, each linked to the one after it and the last to the first. */
  function Ring<T>(n: nat, size: nat, junk: T): seq<Block<T>> {
    seq(n, i requires 0 <= i < n => MakeBlock(size, if i + 1 == n then 0 else i + 1, junk))
  }

  function Start<T>(maxSize: nat, maxBlock: nat, n: nat, size: nat, junk: T): State<T> {
    State(maxBlock, maxSize, size, Ring(n, size, junk), 0, 0, size, PDone(true), CDone,
          seq(n, i => i), 0, [], [], 0, 0)
  }

  /** Blocks enough for the capacity guarantee. */
  predicate Ready(maxSize: nat, n: nat, size: nat) {
    && size >= 2 && n >= 1
    && (n == 1 ==> size - 1 >= maxSize) && (n >= 2 ==> Slots(n, size) >= maxSize)
  }

  lemma StartInv<T>(maxSize: nat, maxBlock: nat, n: nat, size: nat, junk: T)
    requires Ready(maxSize, n, size)
    ensures Inv(Start(maxSize, maxBlock, n, size, junk))
  {
    var s := Start(maxSize, maxBlock, n, size, junk);
    forall i | 0 <= i < n ensures SlotAt(s, i) && Shaped(s.blocks[i]) && s.blocks[i].next < n {
      assert s.ring[i] == i && s.blocks[i] == MakeBlock(size, if i + 1 == n then 0 else i + 1, junk);
    }
  }

  /** One turn of the constructor's loop. */
  lemma RingGrows<T>(n: nat, size: nat, junk: T)
    ensures var ring := Ring(n, size, junk);
            (if n > 0 then ring[n - 1 := ring[n - 1].(next := n)] else ring) + [MakeBlock(size, 0, junk)]
            == Ring(n + 1, size, junk)
  {
    var ring := Ring(n, size, junk);
    var linked := if n > 0 then ring[n - 1 := ring[n - 1].(next := n)] else ring;
    forall i | 0 <= i < n ensures linked[i] == MakeBlock(size, i + 1, junk) {
      assert ring[i] == MakeBlock(size, if i + 1 == n then 0 else i + 1, junk);
    }
    assert linked + [MakeBlock(size, 0, junk)] == Ring(n + 1, size, junk);
  }

  /** Enough blocks of maxBlock slots, one of them spare. */
  lemma BlockCount(maxSize: nat, maxBlock: nat)
    requires maxSize >= 1 && maxBlock >= 2
    ensures Ready(maxSize, (maxSize + maxBlock * 2 - 3) / (maxBlock - 1), maxBlock)
  {
    var x, m := maxSize + maxBlock * 2 - 3, maxBlock - 1;
    var n := x / m;
    Euclid(x, m);
    Distribute(n, -1, m);
    if n <= 1 { MulMonotone(n, 1, m); }
  }

  method Construct<T>(maxSize: nat, maxBlock: nat, junk: T) returns (s: State<T>)
    requires 0 < maxSize < HALF && 2 <= maxBlock <= HALF / 2
    ensures Ready(maxSize, |s.blocks|, s.minSize)
    ensures s == Start(maxSize, maxBlock, |s.blocks|, s.minSize, junk) && Inv(s)
    ensures |s.blocks| == 1 ==> LeastPow2(s.minSize, maxSize + 1) && s.minSize <= 2 * maxBlock
    ensures |s.blocks| > 1 ==>
              s.minSize == maxBlock && |s.blocks| == (maxSize + maxBlock * 2 - 3) / (maxBlock - 1)
  {
    var largest := CeilToPow2(maxSize + 1);
    var blocks: seq<Block<T>> := [];
    if largest > maxBlock * 2 {
      var count := (maxSize + maxBlock * 2 - 3) / (maxBlock - 1);
      BlockCount(maxSize, maxBlock);
      largest := maxBlock;
      var i := 0;
      while i != count
        invariant 0 <= i <= count && blocks == Ring(i, largest, junk)
      {
        RingGrows(i, largest, junk);
        var b := MakeBlock(largest, 0, junk);
        if i > 0 { blocks := blocks[i - 1 := blocks[i - 1].(next := i)]; }
        blocks := blocks + [b];
        i := i + 1;
      }
    } else {
      blocks := [MakeBlock(largest, 0, junk)];
    }
    s := State(maxBlock, maxSize, largest, blocks, 0, 0, largest, PDone(true), CDone,
               seq(|blocks|, i => i), 0, [], [], 0, 0);
    StartInv(maxSize, maxBlock, |blocks|, largest, junk);
    assert s == Start(maxSize, maxBlock, |blocks|, largest, junk);
  }

  lemma {:induction false} RunInv<T>(s: State<T>, schedule: seq<Action<T>>)
    requires Inv(s)
    ensures Inv(Run(s, schedule))
  {
    if schedule != [] {
      RunInv(s, schedule[..|schedule| - 1]);
      DoKeeps(Run(s, schedule[..|schedule| - 1]), schedule[|schedule| - 1]);
    }
  }

  // ---------------------------------------------------------------- a plain sequence

  /** The elements of the blocks from the front block up to position k of the ring. */
  ghost function Joined<T>(s: State<T>, k: nat): seq<T>
    requires WellFormed(s) && k <= |s.ring| && (forall i :: 0 <= i < |s.ring| ==> s.ring[i] < |s.blocks|)
  {
    if k == 0 then [] else Joined(s, k - 1) + Contents(s.blocks[s.ring[k - 1]])
  }

  lemma Adjacent<T>(q: seq<T>, i: nat, j: nat, k: nat)
    requires i <= j <= k <= |q|
    ensures q[i..j] + q[j..k] == q[i..k]
  {
  }

  lemma ContentsAre<T>(b: Block<T>, enq: seq<T>)
    requires Shaped(b) && Keeps(b, enq)
    ensures Contents(b) == enq[b.lo..b.lo + Used(b)]
  {
  }

  lemma PartIs<T>(s: State<T>, i: nat)
    requires WellFormed(s) && Memory(s) && i <= s.tpos
    requires forall i :: 0 <= i < |s.ring| ==> s.ring[i] < |s.blocks|
    ensures var b := s.blocks[s.ring[i]];
            && b.lo <= b.lo + Used(b) <= |s.enq| && Contents(b) == s.enq[b.lo..b.lo + Used(b)]
            && b.lo == if i == 0 then |s.deq| else s.blocks[s.ring[i - 1]].lo + Used(s.blocks[s.ring[i - 1]])
  {
    assert SlotAt(s, i);
    if i > 0 { assert SlotAt(s, i - 1); }
    ContentsAre(s.blocks[s.ring[i]], s.enq);
  }

  lemma {:induction false} JoinedIs<T>(s: State<T>, k: nat)
    requires WellFormed(s) && Memory(s) && 1 <= k <= s.tpos + 1
    requires forall i :: 0 <= i < |s.ring| ==> s.ring[i] < |s.blocks|
    ensures var b := s.blocks[s.ring[k - 1]];
            |s.deq| <= b.lo + Used(b) <= |s.enq| && Joined(s, k) == s.enq[|s.deq|..b.lo + Used(b)]
  {
    var b := s.blocks[s.ring[k - 1]];
    PartIs(s, k - 1);
    if k == 1 {
      assert Joined(s, 0) == [];
    } else {
      JoinedIs(s, k - 1);
      Adjacent(s.enq, |s.deq|, b.lo, b.lo + Used(b));
    }
  }

  /** The queue as one sequence. */
  ghost function Abs<T>(s: State<T>): seq<T>
    requires WellFormed(s) && (forall i :: 0 <= i < |s.ring| ==> s.ring[i] < |s.blocks|)
  {
    Joined(s, s.tpos + 1)
  }

  lemma AbsIs<T>(s: State<T>)
    requires WellFormed(s) && Memory(s) && (forall i :: 0 <= i < |s.ring| ==> s.ring[i] < |s.blocks|)
    ensures Abs(s) == s.enq[|s.deq|..] && s.deq + Abs(s) == s.enq
  {
    JoinedIs(s, s.tpos + 1);
    assert SlotAt(s, s.tpos);
  }

  /** What holds in every reachable state, at whatever point producer and consumer are. */
  ghost predicate Refines<T>(s: State<T>) {
    && WellFormed(s) && (forall i :: 0 <= i < |s.ring| ==> s.ring[i] < |s.blocks|)
    // the blocks from the front block to the tail block, found by following the links, are the queue
    && s.ring[0] == s.frontBlock && s.ring[s.tpos] == s.tailBlock
    && (forall i :: 0 <= i < |s.ring| ==>
          s.blocks[s.ring[i]].next == s.ring[if i + 1 == |s.ring| then 0 else i + 1])
    && s.deq + Abs(s) == s.enq
    // all other blocks are empty, but for one the producer is about to make the tail block
    && (forall i :: s.tpos < i < |s.ring| ==>
          Used(s.blocks[s.ring[i]]) == 0 || (s.p.PSetTail? && s.p.b == s.ring[i]))
    // what calls return
    && (s.c.CGot? ==> s.deq != [] && s.c.v == s.deq[|s.deq| - 1])
    && (s.c.CPeeked? ==> Abs(s) != [] && s.c.v == Abs(s)[0])
    && (s.c.CEmpty? ==> s.cHeld == 0)
    && (s.p == PDone(false) ==> s.pHeld >= s.goal)
    // the assertions in the code
    && (s.c.CNextTail? || s.c.CPeekNext? ==> s.blocks[s.c.b].front != s.blocks[s.c.b].tail)
    && (s.p.PReuseWrite? ==> s.blocks[s.p.b].front == s.blocks[s.p.b].tail)
  }

  /** Deciding by the shadow indices first decides like the real ones. */
  ghost predicate ShadowsAgree<T>(s: State<T>) {
    && WellFormed(s)
    && (forall i :: 0 <= i < |s.ring| ==> s.ring[i] < |s.blocks|)
    && (forall i :: 0 <= i < |s.ring| ==> ShadowsDecide(s.blocks[s.ring[i]]))
  }

  predicate ShadowsDecide<T>(b: Block<T>) {
    && (b.front != b.localTail || b.front != b.tail <==> Used(b) > 0)
    && (Next(b.tail, Size(b)) != b.localFront || Next(b.tail, Size(b)) != b.front <==> !Full(b))
  }

  lemma RingLinks<T>(s: State<T>)
    requires Inv(s)
    ensures forall i :: 0 <= i < |s.ring| ==> s.ring[i] < |s.blocks|
    ensures forall i :: 0 <= i < |s.ring| ==>
              s.blocks[s.ring[i]].next == s.ring[if i + 1 == |s.ring| then 0 else i + 1]
    ensures forall i :: s.tpos < i < |s.ring| ==>
              Used(s.blocks[s.ring[i]]) == 0 || (s.p.PSetTail? && s.p.b == s.ring[i])
  {
    forall i | 0 <= i < |s.ring|
      ensures s.ring[i] < |s.blocks|
      ensures s.blocks[s.ring[i]].next == s.ring[if i + 1 == |s.ring| then 0 else i + 1]
      ensures i > s.tpos ==> Used(s.blocks[s.ring[i]]) == 0 || (s.p.PSetTail? && s.p.b == s.ring[i])
    {
      assert SlotAt(s, i);
    }
  }

  lemma InvRefines<T>(s: State<T>)
    requires Inv(s)
    ensures Refines(s)
  {
    RingLinks(s);
    AbsIs(s);
    if s.c.CNextTail? || s.c.CPeekNext? { NextNotEmpty(s); }
    if s.p.PReuseWrite? { ReusedIsEmpty(s); }
  }

  lemma InvShadows<T>(s: State<T>)
    requires Inv(s)
    ensures ShadowsAgree(s)
  {
    forall i | 0 <= i < |s.ring| ensures s.ring[i] < |s.blocks| && Shadows(s.blocks[s.ring[i]]) { assert SlotAt(s, i); }
    forall i | 0 <= i < |s.ring| ensures ShadowsDecide(s.blocks[s.ring[i]]) {
      BlockShadows(s.blocks[s.ring[i]]);
    }
  }

  lemma BlockShadows<T>(b: Block<T>)
    requires Shaped(b) && Shadows(b)
    ensures ShadowsDecide(b)
  {
  }

  /** From every constructed queue, in every interleaving of the producer and the consumer. */
  lemma AlwaysRefines<T>(maxSize: nat, maxBlock: nat, n: nat, size: nat, junk: T, schedule: seq<Action<T>>)
    requires Ready(maxSize, n, size)
    ensures var s := Run(Start(maxSize, maxBlock, n, size, junk), schedule);
            Refines(s) && ShadowsAgree(s) && s.goal == maxSize
  {
    var s0 := Start(maxSize, maxBlock, n, size, junk);
    StartInv(maxSize, maxBlock, n, size, junk);
    RunInv(s0, schedule);
    InvRefines(Run(s0, schedule));
    InvShadows(Run(s0, schedule));
    RunGoal(s0, schedule);
  }

  lemma {:induction false} RunGoal<T>(s: State<T>, schedule: seq<Action<T>>)
    ensures Run(s, schedule).goal == s.goal
  {
    if schedule != [] { RunGoal(s, schedule[..|schedule| - 1]); }
  }

  // ---------------------------------------------------------------- block sizes

  ghost predicate IsPow2(n: nat) { exists k: nat :: Pow2(k) == n }

  /** All blocks have a power of two of slots, so that an index can be masked. */
  ghost predicate PowerSizes<T>(s: State<T>) {
    && IsPow2(s.largest) && s.largest <= 2 * s.maxBlock
    && forall b :: 0 <= b < |s.blocks| ==> IsPow2(Size(s.blocks[b])) && Size(s.blocks[b]) <= 2 * s.maxBlock
  }

  lemma Doubles(n: nat)
    requires IsPow2(n)
    ensures IsPow2(2 * n)
  {
    var k: nat :| Pow2(k) == n;
    assert Pow2(k + 1) == 2 * n;
  }

  lemma DoSizes<T>(s: State<T>, act: Action<T>)
    requires PowerSizes(s)
    ensures PowerSizes(Do(s, act))
  {
    Doubles(s.largest);
    if WellFormed(s) { StepSizes(s, act); }
  }

  /** A step changes no block's size, and a new block has the size that was decided for it. */
  lemma StepSizes<T>(s: State<T>, act: Action<T>)
    requires WellFormed(s)
    ensures var s' := Do(s, act);
            && s'.maxBlock == s.maxBlock && |s.blocks| <= |s'.blocks| <= |s.blocks| + 1
            && (forall b :: 0 <= b < |s.blocks| ==> Size(s'.blocks[b]) == Size(s.blocks[b]))
            && (|s'.blocks| > |s.blocks| ==> Size(s'.blocks[|s.blocks|]) == s'.largest == NextSize(s))
            && (|s'.blocks| == |s.blocks| ==> s'.largest == s.largest)
  {
  }

  lemma {:induction false} RunSizes<T>(s: State<T>, schedule: seq<Action<T>>)
    requires PowerSizes(s)
    ensures PowerSizes(Run(s, schedule))
  {
    if schedule != [] {
      RunSizes(s, schedule[..|schedule| - 1]);
      DoSizes(Run(s, schedule[..|schedule| - 1]), schedule[|schedule| - 1]);
    }
  }

  /** In a block of such a size the next index is the masked one. */
  lemma NextIsMasked(i: nat, k: nat)
    requires 1 <= k < 64 && i < Pow2(k) && Pow2(k) < WORD
    ensures Next(i, Pow2(k)) == And(i + 1, Pow2(k) - 1)
  {
    MaskIsMod(i + 1, k, Pow2(k));
    if i + 1 == Pow2(k) { ModUnique(i + 1, 1, 0, Pow2(k)); } else { ModSmall(i + 1, Pow2(k)); }
  }

  /** From every queue whose first block has such a size, as the constructor's have, all blocks ever allocated
      have one, of at most twice the size limit. */
  lemma BlockSizes<T>(maxSize: nat, maxBlock: nat, n: nat, size: nat, junk: T, schedule: seq<Action<T>>)
    requires IsPow2(size) && size <= 2 * maxBlock
    ensures PowerSizes(Run(Start(maxSize, maxBlock, n, size, junk), schedule))
  {
    var s := Start(maxSize, maxBlock, n, size, junk);
    forall b | 0 <= b < n ensures Size(s.blocks[b]) == size {
      assert s.blocks[b] == MakeBlock(size, if b + 1 == n then 0 else b + 1, junk);
    }
    RunSizes(s, schedule);
  }

  // ---------------------------------------------------------------- what an enqueue returns

  /** The producer's last call, what the queue held and how many blocks there were when it began, and
      whether it was refused memory. */
  datatype Enqueued<T> = NoEnqueue | Enqueued(v: T, alloc: bool, enq: seq<T>, blocks: nat, refused: bool)

  function LastEnqueue<T>(s: State<T>, schedule: seq<Action<T>>): Enqueued<T> {
    if schedule == [] then NoEnqueue
    else
      var n := |schedule| - 1;
      NoteEnqueue(Run(s, schedule[..n]), LastEnqueue(s, schedule[..n]), schedule[n])
  }

  function NoteEnqueue<T>(s: State<T>, last: Enqueued<T>, act: Action<T>): Enqueued<T> {
    match act
    case StartEnqueue(v, alloc) =>
      if WellFormed(s) && s.p.PDone? then Enqueued(v, alloc, s.enq, |s.blocks|, false) else last
    case Produce(m) =>
      if last.Enqueued? && s.p.PAllocate? && !Yields(s, m) then last.(refused := true) else last
    case _ => last
  }

  /** How far the call has come. */
  ghost predicate Course<T>(s: State<T>, last: Enqueued<T>) {
    last.Enqueued? ==>
      && s.enq == (if s.p == PDone(true) then last.enq + [last.v] else last.enq)
      && (!s.p.PDone? ==> s.p.v == last.v && !last.refused)
      && (|s.blocks| == last.blocks || (|s.blocks| == last.blocks + 1 && last.alloc && s.pHeld >= s.goal))
      && match s.p
         case PDone(ok) => (last.alloc ==> (ok <==> !last.refused)) && (!ok ==> |s.blocks| == last.blocks)
         case PLoadFront(_, alloc) => alloc == last.alloc && |s.blocks| == last.blocks
         case PLoadFrontBlock(_, alloc) => alloc == last.alloc && |s.blocks| == last.blocks
         case PAllocate(_) => last.alloc && |s.blocks| == last.blocks
         case PLink(_, _) => last.alloc
         case PSetTail(_, _) => true
         case _ => |s.blocks| == last.blocks
  }

  lemma StartCourse<T>(s: State<T>, last: Enqueued<T>, v: T, alloc: bool)
    requires Inv(s) && Course(s, last)
    ensures Course(Do(s, StartEnqueue(v, alloc)), NoteEnqueue(s, last, StartEnqueue(v, alloc)))
  {
  }

  lemma ProduceCourse<T>(s: State<T>, last: Enqueued<T>, m: Supply<T>)
    requires WellFormed(s) && s.largest >= 2 && Course(s, last) && (s.p.PAllocate? ==> s.pHeld >= s.goal)
    ensures Course(ProduceStep(s, m), NoteEnqueue(s, last, Produce(m)))
  {
    match s.p
    case PDone(_) =>
    case PAllocate(_) =>
    case PLoadFrontBlock(_, _) =>
    case _ =>
  }

  lemma ConsumerCourse<T>(s: State<T>, last: Enqueued<T>, act: Action<T>)
    requires WellFormed(s) && Course(s, last) && (act.StartDequeue? || act.Consume?)
    ensures Course(Do(s, act), NoteEnqueue(s, last, act))
  {
  }

  lemma DoCourse<T>(s: State<T>, last: Enqueued<T>, act: Action<T>)
    requires Inv(s) && Course(s, last)
    ensures Course(Do(s, act), NoteEnqueue(s, last, act))
  {
    match act
    case StartEnqueue(v, alloc) => StartCourse(s, last, v, alloc);
    case Produce(m) => ProduceCourse(s, last, m);
    case _ => ConsumerCourse(s, last, act);
  }

  lemma {:induction false} RunCourse<T>(s: State<T>, schedule: seq<Action<T>>)
    requires Inv(s)
    ensures Course(Run(s, schedule), LastEnqueue(s, schedule))
  {
    if schedule != [] {
      var n := |schedule| - 1;
      RunInv(s, schedule[..n]);
      RunCourse(s, schedule[..n]);
      DoCourse(Run(s, schedule[..n]), LastEnqueue(s, schedule[..n]), schedule[n]);
    }
  }

  /** In every run, once an enqueue has returned: with permission to allocate it failed exactly if it was
      refused memory; without, there are as many blocks as before; a block was allocated only if the queue
      held the size asked for; and the element was appended exactly if it says so. */
  lemma EnqueueAnswers<T>(maxSize: nat, maxBlock: nat, n: nat, size: nat, junk: T, schedule: seq<Action<T>>)
    requires Ready(maxSize, n, size)
    ensures var s0 := Start(maxSize, maxBlock, n, size, junk);
            var s, last := Run(s0, schedule), LastEnqueue(s0, schedule);
            last.Enqueued? && s.p.PDone? ==>
              && s.enq == (if s.p.ok then last.enq + [last.v] else last.enq)
              && (if last.alloc then s.p.ok <==> !last.refused else |s.blocks| == last.blocks)
              && last.blocks <= |s.blocks| <= last.blocks + (if s.p.ok && last.alloc && s.pHeld >= s.goal then 1 else 0)
  {
    StartInv(maxSize, maxBlock, n, size, junk);
    RunCourse(Start(maxSize, maxBlock, n, size, junk), schedule);
  }

  /** A block ahead of the front block, or a slot in the tail block. */
  predicate Room<T>(s: State<T>)
    requires WellFormed(s)
  {
    !Full(Tail(s)) || Tail(s).next != s.frontBlock
  }

  // ---------------------------------------------------------------- the object

  datatype Option<T> = None | Some(v: T)

  /** Steps left in a call that is not disturbed. */
  function ConsumerRank<T>(c: Consumer<T>): nat {
    match c
    case CLoadTail(_) => 8
    case CLoadTailBlock(_) => 7
    case CReloadTail(_) => 6
    case CNext(_) => 5
    case CNextTail(_) => 4
    case CMove(_) => 3
    case CRead(_) => 2
    case CStore(_) => 1
    case CPeekNext(_) => 1
    case _ => 0
  }

  function ProducerRank<T>(p: Producer<T>): nat {
    match p
    case PDone(_) => 0
    case PLoadFront(_, _) => 6
    case PLoadFrontBlock(_, _) => 5
    case PReuse(_) => 4
    case PReuseWrite(_, _) => 3
    case PReuseTail(_, _) => 2
    case PAllocate(_) => 3
    case PLink(_, _) => 2
    case PSetTail(_, _) => 1
    case PWrite(_) => 2
    case PStoreTail(_) => 1
  }

  /** What one step of the consumer does to the history. */
  lemma ConsumeEffect<T>(s: State<T>)
    requires WellFormed(s) && !ConsumerDone(s.c)
    ensures var s' := ConsumeStep(s);
            && ConsumerRank(s'.c) < ConsumerRank(s.c) && s'.p == s.p && s'.enq == s.enq && s'.cHeld == s.cHeld
            && s'.goal == s.goal
            && (if s'.c.CGot? then s'.deq == s.deq + [s'.c.v] else s'.deq == s.deq)
            && !s'.c.CDone?
  {
  }

  /** Whether a call of the consumer is a peek, while that matters. */
  predicate Peeks<T>(c: Consumer<T>) {
    match c
    case CLoadTail(peek) => peek
    case CLoadTailBlock(peek) => peek
    case CReloadTail(peek) => peek
    case CNext(peek) => peek
    case CRead(peek) => peek
    case CPeekNext(_) => true
    case CPeeked(_) => true
    case _ => false
  }

  lemma PeekStays<T>(s: State<T>)
    requires WellFormed(s) && !ConsumerDone(s.c) && !ConsumeStep(s).c.CEmpty?
    ensures Peeks(ConsumeStep(s).c) <==> Peeks(s.c)
  {
  }

  lemma ProduceEffect<T>(s: State<T>, m: Supply<T>)
    requires WellFormed(s) && !s.p.PDone?
    ensures var s' := ProduceStep(s, m);
            && ProducerRank(s'.p) < ProducerRank(s.p) && s'.c == s.c && s'.deq == s.deq && s'.pHeld == s.pHeld
            && s'.goal == s.goal && s'.cHeld == s.cHeld
            && (if s'.p == PDone(true) then s'.enq == s.enq + [s.p.v] else s'.enq == s.enq)
            && (!s'.p.PDone? ==> s'.p.v == s.p.v)
  {
  }

  /** An undisturbed enqueue that began in s0: it makes use of the room there is. */
  predicate Alone<T>(s0: State<T>, s: State<T>, alloc: bool, m: Supply<T>)
    requires WellFormed(s0) && WellFormed(s)
  {
    var grown := alloc && !Room(s0) && Yields(s0, m);
    && s.frontBlock == s0.frontBlock && (s.p.PLink? || s.p.PDone? || s.p.PSetTail? || NextSize(s) == NextSize(s0))
    && match s.p
       case PDone(ok) =>
         (ok <==> Room(s0) || (alloc && Yields(s0, m))) && |s.blocks| == |s0.blocks| + (if grown then 1 else 0)
       case PLoadFront(_, a) =>
         && a == alloc && |s.blocks| == |s0.blocks| && (Room(s) <==> Room(s0))
         && Next(Tail(s).tail, Size(Tail(s))) == Tail(s).localFront
       case PLoadFrontBlock(_, a) =>
         a == alloc && |s.blocks| == |s0.blocks| && (Room(s) <==> Room(s0)) && Full(Tail(s))
       case PAllocate(_) => alloc && |s.blocks| == |s0.blocks| && !Room(s0)
       case PLink(_, _) => grown && |s.blocks| == |s0.blocks| + 1
       case PSetTail(_, _) => (Room(s0) || grown) && |s.blocks| == |s0.blocks| + (if grown then 1 else 0)
       case _ => Room(s0) && |s.blocks| == |s0.blocks|
  }

  lemma StartAlone<T>(s: State<T>, v: T, alloc: bool, m: Supply<T>)
    requires WellFormed(s) && ShadowsDecide(Tail(s))
    ensures WellFormed(StartEnqueueStep(s, v, alloc)) && Alone(s, StartEnqueueStep(s, v, alloc), alloc, m)
  {
  }

  lemma ProduceAlone<T>(s0: State<T>, s: State<T>, alloc: bool, m: Supply<T>)
    requires WellFormed(s0) && WellFormed(s) && WellFormed(ProduceStep(s, m)) && ShadowsDecide(Tail(s)) && s.largest >= 2
    requires Alone(s0, s, alloc, m) && !s.p.PDone?
    ensures Alone(s0, ProduceStep(s, m), alloc, m)
  {
    match s.p
    case PLoadFront(_, _) =>
    case PLoadFrontBlock(_, _) =>
    case PAllocate(_) =>
    case _ =>
  }

  lemma RoomBelowGoal<T>(s: State<T>)
    requires Inv(s) && Held(s) < s.goal
    ensures Room(s)
  {
    assert SlotAt(s, s.tpos);
    if Tail(s).next == s.frontBlock && Full(Tail(s)) {
      if |s.ring| >= 2 { RingFull(s); }
    }
  }

  lemma TailDecides<T>(s: State<T>)
    requires Inv(s)
    ensures ShadowsDecide(Tail(s))
  {
    assert SlotAt(s, s.tpos);
    BlockShadows(Tail(s));
  }

  lemma EnqueueNext<T>(s0: State<T>, s: State<T>, alloc: bool, m: Supply<T>)
    requires Inv(s) && WellFormed(s0) && Alone(s0, s, alloc, m) && !s.p.PDone?
    ensures var s' := ProduceStep(s, m);
            && Inv(s') && Alone(s0, s', alloc, m) && ProducerRank(s'.p) < ProducerRank(s.p)
            && s'.c == s.c && s'.deq == s.deq && s'.pHeld == s.pHeld && s'.goal == s.goal
            && (if s'.p == PDone(true) then s'.enq == s.enq + [s.p.v] else s'.enq == s.enq)
            && (!s'.p.PDone? ==> s'.p.v == s.p.v)
  {
    TailDecides(s);
    ProduceKeeps(s, m);
    ProduceAlone(s0, s, alloc, m);
    ProduceEffect(s, m);
  }

  /** The queue with one thread at a time in it: every call completes, and does to one sequence what its
      name says. */
  class ReaderWriterQueue<T> {
    var s: State<T>

    ghost predicate Valid()
      reads this
    {
      Inv(s) && s.p.PDone? && ConsumerDone(s.c)
    }

    /** By AbsIs, the elements of the blocks from the front block to the tail block. */
    ghost function Contents(): seq<T>
      reads this
      requires Valid()
    {
      s.enq[|s.deq|..]
    }

    constructor (maxSize: nat, maxBlock: nat, junk: T)
      requires 0 < maxSize < HALF && 2 <= maxBlock <= HALF / 2
      ensures Valid() && Contents() == [] && s.goal == maxSize
    {
      var ring := Construct(maxSize, maxBlock, junk);
      s := ring;
    }

    /** try_enqueue without, enqueue with permission to allocate (m is what the allocation yields). Without
        room it succeeds exactly if it may allocate and memory is there; with room it allocates nothing, and
        there is room if the queue holds less than the size asked for at construction. */
    method Enqueue(v: T, alloc: bool, m: Supply<T>) returns (ok: bool)
      requires Valid()
      modifies this
      ensures Valid() && s.goal == old(s.goal)
      ensures Contents() == if ok then old(Contents()) + [v] else old(Contents())
      ensures |old(Contents())| < s.goal ==> old(Room(s))
      ensures ok <==> old(Room(s)) || (alloc && old(Yields(s, m)))
      ensures |s.blocks| == old(|s.blocks|) + if old(Room(s)) || !ok then 0 else 1
    {
      ghost var before := s;
      TailDecides(s);
      StartAlone(s, v, alloc, m);
      if Held(s) < s.goal { RoomBelowGoal(s); }
      StartEnqueueKeeps(s, v, alloc);
      s := StartEnqueueStep(s, v, alloc);
      while !s.p.PDone?
        invariant Inv(s) && ConsumerDone(s.c) && s.deq == before.deq && s.goal == before.goal
        invariant s.pHeld == Held(before)
        invariant if s.p == PDone(true) then s.enq == before.enq + [v] else s.enq == before.enq
        invariant !s.p.PDone? ==> s.p.v == v
        invariant WellFormed(before) && Alone(before, s, alloc, m)
        decreases ProducerRank(s.p)
      {
        EnqueueNext(before, s, alloc, m);
        s := ProduceStep(s, m);
      }
      ok := s.p.ok;
    }

    /** try_dequeue, and pop for a caller that ignores the value. */
    method TryDequeue() returns (r: Option<T>)
      requires Valid()
      modifies this
      ensures Valid() && s.goal == old(s.goal)
      ensures r.None? <==> old(Contents()) == []
      ensures if r.None? then Contents() == [] else old(Contents()) == [r.v] + Contents()
    {
      var _ := Call(false);
      r := if s.c.CGot? then Some(s.c.v) else None;
    }

    method Peek() returns (r: Option<T>)
      requires Valid()
      modifies this
      ensures Valid() && s.goal == old(s.goal) && Contents() == old(Contents())
      ensures r == if Contents() == [] then None else Some(Contents()[0])
    {
      r := Call(true);
    }

    method Call(peek: bool) returns (r: Option<T>)
      requires Valid()
      modifies this
      ensures Valid() && s.goal == old(s.goal) && s.enq == old(s.enq)
      ensures s.c.CEmpty? || (if peek then s.c.CPeeked? else s.c.CGot?)
      ensures s.c.CEmpty? <==> old(Contents()) == []
      ensures if s.c.CGot? then s.deq == old(s.deq) + [s.c.v] else s.deq == old(s.deq)
      ensures r == if s.c.CPeeked? then Some(s.c.v) else None
      ensures s.c.CPeeked? ==> Contents() != [] && s.c.v == Contents()[0]
    {
      ghost var before := s;
      StartDequeueKeeps(s, peek);
      s := StartDequeueStep(s, peek);
      while !ConsumerDone(s.c)
        invariant Inv(s) && s.p == before.p && s.enq == before.enq && s.goal == before.goal
        invariant s.cHeld == Held(before) && !s.c.CDone?
        invariant if s.c.CGot? then s.deq == before.deq + [s.c.v] else s.deq == before.deq
        invariant !s.c.CEmpty? ==> (Peeks(s.c) <==> peek)
        decreases ConsumerRank(s.c)
      {
        ConsumeKeeps(s);
        ConsumeEffect(s);
        if !ConsumeStep(s).c.CEmpty? { PeekStays(s); }
        s := ConsumeStep(s);
      }
      r := if s.c.CPeeked? then Some(s.c.v) else None;
    }
  }
}
