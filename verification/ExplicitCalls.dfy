/** What the calls of an explicit producer come to, in every run: which enqueues succeed, when a block is
    reused, and what a dequeuer moves out. */
module ExplicitCalls {
  import opened Arith
  import opened Words
  import opened Positions
  import opened ExplicitProducer

  // ---------------------------------------------------------------- enqueue

  /** The last enqueue: the tail and the number of blocks when it began, whether the block ahead was empty
      then, and whether it was refused something since. */
  datatype Attempt<T> = NoAttempt | Attempt(v: T, tail: Pos, blocks: nat, ahead: bool, refused: bool)

  predicate EmptyBlock<T>(b: Block<T>) { forall j :: 0 <= j < |b.flags| ==> b.flags[j] }

  /** A block must be started, and all elements of the oldest one are marked as dequeued. */
  predicate AheadEmpty<T>(m: Mem<T>)
    requires Shaped(m)
  {
    m.tail.o == 0 && m.tailBlock.At? && EmptyBlock(m.blocks[NextBlock(m)])
  }

  /** With another block the elements not dequeued could come to 2^63. */
  predicate NoRoom<T>(m: Mem<T>) { Index(m.tail, m.bs) - Index(m.head, m.bs) + m.bs >= HALF }

  /** An index of twice the size would not fit the index space. */
  predicate IndexFull<T>(m: Mem<T>)
    requires Shaped(m)
  {
    2 * m.headers[Cur(m)].size * m.bs > WORD
  }

  /** The next step finds that it cannot go on. */
  predicate Refuses<T>(m: Mem<T>, sup: Supply<T>)
    requires Shaped(m)
  {
    match m.p
    case PLoadHead(_) => NoRoom(m)
    case PGrow(_) => sup.NoMemory? || IndexFull(m)
    case PRequisition(_) => sup.NoMemory? || |sup.junk| != m.bs
    case _ => false
  }

  function Refused<T>(m: Mem<T>, last: Attempt<T>, sup: Supply<T>): Attempt<T>
    requires Shaped(m)
  {
    if last.Attempt? && Refuses(m, sup) then last.(refused := true) else last
  }

  function NoteEnqueue<T>(s: State<T>, last: Attempt<T>, act: Action<T>): Attempt<T> {
    match act
    case Enqueue(v) =>
      if s.m.p.PIdle? then Attempt(v, s.m.tail, |s.m.blocks|, Shaped(s.m) && AheadEmpty(s.m), false) else last
    case Produce(sup) =>
      if Shaped(s.m) then Refused(s.m, last, sup) else last
    case _ => last
  }

  function LastEnqueue<T>(s: State<T>, schedule: seq<Action<T>>): Attempt<T> {
    if schedule == [] then NoAttempt
    else
      var n := |schedule| - 1;
      NoteEnqueue(Run(s, schedule[..n]), LastEnqueue(s, schedule[..n]), schedule[n])
  }

  /** The value of the call is in the log under the index that was the tail. */
  ghost predicate Logged<T>(m: Mem<T>, last: Attempt<T>)
    requires last.Attempt?
  {
    last.tail.q < |m.log| && last.tail.o < |m.log[last.tail.q]| && m.log[last.tail.q][last.tail.o] == last.v
  }

  /** How far the call has come. */
  ghost predicate Course<T>(m: Mem<T>, last: Attempt<T>)
    requires Shaped(m)
  {
    last.Attempt? ==>
      && (if m.p.PIdle? && !last.refused then m.tail == Succ(last.tail, m.bs) && Logged(m, last) else m.tail == last.tail)
      && (last.refused ==> m.p.PIdle? || (m.p.PGrow? && IndexFull(m)))
      && (!m.p.PIdle? && !m.p.PStoreTail? ==> m.p.v == last.v)
      && (m.p.PStoreTail? ==> Logged(m, last))
      && last.blocks <= |m.blocks| <= last.blocks + 1
      && (last.refused || Choosing(m.p) ==> |m.blocks| == last.blocks)
      && (last.tail.o != 0 ==> !last.refused && |m.blocks| == last.blocks && (m.p.PIdle? || m.p.PStoreElement? || m.p.PStoreTail?))
      && (last.ahead ==> Reusing(m, last))
  }

  /** A call that found the block ahead empty takes it over and asks for nothing. */
  predicate Reusing<T>(m: Mem<T>, last: Attempt<T>)
    requires Shaped(m) && last.Attempt?
  {
    && !last.refused && |m.blocks| == last.blocks && !m.p.PLoadHead? && !m.p.PGrow? && !m.p.PRequisition?
    && (m.p.PScan? ==> AheadEmpty(m))
  }

  lemma StartCourse<T>(m: Mem<T>, v: T)
    requires MemOk(m) && m.p.PIdle?
    ensures Course(StartEnqueue(m, v), Attempt(v, m.tail, |m.blocks|, AheadEmpty(m), false))
  {
  }

  /** Nobody else moves the tail, takes a block or clears a flag. */
  lemma OthersCourse<T>(m: Mem<T>, m': Mem<T>, last: Attempt<T>)
    requires Shaped(m) && Shaped(m') && Course(m, last)
    requires m' == m.(head := m'.head, blocks := m'.blocks) && |m'.blocks| == |m.blocks|
    requires forall b :: 0 <= b < |m.blocks| ==> MoreFlags(m.blocks[b], m'.blocks[b])
    ensures Course(m', last)
  {
    if m.tailBlock.At? {
      assert MoreFlags(m.blocks[m.tailBlock.id], m'.blocks[m.tailBlock.id]);
      StaysEmpty(m.blocks[NextBlock(m)], m'.blocks[NextBlock(m)]);
    }
  }

  lemma StaysEmpty<T>(b: Block<T>, b': Block<T>)
    requires MoreFlags(b, b')
    ensures EmptyBlock(b) ==> EmptyBlock(b')
  {
  }

  /** Some flags may have been set. */
  predicate MoreFlags<T>(b: Block<T>, b': Block<T>) {
    b'.next == b.next && |b'.flags| == |b.flags| && forall j :: 0 <= j < |b.flags| && b.flags[j] ==> b'.flags[j]
  }

  lemma ConsumeCourse<T>(m: Mem<T>, last: Attempt<T>, pc: Consumer)
    requires Shaped(m) && CanConsume(m, pc) && Course(m, last)
    ensures Shaped(ConsumeStep(m, pc).0) && Course(ConsumeStep(m, pc).0, last)
  {
    OthersCourse(m, ConsumeStep(m, pc).0, last);
  }

  // The steps of the enqueuer.

  lemma ScanCourse<T>(m: Mem<T>, last: Attempt<T>, sup: Supply<T>)
    requires MemOk(m) && CanProduce(m) && m.p.PScan? && Shaped(ProduceStep(m, sup)) && Course(m, last)
    ensures Course(ProduceStep(m, sup), last)
  {
  }

  /** The test on wrapped indices refuses when there is no room; only an index space filled with blocks can
      deceive it, and then the index cannot grow. */
  lemma HeadTest<T>(m: Mem<T>, v: T)
    requires MemOk(m) && m.p == PLoadHead(v)
    ensures !NoRoom(m) ==> !LoadHead(m, v).p.PIdle?
    ensures NoRoom(m) ==> LoadHead(m, v).p.PIdle? || (LoadHead(m, v).p.PGrow? && IndexFull(m))
  {
    var h, t := Index(m.head, m.bs), Index(m.tail, m.bs) + m.bs;
    PosIsIndex(m.head, m.tail, m.bs);
    assert HeaderAt(m, Cur(m));
    if t - h <= WORD { AheadByWord(h, t); } else { FullSpace(m); }
    Tested(m, v, h, t);
  }

  lemma Tested<T>(m: Mem<T>, v: T, h: nat, t: nat)
    requires Shaped(m) && h == Index(m.head, m.bs) && t == Index(m.tail, m.bs) + m.bs
    ensures LoadHead(m, v).p == (if !CircularLessThan(Wrap(h), Wrap(t)) then PIdle
                                 else if m.slotsUsed == m.headers[Cur(m)].size then PGrow(v) else PRequisition(v))
  {
  }

  lemma FullSpace<T>(m: Mem<T>)
    requires MemOk(m) && m.p.PLoadHead? && HeaderAt(m, Cur(m))
    requires Index(m.tail, m.bs) + m.bs - Index(m.head, m.bs) > WORD
    ensures m.slotsUsed == m.headers[Cur(m)].size && IndexFull(m)
  {
    var n, used, size := |m.hist|, m.slotsUsed, m.headers[Cur(m)].size;
    var turns := IndexTurns(m.bs, size);
    MulMonotone(m.lo, m.head.q, m.bs);
    Distribute(n - m.lo, m.lo, m.bs);
    Distribute(n - m.lo, 1, m.bs);
    Space(turns, size, m.bs, used);
  }

  /** used + 1 blocks are more than the index space, which `size` blocks divide. */
  lemma Space(turns: nat, size: nat, bs: nat, used: nat)
    requires turns >= 1 && size >= 1 && turns * size * bs == WORD && used <= size && (used + 1) * bs > WORD
    ensures used == size && 2 * size * bs > WORD
  {
    Associate(turns, size, bs);
    MulAtLeast(turns, size * bs);
    if used + 1 <= size { MulMonotone(used + 1, size, bs); }
    MulMonotone(used + 1, 2 * size, bs);
  }

  lemma LoadHeadCourse<T>(m: Mem<T>, last: Attempt<T>, sup: Supply<T>)
    requires MemOk(m) && CanProduce(m) && m.p.PLoadHead? && Shaped(ProduceStep(m, sup)) && Course(m, last)
    ensures Course(ProduceStep(m, sup), Refused(m, last, sup))
  {
    HeadTest(m, m.p.v);
  }

  lemma GetCourse<T>(m: Mem<T>, last: Attempt<T>, sup: Supply<T>)
    requires MemOk(m) && CanProduce(m) && (m.p.PGrow? || m.p.PRequisition?) && Shaped(ProduceStep(m, sup)) && Course(m, last)
    ensures Course(ProduceStep(m, sup), Refused(m, last, sup))
  {
  }

  lemma PublishCourse<T>(m: Mem<T>, last: Attempt<T>, sup: Supply<T>)
    requires MemOk(m) && CanProduce(m) && Publishing(m.p) && Shaped(ProduceStep(m, sup)) && Course(m, last)
    ensures Course(ProduceStep(m, sup), last)
  {
  }

  lemma StoreCourse<T>(m: Mem<T>, last: Attempt<T>, sup: Supply<T>)
    requires MemOk(m) && CanProduce(m) && (m.p.PStoreElement? || m.p.PStoreTail? || m.p.PIdle?)
    requires Shaped(ProduceStep(m, sup)) && Course(m, last)
    ensures Course(ProduceStep(m, sup), last)
  {
  }

  lemma PlainCourse<T>(m: Mem<T>, last: Attempt<T>, sup: Supply<T>)
    requires MemOk(m) && CanProduce(m) && Shaped(ProduceStep(m, sup)) && Course(m, last) && !Refuses(m, sup)
    requires !m.p.PLoadHead? && !m.p.PGrow? && !m.p.PRequisition?
    ensures Course(ProduceStep(m, sup), last)
  {
    match m.p
    case PScan(_, _) => ScanCourse(m, last, sup);
    case PWriteBase(_) => PublishCourse(m, last, sup);
    case PWriteBlock(_) => PublishCourse(m, last, sup);
    case PStoreFront(_) => PublishCourse(m, last, sup);
    case _ => StoreCourse(m, last, sup);
  }

  lemma ProduceCourse<T>(m: Mem<T>, last: Attempt<T>, sup: Supply<T>)
    requires MemOk(m) && CanProduce(m) && Shaped(ProduceStep(m, sup)) && Course(m, last)
    ensures Course(ProduceStep(m, sup), Refused(m, last, sup))
  {
    match m.p
    case PLoadHead(_) => LoadHeadCourse(m, last, sup);
    case PGrow(_) => GetCourse(m, last, sup);
    case PRequisition(_) => GetCourse(m, last, sup);
    case _ => PlainCourse(m, last, sup);
  }

  lemma OtherCourse<T>(s: State<T>, last: Attempt<T>, act: Action<T>)
    requires Shaped(s.m) && Course(s.m, last) && (act.Claim? || act.Consume?)
    ensures Shaped(Do(s, act).m) && Course(Do(s, act).m, last)
  {
    match act
    case Claim(t, e) => OthersCourse(s.m, Do(s, act).m, last);
    case Consume(t) => if t < |s.c| && CanConsume(s.m, s.c[t]) { ConsumeCourse(s.m, last, s.c[t]); }
  }

  lemma DoCourse<T>(s: State<T>, last: Attempt<T>, act: Action<T>)
    requires MemOk(s.m) && Course(s.m, last)
    ensures Shaped(Do(s, act).m) && Course(Do(s, act).m, NoteEnqueue(s, last, act))
  {
    match act
    case Enqueue(v) => if s.m.p.PIdle? { StartCourse(s.m, v); }
    case Produce(sup) =>
      ProduceKeepsMem(s.m, sup);
      ProduceCourse(s.m, last, sup);
    case _ => OtherCourse(s, last, act);
  }

  /** In every run, through reuse, insertion and growth: a call that has returned put its value under the index
      that was the tail and moved the tail on by one, exactly unless it was refused something: room at its load
      of the head, memory, or an index of twice the size. A call that began with the block ahead empty takes
      that block, asks for nothing and is refused nothing; and a call allocates at most one block. */
  lemma {:induction false} EnqueueAnswers<T>(bs: nat, size: nat, dequeuers: nat, schedule: seq<Action<T>>)
    requires IndexFits(bs, size)
    ensures var s0: State<T> := Start(bs, size, dequeuers);
            var s := Run(s0, schedule);
            Shaped(s.m) && Course(s.m, LastEnqueue(s0, schedule))
  {
    RunInv(bs, size, dequeuers, schedule);
    if schedule != [] {
      var n := |schedule| - 1;
      var s0: State<T> := Start(bs, size, dequeuers);
      EnqueueAnswers(bs, size, dequeuers, schedule[..n]);
      RunInv(bs, size, dequeuers, schedule[..n]);
      DoCourse(Run(s0, schedule[..n]), LastEnqueue(s0, schedule[..n]), schedule[n]);
    }
  }

  // ---------------------------------------------------------------- an enqueue that runs alone

  /** Steps left in the call. */
  function Left<T>(m: Mem<T>): nat {
    match m.p
    case PIdle => 0
    case PScan(_, i) => if i < m.bs then m.bs - i + 9 else 9
    case PLoadHead(_) => 8
    case PGrow(_) => 7
    case PRequisition(_) => 6
    case PWriteBase(_) => 5
    case PWriteBlock(_) => 4
    case PStoreFront(_) => 3
    case PStoreElement(_) => 2
    case PStoreTail => 1
  }

  /** Every step of the enqueuer brings its call nearer to its end, whatever the dequeuers do. */
  lemma WaitFree<T>(m: Mem<T>, sup: Supply<T>)
    requires CanProduce(m) && !m.p.PIdle?
    ensures Left(ProduceStep(m, sup)) < Left(m)
  {
  }

  /** The enqueuer takes k steps, with the memory of `sup` whenever it asks, and nobody else moves. */
  function Alone<T>(m: Mem<T>, sup: Supply<T>, k: nat): Mem<T>
    decreases k
  {
    if k == 0 || !CanProduce(m) then m else Alone(ProduceStep(m, sup), sup, k - 1)
  }

  /** A call that nothing stands in the way of. */
  predicate Clear<T>(m: Mem<T>) requires Shaped(m) {
    !m.p.PIdle? && Choosing(m.p) ==> !NoRoom(m) && (m.p.PRequisition? || !IndexFull(m))
  }

  lemma ClearStep<T>(m: Mem<T>, sup: Supply<T>)
    requires CanProduce(m) && Shaped(ProduceStep(m, sup)) && Clear(m) && sup.Fresh? && |sup.junk| == m.bs
    ensures !Refuses(m, sup) && Clear(ProduceStep(m, sup)) && ProduceStep(m, sup).bs == m.bs
    ensures ProduceStep(m, sup).head == m.head
  {
  }

  /** The call has ended with its value in place. */
  ghost predicate Succeeded<T>(m: Mem<T>, last: Attempt<T>, head: Pos, bs: nat)
    requires last.Attempt?
  {
    m.p.PIdle? && m.bs == bs && m.head == head && m.tail == Succ(last.tail, bs) && Logged(m, last)
  }

  lemma ClearNext<T>(m: Mem<T>, last: Attempt<T>, sup: Supply<T>)
    requires MemOk(m) && Clear(m) && sup.Fresh? && |sup.junk| == m.bs && Course(m, last) && !m.p.PIdle?
    ensures CanProduce(m)
    ensures var m1 := ProduceStep(m, sup);
            MemOk(m1) && Clear(m1) && m1.bs == m.bs && m1.head == m.head && Course(m1, last) && Left(m1) < Left(m)
  {
    ProduceKeepsMem(m, sup);
    ClearStep(m, sup);
    ProduceCourse(m, last, sup);
    WaitFree(m, sup);
  }

  lemma AloneOnce<T>(m: Mem<T>, sup: Supply<T>, k: nat)
    requires CanProduce(m)
    ensures Alone(m, sup, k + 1) == Alone(ProduceStep(m, sup), sup, k)
  {
  }

  lemma {:induction false} RunsClear<T>(m: Mem<T>, last: Attempt<T>, sup: Supply<T>) returns (k: nat)
    requires MemOk(m) && Clear(m) && sup.Fresh? && |sup.junk| == m.bs && Course(m, last) && last.Attempt? && !last.refused
    ensures Succeeded(Alone(m, sup, k), last, m.head, m.bs)
    decreases Left(m)
  {
    k := 0;
    if !m.p.PIdle? {
      ClearNext(m, last, sup);
      k := RunsClear(ProduceStep(m, sup), last, sup);
      AloneOnce(m, sup, k);
      k := k + 1;
    }
  }

  /** Between calls, with room for another block or in the middle of one, and memory. */
  predicate Ready<T>(m: Mem<T>, sup: Supply<T>) {
    && m.p.PIdle? && m.headers != [] && sup.Fresh? && |sup.junk| == m.bs
    && (m.tail.o == 0 ==> !NoRoom(m) && 2 * m.headers[|m.headers| - 1].size * m.bs <= WORD)
  }

  /** Afterwards the value stands under the index that was the tail. */
  ghost predicate Appended<T>(m: Mem<T>, v: T, m': Mem<T>) {
    && m'.p.PIdle? && m'.head == m.head && m'.tail == Succ(m.tail, m.bs)
    && m.tail.q < |m'.log| && m.tail.o < |m'.log[m.tail.q]| && m'.log[m.tail.q][m.tail.o] == v
  }

  lemma FromIdle<T>(m: Mem<T>, v: T, sup: Supply<T>) returns (k: nat)
    requires MemOk(m) && Ready(m, sup)
    ensures Appended(m, v, Alone(StartEnqueue(m, v), sup, k))
  {
    StartEnqueueKeeps(m, v);
    StartCourse(m, v);
    k := RunsClear(StartEnqueue(m, v), Attempt(v, m.tail, |m.blocks|, AheadEmpty(m), false), sup);
  }

  /** From every reachable state between calls: with room for another block, or in the middle of one, and given
      memory, an enqueue succeeds; the index may have to grow, if it can. */
  lemma EnqueueAlone<T>(bs: nat, size: nat, dequeuers: nat, schedule: seq<Action<T>>, v: T, sup: Supply<T>) returns (k: nat)
    requires IndexFits(bs, size) && Ready(Run(Start(bs, size, dequeuers), schedule).m, sup)
    ensures var m := Run(Start(bs, size, dequeuers), schedule).m; Appended(m, v, Alone(StartEnqueue(m, v), sup, k))
  {
    RunInv(bs, size, dequeuers, schedule);
    var s := Run(Start(bs, size, dequeuers), schedule);
    k := FromIdle(s.m, v, sup);
  }

  // ---------------------------------------------------------------- what a dequeuer moves out

  /** The last claim of a dequeuer, and the values that it has moved out since. */
  datatype Taking<T> = NoClaim | Taking(a: Pos, e: Pos, out: seq<T>)

  function MoveOut<T>(m: Mem<T>, pc: Consumer, last: Taking<T>): Taking<T> {
    if last.Taking? && pc.CRead? && pc.b < |m.blocks| && pc.o < |m.blocks[pc.b].data|
    then last.(out := last.out + [m.blocks[pc.b].data[pc.o]]) else last
  }

  function NoteTake<T>(s: State<T>, last: Taking<T>, act: Action<T>, t: nat): Taking<T> {
    match act
    case Claim(u, e) =>
      if u == t && t < |s.c| && s.c[t].CIdle? && t < |Do(s, act).c| && !Do(s, act).c[t].CIdle?
      then Taking(s.m.head, e, []) else last
    case Consume(u) => if u == t && t < |s.c| then MoveOut(s.m, s.c[t], last) else last
    case _ => last
  }

  function LastTake<T>(s: State<T>, schedule: seq<Action<T>>, t: nat): Taking<T> {
    if schedule == [] then NoClaim
    else
      var n := |schedule| - 1;
      NoteTake(Run(s, schedule[..n]), LastTake(s, schedule[..n], t), schedule[n], t)
  }

  /** Up to where a dequeuer at pc has moved out its claim, which ends at e. */
  function Cursor(pc: Consumer, e: Pos, bs: nat): Pos {
    match pc
    case CIdle => e
    case CNone(_, _) => e
    case CRead(a, _, _, _, _, o) => Pos(a.q, o)
    case CFlag(a, _, _, _, _, _) => AfterBlock(a, e, bs)
    case _ => pc.a
  }

  ghost predicate TakenOk<T>(m: Mem<T>, pc: Consumer, last: Taking<T>) {
    match last
    case NoClaim => pc.CIdle?
    case Taking(a, e, out) =>
      var from, at := Index(a, m.bs), Index(Cursor(pc, e, m.bs), m.bs);
      && from <= at <= Index(e, m.bs) <= |Flat(m.log)| && out == Flat(m.log)[from..at]
      && (Holding(pc) ==> pc.e == e)
  }

  /** All elements below the tail are in the log. */
  lemma FlatCovers<T>(m: Mem<T>)
    requires MemOk(m)
    ensures Index(m.tail, m.bs) <= |Flat(m.log)|
  {
    var n := |m.log|;
    if n > 0 {
      FlatLast(m.log, m.bs);
      Distribute(n - 1, 1, m.bs);
    }
  }

  /** The enqueuer only appends to the log. */
  lemma LogGrows<T>(m: Mem<T>, sup: Supply<T>)
    requires CanProduce(m)
    ensures Flat(m.log) <= Flat(ProduceStep(m, sup).log) && ProduceStep(m, sup).bs == m.bs
  {
    FlatGrows(m.log, ProduceStep(m, sup).log);
  }

  lemma StaysTaken<T>(m: Mem<T>, m': Mem<T>, pc: Consumer, last: Taking<T>)
    requires TakenOk(m, pc, last) && m'.bs == m.bs && Flat(m.log) <= Flat(m'.log)
    ensures TakenOk(m', pc, last)
  {
  }

  lemma ClaimIndices<T>(m: Mem<T>, e: Pos)
    requires MemOk(m) && e.o < m.bs && AtMost(m.head, e) && AtMost(e, m.tail)
    ensures Index(m.head, m.bs) <= Index(e, m.bs) <= |Flat(m.log)|
  {
    FlatCovers(m);
    PosIsIndex(m.head, e, m.bs);
    PosIsIndex(e, m.tail, m.bs);
  }

  lemma ClaimTaken<T>(s: State<T>, t: nat, e: Pos, last: Taking<T>)
    requires Inv(s) && t < |s.c| && TakenOk(s.m, s.c[t], last)
    ensures var s' := Do(s, Claim(t, e));
            |s'.c| == |s.c| && TakenOk(s'.m, s'.c[t], NoteTake(s, last, Claim(t, e), t))
  {
    var s' := Do(s, Claim(t, e));
    if s.c[t].CIdle? && !s'.c[t].CIdle? {
      ClaimIndices(s.m, e);
    }
  }

  /** Moving one element out moves the cursor on by one. */
  lemma ReadCursor(pc: Consumer, bs: nat)
    requires pc.CRead? && pc.a.o <= pc.o < Stop(pc.a, pc.e, bs) && pc.a.o < bs && pc.e.o < bs && Less(pc.a, pc.e)
    ensures var pc' := Read(pc.a, pc.e, pc.h, pc.slot, pc.b, pc.o, bs);
            Index(Cursor(pc', pc.e, bs), bs) == Index(Pos(pc.a.q, pc.o), bs) + 1 <= Index(pc.e, bs)
  {
    AfterIndex(pc.a, pc.e, bs);
  }

  lemma MoreTaken<T>(m: Mem<T>, pc: Consumer, pc': Consumer, last: Taking<T>)
    requires TakenOk(m, pc, last) && last.Taking? && Holding(pc) && Holding(pc') && pc'.e == pc.e
    requires var i := Index(Cursor(pc, pc.e, m.bs), m.bs);
             Index(Cursor(pc', pc.e, m.bs), m.bs) == i + 1 <= Index(pc.e, m.bs)
    ensures var i := Index(Cursor(pc, pc.e, m.bs), m.bs);
            i < |Flat(m.log)| && TakenOk(m, pc', last.(out := last.out + [Flat(m.log)[i]]))
  {
  }

  lemma ReadTaken<T>(m: Mem<T>, pc: Consumer, last: Taking<T>)
    requires LogFull(m) && pc.CRead? && pc.a.o <= pc.o < Stop(pc.a, pc.e, m.bs) && pc.a.o < m.bs && pc.e.o < m.bs
    requires Less(pc.a, pc.e) && CanConsume(m, pc) && Served(m, pc) && TakenOk(m, pc, last)
    ensures var (m', pc') := ConsumeStep(m, pc); TakenOk(m', pc', MoveOut(m, pc, last))
  {
    FlatAt(m.log, m.bs, Pos(pc.a.q, pc.o));
    ReadCursor(pc, m.bs);
    MoreTaken(m, pc, ConsumeStep(m, pc).1, last);
  }

  ghost predicate LogFull<T>(m: Mem<T>) { forall q :: 0 <= q < |m.log| - 1 ==> |m.log[q]| == m.bs }

  /** Other steps leave the cursor where it is. */
  lemma SameCursor<T>(m: Mem<T>, pc: Consumer)
    requires !pc.CRead? && CanConsume(m, pc) && (pc.CLoadBlock? ==> pc.a.o < m.bs)
    ensures var (m', pc') := ConsumeStep(m, pc);
            && m'.bs == m.bs && m'.log == m.log && (Holding(pc') ==> Holding(pc) && pc'.e == pc.e)
            && (Holding(pc) ==> Cursor(pc', pc.e, m.bs) == Cursor(pc, pc.e, m.bs))
            && (pc.CNone? ==> pc'.CNone? || pc'.CIdle?) && (pc.CIdle? ==> pc'.CIdle?)
  {
  }

  lemma FlagTaken<T>(m: Mem<T>, pc: Consumer, last: Taking<T>)
    requires !pc.CRead? && CanConsume(m, pc) && (Holding(pc) ==> pc.a.o < m.bs) && TakenOk(m, pc, last)
    ensures var (m', pc') := ConsumeStep(m, pc); TakenOk(m', pc', MoveOut(m, pc, last))
  {
    SameCursor(m, pc);
    SameTaken(m, ConsumeStep(m, pc).0, pc, ConsumeStep(m, pc).1, last);
  }

  lemma SameTaken<T>(m: Mem<T>, m': Mem<T>, pc: Consumer, pc': Consumer, last: Taking<T>)
    requires TakenOk(m, pc, last) && m'.bs == m.bs && m'.log == m.log
    requires (Holding(pc') ==> Holding(pc) && pc'.e == pc.e)
    requires Holding(pc) ==> Cursor(pc', pc.e, m.bs) == Cursor(pc, pc.e, m.bs)
    requires (pc.CNone? ==> pc'.CNone? || pc'.CIdle?) && (pc.CIdle? ==> pc'.CIdle?)
    ensures TakenOk(m', pc', last)
  {
  }

  lemma ConsumeTaken<T>(s: State<T>, t: nat, last: Taking<T>)
    requires Inv(s) && t < |s.c| && TakenOk(s.m, s.c[t], last)
    ensures var s' := Do(s, Consume(t));
            |s'.c| == |s.c| && TakenOk(s'.m, s'.c[t], NoteTake(s, last, Consume(t), t))
  {
    assert ConsumerOk(s.m, s.c[t]);
    ConsumeKeeps(s, t);
    InvServes(s, t);
    if s.c[t].CRead? { ReadTaken(s.m, s.c[t], last); } else { FlagTaken(s.m, s.c[t], last); }
  }

  lemma OtherTaken<T>(s: State<T>, act: Action<T>, t: nat, last: Taking<T>)
    requires Inv(s) && t < |s.c| && TakenOk(s.m, s.c[t], last)
    requires (act.Claim? || act.Consume?) ==> act.t != t
    ensures var s' := Do(s, act);
            |s'.c| == |s.c| && TakenOk(s'.m, s'.c[t], NoteTake(s, last, act, t))
  {
    if act.Produce? && CanProduce(s.m) { LogGrows(s.m, act.m); }
    StaysTaken(s.m, Do(s, act).m, s.c[t], last);
  }

  /** In every run, every dequeuer has moved out the elements of its claim from the first on, each once and in
      order, up to where it is; once it has finished, all of them. */
  lemma {:induction false} DequeueAnswers<T>(bs: nat, size: nat, dequeuers: nat, schedule: seq<Action<T>>, t: nat)
    requires IndexFits(bs, size) && t < dequeuers
    ensures var s0: State<T> := Start(bs, size, dequeuers);
            var s, last := Run(s0, schedule), LastTake(s0, schedule, t);
            && |s.c| == dequeuers && TakenOk(s.m, s.c[t], last)
            && (last.Taking? && s.c[t].CIdle? ==>
                  && Index(last.a, s.m.bs) <= Index(last.e, s.m.bs) <= |Flat(s.m.log)|
                  && last.out == Flat(s.m.log)[Index(last.a, s.m.bs)..Index(last.e, s.m.bs)])
  {
    if schedule != [] {
      var n := |schedule| - 1;
      var s0: State<T> := Start(bs, size, dequeuers);
      DequeueAnswers(bs, size, dequeuers, schedule[..n], t);
      RunInv(bs, size, dequeuers, schedule[..n]);
      TakeStep(Run(s0, schedule[..n]), schedule[n], t, LastTake(s0, schedule[..n], t));
    }
  }

  lemma TakeStep<T>(s: State<T>, act: Action<T>, t: nat, last: Taking<T>)
    requires Inv(s) && t < |s.c| && TakenOk(s.m, s.c[t], last)
    ensures var s' := Do(s, act);
            |s'.c| == |s.c| && TakenOk(s'.m, s'.c[t], NoteTake(s, last, act, t))
  {
    match act
    case Claim(u, e) => if u == t { ClaimTaken(s, t, e, last); } else { OtherTaken(s, act, t, last); }
    case Consume(u) => if u == t { ConsumeTaken(s, t, last); } else { OtherTaken(s, act, t, last); }
    case _ => OtherTaken(s, act, t, last);
  }

  /** A claim of the indices up to e moves the head to e and hands them over, those and no others. */
  lemma ClaimTakes<T>(s: State<T>, t: nat, e: Pos)
    requires t < |s.c| && s.c[t].CIdle? && e.o < s.m.bs && Less(s.m.head, e) && AtMost(e, s.m.tail)
    ensures var s' := Do(s, Claim(t, e));
            && s'.m.head == e && |s'.c| == |s.c|
            && (forall p :: Owns(s'.c[t], p) <==> AtMost(s.m.head, p) && Less(p, e))
            && (forall u, p :: 0 <= u < |s.c| && u != t ==> (Owns(s'.c[u], p) <==> Owns(s.c[u], p)))
  {
  }

  /** Steps left in a lookup or claim. */
  function DequeueLeft(pc: Consumer, bs: nat): int {
    match pc
    case CIdle => 0
    case CNone(_, st) => (match st case LoadIndex => 4 case LoadFront(_) => 3 case LoadBase(_, _) => 2 case LoadBlock(_, _) => 1)
    case CLoadIndex(a, e) => 3 * (Index(e, bs) - Index(a, bs)) + 4
    case CLoadFront(a, e, _) => 3 * (Index(e, bs) - Index(a, bs)) + 3
    case CLoadBase(a, e, _, _, _) => 3 * (Index(e, bs) - Index(a, bs)) + 2
    case CLoadBlock(a, e, _, _) => 3 * (Index(e, bs) - Index(a, bs)) + 1
    case CRead(a, e, _, _, _, o) =>
      3 * (Index(e, bs) - Index(AfterBlock(a, e, bs), bs)) + 2 * Stop(a, e, bs) - a.o - o + 1
    case CFlag(a, e, _, _, _, o) => 3 * (Index(e, bs) - Index(AfterBlock(a, e, bs), bs)) + o - a.o + 1
  }

  lemma ReadLeft(pc: Consumer, bs: nat)
    requires pc.CRead? && pc.a.o <= pc.o < Stop(pc.a, pc.e, bs) && pc.a.o < bs && pc.e.o < bs && Less(pc.a, pc.e)
    ensures 0 <= DequeueLeft(Read(pc.a, pc.e, pc.h, pc.slot, pc.b, pc.o, bs), bs) < DequeueLeft(pc, bs)
  {
    AfterIndex(pc.a, pc.e, bs);
  }

  lemma FlagLeft(pc: Consumer, bs: nat, size: nat)
    requires pc.CFlag? && pc.a.o < pc.o <= Stop(pc.a, pc.e, bs) && pc.a.o < bs && pc.e.o < bs && Less(pc.a, pc.e) && size > 0
    ensures 0 <= DequeueLeft(AfterFlag(pc.a, pc.e, pc.h, pc.slot, pc.b, pc.o, bs, size), bs) < DequeueLeft(pc, bs)
  {
    AfterIndex(pc.a, pc.e, bs);
  }

  lemma LookupLeft(a: Pos, e: Pos, h: nat, slot: nat, b: nat, bs: nat)
    requires a.o < bs && e.o < bs && Less(a, e)
    ensures 0 < DequeueLeft(CRead(a, e, h, slot, b, a.o), bs) < DequeueLeft(CLoadBlock(a, e, h, slot), bs)
    ensures Index(a, bs) <= Index(e, bs)
  {
    AfterIndex(a, e, bs);
  }

  /** Every step of a dequeuer brings it nearer to the end of its claim, whatever the others do. */
  lemma DequeueWaitFree<T>(m: Mem<T>, pc: Consumer)
    requires Ring(m) && ConsumerOk(m, pc) && CanConsume(m, pc) && !pc.CIdle?
    ensures 0 <= DequeueLeft(ConsumeStep(m, pc).1, m.bs) < DequeueLeft(pc, m.bs)
  {
    match pc
    case CIdle =>
    case CNone(_, _) =>
    case CRead(_, _, _, _, _, _) => ReadLeft(pc, m.bs);
    case CFlag(_, _, h, _, _, _) => FlagLeft(pc, m.bs, m.headers[h].size);
    case CLoadBlock(a, e, h, slot) => LookupLeft(a, e, h, slot, m.headers[h].entries[slot].block, m.bs);
    case CLoadIndex(a, e) => LookupLeft(a, e, 0, 0, 0, m.bs);
    case CLoadFront(a, e, _) => LookupLeft(a, e, 0, 0, 0, m.bs);
    case CLoadBase(a, e, _, _, _) => LookupLeft(a, e, 0, 0, 0, m.bs);
  }

  // ---------------------------------------------------------------- blocks become free for reuse

  /** What has been claimed in a block of the ring is marked as dequeued, or a dequeuer is going to mark it. */
  ghost predicate MarkedAt<T>(m: Mem<T>, c: seq<Consumer>, q: nat, o: nat) {
    Live(m, q) && RingAt(m, q) && o < m.bs && Less(Pos(q, o), m.head) ==>
      Flag(m, q, o) || exists t :: 0 <= t < |c| && Owns(c[t], Pos(q, o))
  }

  ghost predicate Marked<T>(m: Mem<T>, c: seq<Consumer>) { forall q: nat, o: nat :: MarkedAt(m, c, q, o) }

  /** Dequeuer t goes on to pc' and marks what it ceases to own. */
  lemma StepMarked<T>(m: Mem<T>, c: seq<Consumer>, m': Mem<T>, t: nat, pc': Consumer)
    requires Marked(m, c) && t < |c| && m'.bs == m.bs && m'.hist == m.hist && m'.lo == m.lo
    requires forall q: nat :: Live(m, q) && RingAt(m', q) ==> RingAt(m, q)
    requires forall q: nat, o: nat :: Live(m, q) && RingAt(m', q) && o < m.bs && Less(Pos(q, o), m'.head) ==>
               || Flag(m', q, o) || Owns(pc', Pos(q, o))
               || (RingAt(m, q) && Less(Pos(q, o), m.head) && !Flag(m, q, o) && !Owns(c[t], Pos(q, o)))
    ensures Marked(m', c[t := pc'])
  {
    var c' := c[t := pc'];
    forall q: nat, o: nat ensures MarkedAt(m', c', q, o) {
      assert MarkedAt(m, c, q, o);
      if Live(m', q) && RingAt(m', q) && o < m'.bs && Less(Pos(q, o), m'.head) && !Flag(m', q, o) {
        if Owns(pc', Pos(q, o)) {
          assert Owns(c'[t], Pos(q, o));
        } else {
          var u :| 0 <= u < |c| && Owns(c[u], Pos(q, o));
          assert c'[u] == c[u];
        }
      }
    }
  }

  /** A dequeuer at pc that is about to mark an element of a block in the ring. */
  predicate Marking<T>(m: Mem<T>, pc: Consumer, size: nat) {
    && pc.CFlag? && Live(m, pc.a.q) && RingAt(m, pc.a.q) && pc.b == m.hist[pc.a.q] && size > 0
    && pc.a.o < pc.o <= Stop(pc.a, pc.e, m.bs) && pc.a.o < m.bs && pc.e.o < m.bs && Less(pc.a, pc.e)
  }

  lemma FlagMarkedAt<T>(m: Mem<T>, pc: Consumer, size: nat, q: nat, o: nat)
    requires Ring(m) && Marking(m, pc, size) && Live(m, q) && o < m.bs
    ensures var m' := SetFlag(m, pc.b, pc.o);
            var pc' := AfterFlag(pc.a, pc.e, pc.h, pc.slot, pc.b, pc.o, m.bs, size);
            && RingAt(m, q) && RingAt(m', q)
            && (Flag(m', q, o) || Owns(pc', Pos(q, o)) || (!Flag(m, q, o) && !Owns(pc, Pos(q, o))))
  {
    FlagEffect(m, pc.a.q, pc.o, q);
    if Owns(pc, Pos(q, o)) && Pos(q, o) != Pos(pc.a.q, pc.o - 1) { KeepsOwning(pc, m.bs, size, Pos(q, o)); }
  }

  lemma FlagMarked<T>(m: Mem<T>, c: seq<Consumer>, t: nat, size: nat)
    requires Ring(m) && t < |c| && Marking(m, c[t], size) && Marked(m, c)
    ensures var pc := c[t];
            Marked(SetFlag(m, pc.b, pc.o), c[t := AfterFlag(pc.a, pc.e, pc.h, pc.slot, pc.b, pc.o, m.bs, size)])
  {
    var pc := c[t];
    var m', pc' := SetFlag(m, pc.b, pc.o), AfterFlag(pc.a, pc.e, pc.h, pc.slot, pc.b, pc.o, m.bs, size);
    forall q: nat, o: nat | Live(m, q) && RingAt(m', q) && o < m.bs && Less(Pos(q, o), m'.head)
      ensures RingAt(m, q)
      ensures Flag(m', q, o) || Owns(pc', Pos(q, o)) || (!Flag(m, q, o) && !Owns(pc, Pos(q, o)))
    {
      FlagMarkedAt(m, pc, size, q, o);
    }
    StepMarked(m, c, m', t, pc');
  }

  lemma ConsumeMarked<T>(s: State<T>, t: nat)
    requires Inv(s) && t < |s.c| && Marked(s.m, s.c)
    ensures Marked(Do(s, Consume(t)).m, Do(s, Consume(t)).c)
  {
    assert ConsumerOk(s.m, s.c[t]);
    ConsumeKeeps(s, t);
    if s.c[t].CFlag? {
      assert RingAt(s.m, s.c[t].a.q);
      FlagMarked(s.m, s.c, t, s.m.headers[s.c[t].h].size);
    } else {
      KeepsClaim(s.m, s.c[t]);
      StepMarked(s.m, s.c, s.m, t, ConsumeStep(s.m, s.c[t]).1);
    }
  }

  lemma KeepsClaim<T>(m: Mem<T>, pc: Consumer)
    requires Ring(m) && ConsumerOk(m, pc) && CanConsume(m, pc) && !pc.CFlag?
    ensures ConsumeStep(m, pc).0 == m
    ensures forall q: nat, o: nat :: o < m.bs && Owns(pc, Pos(q, o)) ==> Owns(ConsumeStep(m, pc).1, Pos(q, o))
  {
  }

  lemma ClaimMarked<T>(s: State<T>, t: nat, e: Pos)
    requires Marked(s.m, s.c)
    ensures Marked(Do(s, Claim(t, e)).m, Do(s, Claim(t, e)).c)
  {
    var s' := Do(s, Claim(t, e));
    if s'.m != s.m {
      StepMarked(s.m, s.c, s'.m, t, s'.c[t]);
    } else if s' != s {
      StepMarked(s.m, s.c, s.m, t, s'.c[t]);
    }
  }

  /** What the enqueuer adds to the ring has not been claimed. */
  lemma ProduceMarked<T>(m: Mem<T>, c: seq<Consumer>, m': Mem<T>)
    requires MemOk(m) && Ring(m') && Extends(m, m') && Marked(m, c)
    ensures Marked(m', c)
  {
    forall q: nat, o: nat ensures MarkedAt(m', c, q, o) {
      assert MarkedAt(m, c, q, o);
      if Live(m', q) && q < |m.hist| { assert RingAt(m, q); }
    }
  }

  lemma DoMarked<T>(s: State<T>, act: Action<T>)
    requires Inv(s) && Marked(s.m, s.c)
    ensures Marked(Do(s, act).m, Do(s, act).c)
  {
    match act
    case Enqueue(v) =>
      if s.m.p.PIdle? {
        StartEnqueueKeeps(s.m, v);
        ProduceMarked(s.m, s.c, StartEnqueue(s.m, v));
      }
    case Produce(sup) =>
      ProduceKeepsMem(s.m, sup);
      ProduceMarked(s.m, s.c, ProduceStep(s.m, sup));
    case Claim(t, e) => ClaimMarked(s, t, e);
    case Consume(t) => if t < |s.c| { ConsumeMarked(s, t); }
  }

  lemma {:induction false} RunMarked<T>(bs: nat, size: nat, dequeuers: nat, schedule: seq<Action<T>>)
    requires IndexFits(bs, size)
    ensures var s := Run(Start(bs, size, dequeuers), schedule); Marked(s.m, s.c)
  {
    if schedule != [] {
      var n := |schedule| - 1;
      RunMarked(bs, size, dequeuers, schedule[..n]);
      RunInv(bs, size, dequeuers, schedule[..n]);
      DoMarked(Run(Start(bs, size, dequeuers), schedule[..n]), schedule[n]);
    }
  }

  /** A block is free for reuse as soon as all its elements have been dequeued: whenever no dequeuer is at work
      and the head has left the oldest block, an enqueue that needs a block finds that one empty. */
  lemma DequeuedIsReusable<T>(bs: nat, size: nat, dequeuers: nat, schedule: seq<Action<T>>)
    requires IndexFits(bs, size)
    ensures var m, c := Run(Start(bs, size, dequeuers), schedule).m, Run(Start(bs, size, dequeuers), schedule).c;
            && Shaped(m)
            && ((forall t :: 0 <= t < |c| ==> !Holding(c[t])) && m.tail.o == 0 && m.hist != [] && m.lo < m.head.q ==>
                  AheadEmpty(m))
  {
    var s := Run(Start(bs, size, dequeuers), schedule);
    RunInv(bs, size, dequeuers, schedule);
    RunMarked(bs, size, dequeuers, schedule);
    if (forall t :: 0 <= t < |s.c| ==> !Holding(s.c[t])) && s.m.tail.o == 0 && s.m.hist != [] && s.m.lo < s.m.head.q {
      OldestEmpty(s.m, s.c);
    }
  }

  lemma OldestEmpty<T>(m: Mem<T>, c: seq<Consumer>)
    requires MemOk(m) && Marked(m, c) && (forall t :: 0 <= t < |c| ==> !Holding(c[t]))
    requires m.tail.o == 0 && m.hist != [] && m.lo < m.head.q
    ensures AheadEmpty(m)
  {
    assert RingAt(m, m.lo) && RingAt(m, |m.hist| - 1);
    var b := m.blocks[m.hist[m.lo]];
    forall j | 0 <= j < |b.flags| ensures b.flags[j] {
      var o := m.bs - 1 - j;
      assert MarkedAt(m, c, m.lo, o);
      assert Flag(m, m.lo, o);
    }
  }

  /** After marking an element a dequeuer still owns the rest of its claim. */
  lemma KeepsOwning(pc: Consumer, bs: nat, size: nat, p: Pos)
    requires pc.CFlag? && size > 0 && pc.a.o < pc.o <= Stop(pc.a, pc.e, bs) && pc.a.o < bs && pc.e.o < bs && Less(pc.a, pc.e)
    requires p.o < bs && Owns(pc, p) && p != Pos(pc.a.q, pc.o - 1)
    ensures Owns(AfterFlag(pc.a, pc.e, pc.h, pc.slot, pc.b, pc.o, bs, size), p)
  {
  }
}
