/** What the calls of an implicit producer come to, in every run: which enqueues succeed, and what a
    dequeuer moves out. */
module ImplicitCalls {
  import opened Arith
  import opened Words
  import opened Positions
  import opened ImplicitProducer

  // ---------------------------------------------------------------- room

  /** The elements not dequeued, with the rest of the block that was started for them, stay below 2^63. */
  predicate RoomOk<T>(m: Mem<T>) {
    && Index(m.head, m.bs) <= Index(m.tail, m.bs)
    && Index(m.tail, m.bs) - Index(m.head, m.bs) + (if Started(m) then m.bs - m.tail.o else 0) < HALF
    && (m.bs >= HALF ==> m.tail == Pos(0, 0) && !Started(m))
  }

  /** A block was started, or is going to be, after the test for room. */
  predicate Started<T>(m: Mem<T>) { m.tail.o != 0 || !(m.p.PIdle? || m.p.PLoadHead? || m.p.PRewind? || m.p.PNullValue?) }

  /** With another block the elements not dequeued could come to 2^63. */
  predicate NoRoom<T>(m: Mem<T>) { Index(m.tail, m.bs) - Index(m.head, m.bs) + m.bs >= HALF }

  /** The test on wrapped indices decides exactly whether there is room. */
  lemma HeadTest<T>(m: Mem<T>, v: T)
    requires RoomOk(m) && m.tail.o < m.bs <= WORD
    ensures LoadHead(m, v) == m.(p := if NoRoom(m) then PIdle else PProbe(v))
  {
    RoomTest(Index(m.head, m.bs), Index(m.tail, m.bs), m.bs);
  }

  lemma RoomTest(h: nat, t: nat, bs: nat)
    requires h <= t && t - h < HALF && 1 <= bs <= WORD && (bs >= HALF ==> t == 0)
    ensures CircularLessThan(Wrap(h), Wrap(t + bs)) <==> t - h + bs < HALF
  {
    AheadByWord(h, t + bs);
  }

  // ---------------------------------------------------------------- enqueue

  /** The last enqueue: the tail and the number of blocks when it began, and whether it was refused
      something since. */
  datatype Attempt<T> = NoAttempt | Attempt(v: T, tail: Pos, blocks: nat, refused: bool)

  /** An index of twice the size would not fit the index space. */
  predicate IndexFull<T>(m: Mem<T>)
    requires Shaped(m)
  {
    2 * m.headers[Cur(m)].capacity * m.bs > WORD
  }

  /** The memory is a block of the pool, or a new one of the right size. */
  predicate Usable<T>(m: Mem<T>, sup: Supply<T>) {
    match sup
    case NoMemory => false
    case Pooled(b) => b in m.pool
    case Fresh(junk) => |junk| == m.bs
  }

  /** The next step finds that it cannot go on. */
  predicate Refuses<T>(m: Mem<T>, sup: Supply<T>)
    requires Shaped(m)
  {
    match m.p
    case PLoadHead(_) => NoRoom(m)
    case PGrow(_) => sup.NoMemory? || IndexFull(m)
    case PRequisition(_) => !Usable(m, sup)
    case _ => false
  }

  function Refused<T>(m: Mem<T>, last: Attempt<T>, sup: Supply<T>): Attempt<T>
    requires Shaped(m)
  {
    if last.Attempt? && Refuses(m, sup) then last.(refused := true) else last
  }

  function NoteEnqueue<T>(s: State<T>, last: Attempt<T>, act: Action<T>): Attempt<T> {
    match act
    case Enqueue(v) => if s.m.p.PIdle? then Attempt(v, s.m.tail, |s.m.blocks|, false) else last
    case Produce(sup) => if Shaped(s.m) then Refused(s.m, last, sup) else last
    case _ => last
  }

  function LastEnqueue<T>(s: State<T>, schedule: seq<Action<T>>): Attempt<T> {
    if schedule == [] then NoAttempt
    else
      var n := |schedule| - 1;
      NoteEnqueue(Run(s, schedule[..n]), LastEnqueue(s, schedule[..n]), schedule[n])
  }

  /** The value of the call is in the log under the index that was the tail. */
  ghost predicate Logged<T>(m: Mem<T>, last: Attempt<T>)
    requires last.Attempt?
  {
    last.tail.q < |m.log| && last.tail.o < |m.log[last.tail.q]| && m.log[last.tail.q][last.tail.o] == last.v
  }

  predicate Undoing<T>(p: Producer<T>) { p.PRewind? || p.PNullValue? }

  /** How far the call has come. */
  ghost predicate Course<T>(m: Mem<T>, last: Attempt<T>) {
    last.Attempt? ==>
      && (if m.p.PIdle? && !last.refused then m.tail == Succ(last.tail, m.bs) && Logged(m, last) else m.tail == last.tail)
      && (!m.p.PIdle? ==> (last.refused <==> Undoing(m.p)))
      && (!m.p.PIdle? && !m.p.PStoreTail? && !Undoing(m.p) ==> m.p.v == last.v)
      && (m.p.PStoreTail? ==> Logged(m, last))
      && last.blocks <= |m.blocks| <= last.blocks + 1
      && (m.p.PCommit? || m.p.PStoreElement? || m.p.PStoreTail? || (m.p.PIdle? && !last.refused) || |m.blocks| == last.blocks)
      && (last.tail.o != 0 ==> !last.refused && |m.blocks| == last.blocks && (m.p.PIdle? || m.p.PStoreElement? || m.p.PStoreTail?))
  }

  lemma StartCourse<T>(m: Mem<T>, v: T)
    requires m.p.PIdle?
    ensures Course(StartEnqueue(m, v), Attempt(v, m.tail, |m.blocks|, false))
  {
  }

  lemma ConsumeCourse<T>(m: Mem<T>, last: Attempt<T>, pc: Consumer)
    requires CanConsume(m, pc) && Course(m, last)
    ensures Course(ConsumeStep(m, pc).0, last)
  {
  }

  lemma LoadHeadCourse<T>(m: Mem<T>, last: Attempt<T>, sup: Supply<T>)
    requires MemOk(m) && RoomOk(m) && m.bs <= WORD && m.p.PLoadHead? && Course(m, last)
    ensures Course(ProduceStep(m, sup), Refused(m, last, sup))
  {
    HeadTest(m, m.p.v);
  }

  lemma GetCourse<T>(m: Mem<T>, last: Attempt<T>, sup: Supply<T>)
    requires MemOk(m) && (m.p.PGrow? || m.p.PRequisition?) && Course(m, last)
    ensures Course(ProduceStep(m, sup), Refused(m, last, sup))
  {
  }

  lemma PublishCourse<T>(m: Mem<T>, last: Attempt<T>, sup: Supply<T>)
    requires MemOk(m) && CanProduce(m) && Course(m, last)
    requires m.p.PProbe? || m.p.PStoreKey? || m.p.PStoreSlot? || m.p.PCommit? || Undoing(m.p)
    ensures Course(ProduceStep(m, sup), last)
  {
  }

  lemma StoreCourse<T>(m: Mem<T>, last: Attempt<T>, sup: Supply<T>)
    requires MemOk(m) && CanProduce(m) && (m.p.PStoreElement? || m.p.PStoreTail? || m.p.PIdle?) && Course(m, last)
    ensures Course(ProduceStep(m, sup), last)
  {
  }

  lemma ProduceCourse<T>(m: Mem<T>, last: Attempt<T>, sup: Supply<T>)
    requires MemOk(m) && RoomOk(m) && m.bs <= WORD && CanProduce(m) && Course(m, last)
    ensures Course(ProduceStep(m, sup), Refused(m, last, sup))
  {
    match m.p
    case PLoadHead(_) => LoadHeadCourse(m, last, sup);
    case PGrow(_) => GetCourse(m, last, sup);
    case PRequisition(_) => GetCourse(m, last, sup);
    case PProbe(_) => PublishCourse(m, last, sup);
    case PStoreKey(_, _) => PublishCourse(m, last, sup);
    case PStoreSlot(_) => PublishCourse(m, last, sup);
    case PCommit(_, _) => PublishCourse(m, last, sup);
    case PRewind => PublishCourse(m, last, sup);
    case PNullValue => PublishCourse(m, last, sup);
    case _ => StoreCourse(m, last, sup);
  }

  // The room stays within bounds.

  lemma ProduceRoom<T>(m: Mem<T>, sup: Supply<T>)
    requires MemOk(m) && RoomOk(m) && m.bs <= WORD && CanProduce(m)
    ensures RoomOk(ProduceStep(m, sup))
  {
    match m.p
    case PLoadHead(v) => HeadTest(m, v);
    case PStoreTail => PosIsIndex(m.tail, m.tail, m.bs);
    case _ => PlainRoom(m, sup);
  }

  lemma PlainRoom<T>(m: Mem<T>, sup: Supply<T>)
    requires MemOk(m) && RoomOk(m) && CanProduce(m) && !m.p.PLoadHead? && !m.p.PStoreTail?
    ensures RoomOk(ProduceStep(m, sup))
  {
  }

  lemma ClaimRoom<T>(m: Mem<T>, max: nat, e: Pos)
    requires MemOk(m) && RoomOk(m) && CanClaim(m, max, e)
    ensures RoomOk(m.(head := e))
  {
    PosIsIndex(m.head, e, m.bs);
    PosIsIndex(e, m.tail, m.bs);
  }

  lemma ConsumeRoom<T>(m: Mem<T>, pc: Consumer)
    requires CanConsume(m, pc) && RoomOk(m)
    ensures RoomOk(ConsumeStep(m, pc).0)
  {
  }

  ghost predicate Going<T>(m: Mem<T>, last: Attempt<T>) { RoomOk(m) && m.bs <= WORD && Course(m, last) }

  lemma DoCourse<T>(s: State<T>, last: Attempt<T>, act: Action<T>)
    requires MemOk(s.m) && Going(s.m, last)
    ensures Going(Do(s, act).m, NoteEnqueue(s, last, act))
  {
    match act
    case Enqueue(v) => if s.m.p.PIdle? { StartCourse(s.m, v); }
    case Produce(sup) =>
      ProduceKeepsMem(s.m, sup);
      ProduceCourse(s.m, last, sup);
      ProduceRoom(s.m, sup);
      SameSize(s.m, sup);
    case Claim(t, max, e) => if CanClaim(s.m, max, e) { ClaimRoom(s.m, max, e); }
    case Consume(t) =>
      if t < |s.c| && CanConsume(s.m, s.c[t]) {
        ConsumeCourse(s.m, last, s.c[t]);
        ConsumeRoom(s.m, s.c[t]);
      }
  }

  lemma SameSize<T>(m: Mem<T>, sup: Supply<T>)
    requires CanProduce(m)
    ensures ProduceStep(m, sup).bs == m.bs
  {
  }

  /** In every run, through reuse of entries, reservations that are taken back, and growth: there are always
      fewer than 2^63 elements, and a call that has returned put its value under the index that was the tail
      and moved the tail on by one, exactly unless it was refused something: room at its load of the head,
      memory, or an index of twice the size. */
  lemma {:induction false} EnqueueAnswers<T>(bs: nat, capacity: nat, dequeuers: nat, schedule: seq<Action<T>>)
    requires IndexFits(bs, capacity) && capacity >= 1 && AsksAtLeast(schedule, 1)
    ensures var s0: State<T> := Start(bs, capacity, dequeuers);
            Going(Run(s0, schedule).m, LastEnqueue(s0, schedule))
  {
    if schedule == [] {
      var turns := IndexTurns(bs, capacity);
      Associate(turns, capacity, bs);
      MulAtLeast(turns, capacity * bs);
      MulAtLeast(capacity, bs);
    } else {
      var n := |schedule| - 1;
      var s0: State<T> := Start(bs, capacity, dequeuers);
      EnqueueAnswers(bs, capacity, dequeuers, schedule[..n]);
      RunInv(bs, capacity, dequeuers, schedule[..n]);
      DoCourse(Run(s0, schedule[..n]), LastEnqueue(s0, schedule[..n]), schedule[n]);
    }
  }

  // ---------------------------------------------------------------- an enqueue that runs alone

  /** Steps left in the call. */
  function Left<T>(p: Producer<T>): nat {
    match p
    case PIdle => 0
    case PLoadHead(_) => 9
    case PProbe(_) => 8
    case PGrow(_) => 7
    case PStoreKey(_, _) => 6
    case PStoreSlot(_) => 5
    case PRequisition(_) => 4
    case PCommit(_, _) => 3
    case PRewind => 2
    case PNullValue => 1
    case PStoreElement(_) => 2
    case PStoreTail => 1
  }

  /** Every step of the enqueuer brings its call nearer to its end, whatever the dequeuers do. */
  lemma WaitFree<T>(m: Mem<T>, sup: Supply<T>)
    requires CanProduce(m) && !m.p.PIdle?
    ensures Left(ProduceStep(m, sup).p) < Left(m.p)
  {
  }

  /** The enqueuer takes k steps, with the memory of `sup` whenever it asks, and nobody else moves. */
  function Alone<T>(m: Mem<T>, sup: Supply<T>, k: nat): Mem<T>
    decreases k
  {
    if k == 0 || !CanProduce(m) then m else Alone(ProduceStep(m, sup), sup, k - 1)
  }

  /** A call that nothing stands in the way of. */
  predicate Clear<T>(m: Mem<T>)
    requires Shaped(m)
  {
    !Undoing(m.p) && (m.p.PLoadHead? ==> !NoRoom(m)) && (m.p.PLoadHead? || m.p.PProbe? || m.p.PGrow? ==> !IndexFull(m))
  }

  lemma ClearStep<T>(m: Mem<T>, sup: Supply<T>)
    requires CanProduce(m) && Shaped(ProduceStep(m, sup)) && Clear(m) && sup.Fresh? && |sup.junk| == m.bs
    ensures !Refuses(m, sup) && Clear(ProduceStep(m, sup)) && ProduceStep(m, sup).bs == m.bs
    ensures ProduceStep(m, sup).head == m.head
  {
  }

  /** The call has ended with its value in place. */
  ghost predicate Succeeded<T>(m: Mem<T>, last: Attempt<T>, head: Pos, bs: nat)
    requires last.Attempt?
  {
    m.p.PIdle? && m.bs == bs && m.head == head && m.tail == Succ(last.tail, bs) && Logged(m, last)
  }

  lemma ClearNext<T>(m: Mem<T>, last: Attempt<T>, sup: Supply<T>)
    requires MemOk(m) && Clear(m) && sup.Fresh? && |sup.junk| == m.bs && Going(m, last) && !m.p.PIdle?
    ensures CanProduce(m)
    ensures var m1 := ProduceStep(m, sup);
            MemOk(m1) && Clear(m1) && m1.bs == m.bs && m1.head == m.head && Going(m1, last) && Left(m1.p) < Left(m.p)
  {
    ProduceKeepsMem(m, sup);
    ClearStep(m, sup);
    ProduceCourse(m, last, sup);
    ProduceRoom(m, sup);
    WaitFree(m, sup);
  }

  lemma AloneOnce<T>(m: Mem<T>, sup: Supply<T>, k: nat)
    requires CanProduce(m)
    ensures Alone(m, sup, k + 1) == Alone(ProduceStep(m, sup), sup, k)
  {
  }

  lemma {:induction false} RunsClear<T>(m: Mem<T>, last: Attempt<T>, sup: Supply<T>) returns (k: nat)
    requires MemOk(m) && Clear(m) && sup.Fresh? && |sup.junk| == m.bs && Going(m, last) && last.Attempt? && !last.refused
    ensures Succeeded(Alone(m, sup, k), last, m.head, m.bs)
    decreases Left(m.p)
  {
    k := 0;
    if !m.p.PIdle? {
      ClearNext(m, last, sup);
      k := RunsClear(ProduceStep(m, sup), last, sup);
      AloneOnce(m, sup, k);
      k := k + 1;
    }
  }

  /** Between calls, with room for another block or in the middle of one, and memory. */
  predicate Ready<T>(m: Mem<T>, sup: Supply<T>) {
    && m.p.PIdle? && m.headers != [] && sup.Fresh? && |sup.junk| == m.bs
    && (m.tail.o == 0 ==> !NoRoom(m) && 2 * m.headers[|m.headers| - 1].capacity * m.bs <= WORD)
  }

  /** Afterwards the value stands under the index that was the tail. */
  ghost predicate Appended<T>(m: Mem<T>, v: T, m': Mem<T>) {
    && m'.p.PIdle? && m'.head == m.head && m'.tail == Succ(m.tail, m.bs)
    && m.tail.q < |m'.log| && m.tail.o < |m'.log[m.tail.q]| && m'.log[m.tail.q][m.tail.o] == v
  }

  lemma FromIdle<T>(m: Mem<T>, v: T, sup: Supply<T>) returns (k: nat)
    requires MemOk(m) && RoomOk(m) && m.bs <= WORD && Ready(m, sup)
    ensures Appended(m, v, Alone(StartEnqueue(m, v), sup, k))
  {
    StartEnqueueKeeps(m, v);
    StartCourse(m, v);
    k := RunsClear(StartEnqueue(m, v), Attempt(v, m.tail, |m.blocks|, false), sup);
  }

  /** From every reachable state between calls: with room for another block, or in the middle of one, and given
      memory, an enqueue succeeds; the index may have to grow, if it can. */
  lemma EnqueueAlone<T>(bs: nat, capacity: nat, dequeuers: nat, schedule: seq<Action<T>>, v: T, sup: Supply<T>) returns (k: nat)
    requires IndexFits(bs, capacity) && capacity >= 1 && AsksAtLeast(schedule, 1)
    requires Ready(Run(Start(bs, capacity, dequeuers), schedule).m, sup)
    ensures var m := Run(Start(bs, capacity, dequeuers), schedule).m; Appended(m, v, Alone(StartEnqueue(m, v), sup, k))
  {
    RunInv(bs, capacity, dequeuers, schedule);
    EnqueueAnswers(bs, capacity, dequeuers, schedule);
    var s := Run(Start(bs, capacity, dequeuers), schedule);
    k := FromIdle(s.m, v, sup);
  }

  // ---------------------------------------------------------------- what a dequeuer moves out

  /** The last claim of a dequeuer, and the values that it has moved out since. */
  datatype Taking<T> = NoClaim | Taking(a: Pos, e: Pos, out: seq<T>)

  function MoveOut<T>(m: Mem<T>, pc: Consumer, last: Taking<T>): Taking<T> {
    if last.Taking? && pc.CRead? && pc.b < |m.blocks| && pc.o < |m.blocks[pc.b].data|
    then last.(out := last.out + [m.blocks[pc.b].data[pc.o]]) else last
  }

  function NoteTake<T>(s: State<T>, last: Taking<T>, act: Action<T>, t: nat): Taking<T> {
    match act
    case Claim(u, _, e) =>
      if u == t && t < |s.c| && s.c[t].CIdle? && t < |Do(s, act).c| && !Do(s, act).c[t].CIdle?
      then Taking(s.m.head, e, []) else last
    case Consume(u) => if u == t && t < |s.c| then MoveOut(s.m, s.c[t], last) else last
    case _ => last
  }

  function LastTake<T>(s: State<T>, schedule: seq<Action<T>>, t: nat): Taking<T> {
    if schedule == [] then NoClaim
    else
      var n := |schedule| - 1;
      NoteTake(Run(s, schedule[..n]), LastTake(s, schedule[..n], t), schedule[n], t)
  }

  /** Up to where a dequeuer at pc has moved out its claim, which ends at e. */
  function Cursor(pc: Consumer, e: Pos, bs: nat): Pos {
    match pc
    case CIdle => e
    case CRead(a, _, _, _, _, _, o) => Pos(a.q, o)
    case CCount(a, _, _, _, _, _) => AfterBlock(a, e, bs)
    case CNull(a, _, _, _, _, _) => AfterBlock(a, e, bs)
    case CFree(a, _, _, _, _) => AfterBlock(a, e, bs)
    case _ => pc.a
  }

  ghost predicate TakenOk<T>(m: Mem<T>, pc: Consumer, last: Taking<T>) {
    match last
    case NoClaim => pc.CIdle?
    case Taking(a, e, out) =>
      var from, at := Index(a, m.bs), Index(Cursor(pc, e, m.bs), m.bs);
      && from <= at <= Index(e, m.bs) <= |Flat(m.log)| && out == Flat(m.log)[from..at]
      && (!pc.CIdle? ==> pc.e == e)
  }

  /** All elements below the tail are in the log. */
  lemma FlatCovers<T>(m: Mem<T>)
    requires MemOk(m)
    ensures Index(m.tail, m.bs) <= |Flat(m.log)|
  {
    var n := |m.log|;
    if n > 0 {
      FlatLast(m.log, m.bs);
      Distribute(n - 1, 1, m.bs);
    }
  }

  /** The enqueuer only appends to the log. */
  lemma LogGrows<T>(m: Mem<T>, sup: Supply<T>)
    requires CanProduce(m)
    ensures Flat(m.log) <= Flat(ProduceStep(m, sup).log) && ProduceStep(m, sup).bs == m.bs
  {
    FlatGrows(m.log, ProduceStep(m, sup).log);
  }

  lemma StaysTaken<T>(m: Mem<T>, m': Mem<T>, pc: Consumer, last: Taking<T>)
    requires TakenOk(m, pc, last) && m'.bs == m.bs && Flat(m.log) <= Flat(m'.log)
    ensures TakenOk(m', pc, last)
  {
  }

  lemma ClaimIndices<T>(m: Mem<T>, e: Pos)
    requires MemOk(m) && e.o < m.bs && AtMost(m.head, e) && AtMost(e, m.tail)
    ensures Index(m.head, m.bs) <= Index(e, m.bs) <= |Flat(m.log)|
  {
    FlatCovers(m);
    PosIsIndex(m.head, e, m.bs);
    PosIsIndex(e, m.tail, m.bs);
  }

  lemma ClaimTaken<T>(s: State<T>, t: nat, max: nat, e: Pos, last: Taking<T>)
    requires Inv(s) && t < |s.c| && TakenOk(s.m, s.c[t], last)
    ensures var s' := Do(s, Claim(t, max, e));
            |s'.c| == |s.c| && TakenOk(s'.m, s'.c[t], NoteTake(s, last, Claim(t, max, e), t))
  {
    var s' := Do(s, Claim(t, max, e));
    if s.c[t].CIdle? && !s'.c[t].CIdle? {
      ClaimIndices(s.m, e);
    }
  }

  /** Moving one element out moves the cursor on by one. */
  lemma ReadCursor(pc: Consumer, bs: nat)
    requires pc.CRead? && pc.a.o <= pc.o < Stop(pc.a, pc.e, bs) && pc.a.o < bs && pc.e.o < bs && Less(pc.a, pc.e)
    ensures var pc' := Read(pc.a, pc.e, pc.h, pc.slot, pc.x, pc.b, pc.o, bs);
            && !pc'.CIdle? && pc'.e == pc.e
            && Index(Cursor(pc', pc.e, bs), bs) == Index(Pos(pc.a.q, pc.o), bs) + 1 <= Index(pc.e, bs)
  {
    AfterIndex(pc.a, pc.e, bs);
  }

  lemma MoreTaken<T>(m: Mem<T>, pc: Consumer, pc': Consumer, last: Taking<T>)
    requires TakenOk(m, pc, last) && last.Taking? && !pc.CIdle? && !pc'.CIdle? && pc'.e == pc.e
    requires var i := Index(Cursor(pc, pc.e, m.bs), m.bs);
             Index(Cursor(pc', pc.e, m.bs), m.bs) == i + 1 <= Index(pc.e, m.bs)
    ensures var i := Index(Cursor(pc, pc.e, m.bs), m.bs);
            i < |Flat(m.log)| && TakenOk(m, pc', last.(out := last.out + [Flat(m.log)[i]]))
  {
  }

  lemma ReadTaken<T>(m: Mem<T>, pc: Consumer, last: Taking<T>)
    requires LogFull(m) && pc.CRead? && pc.a.o <= pc.o < Stop(pc.a, pc.e, m.bs) && pc.a.o < m.bs && pc.e.o < m.bs
    requires Less(pc.a, pc.e) && CanConsume(m, pc) && Served(m, pc) && TakenOk(m, pc, last)
    ensures var (m', pc') := ConsumeStep(m, pc); TakenOk(m', pc', MoveOut(m, pc, last))
  {
    FlatAt(m.log, m.bs, Pos(pc.a.q, pc.o));
    ReadCursor(pc, m.bs);
    MoreTaken(m, pc, ConsumeStep(m, pc).1, last);
  }

  ghost predicate LogFull<T>(m: Mem<T>) { forall q :: 0 <= q < |m.log| - 1 ==> |m.log[q]| == m.bs }

  /** Other steps leave the cursor where it is. */
  lemma SameCursor<T>(m: Mem<T>, pc: Consumer)
    requires !pc.CRead? && !pc.CIdle? && CanConsume(m, pc) && Less(pc.a, pc.e)
    ensures var (m', pc') := ConsumeStep(m, pc);
            && m'.bs == m.bs && m'.log == m.log && (!pc'.CIdle? ==> pc'.e == pc.e)
            && Cursor(pc', pc.e, m.bs) == Cursor(pc, pc.e, m.bs)
  {
  }

  lemma PassTaken<T>(m: Mem<T>, pc: Consumer, last: Taking<T>)
    requires !pc.CRead? && !pc.CIdle? && CanConsume(m, pc) && Less(pc.a, pc.e) && TakenOk(m, pc, last)
    ensures var (m', pc') := ConsumeStep(m, pc); TakenOk(m', pc', MoveOut(m, pc, last))
  {
    SameCursor(m, pc);
    SameTaken(m, ConsumeStep(m, pc).0, pc, ConsumeStep(m, pc).1, last);
  }

  lemma SameTaken<T>(m: Mem<T>, m': Mem<T>, pc: Consumer, pc': Consumer, last: Taking<T>)
    requires TakenOk(m, pc, last) && !pc.CIdle? && m'.bs == m.bs && m'.log == m.log
    requires (!pc'.CIdle? ==> pc'.e == pc.e) && Cursor(pc', pc.e, m.bs) == Cursor(pc, pc.e, m.bs)
    ensures TakenOk(m', pc', last)
  {
  }

  lemma ConsumeTaken<T>(s: State<T>, t: nat, last: Taking<T>)
    requires Inv(s) && t < |s.c| && TakenOk(s.m, s.c[t], last)
    ensures var s' := Do(s, Consume(t));
            |s'.c| == |s.c| && TakenOk(s'.m, s'.c[t], NoteTake(s, last, Consume(t), t))
  {
    assert ConsumerOk(s.m, s.c[t]);
    ConsumeKeeps(s, t);
    InvServes(s, t);
    if s.c[t].CRead? {
      ReadTaken(s.m, s.c[t], last);
    } else if !s.c[t].CIdle? {
      PassTaken(s.m, s.c[t], last);
    }
  }

  lemma OtherTaken<T>(s: State<T>, act: Action<T>, t: nat, last: Taking<T>)
    requires t < |s.c| && TakenOk(s.m, s.c[t], last)
    requires (act.Claim? || act.Consume?) ==> act.t != t
    ensures var s' := Do(s, act);
            |s'.c| == |s.c| && TakenOk(s'.m, s'.c[t], NoteTake(s, last, act, t))
  {
    if act.Produce? && CanProduce(s.m) { LogGrows(s.m, act.m); }
    StaysTaken(s.m, Do(s, act).m, s.c[t], last);
  }

  lemma TakeStep<T>(s: State<T>, act: Action<T>, t: nat, last: Taking<T>)
    requires Inv(s) && t < |s.c| && TakenOk(s.m, s.c[t], last)
    ensures var s' := Do(s, act);
            |s'.c| == |s.c| && TakenOk(s'.m, s'.c[t], NoteTake(s, last, act, t))
  {
    match act
    case Claim(u, max, e) => if u == t { ClaimTaken(s, t, max, e, last); } else { OtherTaken(s, act, t, last); }
    case Consume(u) => if u == t { ConsumeTaken(s, t, last); } else { OtherTaken(s, act, t, last); }
    case _ => OtherTaken(s, act, t, last);
  }

  /** In every run of calls that ask for something, every dequeuer has moved out the elements of its claim from
      the first on, each once and in order, up to where it is; once it has finished, all of them. */
  lemma {:induction false} DequeueAnswers<T>(bs: nat, capacity: nat, dequeuers: nat, schedule: seq<Action<T>>, t: nat)
    requires IndexFits(bs, capacity) && capacity >= 1 && t < dequeuers && AsksAtLeast(schedule, 1)
    ensures var s0: State<T> := Start(bs, capacity, dequeuers);
            var s, last := Run(s0, schedule), LastTake(s0, schedule, t);
            && |s.c| == dequeuers && TakenOk(s.m, s.c[t], last)
            && (last.Taking? && s.c[t].CIdle? ==>
                  && Index(last.a, s.m.bs) <= Index(last.e, s.m.bs) <= |Flat(s.m.log)|
                  && last.out == Flat(s.m.log)[Index(last.a, s.m.bs)..Index(last.e, s.m.bs)])
  {
    if schedule != [] {
      var n := |schedule| - 1;
      var s0: State<T> := Start(bs, capacity, dequeuers);
      DequeueAnswers(bs, capacity, dequeuers, schedule[..n], t);
      RunInv(bs, capacity, dequeuers, schedule[..n]);
      TakeStep(Run(s0, schedule[..n]), schedule[n], t, LastTake(s0, schedule[..n], t));
    }
  }

  /** A claim of the indices up to e moves the head to e and hands them over, those and no others. */
  lemma ClaimTakes<T>(s: State<T>, t: nat, max: nat, e: Pos)
    requires t < |s.c| && s.c[t].CIdle? && CanClaim(s.m, max, e)
    ensures var s' := Do(s, Claim(t, max, e));
            && s'.m.head == e && |s'.c| == |s.c|
            && (forall p :: Owns(s'.c[t], p) <==> AtMost(s.m.head, p) && Less(p, e))
            && (forall u, p :: 0 <= u < |s.c| && u != t ==> (Owns(s'.c[u], p) <==> Owns(s.c[u], p)))
  {
  }

  /** Steps left in a claim. */
  function DequeueLeft(pc: Consumer, bs: nat): int {
    match pc
    case CIdle => 0
    case CLoadIndex(a, e) => 5 * (Index(e, bs) - Index(a, bs)) + 4
    case CLoadTail(a, e, _) => 5 * (Index(e, bs) - Index(a, bs)) + 3
    case CLoadKey(a, e, _, _, _) => 5 * (Index(e, bs) - Index(a, bs)) + 2
    case CLoadValue(a, e, _, _) => 5 * (Index(e, bs) - Index(a, bs)) + 1
    case CRead(a, e, _, _, _, _, o) => AfterLeft(a, e, bs) + 4 + (Stop(a, e, bs) - o)
    case CCount(a, e, _, _, _, _) => AfterLeft(a, e, bs) + 4
    case CNull(a, e, _, _, _, _) => AfterLeft(a, e, bs) + 3
    case CFree(a, e, _, _, _) => AfterLeft(a, e, bs) + 2
  }

  function AfterLeft(a: Pos, e: Pos, bs: nat): int { 5 * (Index(e, bs) - Index(AfterBlock(a, e, bs), bs)) }

  lemma ReadLeft(pc: Consumer, bs: nat)
    requires pc.CRead? && pc.a.o <= pc.o < Stop(pc.a, pc.e, bs) && pc.a.o < bs && pc.e.o < bs && Less(pc.a, pc.e)
    ensures 0 <= DequeueLeft(Read(pc.a, pc.e, pc.h, pc.slot, pc.x, pc.b, pc.o, bs), bs) < DequeueLeft(pc, bs)
  {
    AfterIndex(pc.a, pc.e, bs);
  }

  lemma PartLeft(a: Pos, e: Pos, h: nat, slot: nat, bs: nat, capacity: nat)
    requires a.o < bs && e.o < bs && Less(a, e) && capacity > 0
    ensures 0 <= DequeueLeft(NextPart(a, e, h, slot, bs, capacity), bs) < AfterLeft(a, e, bs) + 2
    ensures AfterLeft(a, e, bs) >= 0
  {
    AfterIndex(a, e, bs);
  }

  lemma LookupLeft(a: Pos, e: Pos, h: nat, slot: nat, x: nat, b: nat, bs: nat)
    requires a.o < bs && e.o < bs && Less(a, e)
    ensures 0 < DequeueLeft(CRead(a, e, h, slot, x, b, a.o), bs) < DequeueLeft(CLoadValue(a, e, h, slot), bs)
    ensures Index(a, bs) <= Index(e, bs)
  {
    AfterIndex(a, e, bs);
  }

  lemma StepLeft<T>(m: Mem<T>, pc: Consumer)
    requires CanConsume(m, pc) && !pc.CIdle? && pc.a.o < m.bs && pc.e.o < m.bs && Less(pc.a, pc.e)
    requires pc.CRead? ==> pc.a.o <= pc.o < Stop(pc.a, pc.e, m.bs)
    ensures 0 <= DequeueLeft(ConsumeStep(m, pc).1, m.bs) < DequeueLeft(pc, m.bs)
  {
    match pc
    case CIdle =>
    case CRead(_, _, _, _, _, _, _) => ReadLeft(pc, m.bs);
    case CCount(a, e, h, slot, _, _) => PartLeft(a, e, h, slot, m.bs, m.headers[h].capacity);
    case CNull(a, e, _, _, _, _) => PartLeft(a, e, 0, 0, m.bs, 1);
    case CFree(a, e, h, slot, _) => PartLeft(a, e, h, slot, m.bs, m.headers[h].capacity);
    case CLoadValue(a, e, h, slot) => ValueLeft(m, pc);
    case CLoadIndex(a, e) => LookupLeft(a, e, 0, 0, 0, 0, m.bs);
    case CLoadTail(a, e, _) => LookupLeft(a, e, 0, 0, 0, 0, m.bs);
    case CLoadKey(a, e, _, _, _) => LookupLeft(a, e, 0, 0, 0, 0, m.bs);
  }

  lemma ValueLeft<T>(m: Mem<T>, pc: Consumer)
    requires pc.CLoadValue? && CanConsume(m, pc) && pc.a.o < m.bs && pc.e.o < m.bs && Less(pc.a, pc.e)
    ensures 0 <= DequeueLeft(ConsumeStep(m, pc).1, m.bs) < DequeueLeft(pc, m.bs)
  {
    var x := m.headers[pc.h].index[pc.slot];
    LookupLeft(pc.a, pc.e, pc.h, pc.slot, x, m.entries[x].value.id, m.bs);
  }

  /** Every step of a dequeuer brings it nearer to the end of its claim, whatever the others do. */
  lemma DequeueWaitFree<T>(m: Mem<T>, pc: Consumer)
    requires Sized(m) && ConsumerOk(m, pc) && CanConsume(m, pc) && !pc.CIdle?
    ensures 0 <= DequeueLeft(ConsumeStep(m, pc).1, m.bs) < DequeueLeft(pc, m.bs)
  {
    StepLeft(m, pc);
  }
}
