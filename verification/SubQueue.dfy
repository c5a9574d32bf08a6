/** An implicit producer's whole sub-queue: the tickets that decide which indices a dequeuer may take, the
    block index through which it finds them, and the lock-free free list that its blocks come from and
    return to, composed from the step models of the three.

    One thread enqueues, any number of threads dequeue; the enqueuer is also the last thread of the free
    list. A dequeuer takes its ticket, claims indices, dequeues them, and returns a block that it has
    emptied, access by access; the enqueuer obtains a block the same way, or from outside the list. */
module SubQueue {
  import opened Words
  import opened Arith
  import opened Positions
  import Tickets = TicketDequeue
  import Blocks = ImplicitProducer
  import Calls = ImplicitCalls
  import Pool = FreeList

  /** `fetching`: the enqueuer is in `try_get`. */
  datatype State<T> = State(tk: Tickets.State, ix: Blocks.State<T>, fl: Pool.State, fetching: bool)

  /** The `e` of a dequeuer's step is used when it claims: the position of the head index afterwards. */
  datatype Action<T> =
    | Enqueue(v: T)
    | Produce(m: Blocks.Supply<T>)
    | StartDequeue(t: nat, call: Tickets.Call)
    | Dequeue(t: nat, e: Pos)

  // ---------------------------------------------------------------- steps

  /** The enqueuer's thread of the free list. */
  function Last<T>(s: State<T>): nat { |s.tk.c| }

  /** Memory that does not come from the free list: a block of the initial pool, or a new one, while
      there is memory for it. */
  function Outside<T>(s: State<T>, m: Blocks.Supply<T>): Blocks.Supply<T> {
    if m.Fresh? && |s.ix.m.blocks| < |s.fl.role| then m else Blocks.NoMemory
  }

  /** requisition_block: the initial pool, else the free list, else a new block. */
  function Obtain<T>(s: State<T>, m: Blocks.Supply<T>): State<T> {
    var n := Last(s);
    if !s.fetching then
      if m.Fresh? then s.(ix := Blocks.Do(s.ix, Blocks.Produce(Outside(s, m))))
      else s.(fl := Pool.Do(s.fl, Pool.CallTryGet(n)), fetching := true)
    else if n >= |s.fl.pc| then s
    else if s.fl.pc[n] == Pool.Idle then
      s.(ix := Blocks.Do(s.ix, Blocks.Produce(Outside(s, m))), fetching := false)
    else if s.fl.pc[n].GetSubTwo? then
      s.(fl := Pool.Do(s.fl, Pool.Tick(n)),
         ix := Blocks.Do(s.ix, Blocks.Produce(Blocks.Pooled(s.fl.pc[n].h))), fetching := false)
    else s.(fl := Pool.Do(s.fl, Pool.Tick(n)))
  }

  function ProduceStep<T>(s: State<T>, m: Blocks.Supply<T>): State<T> {
    if s.ix.m.p.PRequisition? then Obtain(s, m)
    else if s.ix.m.p.PStoreTail? then
      s.(ix := Blocks.Do(s.ix, Blocks.Produce(m)),
         tk := Tickets.Do(Tickets.Do(s.tk, Tickets.StartEnqueue(false)), Tickets.StoreTail))
    else s.(ix := Blocks.Do(s.ix, Blocks.Produce(m)))
  }

  /** A dequeuer with indices claimed. The block of a CFree is passed to `add`. */
  function ConsumeStep<T>(s: State<T>, t: nat): State<T>
    requires t < |s.ix.c|
  {
    s.(ix := Blocks.Do(s.ix, Blocks.Consume(t)),
       fl := if s.ix.c[t].CFree? then Pool.Do(s.fl, Pool.CallAdd(t, s.ix.c[t].b)) else s.fl)
  }

  predicate EndsAt<T>(s: State<T>, a: nat, e: Pos) {
    e.o < s.ix.m.bs && Index(e, s.ix.m.bs) == s.tk.head + a
  }

  /** The addition to the head index. */
  function ClaimStep<T>(s: State<T>, t: nat, a: nat, e: Pos): State<T> {
    s.(tk := Tickets.Do(s.tk, Tickets.Step(t)), ix := Blocks.Do(s.ix, Blocks.Claim(t, a, e)))
  }

  function DequeueStep<T>(s: State<T>, t: nat, e: Pos): State<T> {
    if t >= |s.tk.c| || t >= |s.ix.c| || t >= |s.fl.pc| then s
    else if s.fl.pc[t] != Pool.Idle then s.(fl := Pool.Do(s.fl, Pool.Tick(t)))
    else if s.ix.c[t] != Blocks.CIdle then ConsumeStep(s, t)
    else if s.tk.c[t].Claim? then if EndsAt(s, s.tk.c[t].a, e) then ClaimStep(s, t, s.tk.c[t].a, e) else s
    else s.(tk := Tickets.Do(s.tk, Tickets.Step(t)))
  }

  function Do<T>(s: State<T>, act: Action<T>): State<T> {
    match act
    case Enqueue(v) => s.(ix := Blocks.Do(s.ix, Blocks.Enqueue(v)))
    case Produce(m) => ProduceStep(s, m)
    case StartDequeue(t, call) => s.(tk := Tickets.Do(s.tk, Tickets.StartDequeue(t, call)))
    case Dequeue(t, e) => DequeueStep(s, t, e)
  }

  function Run<T>(s: State<T>, schedule: seq<Action<T>>): State<T> {
    if schedule == [] then s else Do(Run(s, schedule[..|schedule| - 1]), schedule[|schedule| - 1])
  }

  /** `nodes` is how many blocks there is memory for. */
  function Start<T>(bs: nat, capacity: nat, dequeuers: nat, nodes: nat): State<T>
    requires capacity >= 1
  {
    State(Tickets.Start(bs, dequeuers), Blocks.Start(bs, capacity, dequeuers), Pool.Start(nodes, dequeuers + 1), false)
  }

  // ---------------------------------------------------------------- the invariant

  /** The counters of the tickets are the positions of the block index. */
  predicate Synced<T>(s: State<T>) {
    && s.ix.m.bs >= 2 && !s.tk.storing
    && s.ix.m.head.o < s.ix.m.bs && s.ix.m.tail.o < s.ix.m.bs
    && Index(s.ix.m.head, s.ix.m.bs) == s.tk.head && Index(s.ix.m.tail, s.ix.m.bs) == s.tk.tail
  }

  /** A dequeuer looks up what its ticket got it, and nothing else; in the free list it only adds. */
  predicate PhaseAt<T>(s: State<T>, t: nat)
    requires t < |s.tk.c| == |s.ix.c| < |s.fl.pc|
  {
    && (s.ix.c[t] != Blocks.CIdle ==>
          && s.tk.c[t].Got?
          && Index(s.ix.c[t].e, s.ix.m.bs) == s.tk.c[t].first + s.tk.c[t].n)
    && (s.fl.pc[t] != Pool.Idle ==> s.tk.c[t].Got?)
    && Pool.Adder(s.fl.pc[t])
  }

  predicate Phases<T>(s: State<T>) {
    && |s.tk.c| == |s.ix.c| && |s.fl.pc| == |s.tk.c| + 1
    && (forall t :: 0 <= t < |s.tk.c| ==> PhaseAt(s, t))
    && (s.fetching ==> s.ix.m.p.PRequisition?) && (!s.fetching ==> s.fl.pc[Last(s)] == Pool.Idle)
  }

  /** The pool of the block index is what the free list has and no client holds. */
  ghost predicate Pooled(pool: set<nat>, blocks: nat, fl: Pool.State) {
    && blocks <= |fl.role|
    && (forall b: nat :: b in pool <==> b < |fl.role| && fl.role[b] != Pool.Held)
  }

  ghost predicate Inv<T>(s: State<T>) {
    && Tickets.Inv(s.tk) && Tickets.AllEager(s.tk.c) && Blocks.Inv(s.ix) && Pool.Inv(s.fl)
    && Synced(s) && Phases(s) && Pooled(s.ix.m.pool, |s.ix.m.blocks|, s.fl)
  }

  // ---------------------------------------------------------------- what the parts change

  /** Every claim has its position. */
  lemma EndExists<T>(s: State<T>, a: nat) returns (e: Pos)
    requires s.ix.m.bs >= 2
    ensures EndsAt(s, a, e)
  {
    var i := s.tk.head + a;
    Euclid(i, s.ix.m.bs);
    e := Pos(i / s.ix.m.bs, i % s.ix.m.bs);
  }

  /** Positions are ordered like their indices. */
  lemma Ordered(p: Pos, r: Pos, bs: nat)
    requires bs >= 2 && p.o < bs && r.o < bs
    ensures AtMost(p, r) <==> Index(p, bs) <= Index(r, bs)
    ensures p == r <==> Index(p, bs) == Index(r, bs)
  {
    PosIsIndex(p, r, bs);
    PosIsIndex(r, p, bs);
  }

  /** Most accesses of the enqueuer leave the positions and the pool alone. */
  lemma PlainProduce<T>(m: Blocks.Mem<T>, sup: Blocks.Supply<T>)
    requires Blocks.CanProduce(m) && !m.p.PRequisition? && !m.p.PStoreTail?
    ensures SameQueue(m, Blocks.ProduceStep(m, sup))
  {
  }

  predicate SameQueue<T>(m: Blocks.Mem<T>, m': Blocks.Mem<T>) {
    m'.bs == m.bs && m'.head == m.head && m'.tail == m.tail && m'.pool == m.pool && |m'.blocks| == |m.blocks|
  }

  lemma PlainConsume<T>(m: Blocks.Mem<T>, pc: Blocks.Consumer)
    requires Blocks.CanConsume(m, pc) && !pc.CFree?
    ensures var (m', pc') := Blocks.ConsumeStep(m, pc);
            SameQueue(m, m') && m'.p == m.p && (pc.CIdle? ==> pc'.CIdle?) && (!pc.CIdle? && !pc'.CIdle? ==> pc'.e == pc.e)
  {
  }

  /** The enqueuer's steps leave the dequeuers where they are. */
  lemma EnqueuerPhases<T>(s: State<T>, s': State<T>)
    requires Phases(s) && s'.tk.c == s.tk.c && s'.ix.c == s.ix.c && s'.ix.m.bs == s.ix.m.bs
    requires |s'.fl.pc| == |s.fl.pc| && forall t :: 0 <= t < Last(s) ==> s'.fl.pc[t] == s.fl.pc[t]
    requires (s'.fetching ==> s'.ix.m.p.PRequisition?) && (!s'.fetching ==> s'.fl.pc[Last(s)] == Pool.Idle)
    ensures Phases(s')
  {
    forall t | 0 <= t < |s.tk.c| ensures PhaseAt(s', t) { assert PhaseAt(s, t); }
  }

  /** A dequeuer's steps leave the others where they are. */
  lemma DequeuerPhases<T>(s: State<T>, s': State<T>, t: nat)
    requires Phases(s) && t < Last(s) && s'.ix.m.bs == s.ix.m.bs && s'.ix.m.p == s.ix.m.p && s'.fetching == s.fetching
    requires |s'.tk.c| == |s.tk.c| && |s'.ix.c| == |s.ix.c| && |s'.fl.pc| == |s.fl.pc|
    requires forall u :: 0 <= u < Last(s) && u != t ==> s'.tk.c[u] == s.tk.c[u] && s'.ix.c[u] == s.ix.c[u]
    requires forall u :: 0 <= u < |s.fl.pc| && u != t ==> s'.fl.pc[u] == s.fl.pc[u]
    requires PhaseAt(s', t)
    ensures Phases(s')
  {
    forall u | 0 <= u < |s.tk.c| ensures PhaseAt(s', u) { assert PhaseAt(s, u); }
  }

  lemma Assembled<T>(s: State<T>)
    requires Tickets.Inv(s.tk) && Tickets.AllEager(s.tk.c) && Blocks.Inv(s.ix) && Pool.Inv(s.fl)
    requires Synced(s) && Phases(s) && Pooled(s.ix.m.pool, |s.ix.m.blocks|, s.fl)
    ensures Inv(s)
  {
  }

  // ---------------------------------------------------------------- the enqueuer keeps the invariant

  lemma EnqueueKeeps<T>(s: State<T>, v: T)
    requires Inv(s)
    ensures Inv(Do(s, Enqueue(v)))
  {
    Blocks.DoKeeps(s.ix, Blocks.Enqueue(v));
    EnqueuerPhases(s, Do(s, Enqueue(v)));
  }

  lemma PlainKeeps<T>(s: State<T>, m: Blocks.Supply<T>)
    requires Inv(s) && !s.ix.m.p.PRequisition? && !s.ix.m.p.PStoreTail?
    ensures Inv(ProduceStep(s, m))
  {
    Blocks.ProduceKeepsMem(s.ix.m, m);
    PlainProduce(s.ix.m, m);
    Blocks.DoKeeps(s.ix, Blocks.Produce(m));
    EnqueuerPhases(s, ProduceStep(s, m));
    Assembled(ProduceStep(s, m));
  }

  /** The store to the tail. */
  lemma StoreTailSync<T>(s: State<T>)
    requires Synced(s)
    ensures var tk' := Tickets.Do(Tickets.Do(s.tk, Tickets.StartEnqueue(false)), Tickets.StoreTail);
            && tk' == s.tk.(tail := s.tk.tail + 1, o := tk'.o)
            && Index(Succ(s.ix.m.tail, s.ix.m.bs), s.ix.m.bs) == tk'.tail && Succ(s.ix.m.tail, s.ix.m.bs).o < s.ix.m.bs
  {
    PosIsIndex(s.ix.m.tail, s.ix.m.tail, s.ix.m.bs);
  }

  lemma StoreTailTickets(tk: Tickets.State)
    requires Tickets.Inv(tk)
    ensures Tickets.Inv(Tickets.Do(Tickets.Do(tk, Tickets.StartEnqueue(false)), Tickets.StoreTail))
  {
    Tickets.DoKeeps(tk, Tickets.StartEnqueue(false));
    Tickets.DoKeeps(Tickets.Do(tk, Tickets.StartEnqueue(false)), Tickets.StoreTail);
  }

  lemma StoreTailBlocks<T>(ix: Blocks.State<T>, m: Blocks.Supply<T>)
    requires Blocks.Inv(ix) && ix.m.p.PStoreTail?
    ensures Blocks.Inv(Blocks.Do(ix, Blocks.Produce(m)))
    ensures Blocks.Do(ix, Blocks.Produce(m)) == ix.(m := ix.m.(tail := Succ(ix.m.tail, ix.m.bs), p := Blocks.PIdle))
  {
    Blocks.ProduceKeepsMem(ix.m, m);
    Blocks.DoKeeps(ix, Blocks.Produce(m));
  }

  lemma StoreTailKeeps<T>(s: State<T>, m: Blocks.Supply<T>)
    requires Inv(s) && s.ix.m.p.PStoreTail?
    ensures Inv(ProduceStep(s, m))
  {
    StoreTailSync(s);
    StoreTailTickets(s.tk);
    StoreTailBlocks(s.ix, m);
    EnqueuerPhases(s, ProduceStep(s, m));
    Assembled(ProduceStep(s, m));
  }

  // Obtaining a block.

  /** The pool after a step of the free list that gives no node to a client. */
  lemma PoolSame(pool: set<nat>, blocks: nat, fl: Pool.State, t: nat)
    requires Pool.Inv(fl) && t < |fl.pc| && !fl.pc[t].GetSubTwo? && Pooled(pool, blocks, fl)
    ensures Pooled(pool, blocks, Pool.Do(fl, Pool.Tick(t)))
  {
    Pool.HeldStep(fl, t);
  }

  /** And after one that does. */
  lemma PoolGives(pool: set<nat>, blocks: nat, fl: Pool.State, t: nat)
    requires Pool.Inv(fl) && t < |fl.pc| && fl.pc[t].GetSubTwo? && Pooled(pool, blocks, fl)
    ensures fl.pc[t].h in pool && Pooled(pool - {fl.pc[t].h}, blocks, Pool.Do(fl, Pool.Tick(t)))
    ensures Pool.Do(fl, Pool.Tick(t)).pc == fl.pc[t := Pool.Idle]
  {
    assert Pool.ThreadOk(fl, t);
    Pool.HeldStep(fl, t);
  }

  /** What the block index does with a block, or with none. */
  lemma ObtainBlocks<T>(ix: Blocks.State<T>, sup: Blocks.Supply<T>)
    requires Blocks.Inv(ix) && ix.m.p.PRequisition?
    ensures var ix' := Blocks.Do(ix, Blocks.Produce(sup));
            && Blocks.Inv(ix') && ix'.c == ix.c && ix'.m.bs == ix.m.bs && ix'.m.head == ix.m.head && ix'.m.tail == ix.m.tail
            && ix'.m.pool == (if sup.Pooled? then ix.m.pool - {sup.b} else ix.m.pool)
            && |ix'.m.blocks| <= |ix.m.blocks| + (if sup.Fresh? then 1 else 0)
  {
    Blocks.ProduceKeepsMem(ix.m, sup);
    Blocks.DoKeeps(ix, Blocks.Produce(sup));
    assert Blocks.PcOk(ix.m);
  }

  lemma OutsideKeeps<T>(s: State<T>, m: Blocks.Supply<T>)
    requires Inv(s) && s.ix.m.p.PRequisition? && (s.fetching ==> s.fl.pc[Last(s)] == Pool.Idle)
    ensures Inv(s.(ix := Blocks.Do(s.ix, Blocks.Produce(Outside(s, m))), fetching := false))
  {
    var s' := s.(ix := Blocks.Do(s.ix, Blocks.Produce(Outside(s, m))), fetching := false);
    ObtainBlocks(s.ix, Outside(s, m));
    EnqueuerPhases(s, s');
    Assembled(s');
  }

  lemma FetchKeeps<T>(s: State<T>, fl': Pool.State)
    requires Inv(s) && s.ix.m.p.PRequisition? && Pool.Inv(fl') && |fl'.pc| == |s.fl.pc|
    requires forall t :: 0 <= t < Last(s) ==> fl'.pc[t] == s.fl.pc[t]
    requires Pooled(s.ix.m.pool, |s.ix.m.blocks|, fl')
    ensures Inv(s.(fl := fl', fetching := true))
  {
    EnqueuerPhases(s, s.(fl := fl', fetching := true));
  }

  lemma GotBlockKeeps<T>(s: State<T>)
    requires Inv(s) && s.ix.m.p.PRequisition? && s.fetching && s.fl.pc[Last(s)].GetSubTwo?
    ensures var n := Last(s);
            Inv(s.(fl := Pool.Do(s.fl, Pool.Tick(n)),
                   ix := Blocks.Do(s.ix, Blocks.Produce(Blocks.Pooled(s.fl.pc[n].h))), fetching := false))
  {
    var n := Last(s);
    var sup := Blocks.Pooled(s.fl.pc[n].h);
    var s' := s.(fl := Pool.Do(s.fl, Pool.Tick(n)), ix := Blocks.Do(s.ix, Blocks.Produce(sup)), fetching := false);
    PoolGives(s.ix.m.pool, |s.ix.m.blocks|, s.fl, n);
    Pool.DoKeeps(s.fl, Pool.Tick(n));
    ObtainBlocks(s.ix, sup);
    GotBlockPhases(s, Blocks.Do(s.ix, Blocks.Produce(sup)), Pool.Do(s.fl, Pool.Tick(n)));
    Assembled(s');
  }

  lemma GotBlockPhases<T>(s: State<T>, ix': Blocks.State<T>, fl': Pool.State)
    requires Synced(s) && Phases(s) && ix'.c == s.ix.c && ix'.m.bs == s.ix.m.bs
    requires ix'.m.head == s.ix.m.head && ix'.m.tail == s.ix.m.tail && fl'.pc == s.fl.pc[Last(s) := Pool.Idle]
    ensures var s' := s.(fl := fl', ix := ix', fetching := false); Synced(s') && Phases(s')
  {
    EnqueuerPhases(s, s.(fl := fl', ix := ix', fetching := false));
  }

  lemma ObtainKeeps<T>(s: State<T>, m: Blocks.Supply<T>)
    requires Inv(s) && s.ix.m.p.PRequisition?
    ensures Inv(Obtain(s, m))
  {
    var n := Last(s);
    if !s.fetching && !m.Fresh? {
      Pool.DoKeeps(s.fl, Pool.CallTryGet(n));
      Pool.OthersIdle(s.fl, Pool.CallTryGet(n));
      FetchKeeps(s, Pool.Do(s.fl, Pool.CallTryGet(n)));
    } else if !s.fetching || s.fl.pc[n] == Pool.Idle {
      OutsideKeeps(s, m);
    } else if s.fl.pc[n].GetSubTwo? {
      GotBlockKeeps(s);
    } else {
      Pool.DoKeeps(s.fl, Pool.Tick(n));
      Pool.OthersIdle(s.fl, Pool.Tick(n));
      PoolSame(s.ix.m.pool, |s.ix.m.blocks|, s.fl, n);
      FetchKeeps(s, Pool.Do(s.fl, Pool.Tick(n)));
    }
  }

  lemma ProduceKeeps<T>(s: State<T>, m: Blocks.Supply<T>)
    requires Inv(s)
    ensures Inv(ProduceStep(s, m))
  {
    if s.ix.m.p.PRequisition? {
      ObtainKeeps(s, m);
    } else if s.ix.m.p.PStoreTail? {
      StoreTailKeeps(s, m);
    } else {
      PlainKeeps(s, m);
    }
  }

  // ---------------------------------------------------------------- the dequeuers keep the invariant

  lemma StartKeeps<T>(s: State<T>, t: nat, call: Tickets.Call)
    requires Inv(s) && Tickets.Most(call) >= 1
    ensures Inv(Do(s, StartDequeue(t, call)))
  {
    var s' := Do(s, StartDequeue(t, call));
    Tickets.DoKeeps(s.tk, Tickets.StartDequeue(t, call));
    Tickets.EagerDo(s.tk, Tickets.StartDequeue(t, call));
    StartPhases(s, t, call);
    Assembled(s');
  }

  lemma StartPhases<T>(s: State<T>, t: nat, call: Tickets.Call)
    requires Synced(s) && Phases(s)
    ensures Synced(Do(s, StartDequeue(t, call))) && Phases(Do(s, StartDequeue(t, call)))
  {
    if t < Last(s) {
      assert PhaseAt(s, t);
      DequeuerPhases(s, Do(s, StartDequeue(t, call)), t);
    }
  }

  /** A step of `add`. */
  lemma AddKeeps<T>(s: State<T>, t: nat)
    requires Inv(s) && t < |s.tk.c| && s.fl.pc[t] != Pool.Idle
    ensures Inv(s.(fl := Pool.Do(s.fl, Pool.Tick(t))))
  {
    var s' := s.(fl := Pool.Do(s.fl, Pool.Tick(t)));
    assert PhaseAt(s, t);
    Pool.DoKeeps(s.fl, Pool.Tick(t));
    Pool.OthersIdle(s.fl, Pool.Tick(t));
    Pool.AdderStep(s.fl, t);
    PoolSame(s.ix.m.pool, |s.ix.m.blocks|, s.fl, t);
    DequeuerPhases(s, s', t);
  }

  /** What a dequeuer does in the block index, short of giving a block back. */
  lemma ConsumeBlocks<T>(ix: Blocks.State<T>, t: nat)
    requires Blocks.Inv(ix) && t < |ix.c| && !ix.c[t].CFree? && !ix.c[t].CIdle?
    ensures var ix' := Blocks.Do(ix, Blocks.Consume(t));
            && Blocks.Inv(ix') && SameQueue(ix.m, ix'.m) && ix'.m.p == ix.m.p && |ix'.c| == |ix.c|
            && (forall u :: 0 <= u < |ix.c| && u != t ==> ix'.c[u] == ix.c[u])
            && (!ix'.c[t].CIdle? ==> ix'.c[t].e == ix.c[t].e)
  {
    Blocks.ConsumeKeeps(ix, t);
    PlainConsume(ix.m, ix.c[t]);
  }

  lemma ConsumeKeeps<T>(s: State<T>, t: nat)
    requires Inv(s) && t < |s.tk.c| && s.fl.pc[t] == Pool.Idle && !s.ix.c[t].CFree? && !s.ix.c[t].CIdle?
    ensures Inv(ConsumeStep(s, t))
  {
    assert PhaseAt(s, t);
    ConsumeBlocks(s.ix, t);
    DequeuerPhases(s, ConsumeStep(s, t), t);
    Assembled(ConsumeStep(s, t));
  }

  /** Passing a block to `add`. */
  lemma PoolTakes(pool: set<nat>, blocks: nat, fl: Pool.State, t: nat, b: nat)
    requires Pooled(pool, blocks, fl) && b !in pool && b < blocks && t < |fl.pc| && fl.pc[t] == Pool.Idle
    ensures Pooled(pool + {b}, blocks, Pool.Do(fl, Pool.CallAdd(t, b)))
    ensures Pool.Do(fl, Pool.CallAdd(t, b)).pc == fl.pc[t := Pool.AddFetch(b)]
  {
  }

  lemma FreeBlocks<T>(ix: Blocks.State<T>, t: nat)
    requires Blocks.Inv(ix) && t < |ix.c| && ix.c[t].CFree?
    ensures ix.c[t].b < |ix.m.blocks| && ix.c[t].b !in ix.m.pool
    ensures var ix' := Blocks.Do(ix, Blocks.Consume(t));
            && Blocks.Inv(ix') && ix'.m.bs == ix.m.bs && ix'.m.head == ix.m.head && ix'.m.tail == ix.m.tail
            && ix'.m.pool == ix.m.pool + {ix.c[t].b} && |ix'.m.blocks| == |ix.m.blocks| && ix'.m.p == ix.m.p
            && |ix'.c| == |ix.c| && (forall u :: 0 <= u < |ix.c| && u != t ==> ix'.c[u] == ix.c[u])
            && (!ix'.c[t].CIdle? ==> ix'.c[t].e == ix.c[t].e)
  {
    assert Blocks.ConsumerOk(ix.m, ix.c[t]);
    assert Blocks.LifeAt(ix.m, ix.c[t].a.q);
    Blocks.ConsumeKeeps(ix, t);
  }

  lemma FreeKeeps<T>(s: State<T>, t: nat)
    requires Inv(s) && t < |s.tk.c| && s.fl.pc[t] == Pool.Idle && s.ix.c[t].CFree?
    ensures Inv(ConsumeStep(s, t))
  {
    var b := s.ix.c[t].b;
    FreeBlocks(s.ix, t);
    PoolTakes(s.ix.m.pool, |s.ix.m.blocks|, s.fl, t, b);
    Pool.DoKeeps(s.fl, Pool.CallAdd(t, b));
    FreePhases(s, t, Blocks.Do(s.ix, Blocks.Consume(t)), Pool.Do(s.fl, Pool.CallAdd(t, b)), b);
    Assembled(ConsumeStep(s, t));
  }

  lemma FreePhases<T>(s: State<T>, t: nat, ix': Blocks.State<T>, fl': Pool.State, b: nat)
    requires Synced(s) && Phases(s) && t < |s.tk.c| && s.ix.c[t].CFree?
    requires ix'.m.bs == s.ix.m.bs && ix'.m.head == s.ix.m.head && ix'.m.tail == s.ix.m.tail && ix'.m.p == s.ix.m.p
    requires |ix'.c| == |s.ix.c| && (forall u :: 0 <= u < |s.ix.c| && u != t ==> ix'.c[u] == s.ix.c[u])
    requires (!ix'.c[t].CIdle? ==> ix'.c[t].e == s.ix.c[t].e) && fl'.pc == s.fl.pc[t := Pool.AddFetch(b)]
    ensures Synced(s.(ix := ix', fl := fl')) && Phases(s.(ix := ix', fl := fl'))
  {
    assert PhaseAt(s, t);
    DequeuerPhases(s, s.(ix := ix', fl := fl'), t);
  }

  // Claiming.

  /** The ticket protocol lets the dequeuer claim, in terms of positions. */
  lemma ClaimAllowed<T>(s: State<T>, a: nat, e: Pos)
    requires Synced(s) && s.tk.head + a <= s.tk.tail && a >= 1 && EndsAt(s, a, e)
    ensures Blocks.CanClaim(s.ix.m, a, e)
  {
    Ordered(s.ix.m.head, e, s.ix.m.bs);
    Ordered(e, s.ix.m.tail, s.ix.m.bs);
  }

  lemma ClaimBlocks<T>(ix: Blocks.State<T>, t: nat, a: nat, e: Pos)
    requires Blocks.Inv(ix) && t < |ix.c| && ix.c[t] == Blocks.CIdle && Blocks.CanClaim(ix.m, a, e) && a >= 1
    ensures var ix' := Blocks.Do(ix, Blocks.Claim(t, a, e));
            && Blocks.Inv(ix') && ix' == Blocks.State(ix.m.(head := e), ix.c[t := Blocks.CLoadIndex(ix.m.head, e)])
  {
    Blocks.DoKeeps(ix, Blocks.Claim(t, a, e));
  }

  lemma ClaimTickets(tk: Tickets.State, t: nat, a: nat)
    requires Tickets.Inv(tk) && Tickets.AllEager(tk.c) && t < |tk.c| && tk.c[t] == Tickets.Claim(a)
    ensures a >= 1 && tk.head + a <= tk.tail
    ensures var tk' := Tickets.Do(tk, Tickets.Step(t));
            && Tickets.Inv(tk') && Tickets.AllEager(tk'.c)
            && tk' == tk.(head := tk.head + a, c := tk.c[t := Tickets.Got(tk.head, a)])
  {
    assert Tickets.Eager(tk.c[t]);
    Tickets.InvSafe(tk);
    Tickets.DoKeeps(tk, Tickets.Step(t));
    Tickets.EagerDo(tk, Tickets.Step(t));
  }

  lemma ClaimKeeps<T>(s: State<T>, t: nat, a: nat, e: Pos)
    requires Inv(s) && t < |s.tk.c| && s.fl.pc[t] == Pool.Idle && s.ix.c[t] == Blocks.CIdle
    requires s.tk.c[t] == Tickets.Claim(a) && EndsAt(s, a, e)
    ensures Inv(ClaimStep(s, t, a, e))
  {
    ClaimTickets(s.tk, t, a);
    ClaimAllowed(s, a, e);
    ClaimBlocks(s.ix, t, a, e);
    ClaimPhases(s, t, a, e);
    assert ClaimStep(s, t, a, e) == Claimed(s, t, a, e);
    Assembled(ClaimStep(s, t, a, e));
  }

  /** The state after a claim of the indices up to e. */
  function Claimed<T>(s: State<T>, t: nat, a: nat, e: Pos): State<T>
    requires t < |s.tk.c| && t < |s.ix.c|
  {
    s.(tk := s.tk.(head := s.tk.head + a, c := s.tk.c[t := Tickets.Got(s.tk.head, a)]),
       ix := Blocks.State(s.ix.m.(head := e), s.ix.c[t := Blocks.CLoadIndex(s.ix.m.head, e)]))
  }

  lemma ClaimPhases<T>(s: State<T>, t: nat, a: nat, e: Pos)
    requires Synced(s) && Phases(s) && t < |s.tk.c| && s.fl.pc[t] == Pool.Idle
    requires EndsAt(s, a, e)
    ensures Synced(Claimed(s, t, a, e)) && Phases(Claimed(s, t, a, e))
  {
    assert PhaseAt(s, t);
    DequeuerPhases(s, Claimed(s, t, a, e), t);
  }

  // Taking a ticket, and the end of a call.

  lemma TicketKeeps<T>(s: State<T>, t: nat)
    requires Inv(s) && t < |s.tk.c| && s.fl.pc[t] == Pool.Idle && s.ix.c[t] == Blocks.CIdle && !s.tk.c[t].Claim?
    requires Tickets.Paced(s.tk, Tickets.Step(t))
    ensures Inv(s.(tk := Tickets.Do(s.tk, Tickets.Step(t))))
  {
    var s' := s.(tk := Tickets.Do(s.tk, Tickets.Step(t)));
    TicketSame(s.tk, t);
    Tickets.DoKeeps(s.tk, Tickets.Step(t));
    Tickets.EagerDo(s.tk, Tickets.Step(t));
    DequeuerPhases(s, s', t);
    Assembled(s');
  }

  lemma TicketSame(tk: Tickets.State, t: nat)
    requires t < |tk.c| && !tk.c[t].Claim?
    ensures var tk' := Tickets.Do(tk, Tickets.Step(t));
            && tk'.head == tk.head && tk'.tail == tk.tail && tk'.storing == tk.storing && |tk'.c| == |tk.c|
            && forall u :: 0 <= u < |tk.c| && u != t ==> tk'.c[u] == tk.c[u]
  {
  }

  lemma DequeueKeeps<T>(s: State<T>, t: nat, e: Pos)
    requires Inv(s) && (StepsTicket(s, t, e) ==> Tickets.Paced(s.tk, Tickets.Step(t)))
    ensures Inv(DequeueStep(s, t, e))
  {
    if t < |s.tk.c| {
      if s.fl.pc[t] != Pool.Idle {
        AddKeeps(s, t);
      } else if s.ix.c[t].CFree? {
        FreeKeeps(s, t);
      } else if s.ix.c[t] != Blocks.CIdle {
        ConsumeKeeps(s, t);
      } else if s.tk.c[t].Claim? {
        if EndsAt(s, s.tk.c[t].a, e) { ClaimKeeps(s, t, s.tk.c[t].a, e); }
      } else {
        TicketKeeps(s, t);
      }
    }
  }

  // ---------------------------------------------------------------- every run

  /** The dequeuer's next access is one of its ticket protocol. */
  predicate StepsTicket<T>(s: State<T>, t: nat, e: Pos) {
    && t < |s.tk.c| && t < |s.ix.c| && t < |s.fl.pc|
    && s.fl.pc[t] == Pool.Idle && s.ix.c[t] == Blocks.CIdle
    && (s.tk.c[t].Claim? ==> EndsAt(s, s.tk.c[t].a, e))
  }

  /** What an action is for the tickets, if anything. */
  function TicketActs<T>(s: State<T>, act: Action<T>): seq<Tickets.Action> {
    match act
    case Enqueue(_) => []
    case Produce(_) => if s.ix.m.p.PStoreTail? then [Tickets.StartEnqueue(false), Tickets.StoreTail] else []
    case StartDequeue(t, call) => [Tickets.StartDequeue(t, call)]
    case Dequeue(t, e) => if StepsTicket(s, t, e) then [Tickets.Step(t)] else []
  }

  /** The schedule of the tickets in a schedule of the whole. */
  function TicketRun<T>(s: State<T>, schedule: seq<Action<T>>): seq<Tickets.Action> {
    if schedule == [] then []
    else
      var n := |schedule| - 1;
      TicketRun(s, schedule[..n]) + TicketActs(Run(s, schedule[..n]), schedule[n])
  }

  /** Elements asked for by all the calls of a schedule. */
  function Asked<T>(schedule: seq<Action<T>>): nat {
    if schedule == [] then 0
    else
      var act := schedule[|schedule| - 1];
      Asked(schedule[..|schedule| - 1]) + if act.StartDequeue? then Tickets.Most(act.call) else 0
  }

  /** Every call asks for at least one element. */
  predicate AsksSome<T>(schedule: seq<Action<T>>) {
    forall i :: 0 <= i < |schedule| && schedule[i].StartDequeue? ==> Tickets.Most(schedule[i].call) >= 1
  }

  /** What the actions of the tickets do is what happens to them. */
  lemma ActsEffect<T>(s: State<T>, act: Action<T>)
    ensures var acts := TicketActs(s, act);
            && |acts| <= 2 && (act.StartDequeue? <==> |acts| == 1 && acts[0].StartDequeue?)
            && (act.StartDequeue? ==> acts[0].call == act.call)
            && Do(s, act).tk == After(s.tk, acts)
            && (|acts| == 2 ==> acts[0].StartEnqueue? && acts[1].StoreTail?)
  {
    match act
    case Dequeue(t, e) => StepEffect(s, t, e);
    case _ =>
  }

  function After(tk: Tickets.State, acts: seq<Tickets.Action>): Tickets.State
    requires |acts| <= 2
  {
    if |acts| == 0 then tk
    else if |acts| == 1 then Tickets.Do(tk, acts[0])
    else Tickets.Do(Tickets.Do(tk, acts[0]), acts[1])
  }

  lemma StepEffect<T>(s: State<T>, t: nat, e: Pos)
    ensures DequeueStep(s, t, e).tk == if StepsTicket(s, t, e) then Tickets.Do(s.tk, Tickets.Step(t)) else s.tk
  {
  }

  /** Running at most two more actions. */
  lemma RunAfter(tk0: Tickets.State, before: seq<Tickets.Action>, acts: seq<Tickets.Action>)
    requires |acts| <= 2
    requires |acts| == 2 ==> acts[0].StartEnqueue? && acts[1].StoreTail?
    ensures Tickets.Run(tk0, before + acts) == After(Tickets.Run(tk0, before), acts)
    ensures Tickets.Asked(before + acts)
         == Tickets.Asked(before) + if |acts| == 1 && acts[0].StartDequeue? then Tickets.Most(acts[0].call) else 0
  {
    if |acts| == 0 {
      assert before + acts == before;
    } else {
      Tickets.RunThen(tk0, before, acts[0]);
      if |acts| == 1 {
        assert before + acts == Tickets.Then(before, acts[0]);
      } else {
        Tickets.RunThen(tk0, Tickets.Then(before, acts[0]), acts[1]);
        assert before + acts == Tickets.Then(Tickets.Then(before, acts[0]), acts[1]);
      }
    }
  }

  /** A run of the whole is a run of the tickets that asks for as much. */
  lemma {:induction false} Projects<T>(s: State<T>, schedule: seq<Action<T>>)
    ensures Run(s, schedule).tk == Tickets.Run(s.tk, TicketRun(s, schedule))
    ensures Tickets.Asked(TicketRun(s, schedule)) == Asked(schedule)
  {
    if schedule != [] {
      var n := |schedule| - 1;
      Projects(s, schedule[..n]);
      ActsEffect(Run(s, schedule[..n]), schedule[n]);
      RunAfter(s.tk, TicketRun(s, schedule[..n]), TicketActs(Run(s, schedule[..n]), schedule[n]));
    }
  }

  /** What an action is for the block index, if anything. */
  function BlockActs<T>(s: State<T>, act: Action<T>): seq<Blocks.Action<T>> {
    match act
    case Enqueue(v) => [Blocks.Enqueue(v)]
    case Produce(m) =>
      if !s.ix.m.p.PRequisition? then [Blocks.Produce(m)]
      else if !s.fetching then if m.Fresh? then [Blocks.Produce(Outside(s, m))] else []
      else if Last(s) >= |s.fl.pc| then []
      else if s.fl.pc[Last(s)] == Pool.Idle then [Blocks.Produce(Outside(s, m))]
      else if s.fl.pc[Last(s)].GetSubTwo? then [Blocks.Produce(Blocks.Pooled(s.fl.pc[Last(s)].h))]
      else []
    case StartDequeue(_, _) => []
    case Dequeue(t, e) =>
      if t >= |s.tk.c| || t >= |s.ix.c| || t >= |s.fl.pc| || s.fl.pc[t] != Pool.Idle then []
      else if s.ix.c[t] != Blocks.CIdle then [Blocks.Consume(t)]
      else if s.tk.c[t].Claim? && EndsAt(s, s.tk.c[t].a, e) then [Blocks.Claim(t, s.tk.c[t].a, e)]
      else []
  }

  /** And for the free list. */
  function PoolActs<T>(s: State<T>, act: Action<T>): seq<Pool.Action> {
    match act
    case Enqueue(_) => []
    case Produce(m) =>
      if !s.ix.m.p.PRequisition? then []
      else if !s.fetching then if m.Fresh? then [] else [Pool.CallTryGet(Last(s))]
      else if Last(s) >= |s.fl.pc| || s.fl.pc[Last(s)] == Pool.Idle then []
      else [Pool.Tick(Last(s))]
    case StartDequeue(_, _) => []
    case Dequeue(t, _) =>
      if t >= |s.tk.c| || t >= |s.ix.c| || t >= |s.fl.pc| then []
      else if s.fl.pc[t] != Pool.Idle then [Pool.Tick(t)]
      else if s.ix.c[t].CFree? then [Pool.CallAdd(t, s.ix.c[t].b)]
      else []
  }

  lemma PartsEffect<T>(s: State<T>, act: Action<T>)
    ensures var acts := BlockActs(s, act);
            |acts| <= 1 && Do(s, act).ix == if acts == [] then s.ix else Blocks.Do(s.ix, acts[0])
    ensures var acts := PoolActs(s, act);
            |acts| <= 1 && Do(s, act).fl == if acts == [] then s.fl else Pool.Do(s.fl, acts[0])
  {
    match act
    case Enqueue(_) =>
    case Produce(m) =>
    case StartDequeue(_, _) =>
    case Dequeue(t, e) =>
  }

  function BlockRun<T>(s: State<T>, schedule: seq<Action<T>>): seq<Blocks.Action<T>> {
    if schedule == [] then []
    else
      var n := |schedule| - 1;
      BlockRun(s, schedule[..n]) + BlockActs(Run(s, schedule[..n]), schedule[n])
  }

  function PoolRun<T>(s: State<T>, schedule: seq<Action<T>>): seq<Pool.Action> {
    if schedule == [] then []
    else
      var n := |schedule| - 1;
      PoolRun(s, schedule[..n]) + PoolActs(Run(s, schedule[..n]), schedule[n])
  }

  lemma BlockOne<T>(ix: Blocks.State<T>, before: seq<Blocks.Action<T>>, acts: seq<Blocks.Action<T>>)
    requires |acts| <= 1
    ensures Blocks.Run(ix, before + acts)
         == if acts == [] then Blocks.Run(ix, before) else Blocks.Do(Blocks.Run(ix, before), acts[0])
  {
    if acts == [] {
      assert before + acts == before;
    } else {
      assert (before + acts)[..|before|] == before && (before + acts)[|before|] == acts[0];
    }
  }

  lemma PoolOne(fl: Pool.State, before: seq<Pool.Action>, acts: seq<Pool.Action>)
    requires |acts| <= 1
    ensures Pool.Run(fl, before + acts)
         == if acts == [] then Pool.Run(fl, before) else Pool.Do(Pool.Run(fl, before), acts[0])
  {
    if acts == [] {
      assert before + acts == before;
    } else {
      assert (before + acts)[..|before|] == before && (before + acts)[|before|] == acts[0];
    }
  }

  /** And a run of the block index and of the free list, so what their calls return is what they return
      there. */
  lemma {:induction false} PartsProject<T>(s: State<T>, schedule: seq<Action<T>>)
    ensures Run(s, schedule).ix == Blocks.Run(s.ix, BlockRun(s, schedule))
    ensures Run(s, schedule).fl == Pool.Run(s.fl, PoolRun(s, schedule))
  {
    if schedule != [] {
      var n := |schedule| - 1;
      PartsProject(s, schedule[..n]);
      PartsEffect(Run(s, schedule[..n]), schedule[n]);
      BlockOne(s.ix, BlockRun(s, schedule[..n]), BlockActs(Run(s, schedule[..n]), schedule[n]));
      PoolOne(s.fl, PoolRun(s, schedule[..n]), PoolActs(Run(s, schedule[..n]), schedule[n]));
    }
  }

  lemma EagerStep<T>(s: State<T>, act: Action<T>)
    requires Tickets.AllEager(s.tk.c) && (act.StartDequeue? ==> Tickets.Most(act.call) >= 1)
    ensures Tickets.AllEager(Do(s, act).tk.c)
    ensures forall i :: 0 <= i < |BlockActs(s, act)| && BlockActs(s, act)[i].Claim? ==> BlockActs(s, act)[i].max >= 1
  {
    var acts := TicketActs(s, act);
    ActsEffect(s, act);
    if |acts| >= 1 { Tickets.EagerDo(s.tk, acts[0]); }
    if |acts| == 2 { Tickets.EagerDo(Tickets.Do(s.tk, acts[0]), acts[1]); }
    if act.Dequeue? && act.t < |s.tk.c| { assert Tickets.Eager(s.tk.c[act.t]); }
  }

  lemma {:induction false} RunEager<T>(s: State<T>, schedule: seq<Action<T>>)
    requires Tickets.AllEager(s.tk.c) && AsksSome(schedule)
    ensures Tickets.AllEager(Run(s, schedule).tk.c) && Blocks.AsksAtLeast(BlockRun(s, schedule), 1)
  {
    if schedule != [] {
      var n := |schedule| - 1;
      RunEager(s, schedule[..n]);
      EagerStep(Run(s, schedule[..n]), schedule[n]);
    }
  }

  /** In every run whose calls ask for something: enqueues succeed and dequeuers move out their claims as stated
      for the implicit producer. */
  lemma CallsAnswer<T>(bs: nat, capacity: nat, dequeuers: nat, nodes: nat, schedule: seq<Action<T>>, t: nat)
    requires IndexFits(bs, capacity) && capacity >= 1 && AsksSome(schedule) && t < dequeuers
    ensures var s0: State<T> := Start(bs, capacity, dequeuers, nodes);
            var s, run := Run(s0, schedule), BlockRun(s0, schedule);
            && Calls.Going(s.ix.m, Calls.LastEnqueue(s0.ix, run))
            && |s.ix.c| == dequeuers && Calls.TakenOk(s.ix.m, s.ix.c[t], Calls.LastTake(s0.ix, run, t))
  {
    var s0: State<T> := Start(bs, capacity, dequeuers, nodes);
    RunEager(s0, schedule);
    PartsProject(s0, schedule);
    Calls.EnqueueAnswers(bs, capacity, dequeuers, BlockRun(s0, schedule));
    Calls.DequeueAnswers(bs, capacity, dequeuers, BlockRun(s0, schedule), t);
  }

  lemma PacedBefore(tk: Tickets.State, before: seq<Tickets.Action>, acts: seq<Tickets.Action>)
    requires Tickets.PacedRun(tk, before + acts)
    ensures Tickets.PacedRun(tk, before)
    ensures acts != [] ==> Tickets.Paced(Tickets.Run(tk, before), acts[0])
  {
    forall i | 0 <= i < |before| ensures Tickets.Paced(Tickets.Run(tk, before[..i]), before[i]) {
      assert (before + acts)[..i] == before[..i] && (before + acts)[i] == before[i];
    }
    if acts != [] {
      assert (before + acts)[..|before|] == before && (before + acts)[|before|] == acts[0];
    }
  }

  lemma DoKeeps<T>(s: State<T>, act: Action<T>)
    requires Inv(s) && (act.StartDequeue? ==> Tickets.Most(act.call) >= 1)
    requires TicketActs(s, act) != [] ==> Tickets.Paced(s.tk, TicketActs(s, act)[0])
    ensures Inv(Do(s, act))
  {
    match act
    case Enqueue(v) => EnqueueKeeps(s, v);
    case Produce(m) => ProduceKeeps(s, m);
    case StartDequeue(t, call) => StartKeeps(s, t, call);
    case Dequeue(t, e) => DequeueKeeps(s, t, e);
  }

  lemma StartInv<T>(bs: nat, capacity: nat, dequeuers: nat, nodes: nat)
    requires IndexFits(bs, capacity) && capacity >= 1 && dequeuers + 1 < Pool.SHOULD_BE_ON_FREELIST - 2
    ensures Inv(Start<T>(bs, capacity, dequeuers, nodes))
  {
    Blocks.StartInv<T>(bs, capacity, dequeuers);
    Pool.StartInv(nodes, dequeuers + 1);
    Tickets.RunInv(bs, dequeuers, []);
    Tickets.ClaimsSomething(bs, dequeuers, []);
  }

  /** The invariant after every run in which every call asks for something and whose tickets are paced. */
  lemma {:induction false} RunInv<T>(bs: nat, capacity: nat, dequeuers: nat, nodes: nat, schedule: seq<Action<T>>)
    requires IndexFits(bs, capacity) && capacity >= 1 && dequeuers + 1 < Pool.SHOULD_BE_ON_FREELIST - 2
    requires AsksSome(schedule)
    requires Tickets.PacedRun(Tickets.Start(bs, dequeuers), TicketRun(Start(bs, capacity, dequeuers, nodes), schedule))
    ensures Inv(Run(Start(bs, capacity, dequeuers, nodes), schedule))
  {
    var s0: State<T> := Start(bs, capacity, dequeuers, nodes);
    if schedule == [] {
      StartInv<T>(bs, capacity, dequeuers, nodes);
    } else {
      var n := |schedule| - 1;
      PacedBefore(s0.tk, TicketRun(s0, schedule[..n]), TicketActs(Run(s0, schedule[..n]), schedule[n]));
      RunInv(bs, capacity, dequeuers, nodes, schedule[..n]);
      Projects(s0, schedule[..n]);
      DoKeeps(Run(s0, schedule[..n]), schedule[n]);
    }
  }

  /** What the parts promise, together. */
  ghost predicate Safe<T>(s: State<T>) {
    // the tickets, the block index with its lookups and its recycling, and the free list
    && Tickets.Safe(s.tk) && Blocks.Safe(s.ix) && Pool.Safe(s.fl)
    // head and tail of the tickets and of the block index are the same
    && s.ix.m.bs > 0 && Index(s.ix.m.head, s.ix.m.bs) == s.tk.head && Index(s.ix.m.tail, s.ix.m.bs) == s.tk.tail
    // a dequeuer looks up the indices that its ticket got it
    && |s.ix.c| == |s.tk.c|
    && (forall t :: 0 <= t < |s.ix.c| && s.ix.c[t] != Blocks.CIdle ==>
          s.tk.c[t].Got? && Index(s.ix.c[t].e, s.ix.m.bs) == s.tk.c[t].first + s.tk.c[t].n)
    // no block in use by the block index is on the free list
    && (forall b :: b in s.fl.list ==> b in s.ix.m.pool)
  }

  lemma InvSafe<T>(s: State<T>)
    requires Inv(s)
    ensures Safe(s)
  {
    Tickets.InvSafe(s.tk);
    Blocks.InvSafe(s.ix);
    Pool.InvSafe(s.fl);
    forall t | 0 <= t < |s.ix.c| && s.ix.c[t] != Blocks.CIdle
      ensures s.tk.c[t].Got? && Index(s.ix.c[t].e, s.ix.m.bs) == s.tk.c[t].first + s.tk.c[t].n
    {
      assert PhaseAt(s, t);
    }
    ListPooled(s.ix.m.pool, |s.ix.m.blocks|, s.fl);
  }

  lemma ListPooled(pool: set<nat>, blocks: nat, fl: Pool.State)
    requires Pool.Inv(fl) && Pooled(pool, blocks, fl)
    ensures forall b :: b in fl.list ==> b in pool
  {
  }

  /** In every interleaving of one enqueuer and any number of single and bulk dequeuers, access by access
      in the tickets, the block index and the free list, when every call asks for at least one element and
      all together for at most 2^63 + 2. */
  lemma AlwaysSafe<T>(bs: nat, capacity: nat, dequeuers: nat, nodes: nat, schedule: seq<Action<T>>)
    requires IndexFits(bs, capacity) && capacity >= 1 && dequeuers + 1 < Pool.SHOULD_BE_ON_FREELIST - 2
    requires AsksSome(schedule) && Asked(schedule) <= HALF + 2
    ensures Safe(Run(Start(bs, capacity, dequeuers, nodes), schedule))
  {
    var s0: State<T> := Start(bs, capacity, dequeuers, nodes);
    Projects(s0, schedule);
    Tickets.AskedPaced(bs, dequeuers, TicketRun(s0, schedule));
    RunInv(bs, capacity, dequeuers, nodes, schedule);
    InvSafe(Run(s0, schedule));
  }

  /** And in every run, however long, when the calls that overlap one dequeue never ask for more than 2^63. */
  lemma ModerateSafe<T>(bs: nat, capacity: nat, dequeuers: nat, nodes: nat, schedule: seq<Action<T>>)
    requires IndexFits(bs, capacity) && capacity >= 1 && dequeuers + 1 < Pool.SHOULD_BE_ON_FREELIST - 2
    requires AsksSome(schedule)
    requires Tickets.Moderate(Tickets.Start(bs, dequeuers), TicketRun(Start(bs, capacity, dequeuers, nodes), schedule))
    ensures Safe(Run(Start(bs, capacity, dequeuers, nodes), schedule))
  {
    Tickets.ModeratePaced(bs, dequeuers, TicketRun(Start(bs, capacity, dequeuers, nodes), schedule));
    RunInv(bs, capacity, dequeuers, nodes, schedule);
    InvSafe(Run(Start(bs, capacity, dequeuers, nodes), schedule));
  }

  // ---------------------------------------------------------------- where blocks come from

  /** Memory for one more block is there. */
  predicate Supplies<T>(s: State<T>, m: Blocks.Supply<T>) {
    m.Fresh? && |m.junk| == s.ix.m.bs && |s.ix.m.blocks| < |s.fl.role|
  }

  /** An access of an enqueuer that needs a block: the last one of a successful `try_get` yields the block got,
      memory from outside yields a new one, before the free list was asked or after it returned null, and only
      when it has returned null, or memory was wrong, is the enqueue given up. */
  lemma ObtainAnswers<T>(s: State<T>, m: Blocks.Supply<T>)
    requires Inv(s) && s.ix.m.p.PRequisition?
    ensures var s', v, pc := Do(s, Produce(m)), s.ix.m.p.v, s.fl.pc[Last(s)];
            if s.fetching && pc.GetSubTwo? then s'.ix.m.p == Blocks.PCommit(v, pc.h) && !s'.fetching
            else if (s.fetching && pc == Pool.Idle) || (!s.fetching && m.Fresh?) then
              s'.ix.m.p == (if Supplies(s, m) then Blocks.PCommit(v, |s.ix.m.blocks|) else Blocks.PRewind) && !s'.fetching
            else s'.ix == s.ix && s'.fetching
  {
    Blocks.ProduceKeepsMem(s.ix.m, m);
    if s.fl.pc[Last(s)].GetSubTwo? { GotBlock(s); }
    ObtainStep(s, m);
  }

  lemma ObtainStep<T>(s: State<T>, m: Blocks.Supply<T>)
    requires Last(s) < |s.fl.pc| && Blocks.CanProduce(s.ix.m) && s.ix.m.p.PRequisition?
    requires var pc := s.fl.pc[Last(s)]; pc.GetSubTwo? ==> pc.h in s.ix.m.pool && pc.h < |s.ix.m.blocks|
    ensures var s', v, pc := Do(s, Produce(m)), s.ix.m.p.v, s.fl.pc[Last(s)];
            if s.fetching && pc.GetSubTwo? then s'.ix.m.p == Blocks.PCommit(v, pc.h) && !s'.fetching
            else if (s.fetching && pc == Pool.Idle) || (!s.fetching && m.Fresh?) then
              s'.ix.m.p == (if Supplies(s, m) then Blocks.PCommit(v, |s.ix.m.blocks|) else Blocks.PRewind) && !s'.fetching
            else s'.ix == s.ix && s'.fetching
  {
  }

  lemma GotBlock<T>(s: State<T>)
    requires Inv(s) && s.ix.m.p.PRequisition? && s.fl.pc[Last(s)].GetSubTwo?
    ensures var h := s.fl.pc[Last(s)].h; h in s.ix.m.pool && h < |s.ix.m.blocks|
  {
    PoolGives(s.ix.m.pool, |s.ix.m.blocks|, s.fl, Last(s));
    PoolInBlocks(s.ix);
  }

  // ---------------------------------------------------------------- no block is lost

  /** What has been claimed was dequeued or is owned, and every block is in the pool or in use. */
  ghost predicate Accounted<T>(ix: Blocks.State<T>) {
    Blocks.Sized(ix.m) && Blocks.Accounted(ix) && Blocks.Covered(ix.m)
  }

  lemma StepAccounts<T>(ix: Blocks.State<T>, act: Blocks.Action<T>)
    requires Blocks.Inv(ix) && Accounted(ix) && (act.Claim? ==> act.max >= 1)
    ensures Accounted(Blocks.Do(ix, act))
  {
    Blocks.DoAccounts(ix, act);
    Blocks.DoCovered(ix, act);
  }

  lemma ProduceAccounts<T>(s: State<T>, m: Blocks.Supply<T>)
    requires Blocks.Inv(s.ix) && Accounted(s.ix)
    ensures Accounted(ProduceStep(s, m).ix)
  {
    var n := Last(s);
    if !s.ix.m.p.PRequisition? {
      StepAccounts(s.ix, Blocks.Produce(m));
    } else if s.fetching && n < |s.fl.pc| && s.fl.pc[n].GetSubTwo? {
      StepAccounts(s.ix, Blocks.Produce(Blocks.Pooled(s.fl.pc[n].h)));
    } else {
      StepAccounts(s.ix, Blocks.Produce(Outside(s, m)));
    }
  }

  lemma DequeueAccounts<T>(s: State<T>, t: nat, e: Pos)
    requires Blocks.Inv(s.ix) && Accounted(s.ix) && Tickets.AllEager(s.tk.c)
    ensures Accounted(DequeueStep(s, t, e).ix)
  {
    if t < |s.tk.c| && t < |s.ix.c| {
      assert Tickets.Eager(s.tk.c[t]);
      StepAccounts(s.ix, Blocks.Consume(t));
      if s.tk.c[t].Claim? { StepAccounts(s.ix, Blocks.Claim(t, s.tk.c[t].a, e)); }
    }
  }

  lemma DoAccounts<T>(s: State<T>, act: Action<T>)
    requires Inv(s) && Accounted(s.ix)
    ensures Accounted(Do(s, act).ix)
  {
    match act
    case Enqueue(v) => StepAccounts(s.ix, Blocks.Enqueue(v));
    case Produce(m) => ProduceAccounts(s, m);
    case StartDequeue(_, _) =>
    case Dequeue(t, e) => DequeueAccounts(s, t, e);
  }

  lemma {:induction false} RunAccounts<T>(bs: nat, capacity: nat, dequeuers: nat, nodes: nat, schedule: seq<Action<T>>)
    requires IndexFits(bs, capacity) && capacity >= 1 && dequeuers + 1 < Pool.SHOULD_BE_ON_FREELIST - 2
    requires AsksSome(schedule)
    requires Tickets.PacedRun(Tickets.Start(bs, dequeuers), TicketRun(Start(bs, capacity, dequeuers, nodes), schedule))
    ensures Accounted(Run(Start(bs, capacity, dequeuers, nodes), schedule).ix)
  {
    if schedule == [] {
      Blocks.RunAccounts<T>(bs, capacity, dequeuers, []);
    } else {
      var s0: State<T> := Start(bs, capacity, dequeuers, nodes);
      var n := |schedule| - 1;
      PacedBefore(s0.tk, TicketRun(s0, schedule[..n]), TicketActs(Run(s0, schedule[..n]), schedule[n]));
      RunInv(bs, capacity, dequeuers, nodes, schedule[..n]);
      RunAccounts(bs, capacity, dequeuers, nodes, schedule[..n]);
      DoAccounts(Run(s0, schedule[..n]), schedule[n]);
    }
  }

  /** No dequeue and no call of the free list is in progress. */
  predicate Quiet<T>(s: State<T>) { Blocks.Quiet(s.ix) && Pool.Quiet(s.fl) }

  /** Exactly the blocks whose elements have all been dequeued were given back, and the free list consists
      of the blocks not in use. */
  ghost predicate AllListed<T>(s: State<T>)
    requires |s.ix.m.life| == |s.ix.m.hist|
  {
    && (forall q :: 0 <= q < |s.ix.m.life| ==> (s.ix.m.life[q].Recycled? <==> q < s.ix.m.head.q))
    && (forall b :: b in s.fl.list ==> b < |s.ix.m.blocks|)
    && (forall b: nat :: b < |s.ix.m.blocks| ==> (b in s.fl.list <==> !Blocks.InUse(s.ix.m, b)))
  }

  lemma QuietList(pool: set<nat>, blocks: nat, fl: Pool.State, b: nat)
    requires Pool.Inv(fl) && Pool.Quiet(fl) && Pooled(pool, blocks, fl) && b < |fl.role|
    ensures b in fl.list <==> b in pool
  {
    Pool.QuietNode(fl, b);
  }

  /** Whenever no dequeue is in flight, no block is lost on the way through the free list either. */
  lemma NoBlockLost<T>(bs: nat, capacity: nat, dequeuers: nat, nodes: nat, schedule: seq<Action<T>>)
    requires IndexFits(bs, capacity) && capacity >= 1 && dequeuers + 1 < Pool.SHOULD_BE_ON_FREELIST - 2
    requires AsksSome(schedule)
    requires Tickets.PacedRun(Tickets.Start(bs, dequeuers), TicketRun(Start(bs, capacity, dequeuers, nodes), schedule))
    ensures var s := Run(Start(bs, capacity, dequeuers, nodes), schedule);
            |s.ix.m.life| == |s.ix.m.hist| && (Quiet(s) ==> AllListed(s))
  {
    var s := Run(Start(bs, capacity, dequeuers, nodes), schedule);
    RunInv(bs, capacity, dequeuers, nodes, schedule);
    RunAccounts(bs, capacity, dequeuers, nodes, schedule);
    if Quiet(s) { QuietListed(s); }
  }

  lemma QuietListed<T>(s: State<T>)
    requires Inv(s) && Accounted(s.ix) && Quiet(s)
    ensures AllListed(s)
  {
    Blocks.QuietAccounts(s.ix);
    ListPooled(s.ix.m.pool, |s.ix.m.blocks|, s.fl);
    PoolInBlocks(s.ix);
    forall b: nat | b < |s.ix.m.blocks| ensures b in s.fl.list <==> !Blocks.InUse(s.ix.m, b) {
      QuietList(s.ix.m.pool, |s.ix.m.blocks|, s.fl, b);
    }
  }

  lemma PoolInBlocks<T>(ix: Blocks.State<T>)
    requires Blocks.Inv(ix)
    ensures forall b :: b in ix.m.pool ==> b < |ix.m.blocks|
  {
    assert Blocks.PcOk(ix.m);
  }
}
