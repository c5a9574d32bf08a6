/** Bulk dequeues from an implicit producer that ask for nothing. Such a call still adds 0 to the counter
    of the block that it looks up. If the block was finished since the lookup, the sum is the block size,
    and the block is given back a second time. So the block index is safe exactly if every call asks for
    at least one element. */
module EmptyClaims {
  import opened Words
  import opened Positions
  import opened ImplicitProducer

  // ---------------------------------------------------------------- runs

  function Then<T>(schedule: seq<Action<T>>, act: Action<T>): seq<Action<T>> { schedule + [act] }

  lemma RunThen<T>(s: State<T>, schedule: seq<Action<T>>, act: Action<T>)
    ensures Run(s, Then(schedule, act)) == Do(Run(s, schedule), act)
  {
    assert Then(schedule, act)[..|schedule|] == schedule;
  }

  /** One, two and k steps of dequeuer t. */
  function Once<T>(s: State<T>, t: nat): State<T> { Do(s, Consume(t)) }

  function Twice<T>(s: State<T>, t: nat): State<T> { Once(Once(s, t), t) }

  function Steps<T>(s: State<T>, t: nat, k: nat): State<T>
    decreases k
  {
    if k == 0 then s else Steps(Once(s, t), t, k - 1)
  }

  lemma Grows<T>(s: State<T>, schedule: seq<Action<T>>, act: Action<T>) returns (longer: seq<Action<T>>)
    ensures Run(s, longer) == Do(Run(s, schedule), act)
  {
    longer := Then(schedule, act);
    RunThen(s, schedule, act);
  }

  lemma GrowsTwice<T>(s: State<T>, schedule: seq<Action<T>>, t: nat) returns (longer: seq<Action<T>>)
    ensures Run(s, longer) == Twice(Run(s, schedule), t)
  {
    longer := Grows(s, schedule, Consume(t));
    longer := Grows(s, longer, Consume(t));
  }

  lemma {:induction false} GrowsBy<T>(s: State<T>, schedule: seq<Action<T>>, t: nat, k: nat)
    returns (longer: seq<Action<T>>)
    ensures Run(s, longer) == Steps(Run(s, schedule), t, k)
    decreases k
  {
    if k == 0 {
      longer := schedule;
    } else {
      longer := Grows(s, schedule, Consume(t));
      longer := GrowsBy(s, longer, t, k - 1);
    }
  }

  // ---------------------------------------------------------------- filling the first block

  /** k elements were enqueued in block number 0, nobody is dequeuing. */
  ghost predicate Filled<T>(s: State<T>, bs: nat, n: nat, k: nat) {
    && Inv(s) && s.m.bs == bs && s.m.p.PIdle? && s.m.head == Pos(0, 0)
    && s.m.tail == (if k < bs then Pos(0, k) else Pos(1, 0))
    && |s.m.hist| == 1 && s.m.dn == [{}]
    && |s.c| == n && (forall t :: 0 <= t < n ==> s.c[t] == CIdle)
  }

  /** The same, with an enqueue at program counter p. */
  ghost predicate Adding<T>(s: State<T>, bs: nat, n: nat, k: nat, p: Producer<T>) {
    && Inv(s) && s.m.bs == bs && s.m.p == p && s.m.head == Pos(0, 0) && s.m.tail == Pos(0, k)
    && |s.m.hist| == 1 && s.m.dn == [{}]
    && |s.c| == n && (forall t :: 0 <= t < n ==> s.c[t] == CIdle)
  }

  lemma StartsElement<T>(s: State<T>, bs: nat, n: nat, k: nat, v: T)
    requires Filled(s, bs, n, k) && 1 <= k < bs
    ensures Adding(Do(s, Enqueue(v)), bs, n, k, PStoreElement(v))
  {
    DoKeeps(s, Enqueue(v));
  }

  lemma StoresElement<T>(s: State<T>, bs: nat, n: nat, k: nat, v: T)
    requires Adding(s, bs, n, k, PStoreElement(v))
    ensures Adding(Do(s, Produce(NoMemory)), bs, n, k, PStoreTail)
  {
    ProduceKeepsMem(s.m, NoMemory);
    DoKeeps(s, Produce(NoMemory));
  }

  lemma StoresTail<T>(s: State<T>, bs: nat, n: nat, k: nat)
    requires Adding(s, bs, n, k, PStoreTail) && k < bs
    ensures Filled(Do(s, Produce(NoMemory)), bs, n, k + 1)
  {
    ProduceKeepsMem(s.m, NoMemory);
    DoKeeps(s, Produce(NoMemory));
  }

  /** The enqueuer alone, at the start of its first block. */
  ghost predicate AtFirst<T>(s: State<T>, bs: nat, n: nat, p: Producer<T>) {
    && Inv(s) && s.m.bs == bs && s.m.p == p && s.m.head == s.m.tail == Pos(0, 0)
    && s.m.hist == [] && s.m.dn == []
    && |s.c| == n && (forall t :: 0 <= t < n ==> s.c[t] == CIdle)
  }

  lemma Asks<T>(bs: nat, capacity: nat, n: nat, v: T)
    requires IndexFits(bs, capacity) && capacity >= 1
    ensures var s := Do(Start<T>(bs, capacity, n), Enqueue(v));
            AtFirst(s, bs, n, PLoadHead(v)) && NextUnused(s.m)
  {
    StartInv<T>(bs, capacity, n);
    DoKeeps(Start<T>(bs, capacity, n), Enqueue(v));
  }

  lemma HasRoom<T>(s: State<T>, bs: nat, n: nat, v: T)
    requires AtFirst(s, bs, n, PLoadHead(v)) && bs < HALF && NextUnused(s.m)
    ensures AtFirst(Do(s, Produce(NoMemory)), bs, n, PProbe(v)) && NextUnused(Do(s, Produce(NoMemory)).m)
  {
    PassesTest(s.m, v);
    LoadHeadKeeps(s.m, v);
    ProducerKeeps(s, LoadHead(s.m, v));
    assert Do(s, Produce(NoMemory)) == s.(m := LoadHead(s.m, v));
    StaysUnused(s.m, PProbe(v));
  }

  predicate NextUnused<T>(m: Mem<T>) { Shaped(m) && m.entries[NextEntry(m)].key == INVALID_BLOCK_BASE }

  lemma StaysUnused<T>(m: Mem<T>, p': Producer<T>)
    requires NextUnused(m)
    ensures NextUnused(m.(p := p'))
  {
  }

  lemma PassesTest<T>(m: Mem<T>, v: T)
    requires m.head == m.tail == Pos(0, 0) && 1 <= m.bs < HALF
    ensures LoadHead(m, v) == m.(p := PProbe(v))
  {
    FirstFits(m.bs);
    IndexZero(m.head, m.bs);
    IndexZero(m.tail, m.bs);
    Passes(m, v, 0, m.bs);
  }

  lemma FirstFits(bs: nat)
    requires 1 <= bs < HALF
    ensures CircularLessThan(Wrap(0), Wrap(bs))
  {
    CircularOrderExact(0, bs);
  }

  lemma IndexZero(p: Pos, bs: nat)
    requires p == Pos(0, 0)
    ensures Index(p, bs) == 0
  {
  }

  lemma Passes<T>(m: Mem<T>, v: T, x: nat, y: nat)
    requires x == Index(m.head, m.bs) && y == Index(m.tail, m.bs) + m.bs && CircularLessThan(Wrap(x), Wrap(y))
    ensures LoadHead(m, v) == m.(p := PProbe(v))
  {
  }

  lemma FindsEntry<T>(s: State<T>, bs: nat, n: nat, v: T)
    requires AtFirst(s, bs, n, PProbe(v)) && NextUnused(s.m)
    ensures AtFirst(Do(s, Produce(NoMemory)), bs, n, PStoreKey(v, false))
  {
    DoKeeps(s, Produce(NoMemory));
  }

  lemma Keys<T>(s: State<T>, bs: nat, n: nat, v: T)
    requires AtFirst(s, bs, n, PStoreKey(v, false))
    ensures AtFirst(Do(s, Produce(NoMemory)), bs, n, PStoreSlot(v))
  {
    DoKeeps(s, Produce(NoMemory));
  }

  lemma Slots<T>(s: State<T>, bs: nat, n: nat, v: T)
    requires AtFirst(s, bs, n, PStoreSlot(v))
    ensures AtFirst(Do(s, Produce(NoMemory)), bs, n, PRequisition(v))
  {
    DoKeeps(s, Produce(NoMemory));
  }

  lemma Obtains<T>(s: State<T>, bs: nat, n: nat, v: T, junk: seq<T>)
    requires AtFirst(s, bs, n, PRequisition(v)) && |junk| == bs
    ensures AtFirst(Do(s, Produce(Fresh(junk))), bs, n, PCommit(v, |s.m.blocks|))
  {
    DoKeeps(s, Produce(Fresh(junk)));
  }

  lemma Commits<T>(s: State<T>, bs: nat, n: nat, v: T, b: nat)
    requires AtFirst(s, bs, n, PCommit(v, b))
    ensures Adding(Do(s, Produce(NoMemory)), bs, n, 0, PStoreElement(v))
  {
    DoKeeps(s, Produce(NoMemory));
  }

  lemma FirstElement<T>(bs: nat, capacity: nat, n: nat, v: T) returns (schedule: seq<Action<T>>)
    requires IndexFits(bs, capacity) && capacity >= 1 && bs < HALF
    ensures Filled(Run(Start(bs, capacity, n), schedule), bs, n, 1)
  {
    var s0: State<T> := Start(bs, capacity, n);
    Asks(bs, capacity, n, v);
    schedule := Grows(s0, [], Enqueue(v));
    schedule := Reserves(s0, schedule, bs, n, v);
    schedule := OpensBlock(s0, schedule, bs, n, v);
    schedule := EndsElement(s0, schedule, bs, n, 0, v);
  }

  lemma Reserves<T>(s0: State<T>, before: seq<Action<T>>, bs: nat, n: nat, v: T) returns (schedule: seq<Action<T>>)
    requires AtFirst(Run(s0, before), bs, n, PLoadHead(v)) && NextUnused(Run(s0, before).m) && bs < HALF
    ensures AtFirst(Run(s0, schedule), bs, n, PStoreKey(v, false))
  {
    HasRoom(Run(s0, before), bs, n, v);
    schedule := Grows(s0, before, Produce(NoMemory));
    FindsEntry(Run(s0, schedule), bs, n, v);
    schedule := Grows(s0, schedule, Produce(NoMemory));
  }

  lemma OpensBlock<T>(s0: State<T>, before: seq<Action<T>>, bs: nat, n: nat, v: T) returns (schedule: seq<Action<T>>)
    requires AtFirst(Run(s0, before), bs, n, PStoreKey(v, false))
    ensures Adding(Run(s0, schedule), bs, n, 0, PStoreElement(v))
  {
    Keys(Run(s0, before), bs, n, v);
    schedule := Grows(s0, before, Produce(NoMemory));
    Slots(Run(s0, schedule), bs, n, v);
    schedule := Grows(s0, schedule, Produce(NoMemory));
    var junk := seq(bs, i => v);
    var b := |Run(s0, schedule).m.blocks|;
    Obtains(Run(s0, schedule), bs, n, v, junk);
    schedule := Grows(s0, schedule, Produce(Fresh(junk)));
    Commits(Run(s0, schedule), bs, n, v, b);
    schedule := Grows(s0, schedule, Produce(NoMemory));
  }

  lemma EndsElement<T>(s0: State<T>, before: seq<Action<T>>, bs: nat, n: nat, k: nat, v: T)
    returns (schedule: seq<Action<T>>)
    requires Adding(Run(s0, before), bs, n, k, PStoreElement(v)) && k < bs
    ensures Filled(Run(s0, schedule), bs, n, k + 1)
  {
    StoresElement(Run(s0, before), bs, n, k, v);
    schedule := Grows(s0, before, Produce(NoMemory));
    StoresTail(Run(s0, schedule), bs, n, k);
    schedule := Grows(s0, schedule, Produce(NoMemory));
  }

  lemma {:induction false} Fill<T>(bs: nat, capacity: nat, n: nat, k: nat, v: T) returns (schedule: seq<Action<T>>)
    requires IndexFits(bs, capacity) && capacity >= 1 && bs < HALF && 1 <= k <= bs
    ensures Filled(Run(Start(bs, capacity, n), schedule), bs, n, k)
    decreases k
  {
    if k == 1 {
      schedule := FirstElement(bs, capacity, n, v);
    } else {
      var s0: State<T> := Start(bs, capacity, n);
      schedule := Fill(bs, capacity, n, k - 1, v);
      StartsElement(Run(s0, schedule), bs, n, k - 1, v);
      schedule := Grows(s0, schedule, Enqueue(v));
      schedule := EndsElement(s0, schedule, bs, n, k - 1, v);
    }
  }

  // ---------------------------------------------------------------- looking up block number 0

  /** Where the lookup of block number 0 ends. */
  function Found<T>(m: Mem<T>): nat
    requires Shaped(m)
  {
    m.headers[Cur(m)].tail
  }

  /** What is used of the state in which block number 0 is the only one, and untouched. */
  ghost predicate OneBlock<T>(m: Mem<T>) {
    && Shaped(m) && |m.dn| == |m.life| == 1 && |m.ent| >= 1 && |m.hist| == 1
    && m.ent[0] < |m.entries| && m.hist[0] < |m.blocks| && m.blocks[m.hist[0]].count == 0
    && m.entries[m.ent[0]].value == At(m.hist[0])
    && m.headers[Cur(m)].cur == 0 && m.headers[Cur(m)].index[Found(m)] == m.ent[0]
  }

  /** From the tail slot, the slot of block number 0 is that slot. */
  predicate Hits<T>(m: Mem<T>)
    requires Shaped(m) && |m.ent| >= 1 && m.ent[0] < |m.entries|
  {
    TailHits(m.headers[Cur(m)], m.entries[m.ent[0]].key, m.bs)
  }

  predicate TailHits(hd: Header, key: nat, bs: nat)
    requires bs > 0 && hd.capacity > 0
  {
    forall base: nat :: base == Wrap(0 * bs) ==> SlotOf(hd.tail, key, base, bs, hd.capacity) == hd.tail
  }

  /** The block is in use, and the current index finds it in its tail slot. */
  lemma FindsFirst<T>(m: Mem<T>)
    requires MemOk(m) && m.p.PIdle? && |m.hist| == 1 && m.dn == [{}]
    ensures OneBlock(m) && Hits(m)
  {
    var h := Cur(m);
    var hd := m.headers[h];
    OpenIsActive(m, 0, 0);
    assert HeaderAt(m, h) && LifeAt(m, 0);
    assert IndexAt(m, h, 0) && EntAt(m, 0);
    LookupSlot(m, h, hd.tail, 0, 0);
  }

  /** The lookup of a claim that begins at index 0. */
  lemma LooksUp<T>(s: State<T>, t: nat, e: Pos)
    requires OneBlock(s.m) && Hits(s.m) && t < |s.c| && s.c[t] == CLoadIndex(Pos(0, 0), e)
    ensures var h, f := Cur(s.m), Found(s.m);
            var x, b := s.m.ent[0], s.m.hist[0];
            Twice(Twice(s, t), t) == s.(c := s.c[t := if e == Pos(0, 0) then CCount(Pos(0, 0), e, h, f, x, b)
                                                      else CRead(Pos(0, 0), e, h, f, x, b, 0)])
  {
    var h, f := Cur(s.m), Found(s.m);
    var a := Pos(0, 0);
    var s1 := Once(s, t);
    assert s1 == s.(c := s.c[t := CLoadTail(a, e, h)]);
    var s2 := Once(s1, t);
    assert s2 == s.(c := s.c[t := CLoadKey(a, e, h, f, 0)]);
    LooksUpEnd(s, s2, t, e);
  }

  lemma LooksUpEnd<T>(s: State<T>, s2: State<T>, t: nat, e: Pos)
    requires OneBlock(s.m) && Hits(s.m) && t < |s.c|
    requires s2 == s.(c := s.c[t := CLoadKey(Pos(0, 0), e, Cur(s.m), Found(s.m), 0)])
    ensures var h, f := Cur(s.m), Found(s.m);
            var x, b := s.m.ent[0], s.m.hist[0];
            Twice(s2, t) == s.(c := s.c[t := if e == Pos(0, 0) then CCount(Pos(0, 0), e, h, f, x, b)
                                             else CRead(Pos(0, 0), e, h, f, x, b, 0)])
  {
    var s3 := Once(s2, t);
    assert s3 == s.(c := s.c[t := CLoadValue(Pos(0, 0), e, Cur(s.m), Found(s.m))]);
  }

  // ---------------------------------------------------------------- the other dequeuer takes all

  /** Moving out the elements of a block changes nothing but the program counter. */
  lemma {:induction false} Reads<T>(s: State<T>, t: nat, a: Pos, e: Pos, h: nat, slot: nat, x: nat, b: nat, o: nat)
    requires Shaped(s.m) && |s.m.dn| == |s.m.life| && t < |s.c|
    requires s.c[t] == CRead(a, e, h, slot, x, b, o) && o < Stop(a, e, s.m.bs)
    ensures Steps(s, t, Stop(a, e, s.m.bs) - o) == s.(c := s.c[t := CCount(a, e, h, slot, x, b)])
    decreases Stop(a, e, s.m.bs) - o
  {
    var s1 := Once(s, t);
    if o + 1 < Stop(a, e, s.m.bs) {
      Reads(s1, t, a, e, h, slot, x, b, o + 1);
      assert s1.c[t := CCount(a, e, h, slot, x, b)] == s.c[t := CCount(a, e, h, slot, x, b)];
    } else {
      assert Steps(s1, t, 0) == s1;
    }
  }

  /** Counting the last elements of a block and clearing its entry. */
  lemma Finishes<T>(s: State<T>, t: nat, a: Pos, e: Pos, h: nat, f: nat, x: nat, b: nat)
    requires t < |s.c| && s.c[t] == CCount(a, e, h, f, x, b) && CanConsume(s.m, s.c[t]) && x < |s.m.entries|
    requires s.m.blocks[b].count + (Stop(a, e, s.m.bs) - a.o) == s.m.bs
    ensures var s' := Twice(s, t);
            && s'.c == s.c[t := CFree(a, e, h, f, b)] && Counted(s.m, s'.m) && s'.m.pool == s.m.pool
            && s'.m.blocks[b].count == s.m.bs
  {
    CountsLast(s, t, a, e, h, f, x, b);
    ClearsEntry(Once(s, t), t, a, e, h, f, x, b);
  }

  lemma CountsLast<T>(s: State<T>, t: nat, a: Pos, e: Pos, h: nat, f: nat, x: nat, b: nat)
    requires t < |s.c| && s.c[t] == CCount(a, e, h, f, x, b) && CanConsume(s.m, s.c[t]) && x < |s.m.entries|
    requires s.m.blocks[b].count + (Stop(a, e, s.m.bs) - a.o) == s.m.bs
    ensures var s' := Once(s, t);
            && s'.c == s.c[t := CNull(a, e, h, f, x, b)] && CanConsume(s'.m, s'.c[t]) && Counted(s.m, s'.m)
            && s'.m.pool == s.m.pool && s'.m.blocks[b].count == s.m.bs
  {
    CountsIn(s.m, a, e, b);
    assert ConsumeStep(s.m, s.c[t]) == (AddCount(s.m, a, e, b), CNull(a, e, h, f, x, b));
  }

  lemma CountsIn<T>(m: Mem<T>, a: Pos, e: Pos, b: nat)
    requires Shaped(m) && b < |m.blocks| && Stop(a, e, m.bs) >= a.o && a.q < |m.dn| == |m.life|
    requires m.blocks[b].count + (Stop(a, e, m.bs) - a.o) == m.bs
    ensures var m' := AddCount(m, a, e, b);
            && Shaped(m') && Counted(m, m') && m'.pool == m.pool && m'.blocks[b].count == m.bs
  {
  }

  lemma ClearsEntry<T>(s: State<T>, t: nat, a: Pos, e: Pos, h: nat, f: nat, x: nat, b: nat)
    requires t < |s.c| && s.c[t] == CNull(a, e, h, f, x, b) && CanConsume(s.m, s.c[t])
    ensures var s' := Once(s, t);
            && s'.c == s.c[t := CFree(a, e, h, f, b)] && Counted(s.m, s'.m) && s'.m.pool == s.m.pool
            && s'.m.blocks == s.m.blocks
  {
  }

  /** Sizes stay as they are. */
  predicate Counted<T>(m: Mem<T>, m': Mem<T>) {
    && m'.bs == m.bs && m'.headers == m.headers && |m'.entries| == |m.entries| && |m'.blocks| == |m.blocks|
    && |m'.dn| == |m.dn| && |m'.life| == |m.life| && m'.tail == m.tail
  }

  /** Dequeuer 1 has taken the whole block, while dequeuer 0 is about to count nothing in it. */
  predicate Taken<T>(s: State<T>, h: nat, f: nat, x: nat, b: nat) {
    && |s.c| >= 2 && s.c[0] == CCount(Pos(0, 0), Pos(0, 0), h, f, x, b) && CanConsume(s.m, s.c[0])
    && x < |s.m.entries| && s.m.blocks[b].count == s.m.bs && b in s.m.pool
  }

  lemma TakesAll<T>(s: State<T>, h: nat, f: nat, x: nat, b: nat)
    requires Shaped(s.m) && |s.m.dn| == |s.m.life| >= 1 && |s.c| >= 2
    requires h < |s.m.headers| && x < |s.m.entries| && b < |s.m.blocks| && s.m.blocks[b].count == 0
    requires s.c[0] == CCount(Pos(0, 0), Pos(0, 0), h, f, x, b) && s.c[1] == CCount(Pos(0, 0), Pos(1, 0), h, f, x, b)
    ensures Taken(Once(Twice(s, 1), 1), h, f, x, b)
  {
    Finishes(s, 1, Pos(0, 0), Pos(1, 0), h, f, x, b);
    GivesBack(Twice(s, 1), h, f, x, b);
  }

  lemma GivesBack<T>(s: State<T>, h: nat, f: nat, x: nat, b: nat)
    requires Shaped(s.m) && |s.m.dn| == |s.m.life| >= 1 && |s.c| >= 2
    requires h < |s.m.headers| && x < |s.m.entries| && b < |s.m.blocks| && s.m.blocks[b].count == s.m.bs
    requires s.c[0] == CCount(Pos(0, 0), Pos(0, 0), h, f, x, b) && s.c[1] == CFree(Pos(0, 0), Pos(1, 0), h, f, b)
    ensures Taken(Once(s, 1), h, f, x, b)
  {
  }

  // ---------------------------------------------------------------- given back twice

  /** Dequeuer 0 asks for nothing and looks the first block up. */
  lemma AsksNothing<T>(s0: State<T>, filled: seq<Action<T>>, bs: nat, n: nat) returns (looked: seq<Action<T>>)
    requires Filled(Run(s0, filled), bs, n, bs) && n >= 2
    ensures var s := Run(s0, filled);
            && OneBlock(s.m) && Hits(s.m)
            && Run(s0, looked) == s.(c := s.c[0 := CCount(Pos(0, 0), Pos(0, 0), Cur(s.m), Found(s.m), s.m.ent[0], s.m.hist[0])])
  {
    var s := Run(s0, filled);
    FindsFirst(s.m);
    looked := Grows(s0, filled, Claim(0, 0, Pos(0, 0)));
    assert Run(s0, looked) == s.(c := s.c[0 := CLoadIndex(Pos(0, 0), Pos(0, 0))]);
    LooksUp(Run(s0, looked), 0, Pos(0, 0));
    looked := GrowsTwice(s0, looked, 0);
    looked := GrowsTwice(s0, looked, 0);
  }

  /** Dequeuer 1 claims all elements and looks the block up. */
  lemma ClaimsAll<T>(s0: State<T>, before: seq<Action<T>>) returns (found: seq<Action<T>>)
    requires var s := Run(s0, before);
             && OneBlock(s.m) && Hits(s.m) && |s.c| >= 2 && s.m.head == Pos(0, 0) && s.m.tail == Pos(1, 0) && s.c[1] == CIdle
    ensures var s := Run(s0, before);
            Run(s0, found) == State(s.m.(head := Pos(1, 0)),
                                    s.c[1 := CRead(Pos(0, 0), Pos(1, 0), Cur(s.m), Found(s.m), s.m.ent[0], s.m.hist[0], 0)])
  {
    var s := Run(s0, before);
    found := Grows(s0, before, Claim(1, s.m.bs, Pos(1, 0)));
    ClaimsWhole(s);
    LooksUp(Run(s0, found), 1, Pos(1, 0));
    found := GrowsTwice(s0, found, 1);
    found := GrowsTwice(s0, found, 1);
  }

  lemma ClaimsWhole<T>(s: State<T>)
    requires OneBlock(s.m) && Hits(s.m) && |s.c| >= 2
    requires s.m.head == Pos(0, 0) && s.m.tail == Pos(1, 0) && s.c[1] == CIdle
    ensures var s1 := Do(s, Claim(1, s.m.bs, Pos(1, 0)));
            && s1 == State(s.m.(head := Pos(1, 0)), s.c[1 := CLoadIndex(Pos(0, 0), Pos(1, 0))])
            && OneBlock(s1.m) && Hits(s1.m)
  {
  }

  /** And moves them out. */
  lemma MovesAll<T>(s0: State<T>, before: seq<Action<T>>) returns (moved: seq<Action<T>>)
    requires var s := Run(s0, before);
             && OneBlock(s.m) && Hits(s.m) && |s.c| >= 2 && s.m.head == Pos(0, 0) && s.m.tail == Pos(1, 0) && s.c[1] == CIdle
    ensures var s := Run(s0, before);
            Run(s0, moved) == State(s.m.(head := Pos(1, 0)),
                                    s.c[1 := CCount(Pos(0, 0), Pos(1, 0), Cur(s.m), Found(s.m), s.m.ent[0], s.m.hist[0])])
  {
    var m := Run(s0, before).m;
    moved := ClaimsAll(s0, before);
    moved := ReadsOut(s0, moved, Cur(m), Found(m), m.ent[0], m.hist[0]);
  }

  lemma ReadsOut<T>(s0: State<T>, found: seq<Action<T>>, h: nat, f: nat, x: nat, b: nat) returns (moved: seq<Action<T>>)
    requires var s := Run(s0, found);
             && Shaped(s.m) && |s.m.dn| == |s.m.life| && |s.c| >= 2
             && s.c[1] == CRead(Pos(0, 0), Pos(1, 0), h, f, x, b, 0)
    ensures var s := Run(s0, found);
            Run(s0, moved) == s.(c := s.c[1 := CCount(Pos(0, 0), Pos(1, 0), h, f, x, b)])
  {
    var s := Run(s0, found);
    Reads(s, 1, Pos(0, 0), Pos(1, 0), h, f, x, b, 0);
    moved := GrowsBy(s0, found, 1, s.m.bs);
  }

  lemma TakesBlock<T>(s0: State<T>, before: seq<Action<T>>) returns (taken: seq<Action<T>>)
    requires var s := Run(s0, before);
             && OneBlock(s.m) && Hits(s.m) && |s.c| >= 2 && s.m.head == Pos(0, 0) && s.m.tail == Pos(1, 0) && s.c[1] == CIdle
             && s.c[0] == CCount(Pos(0, 0), Pos(0, 0), Cur(s.m), Found(s.m), s.m.ent[0], s.m.hist[0])
    ensures var m := Run(s0, before).m; Taken(Run(s0, taken), Cur(m), Found(m), m.ent[0], m.hist[0])
  {
    var m := Run(s0, before).m;
    var moved := MovesAll(s0, before);
    MovedShape(Run(s0, before), Run(s0, moved));
    taken := TakesMoved(s0, moved, Cur(m), Found(m), m.ent[0], m.hist[0]);
  }

  /** Dequeuer 1 is about to count the whole block. */
  lemma MovedShape<T>(s: State<T>, s': State<T>)
    requires OneBlock(s.m) && |s.c| >= 2
    requires s.c[0] == CCount(Pos(0, 0), Pos(0, 0), Cur(s.m), Found(s.m), s.m.ent[0], s.m.hist[0])
    requires s' == State(s.m.(head := Pos(1, 0)),
                         s.c[1 := CCount(Pos(0, 0), Pos(1, 0), Cur(s.m), Found(s.m), s.m.ent[0], s.m.hist[0])])
    ensures Shaped(s'.m) && |s'.m.dn| == |s'.m.life| == 1 && |s'.c| >= 2 && s'.m.headers == s.m.headers
    ensures s'.m.entries == s.m.entries && s'.m.blocks == s.m.blocks
    ensures s'.c[0] == s.c[0] && s'.c[1] == CCount(Pos(0, 0), Pos(1, 0), Cur(s.m), Found(s.m), s.m.ent[0], s.m.hist[0])
  {
  }

  lemma TakesMoved<T>(s0: State<T>, moved: seq<Action<T>>, h: nat, f: nat, x: nat, b: nat) returns (taken: seq<Action<T>>)
    requires var s := Run(s0, moved);
             && Shaped(s.m) && |s.m.dn| == |s.m.life| >= 1 && |s.c| >= 2
             && h < |s.m.headers| && x < |s.m.entries| && b < |s.m.blocks| && s.m.blocks[b].count == 0
             && s.c[0] == CCount(Pos(0, 0), Pos(0, 0), h, f, x, b) && s.c[1] == CCount(Pos(0, 0), Pos(1, 0), h, f, x, b)
    ensures Taken(Run(s0, taken), h, f, x, b)
  {
    TakesAll(Run(s0, moved), h, f, x, b);
    taken := GrowsTwice(s0, moved, 1);
    taken := Grows(s0, taken, Consume(1));
  }

  /** From every constructed queue, with two dequeuers, a bulk call that asks for nothing can be about to
      give back a block that is in the pool. */
  lemma GivesBackTwice<T>(bs: nat, capacity: nat, dequeuers: nat, v: T) returns (schedule: seq<Action<T>>)
    requires IndexFits(bs, capacity) && capacity >= 1 && bs < HALF && dequeuers >= 2
    ensures var s := Run(Start(bs, capacity, dequeuers), schedule);
            |s.c| >= 1 && s.c[0].CFree? && s.c[0].b in s.m.pool
  {
    var s0: State<T> := Start(bs, capacity, dequeuers);
    var filled := Fill(bs, capacity, dequeuers, bs, v);
    var looked := AsksNothing(s0, filled, bs, dequeuers);
    var taken := TakesBlock(s0, looked);
    var m := Run(s0, filled).m;
    Finishes(Run(s0, taken), 0, Pos(0, 0), Pos(0, 0), Cur(m), Found(m), m.ent[0], m.hist[0]);
    schedule := GrowsTwice(s0, taken, 0);
  }

  /** The block index is safe in all runs whose calls ask for at least so many elements, exactly if that
      is at least one. */
  lemma SafeExactly<T>(bs: nat, capacity: nat, dequeuers: nat, least: nat, v: T)
    requires IndexFits(bs, capacity) && capacity >= 1 && bs < HALF && dequeuers >= 2
    ensures (forall schedule: seq<Action<T>> ::
               AsksAtLeast(schedule, least) ==> Safe(Run(Start(bs, capacity, dequeuers), schedule))) <==> least >= 1
  {
    if least >= 1 {
      forall schedule: seq<Action<T>> | AsksAtLeast(schedule, least)
        ensures Safe(Run(Start(bs, capacity, dequeuers), schedule))
      {
        LookupsServed(bs, capacity, dequeuers, schedule);
      }
    } else {
      var schedule := GivesBackTwice(bs, capacity, dequeuers, v);
      var s := Run(Start(bs, capacity, dequeuers), schedule);
      assert !Served(s.m, s.c[0]);
      assert AsksAtLeast(schedule, least);
    }
  }
}
