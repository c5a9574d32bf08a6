/** The reference-counted lock-free free list of the concurrent queue.

    Every thread executes one atomic access to shared memory per step: a load, a store, a
    compare-and-swap or a fetch-and-add. A schedule interleaves the steps of any number of threads in
    any order; memory is sequentially consistent. */
module FreeList {
  const SHOULD_BE_ON_FREELIST: nat := 0x8000_0000
  const WORD: nat := 0x1_0000_0000

  datatype Link = Null | Node(id: nat)

  /** Where `add_knowing_refcount_is_zero` returns to: the end of `add`, or the loop of `try_get`
      with the head value that its failed compare-and-swap observed. */
  datatype Resume = ToCaller | ToLoop(seen: Link)

  datatype Pc =
    | Idle
    | AddFetch(n: nat)
    | GetLoadHead
    | GetLoadRefs(h: nat)
    | GetCasRefs(h: nat, r: Word)
    | GetLoadNext(h: nat)
    | GetCasHead(h: nat, nx: Link)
    | GetSubTwo(h: nat)
    | GetSubOne(h: nat, seen: Link)
    | PushLoadHead(n: nat, k: Resume)
    | PushStoreNext(n: nat, hd: Link, k: Resume)
    | PushStoreRefs(n: nat, hd: Link, k: Resume)
    | PushCasHead(n: nat, hd: Link, k: Resume)
    | PushGiveUp(n: nat, hd: Link, k: Resume)

  /** What a node is being used for. The code never reads it: it only records history, and decides
      which calls of `add` a client may make (a client adds only a node that it holds). */
  datatype Role =
    | Held            // outside the list, owned by a client
    | Adding(t: nat)  // passed to `add` by thread t, flag not yet set
    | Waiting         // flag set, left to the last thread that still references the node
    | Pushing(t: nat) // flag set, no reference left, thread t prepares to link it
    | Linking(t: nat) // reference count published as 1, thread t tries to swing the head
    | Linked
    | Taken(t: nat)   // unlinked by thread t, which has not returned it yet

  datatype State = State(
    head: Link,
    next: seq<Link>,
    refs: seq<Word>,
    pc: seq<Pc>,
    role: seq<Role>,
    list: seq<nat>)   // the linked nodes, first to last; like `role`, never read by the code

  datatype Action = Tick(t: nat) | CallAdd(t: nat, n: nat) | CallTryGet(t: nat)

  // ---------------------------------------------------------------- the code

  // 32-bit words: wrap-around addition and subtraction, and the two fields of `freeListRefs`.
  type Word = w: nat | w < WORD
  function Plus(a: Word, b: Word): Word { if a + b < WORD then a + b else a + b - WORD }
  function Minus(a: Word, b: Word): Word { if a >= b then a - b else a - b + WORD }
  function Count(r: Word): nat { if r < SHOULD_BE_ON_FREELIST then r else r - SHOULD_BE_ON_FREELIST }
  predicate Flagged(r: Word) { r >= SHOULD_BE_ON_FREELIST }

  function Loop(l: Link): Pc {
    if l.Null? then Idle else GetLoadRefs(l.id)
  }

  function Return(k: Resume): Pc {
    if k.ToCaller? then Idle else Loop(k.seen)
  }

  function Goto(s: State, t: nat, p: Pc): State
    requires t < |s.pc|
  {
    s.(pc := s.pc[t := p])
  }

  predicate InRange(s: State, p: Pc) {
    match p
    case Idle => true
    case GetLoadHead => true
    case AddFetch(n) => n < |s.refs|
    case GetLoadRefs(h) => h < |s.refs|
    case GetCasRefs(h, _) => h < |s.refs|
    case GetLoadNext(h) => h < |s.refs|
    case GetCasHead(h, nx) => h < |s.refs|
    case GetSubTwo(h) => h < |s.refs|
    case GetSubOne(h, _) => h < |s.refs|
    case PushLoadHead(n, _) => n < |s.refs|
    case PushStoreNext(n, _, _) => n < |s.refs|
    case PushStoreRefs(n, _, _) => n < |s.refs|
    case PushCasHead(n, _, _) => n < |s.refs|
    case PushGiveUp(n, _, _) => n < |s.refs|
  }

  predicate Shaped(s: State) {
    |s.next| == |s.refs| == |s.role|
  }

  // Each function is one atomic access by thread t and the private computation up to its next one.

  function FlagNode(s: State, t: nat, n: nat): State
    requires Shaped(s) && t < |s.pc| && n < |s.refs|
  {
    var r := s.refs[n];
    var s1 := s.(refs := s.refs[n := Plus(r, SHOULD_BE_ON_FREELIST)]);
    if r == 0
    then Goto(s1.(role := s.role[n := Pushing(t)]), t, PushLoadHead(n, ToCaller))
    else Goto(s1.(role := s.role[n := Waiting]), t, Idle)
  }

  function LoadRefs(s: State, t: nat, h: nat): State
    requires Shaped(s) && t < |s.pc| && h < |s.refs|
  {
    Goto(s, t, if Count(s.refs[h]) == 0 then GetLoadHead else GetCasRefs(h, s.refs[h]))
  }

  function CasRefs(s: State, t: nat, h: nat, r: Word): State
    requires Shaped(s) && t < |s.pc| && h < |s.refs|
  {
    if s.refs[h] == r
    then Goto(s.(refs := s.refs[h := Plus(r, 1)]), t, GetLoadNext(h))
    else Goto(s, t, GetLoadHead)
  }

  function CasHead(s: State, t: nat, h: nat, nx: Link): State
    requires Shaped(s) && t < |s.pc| && h < |s.refs|
  {
    if s.head == Node(h)
    then Goto(s.(head := nx, role := s.role[h := Taken(t)], list := if s.list == [] then [] else s.list[1..]),
              t, GetSubTwo(h))
    else Goto(s, t, GetSubOne(h, s.head))
  }

  function SubTwo(s: State, t: nat, h: nat): State
    requires Shaped(s) && t < |s.pc| && h < |s.refs|
  {
    Goto(s.(refs := s.refs[h := Minus(s.refs[h], 2)], role := s.role[h := Held]), t, Idle)
  }

  function SubOne(s: State, t: nat, h: nat, seen: Link): State
    requires Shaped(s) && t < |s.pc| && h < |s.refs|
  {
    var r := s.refs[h];
    var s1 := s.(refs := s.refs[h := Minus(r, 1)]);
    if r == SHOULD_BE_ON_FREELIST + 1
    then Goto(s1.(role := s.role[h := Pushing(t)]), t, PushLoadHead(h, ToLoop(seen)))
    else Goto(s1, t, Loop(seen))
  }

  function StoreNext(s: State, t: nat, n: nat, hd: Link, k: Resume): State
    requires Shaped(s) && t < |s.pc| && n < |s.refs|
  {
    Goto(s.(next := s.next[n := hd]), t, PushStoreRefs(n, hd, k))
  }

  function StoreRefs(s: State, t: nat, n: nat, hd: Link, k: Resume): State
    requires Shaped(s) && t < |s.pc| && n < |s.refs|
  {
    Goto(s.(refs := s.refs[n := 1], role := s.role[n := Linking(t)]), t, PushCasHead(n, hd, k))
  }

  function PushHead(s: State, t: nat, n: nat, hd: Link, k: Resume): State
    requires Shaped(s) && t < |s.pc| && n < |s.refs|
  {
    if s.head == hd
    then Goto(s.(head := Node(n), role := s.role[n := Linked], list := [n] + s.list), t, Return(k))
    else Goto(s, t, PushGiveUp(n, s.head, k))
  }

  function GiveUp(s: State, t: nat, n: nat, hd: Link, k: Resume): State
    requires Shaped(s) && t < |s.pc| && n < |s.refs|
  {
    var r := s.refs[n];
    var s1 := s.(refs := s.refs[n := Plus(r, SHOULD_BE_ON_FREELIST - 1)]);
    if r == 1
    then Goto(s1.(role := s.role[n := Pushing(t)]), t, PushStoreNext(n, hd, k))
    else Goto(s1.(role := s.role[n := Waiting]), t, Return(k))
  }

  function Step(s: State, t: nat): State
    requires Shaped(s) && t < |s.pc| && InRange(s, s.pc[t])
  {
    match s.pc[t]
    case Idle => s
    case AddFetch(n) => FlagNode(s, t, n)
    case GetLoadHead => Goto(s, t, Loop(s.head))
    case GetLoadRefs(h) => LoadRefs(s, t, h)
    case GetCasRefs(h, r) => CasRefs(s, t, h, r)
    case GetLoadNext(h) => Goto(s, t, GetCasHead(h, s.next[h]))
    case GetCasHead(h, nx) => CasHead(s, t, h, nx)
    case GetSubTwo(h) => SubTwo(s, t, h)
    case GetSubOne(h, seen) => SubOne(s, t, h, seen)
    case PushLoadHead(n, k) => Goto(s, t, PushStoreNext(n, s.head, k))
    case PushStoreNext(n, hd, k) => StoreNext(s, t, n, hd, k)
    case PushStoreRefs(n, hd, k) => StoreRefs(s, t, n, hd, k)
    case PushCasHead(n, hd, k) => PushHead(s, t, n, hd, k)
    case PushGiveUp(n, hd, k) => GiveUp(s, t, n, hd, k)
  }

  /** A call may be started by an idle thread only, and `add` only on a node that a client holds. */
  function Do(s: State, a: Action): State
  {
    match a
    case Tick(t) => if Shaped(s) && t < |s.pc| && InRange(s, s.pc[t]) then Step(s, t) else s
    case CallAdd(t, n) =>
      if t < |s.pc| && s.pc[t] == Idle && n < |s.role| && s.role[n] == Held
      then Goto(s.(role := s.role[n := Adding(t)]), t, AddFetch(n))
      else s
    case CallTryGet(t) =>
      if t < |s.pc| && s.pc[t] == Idle then Goto(s, t, GetLoadHead) else s
  }

  function Start(nodes: nat, threads: nat): State {
    State(Null, seq(nodes, i => Null), seq(nodes, i => 0), seq(threads, i => Idle), seq(nodes, i => Held), [])
  }

  // ---------------------------------------------------------------- the invariant

  /** Thread program counters that hold a counted reference to node n. */
  predicate Refers(p: Pc, n: nat) {
    match p
    case GetLoadNext(h) => h == n
    case GetCasHead(h, _) => h == n
    case GetSubTwo(h) => h == n
    case GetSubOne(h, _) => h == n
    case _ => false
  }

  predicate ValidLink(s: State, l: Link) { l.Node? ==> l.id < |s.refs| }
  predicate ValidResume(s: State, k: Resume) { k.ToLoop? ==> ValidLink(s, k.seen) }

  predicate ThreadOk(s: State, t: nat)
    requires Shaped(s) && t < |s.pc|
  {
    InRange(s, s.pc[t]) &&
    match s.pc[t]
    case AddFetch(n) => s.role[n] == Adding(t)
    case GetCasRefs(h, r) => Count(r) != 0
    case GetCasHead(h, nx) => s.next[h] == nx
    case GetSubTwo(h) => s.role[h] == Taken(t)
    case GetSubOne(h, seen) => ValidLink(s, seen)
    case PushLoadHead(n, k) => s.role[n] == Pushing(t) && ValidResume(s, k)
    case PushStoreNext(n, hd, k) => s.role[n] == Pushing(t) && ValidLink(s, hd) && ValidResume(s, k)
    case PushStoreRefs(n, hd, k) => s.role[n] == Pushing(t) && s.next[n] == hd && ValidResume(s, k)
    case PushCasHead(n, hd, k) => s.role[n] == Linking(t) && s.next[n] == hd && ValidResume(s, k)
    case PushGiveUp(n, hd, k) => s.role[n] == Linking(t) && ValidLink(s, hd) && ValidResume(s, k)
    case _ => true
  }

  predicate RoleOk(s: State, n: nat)
    requires Shaped(s) && n < |s.refs|
  {
    match s.role[n]
    case Adding(t) => t < |s.pc| && s.pc[t] == AddFetch(n)
    case Pushing(t) =>
      t < |s.pc| && (s.pc[t].PushLoadHead? || s.pc[t].PushStoreNext? || s.pc[t].PushStoreRefs?) && s.pc[t].n == n
    case Linking(t) => t < |s.pc| && (s.pc[t].PushCasHead? || s.pc[t].PushGiveUp?) && s.pc[t].n == n
    case Taken(t) => t < |s.pc| && s.pc[t] == GetSubTwo(n)
    case _ => true
  }

  /** The word `freeListRefs` of node n, determined by the node's role and its referrers. */
  predicate RefsOk(s: State, n: nat)
    requires Shaped(s) && n < |s.refs|
  {
    var c := RefCount(s.pc, n);
    match s.role[n]
    case Held => s.refs[n] == c
    case Adding(_) => s.refs[n] == c
    case Waiting => c >= 1 && s.refs[n] == SHOULD_BE_ON_FREELIST + c
    case Pushing(_) => c == 0 && s.refs[n] == SHOULD_BE_ON_FREELIST
    case Linking(_) => s.refs[n] == c + 1
    case Linked => s.refs[n] == c + 1
    case Taken(_) => s.refs[n] == c + 1
  }

  function LinkAt(list: seq<nat>, i: nat): Link {
    if i < |list| then Node(list[i]) else Null
  }

  predicate Distinct(list: seq<nat>) {
    forall i, j :: 0 <= i < j < |list| ==> list[i] != list[j]
  }

  /** Following `freeListNext` from the head visits exactly `list`, and `list` is the Linked nodes. */
  predicate ChainOk(s: State)
    requires Shaped(s)
  {
    && s.head == LinkAt(s.list, 0)
    && Distinct(s.list)
    && (forall i :: 0 <= i < |s.list| ==> s.list[i] < |s.refs| && s.role[s.list[i]] == Linked)
    && (forall i :: 0 <= i < |s.list| ==> s.next[s.list[i]] == LinkAt(s.list, i + 1))
    && (forall n :: 0 <= n < |s.refs| && s.role[n] == Linked ==> n in s.list)
  }

  predicate Inv(s: State) {
    && Shaped(s)
    && |s.pc| < SHOULD_BE_ON_FREELIST - 2
    && (forall n :: 0 <= n < |s.next| ==> ValidLink(s, s.next[n]))
    && ChainOk(s)
    && (forall t :: 0 <= t < |s.pc| ==> ThreadOk(s, t))
    && (forall n :: 0 <= n < |s.refs| ==> RoleOk(s, n))
    && (forall n :: 0 <= n < |s.refs| ==> RefsOk(s, n))
  }

  // ---------------------------------------------------------------- reference counting

  function One(b: bool): nat { if b then 1 else 0 }

  /** The number of threads that hold a counted reference to node n. */
  function RefCount(pc: seq<Pc>, n: nat): (c: nat)
    ensures c <= |pc|
  {
    if pc == [] then 0 else RefCount(pc[..|pc| - 1], n) + One(Refers(pc[|pc| - 1], n))
  }

  lemma {:induction false} RefCountMoves(pc: seq<Pc>, t: nat, p: Pc, n: nat)
    requires t < |pc|
    ensures RefCount(pc[t := p], n) == RefCount(pc, n) - One(Refers(pc[t], n)) + One(Refers(p, n))
    ensures Refers(pc[t], n) ==> RefCount(pc, n) >= 1
  {
    var k := |pc| - 1;
    if t < k {
      RefCountMoves(pc[..k], t, p, n);
      assert pc[t := p][..k] == pc[..k][t := p];
    } else {
      assert pc[t := p][..k] == pc[..k];
    }
  }

  lemma {:induction false} NoReferrers(pc: seq<Pc>, n: nat)
    requires forall t :: 0 <= t < |pc| ==> pc[t] == Idle
    ensures RefCount(pc, n) == 0
  {
    if pc != [] { NoReferrers(pc[..|pc| - 1], n); }
  }

  // ---------------------------------------------------------------- every step keeps the invariant

  /** The node whose words a thread at p may write next, if any. */
  function Target(p: Pc): Link {
    match p
    case Idle => Null
    case GetLoadHead => Null
    case AddFetch(n) => Node(n)
    case GetLoadRefs(h) => Node(h)
    case GetCasRefs(h, _) => Node(h)
    case GetLoadNext(h) => Node(h)
    case GetCasHead(h, _) => Node(h)
    case GetSubTwo(h) => Node(h)
    case GetSubOne(h, _) => Node(h)
    case PushLoadHead(n, _) => Node(n)
    case PushStoreNext(n, _, _) => Node(n)
    case PushStoreRefs(n, _, _) => Node(n)
    case PushCasHead(n, _, _) => Node(n)
    case PushGiveUp(n, _, _) => Node(n)
  }

  predicate OwnedByOther(r: Role, t: nat) {
    match r
    case Adding(u) => u != t
    case Pushing(u) => u != t
    case Linking(u) => u != t
    case Taken(u) => u != t
    case _ => false
  }

  /** s' is s after thread t moved and wrote words of node m only. */
  ghost predicate Moved(s: State, s': State, t: nat, m: nat) {
    && Shaped(s) && Shaped(s')
    && |s'.refs| == |s.refs| && |s'.pc| == |s.pc| && t < |s.pc|
    && s'.pc == s.pc[t := s'.pc[t]]
    && (forall n :: 0 <= n < |s.refs| && n != m ==>
          s'.refs[n] == s.refs[n] && s'.role[n] == s.role[n] && s'.next[n] == s.next[n])
    && (s.pc[t].Idle? || s.pc[t].GetLoadHead? || Target(s.pc[t]) == Node(m))
    && (forall n: nat :: Refers(s'.pc[t], n) ==> n == m)
  }

  lemma OtherThread(s: State, s': State, t: nat, m: nat, u: nat)
    requires Moved(s, s', t, m) && m < |s.refs| && u < |s.pc| && u != t
    requires ThreadOk(s, u) && ((s'.role[m] == s.role[m] && s'.next[m] == s.next[m]) || !OwnedByOther(s.role[m], t))
    requires s'.next[m] == s.next[m] || RefCount(s.pc, m) == 0
    ensures ThreadOk(s', u)
  {
    RefCountMoves(s.pc, u, s.pc[u], m);
  }

  lemma OtherNode(s: State, s': State, t: nat, m: nat, n: nat)
    requires Moved(s, s', t, m) && n < |s.refs| && n != m
    requires RoleOk(s, n) && RefsOk(s, n)
    ensures RoleOk(s', n) && RefsOk(s', n)
  {
    RefCountMoves(s.pc, t, s'.pc[t], n);
  }

  /** What remains to be shown of a step of thread t that writes words of node m only. */
  lemma MoveKeeps(s: State, s': State, t: nat, m: nat)
    requires Inv(s) && Moved(s, s', t, m) && m < |s.refs|
    requires (s'.role[m] == s.role[m] && s'.next[m] == s.next[m]) || !OwnedByOther(s.role[m], t)
    requires s'.next[m] == s.next[m] || RefCount(s.pc, m) == 0
    requires ThreadOk(s', t) && RoleOk(s', m) && RefsOk(s', m) && ChainOk(s') && ValidLink(s', s'.next[m])
    ensures Inv(s')
  {
    forall u | 0 <= u < |s.pc| ensures ThreadOk(s', u) {
      if u != t { OtherThread(s, s', t, m, u); }
    }
    forall n | 0 <= n < |s.refs| ensures RoleOk(s', n) && RefsOk(s', n) {
      if n != m { OtherNode(s, s', t, m, n); }
    }
  }

  lemma FlagNodeKeeps(s: State, t: nat, n: nat)
    requires Inv(s) && t < |s.pc| && s.pc[t] == AddFetch(n) && ThreadOk(s, t)
    ensures Inv(FlagNode(s, t, n))
  {
    var s' := FlagNode(s, t, n);
    assert RefsOk(s, n);
    RefCountMoves(s.pc, t, s'.pc[t], n);
    MoveKeeps(s, s', t, n);
  }

  lemma LoadHeadKeeps(s: State, t: nat)
    requires Inv(s) && t < |s.pc| && (s.pc[t] == GetLoadHead || s.pc[t] == Idle)
    ensures Inv(Goto(s, t, Loop(s.head))) && Inv(Goto(s, t, GetLoadHead))
  {
    forall p | p in {Loop(s.head), GetLoadHead} ensures Inv(Goto(s, t, p)) {
      var s' := Goto(s, t, p);
      forall u | 0 <= u < |s.pc| ensures ThreadOk(s', u) {
        assert u != t ==> ThreadOk(s, u);
      }
      forall m | 0 <= m < |s.refs| ensures RoleOk(s', m) && RefsOk(s', m) {
        assert RoleOk(s, m) && RefsOk(s, m);
        RefCountMoves(s.pc, t, p, m);
      }
    }
  }

  lemma LoadRefsKeeps(s: State, t: nat, h: nat)
    requires Inv(s) && t < |s.pc| && s.pc[t] == GetLoadRefs(h) && ThreadOk(s, t)
    ensures Inv(LoadRefs(s, t, h))
  {
    PlainMoveKeeps(s, t, LoadRefs(s, t, h).pc[t], h);
  }

  lemma LoadNextKeeps(s: State, t: nat, h: nat)
    requires Inv(s) && t < |s.pc| && s.pc[t] == GetLoadNext(h) && ThreadOk(s, t)
    ensures Inv(Goto(s, t, GetCasHead(h, s.next[h])))
  {
    PlainMoveKeeps(s, t, GetCasHead(h, s.next[h]), h);
  }

  lemma PushLoadHeadKeeps(s: State, t: nat, n: nat, k: Resume)
    requires Inv(s) && t < |s.pc| && s.pc[t] == PushLoadHead(n, k) && ThreadOk(s, t)
    ensures Inv(Goto(s, t, PushStoreNext(n, s.head, k)))
  {
    assert RoleOk(s, n);
    PlainMoveKeeps(s, t, PushStoreNext(n, s.head, k), n);
  }

  /** A step that only moves the program counter of thread t, holding the same references. */
  lemma PlainMoveKeeps(s: State, t: nat, p: Pc, m: nat)
    requires Inv(s) && t < |s.pc| && Target(s.pc[t]) == Node(m) && m < |s.refs|
    requires Refers(p, m) <==> Refers(s.pc[t], m)
    requires forall n: nat :: Refers(p, n) ==> n == m
    requires ThreadOk(Goto(s, t, p), t) && (RoleOk(s, m) ==> RoleOk(Goto(s, t, p), m))
    ensures Inv(Goto(s, t, p))
  {
    assert RefsOk(s, m) && RoleOk(s, m) && ValidLink(s, s.next[m]);
    RefCountMoves(s.pc, t, p, m);
    MoveKeeps(s, Goto(s, t, p), t, m);
  }

  lemma CasRefsKeeps(s: State, t: nat, h: nat, r: Word)
    requires Inv(s) && t < |s.pc| && s.pc[t] == GetCasRefs(h, r) && ThreadOk(s, t)
    ensures Inv(CasRefs(s, t, h, r))
  {
    if s.refs[h] == r { CasRefsSucceeds(s, t, h, r); } else { CasRefsFails(s, t, h, r); }
  }

  lemma CasRefsSucceeds(s: State, t: nat, h: nat, r: Word)
    requires Inv(s) && t < |s.pc| && s.pc[t] == GetCasRefs(h, r) && ThreadOk(s, t) && s.refs[h] == r
    ensures Inv(CasRefs(s, t, h, r))
  {
    var s' := CasRefs(s, t, h, r);
    assert RefsOk(s, h) && RoleOk(s, h) && ValidLink(s, s.next[h]);
    RefCountMoves(s.pc, t, s'.pc[t], h);
    MoveKeeps(s, s', t, h);
  }

  lemma CasRefsFails(s: State, t: nat, h: nat, r: Word)
    requires Inv(s) && t < |s.pc| && s.pc[t] == GetCasRefs(h, r) && ThreadOk(s, t) && s.refs[h] != r
    ensures Inv(CasRefs(s, t, h, r))
  {
    var s' := CasRefs(s, t, h, r);
    assert RefsOk(s, h) && RoleOk(s, h) && ValidLink(s, s.next[h]);
    RefCountMoves(s.pc, t, s'.pc[t], h);
    MoveKeeps(s, s', t, h);
  }

  lemma CasHeadKeeps(s: State, t: nat, h: nat, nx: Link)
    requires Inv(s) && t < |s.pc| && s.pc[t] == GetCasHead(h, nx) && ThreadOk(s, t)
    ensures Inv(CasHead(s, t, h, nx))
  {
    if s.head == Node(h) { CasHeadSucceeds(s, t, h, nx); } else { CasHeadFails(s, t, h, nx); }
  }

  lemma CasHeadSucceeds(s: State, t: nat, h: nat, nx: Link)
    requires Inv(s) && t < |s.pc| && s.pc[t] == GetCasHead(h, nx) && ThreadOk(s, t) && s.head == Node(h)
    ensures Inv(CasHead(s, t, h, nx))
  {
    var s' := CasHead(s, t, h, nx);
    assert RefsOk(s, h) && RoleOk(s, h) && ValidLink(s, s.next[h]);
    RefCountMoves(s.pc, t, s'.pc[t], h);
    TakeHeadChain(s, t, h, nx);
    MoveKeeps(s, s', t, h);
  }

  lemma CasHeadFails(s: State, t: nat, h: nat, nx: Link)
    requires Inv(s) && t < |s.pc| && s.pc[t] == GetCasHead(h, nx) && ThreadOk(s, t) && s.head != Node(h)
    ensures Inv(CasHead(s, t, h, nx))
  {
    var s' := CasHead(s, t, h, nx);
    assert RefsOk(s, h) && RoleOk(s, h) && ValidLink(s, s.next[h]);
    RefCountMoves(s.pc, t, s'.pc[t], h);
    MoveKeeps(s, s', t, h);
  }

  /** Unlinking the head installs the second node of the list: no ABA. */
  lemma TakeHeadChain(s: State, t: nat, h: nat, nx: Link)
    requires Inv(s) && t < |s.pc| && h < |s.refs| && s.head == Node(h) && s.next[h] == nx
    ensures ChainOk(CasHead(s, t, h, nx)) && s.role[h] == Linked && nx == LinkAt(s.list, 1)
  {
    var s' := CasHead(s, t, h, nx);
    assert s.list[0] == h;
    forall i | 0 <= i < |s'.list| ensures s'.list[i] == s.list[i + 1] && s'.list[i] != h {
    }
    forall n | 0 <= n < |s.refs| && s'.role[n] == Linked ensures n in s'.list {
      var i :| 0 <= i < |s.list| && s.list[i] == n;
      assert s'.list[i - 1] == n;
    }
  }

  lemma SubTwoKeeps(s: State, t: nat, h: nat)
    requires Inv(s) && t < |s.pc| && s.pc[t] == GetSubTwo(h) && ThreadOk(s, t)
    ensures Inv(SubTwo(s, t, h))
  {
    var s' := SubTwo(s, t, h);
    assert RefsOk(s, h);
    RefCountMoves(s.pc, t, s'.pc[t], h);
    MoveKeeps(s, s', t, h);
  }

  lemma SubOneKeeps(s: State, t: nat, h: nat, seen: Link)
    requires Inv(s) && t < |s.pc| && s.pc[t] == GetSubOne(h, seen) && ThreadOk(s, t)
    ensures Inv(SubOne(s, t, h, seen))
  {
    if s.refs[h] == SHOULD_BE_ON_FREELIST + 1 { SubOneLast(s, t, h, seen); } else { SubOneOther(s, t, h, seen); }
  }

  lemma SubOneLast(s: State, t: nat, h: nat, seen: Link)
    requires Inv(s) && t < |s.pc| && s.pc[t] == GetSubOne(h, seen) && ThreadOk(s, t) && s.refs[h] == SHOULD_BE_ON_FREELIST + 1
    ensures Inv(SubOne(s, t, h, seen))
  {
    var s' := SubOne(s, t, h, seen);
    assert RefsOk(s, h) && RoleOk(s, h);
    RefCountMoves(s.pc, t, s'.pc[t], h);
    MoveKeeps(s, s', t, h);
  }

  lemma SubOneOther(s: State, t: nat, h: nat, seen: Link)
    requires Inv(s) && t < |s.pc| && s.pc[t] == GetSubOne(h, seen) && ThreadOk(s, t) && s.refs[h] != SHOULD_BE_ON_FREELIST + 1
    ensures Inv(SubOne(s, t, h, seen))
  {
    var s' := SubOne(s, t, h, seen);
    assert RefsOk(s, h) && RoleOk(s, h);
    RefCountMoves(s.pc, t, s'.pc[t], h);
    MoveKeeps(s, s', t, h);
  }

  lemma StoreNextKeeps(s: State, t: nat, n: nat, hd: Link, k: Resume)
    requires Inv(s) && t < |s.pc| && s.pc[t] == PushStoreNext(n, hd, k) && ThreadOk(s, t)
    ensures Inv(StoreNext(s, t, n, hd, k))
  {
    var s' := StoreNext(s, t, n, hd, k);
    assert RefsOk(s, n);
    RefCountMoves(s.pc, t, s'.pc[t], n);
    MoveKeeps(s, s', t, n);
  }

  lemma StoreRefsKeeps(s: State, t: nat, n: nat, hd: Link, k: Resume)
    requires Inv(s) && t < |s.pc| && s.pc[t] == PushStoreRefs(n, hd, k) && ThreadOk(s, t)
    ensures Inv(StoreRefs(s, t, n, hd, k))
  {
    var s' := StoreRefs(s, t, n, hd, k);
    assert RefsOk(s, n) && ValidLink(s, s.next[n]);
    RefCountMoves(s.pc, t, s'.pc[t], n);
    MoveKeeps(s, s', t, n);
  }

  lemma PushHeadKeeps(s: State, t: nat, n: nat, hd: Link, k: Resume)
    requires Inv(s) && t < |s.pc| && s.pc[t] == PushCasHead(n, hd, k) && ThreadOk(s, t)
    ensures Inv(PushHead(s, t, n, hd, k))
  {
    if s.head == hd { PushHeadSucceeds(s, t, n, hd, k); } else { PushHeadFails(s, t, n, hd, k); }
  }

  lemma PushHeadSucceeds(s: State, t: nat, n: nat, hd: Link, k: Resume)
    requires Inv(s) && t < |s.pc| && s.pc[t] == PushCasHead(n, hd, k) && ThreadOk(s, t) && s.head == hd
    ensures Inv(PushHead(s, t, n, hd, k))
  {
    var s' := PushHead(s, t, n, hd, k);
    assert RefsOk(s, n) && ValidLink(s, s.next[n]);
    RefCountMoves(s.pc, t, s'.pc[t], n);
    PushHeadChain(s, t, n, hd, k);
    MoveKeeps(s, s', t, n);
  }

  lemma PushHeadFails(s: State, t: nat, n: nat, hd: Link, k: Resume)
    requires Inv(s) && t < |s.pc| && s.pc[t] == PushCasHead(n, hd, k) && ThreadOk(s, t) && s.head != hd
    ensures Inv(PushHead(s, t, n, hd, k))
  {
    var s' := PushHead(s, t, n, hd, k);
    assert RefsOk(s, n) && ValidLink(s, s.next[n]);
    RefCountMoves(s.pc, t, s'.pc[t], n);
    MoveKeeps(s, s', t, n);
  }

  lemma PushHeadChain(s: State, t: nat, n: nat, hd: Link, k: Resume)
    requires Inv(s) && t < |s.pc| && n < |s.refs| && s.head == hd && s.next[n] == hd && s.role[n] != Linked
    ensures ChainOk(PushHead(s, t, n, hd, k))
  {
    var s' := PushHead(s, t, n, hd, k);
    assert n !in s.list;
    assert forall i :: 0 < i < |s'.list| ==> s'.list[i] == s.list[i - 1];
    forall i | 0 <= i < |s'.list| ensures s'.next[s'.list[i]] == LinkAt(s'.list, i + 1) {
      if i > 0 { assert LinkAt(s'.list, i + 1) == LinkAt(s.list, i); }
    }
    forall m | 0 <= m < |s.refs| && s'.role[m] == Linked ensures m in s'.list {
      assert m == n || m in s.list;
    }
  }

  lemma GiveUpKeeps(s: State, t: nat, n: nat, hd: Link, k: Resume)
    requires Inv(s) && t < |s.pc| && s.pc[t] == PushGiveUp(n, hd, k) && ThreadOk(s, t)
    ensures Inv(GiveUp(s, t, n, hd, k))
  {
    if s.refs[n] == 1 { GiveUpLast(s, t, n, hd, k); } else { GiveUpOther(s, t, n, hd, k); }
  }

  lemma GiveUpLast(s: State, t: nat, n: nat, hd: Link, k: Resume)
    requires Inv(s) && t < |s.pc| && s.pc[t] == PushGiveUp(n, hd, k) && ThreadOk(s, t) && s.refs[n] == 1
    ensures Inv(GiveUp(s, t, n, hd, k))
  {
    var s' := GiveUp(s, t, n, hd, k);
    assert RefsOk(s, n) && ValidLink(s, s.next[n]);
    RefCountMoves(s.pc, t, s'.pc[t], n);
    MoveKeeps(s, s', t, n);
  }

  lemma GiveUpOther(s: State, t: nat, n: nat, hd: Link, k: Resume)
    requires Inv(s) && t < |s.pc| && s.pc[t] == PushGiveUp(n, hd, k) && ThreadOk(s, t) && s.refs[n] != 1
    ensures Inv(GiveUp(s, t, n, hd, k))
  {
    var s' := GiveUp(s, t, n, hd, k);
    assert RefsOk(s, n) && ValidLink(s, s.next[n]);
    RefCountMoves(s.pc, t, s'.pc[t], n);
    MoveKeeps(s, s', t, n);
  }

  lemma StepKeeps(s: State, t: nat)
    requires Inv(s) && t < |s.pc|
    ensures ThreadOk(s, t) && Inv(Step(s, t))
  {
    assert ThreadOk(s, t);
    match s.pc[t]
    case Idle =>
    case AddFetch(n) => FlagNodeKeeps(s, t, n);
    case GetLoadHead => LoadHeadKeeps(s, t);
    case GetLoadRefs(h) => LoadRefsKeeps(s, t, h);
    case GetCasRefs(h, r) => CasRefsKeeps(s, t, h, r);
    case GetLoadNext(h) => LoadNextKeeps(s, t, h);
    case GetCasHead(h, nx) => CasHeadKeeps(s, t, h, nx);
    case GetSubTwo(h) => SubTwoKeeps(s, t, h);
    case GetSubOne(h, seen) => SubOneKeeps(s, t, h, seen);
    case PushLoadHead(n, k) => PushLoadHeadKeeps(s, t, n, k);
    case PushStoreNext(n, hd, k) => StoreNextKeeps(s, t, n, hd, k);
    case PushStoreRefs(n, hd, k) => StoreRefsKeeps(s, t, n, hd, k);
    case PushCasHead(n, hd, k) => PushHeadKeeps(s, t, n, hd, k);
    case PushGiveUp(n, hd, k) => GiveUpKeeps(s, t, n, hd, k);
  }

  lemma CallAddKeeps(s: State, t: nat, n: nat)
    requires Inv(s) && t < |s.pc| && s.pc[t] == Idle && n < |s.role| && s.role[n] == Held
    ensures Inv(Goto(s.(role := s.role[n := Adding(t)]), t, AddFetch(n)))
  {
    var s' := Goto(s.(role := s.role[n := Adding(t)]), t, AddFetch(n));
    assert RefsOk(s, n) && ValidLink(s, s.next[n]);
    RefCountMoves(s.pc, t, s'.pc[t], n);
    MoveKeeps(s, s', t, n);
  }

  lemma DoKeeps(s: State, a: Action)
    requires Inv(s)
    ensures Inv(Do(s, a))
  {
    match a
    case Tick(t) => if t < |s.pc| { StepKeeps(s, t); }
    case CallAdd(t, n) =>
      if t < |s.pc| && s.pc[t] == Idle && n < |s.role| && s.role[n] == Held { CallAddKeeps(s, t, n); }
    case CallTryGet(t) => if t < |s.pc| && s.pc[t] == Idle { LoadHeadKeeps(s, t); }
  }

  // ---------------------------------------------------------------- all runs

  function Run(s: State, schedule: seq<Action>): State {
    if schedule == [] then s else Do(Run(s, schedule[..|schedule| - 1]), schedule[|schedule| - 1])
  }

  lemma StartInv(nodes: nat, threads: nat)
    requires threads < SHOULD_BE_ON_FREELIST - 2
    ensures Inv(Start(nodes, threads))
  {
    var s := Start(nodes, threads);
    forall n | 0 <= n < nodes ensures RefsOk(s, n) {
      NoReferrers(s.pc, n);
    }
  }

  lemma {:induction false} RunInv(nodes: nat, threads: nat, schedule: seq<Action>)
    requires threads < SHOULD_BE_ON_FREELIST - 2
    ensures Inv(Run(Start(nodes, threads), schedule))
  {
    if schedule == [] {
      StartInv(nodes, threads);
    } else {
      RunInv(nodes, threads, schedule[..|schedule| - 1]);
      DoKeeps(Run(Start(nodes, threads), schedule[..|schedule| - 1]), schedule[|schedule| - 1]);
    }
  }

  /** What the free list promises of one state. */
  ghost predicate Safe(s: State) {
    && Shaped(s)
    // the list is a chain of distinct nodes, none of which a client holds
    && ChainOk(s)
    && (forall n :: n in s.list ==> s.role[n] != Held)
    // a node being returned by try_get is off the list, its flag is clear (the assertion after the
    // successful compare-and-swap), no client holds it and no other thread is returning it
    && (forall t :: 0 <= t < |s.pc| && s.pc[t].GetSubTwo? ==>
          var h := s.pc[t].h;
          h < |s.refs| && h !in s.list && !Flagged(s.refs[h]) && s.role[h] != Held)
    && (forall t, u :: 0 <= t < u < |s.pc| && s.pc[t].GetSubTwo? && s.pc[u].GetSubTwo? ==> s.pc[t].h != s.pc[u].h)
    // a compare-and-swap of the head that would succeed now installs the second node of the list
    && (forall t :: 0 <= t < |s.pc| && s.pc[t].GetCasHead? && s.head == Node(s.pc[t].h) ==>
          s.pc[t].nx == LinkAt(s.list, 1))
    // at most one thread is linking a given node, and that node is off the list
    && (forall t :: 0 <= t < |s.pc| && s.pc[t].PushCasHead? ==> s.pc[t].n !in s.list)
    && (forall t, u :: 0 <= t < u < |s.pc| && s.pc[t].PushCasHead? && s.pc[u].PushCasHead? ==>
          s.pc[t].n != s.pc[u].n)
  }

  lemma InvSafe(s: State)
    requires Inv(s)
    ensures Safe(s)
  {
    forall t | 0 <= t < |s.pc| && s.pc[t].GetSubTwo?
      ensures s.pc[t].h < |s.refs| && s.pc[t].h !in s.list && !Flagged(s.refs[s.pc[t].h]) && s.role[s.pc[t].h] == Taken(t)
    {
      assert ThreadOk(s, t) && RefsOk(s, s.pc[t].h);
    }
    forall t | 0 <= t < |s.pc| && s.pc[t].PushCasHead?
      ensures s.pc[t].n < |s.refs| && s.role[s.pc[t].n] == Linking(t)
    {
      assert ThreadOk(s, t);
    }
    forall t | 0 <= t < |s.pc| && s.pc[t].GetCasHead? && s.head == Node(s.pc[t].h)
      ensures s.pc[t].nx == LinkAt(s.list, 1)
    {
      assert ThreadOk(s, t);
      TakeHeadChain(s, t, s.pc[t].h, s.pc[t].nx);
    }
  }

  /** Safety in every interleaving of any number of `add` and `try_get` calls. */
  lemma AlwaysSafe(nodes: nat, threads: nat, schedule: seq<Action>)
    requires threads < SHOULD_BE_ON_FREELIST - 2
    ensures Safe(Run(Start(nodes, threads), schedule))
  {
    RunInv(nodes, threads, schedule);
    InvSafe(Run(Start(nodes, threads), schedule));
  }

  /** No node is lost: when no call is in progress, every node is either held by a client, with
      reference count 0, or on the list, with reference count 1. */
  lemma NothingLost(nodes: nat, threads: nat, schedule: seq<Action>, n: nat)
    requires threads < SHOULD_BE_ON_FREELIST - 2 && n < nodes
    requires Quiet(Run(Start(nodes, threads), schedule))
    ensures var s := Run(Start(nodes, threads), schedule);
            && |s.refs| == |s.role| == nodes
            && (n in s.list <==> s.role[n] != Held)
            && s.refs[n] == if n in s.list then 1 else 0
  {
    RunInv(nodes, threads, schedule);
    RunShape(nodes, threads, schedule);
    QuietNode(Run(Start(nodes, threads), schedule), n);
  }

  lemma QuietNode(s: State, n: nat)
    requires Inv(s) && Quiet(s) && n < |s.role|
    ensures |s.refs| == |s.role| && (n in s.list <==> s.role[n] != Held) && s.refs[n] == if n in s.list then 1 else 0
  {
    assert RefsOk(s, n) && RoleOk(s, n);
    NoReferrers(s.pc, n);
  }

  lemma StepShape(s: State, t: nat)
    requires Shaped(s) && t < |s.pc| && InRange(s, s.pc[t])
    ensures var s' := Step(s, t);
            |s'.refs| == |s.refs| && |s'.role| == |s.role| && |s'.next| == |s.next| && |s'.pc| == |s.pc|
  {
  }

  lemma DoShape(s: State, a: Action)
    ensures var s' := Do(s, a);
            |s'.refs| == |s.refs| && |s'.role| == |s.role| && |s'.next| == |s.next| && |s'.pc| == |s.pc|
  {
    if a.Tick? && Shaped(s) && a.t < |s.pc| && InRange(s, s.pc[a.t]) { StepShape(s, a.t); }
  }

  lemma {:induction false} RunShape(nodes: nat, threads: nat, schedule: seq<Action>)
    ensures var s := Run(Start(nodes, threads), schedule);
            |s.refs| == |s.role| == |s.next| == nodes && |s.pc| == threads
  {
    if schedule != [] {
      RunShape(nodes, threads, schedule[..|schedule| - 1]);
      DoShape(Run(Start(nodes, threads), schedule[..|schedule| - 1]), schedule[|schedule| - 1]);
    }
  }

  predicate Quiet(s: State) { forall t :: 0 <= t < |s.pc| ==> s.pc[t] == Idle }

  /** Thread t executes k steps and nobody else moves. */
  function Alone(s: State, t: nat, k: nat): State
    decreases k
  {
    if k == 0 then s else Alone(Do(s, Tick(t)), t, k - 1)
  }

  /** Undisturbed, `try_get` hands out the first node of the list, wherever other threads have stopped. */
  lemma GetAlone(s: State, t: nat)
    requires Inv(s) && t < |s.pc| && s.pc[t] == Idle && s.list != []
    ensures s.list[0] < |s.role|
    ensures var s' := Alone(Do(s, CallTryGet(t)), t, 6);
            t < |s'.pc| && s'.pc[t] == Idle && s'.list == s.list[1..] && s'.role == s.role[s.list[0] := Held]
  {
    var h := s.list[0];
    assert RefsOk(s, h);
    GetRuns(s, t, h, s.refs[h]);
  }

  lemma GetRuns(s: State, t: nat, h: nat, r: Word)
    requires Shaped(s) && t < |s.pc| && s.pc[t] == Idle && h < |s.refs| && s.head == Node(h) && s.list != []
    requires s.refs[h] == r && Count(r) >= 1 && r + 1 < WORD
    ensures var s' := Alone(Do(s, CallTryGet(t)), t, 6);
            t < |s'.pc| && s'.pc[t] == Idle && s'.list == s.list[1..] && s'.role == s.role[h := Held]
  {
    var s1 := s.(pc := s.pc[t := GetLoadRefs(h)]);
    var s2 := s.(pc := s.pc[t := GetCasRefs(h, r)]);
    var s3 := s.(pc := s.pc[t := GetLoadNext(h)], refs := s.refs[h := r + 1]);
    assert Do(Do(s, CallTryGet(t)), Tick(t)) == s1;
    assert Do(s1, Tick(t)) == s2;
    assert Do(s2, Tick(t)) == s3;
    assert Alone(Do(s, CallTryGet(t)), t, 6) == Alone(s1, t, 5) == Alone(s2, t, 4) == Alone(s3, t, 3);
    TakeAlone(s3, t, h);
  }

  lemma TakeAlone(s: State, t: nat, h: nat)
    requires Shaped(s) && t < |s.pc| && s.pc[t] == GetLoadNext(h)
    requires h < |s.refs| && s.head == Node(h) && s.list != []
    ensures var s' := Alone(s, t, 3);
            t < |s'.pc| && s'.pc[t] == Idle && s'.list == s.list[1..] && s'.role == s.role[h := Held]
  {
    var s1 := s.(pc := s.pc[t := GetCasHead(h, s.next[h])]);
    var s2 := s.(pc := s.pc[t := GetSubTwo(h)], head := s.next[h], role := s.role[h := Taken(t)], list := s.list[1..]);
    assert Do(s, Tick(t)) == s1;
    assert Do(s1, Tick(t)) == s2;
    assert Alone(s, t, 3) == Alone(s1, t, 2) == Alone(s2, t, 1) == Alone(Do(s2, Tick(t)), t, 0);
  }

  /** Undisturbed, `add` puts the node at the front of the list, if no getter still refers to it. */
  lemma AddAlone(s: State, t: nat, n: nat)
    requires Inv(s) && t < |s.pc| && s.pc[t] == Idle && n < |s.role| && s.role[n] == Held && s.refs[n] == 0
    ensures var s' := Alone(Do(s, CallAdd(t, n)), t, 5);
            t < |s'.pc| && s'.pc[t] == Idle && s'.list == [n] + s.list && s'.role == s.role[n := Linked]
  {
    var s1 := s.(refs := s.refs[n := SHOULD_BE_ON_FREELIST], role := s.role[n := Pushing(t)]);
    var a := Goto(s1, t, PushLoadHead(n, ToCaller));
    var b := Goto(s1, t, PushStoreNext(n, s.head, ToCaller));
    assert Do(Do(s, CallAdd(t, n)), Tick(t)) == a;
    assert Do(a, Tick(t)) == b;
    assert Alone(Do(s, CallAdd(t, n)), t, 5) == Alone(a, t, 4) == Alone(b, t, 3);
    PushAlone(s1, t, n);
  }

  lemma PushAlone(s: State, t: nat, n: nat)
    requires Shaped(s) && t < |s.pc| && n < |s.refs|
    ensures var s' := Alone(Goto(s, t, PushStoreNext(n, s.head, ToCaller)), t, 3);
            t < |s'.pc| && s'.pc[t] == Idle && s'.list == [n] + s.list && s'.role == s.role[n := Linked]
  {
    var s1 := s.(next := s.next[n := s.head]);
    var s2 := s1.(refs := s.refs[n := 1], role := s.role[n := Linking(t)]);
    var a := Goto(s, t, PushStoreNext(n, s.head, ToCaller));
    var b := Goto(s1, t, PushStoreRefs(n, s.head, ToCaller));
    var c := Goto(s2, t, PushCasHead(n, s.head, ToCaller));
    assert Do(a, Tick(t)) == b;
    assert Do(b, Tick(t)) == c;
    assert Alone(a, t, 3) == Alone(b, t, 2) == Alone(c, t, 1) == Alone(Do(c, Tick(t)), t, 0);
  }

  // ---------------------------------------------------------------- what try_get returns

  /** Since thread t's last call of `try_get` began, there was a moment at which the list was empty. */
  function SawEmpty(s: State, schedule: seq<Action>, t: nat): bool {
    if schedule == [] then false
    else
      var n := |schedule| - 1;
      var before, act := Run(s, schedule[..n]), schedule[n];
      if act == CallTryGet(t) && t < |before.pc| && before.pc[t] == Idle then before.list == []
      else SawEmpty(s, schedule[..n], t) || before.list == [] || Do(before, act).list == []
  }

  /** A getter that has loaded a null head and is going to return it. */
  predicate NullSeen(p: Pc) {
    match p
    case GetSubOne(_, seen) => seen.Null?
    case PushLoadHead(_, k) => k == ToLoop(Null)
    case PushStoreNext(_, _, k) => k == ToLoop(Null)
    case PushStoreRefs(_, _, k) => k == ToLoop(Null)
    case PushCasHead(_, _, k) => k == ToLoop(Null)
    case PushGiveUp(_, _, k) => k == ToLoop(Null)
    case _ => false
  }

  /** In a call of `try_get`, and not about to return a node. */
  predicate Getting(p: Pc) { !Adder(p) && !p.GetSubTwo? }

  /** A step by which a getter comes to know that the list is empty, or returns null. */
  lemma NullStep(s: State, t: nat)
    requires Inv(s) && t < |s.pc|
    ensures var s' := Do(s, Tick(t));
            && t < |s'.pc|
            && (NullSeen(s'.pc[t]) ==> NullSeen(s.pc[t]) || s.list == [])
            && (Getting(s.pc[t]) && s'.pc[t] == Idle ==> NullSeen(s.pc[t]) || s.list == [])
  {
    assert ThreadOk(s, t);
  }

  lemma {:induction false} RunNull(nodes: nat, threads: nat, schedule: seq<Action>, t: nat)
    requires threads < SHOULD_BE_ON_FREELIST - 2
    ensures var s := Run(Start(nodes, threads), schedule);
            t < |s.pc| && NullSeen(s.pc[t]) ==> SawEmpty(Start(nodes, threads), schedule, t)
  {
    if schedule != [] {
      var n, s0 := |schedule| - 1, Start(nodes, threads);
      RunNull(nodes, threads, schedule[..n], t);
      RunInv(nodes, threads, schedule[..n]);
      OthersIdle(Run(s0, schedule[..n]), schedule[n]);
      if schedule[n] == Tick(t) && t < |Run(s0, schedule[..n]).pc| { NullStep(Run(s0, schedule[..n]), t); }
    }
  }

  /** In every run, a `try_get` that returns null saw the list empty at some moment of the call. */
  lemma NullMeansEmpty(nodes: nat, threads: nat, schedule: seq<Action>, t: nat)
    requires threads < SHOULD_BE_ON_FREELIST - 2
    ensures var s := Run(Start(nodes, threads), schedule);
            t < |s.pc| && Getting(s.pc[t]) ==>
              && t < |Do(s, Tick(t)).pc|
              && (Do(s, Tick(t)).pc[t] == Idle ==> SawEmpty(Start(nodes, threads), schedule, t) || s.list == [])
  {
    var s := Run(Start(nodes, threads), schedule);
    RunNull(nodes, threads, schedule, t);
    RunInv(nodes, threads, schedule);
    if t < |s.pc| { NullStep(s, t); }
  }

  // ---------------------------------------------------------------- a call that runs alone ends

  /** The node of a reference that its holder is the last to give up, while the node waits for that. */
  predicate Last(s: State, h: nat) { h < |s.refs| && s.refs[h] == SHOULD_BE_ON_FREELIST + 1 }

  function LoopLeft(s: State, l: Link): nat { if l.Null? then 0 else if l == s.head then 5 else 10 }

  /** Steps left in a call that is not disturbed. */
  function Left(s: State, p: Pc): nat {
    match p
    case Idle => 0
    case AddFetch(_) => 15
    case GetLoadHead => 6
    case GetLoadRefs(h) => LoopLeft(s, Node(h))
    case GetCasRefs(h, r) => if h < |s.refs| && s.refs[h] != r then 7 else if s.head == Node(h) then 4 else 9
    case GetLoadNext(h) => if s.head == Node(h) then 3 else if Last(s, h) then 17 else 8
    case GetCasHead(h, _) => if s.head == Node(h) then 2 else if Last(s, h) then 16 else 7
    case GetSubTwo(_) => 1
    case GetSubOne(h, seen) => if Last(s, h) then 15 else LoopLeft(s, seen) + 1
    case PushLoadHead(_, _) => 14
    case PushStoreNext(_, hd, _) => if s.head == hd then 13 else 17
    case PushStoreRefs(_, hd, _) => if s.head == hd then 12 else 16
    case PushCasHead(_, hd, _) => if s.head == hd then 11 else 15
    case PushGiveUp(_, hd, _) => if s.head == hd then 14 else 18
  }

  lemma LoadNearer(s: State, t: nat)
    requires Inv(s) && t < |s.pc| && (s.pc[t].GetLoadHead? || s.pc[t].GetLoadRefs?)
    ensures var s' := Do(s, Tick(t)); t < |s'.pc| && Left(s', s'.pc[t]) < Left(s, s.pc[t])
  {
    assert ThreadOk(s, t);
    if s.pc[t].GetLoadRefs? { HeadCounted(s, s.pc[t].h); }
  }

  /** The head is counted. */
  lemma HeadCounted(s: State, h: nat)
    requires Inv(s) && h < |s.refs|
    ensures s.head == Node(h) ==> Count(s.refs[h]) >= 1
  {
    assert RefsOk(s, h);
  }

  lemma CasNearer(s: State, t: nat, h: nat, r: Word)
    requires Shaped(s) && t < |s.pc| && s.pc[t] == GetCasRefs(h, r) && h < |s.refs| && RefsOk(s, h) && Count(r) != 0
    requires |s.pc| < SHOULD_BE_ON_FREELIST - 2
    ensures var s' := Do(s, Tick(t)); t < |s'.pc| && Left(s', s'.pc[t]) < Left(s, s.pc[t])
  {
  }

  lemma HeadNearer(s: State, t: nat)
    requires Shaped(s) && t < |s.pc| && InRange(s, s.pc[t]) && (s.pc[t].GetLoadNext? || s.pc[t].GetCasHead?)
    ensures var s' := Do(s, Tick(t)); t < |s'.pc| && Left(s', s'.pc[t]) < Left(s, s.pc[t])
  {
  }

  lemma PushNearer(s: State, t: nat)
    requires Shaped(s) && t < |s.pc| && InRange(s, s.pc[t])
    requires var p := s.pc[t]; p.PushLoadHead? || p.PushStoreNext? || p.PushStoreRefs? || p.PushCasHead? || p.PushGiveUp?
    ensures var s' := Do(s, Tick(t)); t < |s'.pc| && Left(s', s'.pc[t]) < Left(s, s.pc[t])
  {
  }

  lemma SubNearer(s: State, t: nat)
    requires Shaped(s) && t < |s.pc| && InRange(s, s.pc[t])
    requires s.pc[t].AddFetch? || s.pc[t].GetSubTwo? || s.pc[t].GetSubOne?
    ensures var s' := Do(s, Tick(t)); t < |s'.pc| && Left(s', s'.pc[t]) < Left(s, s.pc[t])
  {
  }

  lemma Nearer(s: State, t: nat)
    requires Inv(s) && t < |s.pc| && s.pc[t] != Idle
    ensures var s' := Do(s, Tick(t)); t < |s'.pc| && Left(s', s'.pc[t]) < Left(s, s.pc[t])
  {
    assert ThreadOk(s, t);
    match s.pc[t]
    case GetLoadHead => LoadNearer(s, t);
    case GetLoadRefs(_) => LoadNearer(s, t);
    case GetCasRefs(h, r) =>
      assert RefsOk(s, h);
      CasNearer(s, t, h, r);
    case GetLoadNext(_) => HeadNearer(s, t);
    case GetCasHead(_, _) => HeadNearer(s, t);
    case AddFetch(_) => SubNearer(s, t);
    case GetSubTwo(_) => SubNearer(s, t);
    case GetSubOne(_, _) => SubNearer(s, t);
    case _ => PushNearer(s, t);
  }

  lemma LeftBound(s: State, p: Pc)
    ensures Left(s, p) <= 18
  {
  }

  lemma AloneOnce(s: State, t: nat, k: nat)
    requires k >= 1
    ensures Alone(s, t, k) == Alone(Do(s, Tick(t)), t, k - 1)
  {
  }

  /** Wherever the other threads have stopped, a call ends after at most 18 of its own steps. */
  lemma {:induction false} CallEnds(s: State, t: nat) returns (k: nat)
    requires Inv(s) && t < |s.pc|
    ensures k <= Left(s, s.pc[t]) <= 18
    ensures t < |Alone(s, t, k).pc| && Alone(s, t, k).pc[t] == Idle
    decreases Left(s, s.pc[t])
  {
    k := 0;
    LeftBound(s, s.pc[t]);
    if s.pc[t] != Idle {
      DoKeeps(s, Tick(t));
      Nearer(s, t);
      k := CallEnds(Do(s, Tick(t)), t);
      k := k + 1;
      AloneOnce(s, t, k);
    }
  }

  // ---------------------------------------------------------------- what a user of the list sees

  /** A node is given to a client by the last access of a successful `try_get`, and by no other. */
  lemma HeldStep(s: State, t: nat)
    requires Inv(s) && t < |s.pc|
    ensures var s' := Do(s, Tick(t));
            && |s'.role| == |s.role|
            && forall n :: 0 <= n < |s.role| ==>
                 (s'.role[n] == Held <==> s.role[n] == Held || (s.pc[t].GetSubTwo? && s.pc[t].h == n))
  {
    assert ThreadOk(s, t);
    if s.pc[t].GetSubOne? { assert RefsOk(s, s.pc[t].h); }
    StepShape(s, t);
  }

  /** Threads that only call `add`. */
  predicate Adder(p: Pc) {
    match p
    case Idle => true
    case AddFetch(_) => true
    case PushLoadHead(_, k) => k.ToCaller?
    case PushStoreNext(_, _, k) => k.ToCaller?
    case PushStoreRefs(_, _, k) => k.ToCaller?
    case PushCasHead(_, _, k) => k.ToCaller?
    case PushGiveUp(_, _, k) => k.ToCaller?
    case _ => false
  }

  lemma AdderStep(s: State, t: nat)
    requires t < |s.pc| && Adder(s.pc[t])
    ensures t < |Do(s, Tick(t)).pc| && Adder(Do(s, Tick(t)).pc[t])
  {
  }

  lemma OthersIdle(s: State, a: Action)
    ensures |Do(s, a).pc| == |s.pc| && forall u :: 0 <= u < |s.pc| && u != a.t ==> Do(s, a).pc[u] == s.pc[u]
  {
  }
}
