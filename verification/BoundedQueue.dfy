/** The bounded queue for any number of producers and consumers: a power-of-two array of cells, each
    with a sequence number that says for which enqueue or dequeue position the cell is ready.

    Positions are true integers here; the code sees 64-bit words and compares their signed difference.
    Every step is one access to shared memory. */
module BoundedQueue {
  import opened Words
  import opened Arith

  /** Who may touch a cell: the next enqueuer, the enqueuer or dequeuer that holds it, or the next
      dequeuer. */
  datatype Phase = Free | Writing(t: nat) | Ready | Reading(t: nat)

  /** `pos` and `phase` are never read by the code: the position the cell currently serves, and its
      owner. */
  datatype Cell<T> = Cell(sequence: nat, data: T, pos: nat, phase: Phase)

  datatype Pc<T> =
    | Idle
    | ELoadPos(v: T)
    | ELoadSequence(v: T, pos: nat)
    | ECas(v: T, pos: nat)
    | EWrite(v: T, pos: nat)
    | EStore(pos: nat)
    | EDone
    | EFull(pos: nat)
    | DLoadPos
    | DLoadSequence(pos: nat)
    | DCas(pos: nat)
    | DRead(pos: nat)
    | DStore(pos: nat, v: T)
    | DGot(pos: nat, v: T)
    | DEmpty(pos: nat)

  /** `log` records the values by enqueue position and is never read by the code. */
  datatype State<T> = State(cells: seq<Cell<T>>, enq: nat, deq: nat, c: seq<Pc<T>>, log: seq<T>)

  /** A compare-and-exchange may fail spuriously. */
  datatype Action<T> = StartEnqueue(t: nat, v: T) | StartDequeue(t: nat) | Step(t: nat, spurious: bool)

  // ---------------------------------------------------------------- words

  /** A 64-bit word read as a signed number, and the signed difference of two words. */
  function Signed(w: nat): int { if w < HALF then w else w - WORD }

  function Difference(x: nat, y: nat): int { Signed(Wrap(x)) - Signed(Wrap(y)) }

  lemma DifferenceExact(x: nat, y: nat)
    requires x < HALF && y < HALF
    ensures Difference(x, y) == x - y
  {
    ModSmall(x, WORD);
    ModSmall(y, WORD);
  }

  /** The cell of a position, `pos & (size - 1)` for a power of two. */
  function CellOf(pos: nat, n: nat): nat
    requires n > 0
  {
    pos % n
  }

  lemma CellIsMasked(pos: nat, k: nat)
    requires 1 <= k < 64 && pos < WORD
    ensures CellOf(pos, Pow2(k)) == And(pos, Pow2(k) - 1)
  {
    MaskIsMod(pos, k, Pow2(k));
  }

  // ---------------------------------------------------------------- steps

  function At<T>(s: State<T>, pos: nat): (r: nat)
    requires s.cells != []
    ensures r < |s.cells|
  {
    CellOf(pos, |s.cells|)
  }

  function ELoadSequenceStep<T>(s: State<T>, t: nat, v: T, pos: nat): State<T>
    requires s.cells != [] && t < |s.c|
  {
    var d := Difference(s.cells[At(s, pos)].sequence, pos);
    s.(c := s.c[t := if d == 0 then ECas(v, pos) else if d < 0 then EFull(pos) else ELoadPos(v)])
  }

  function ECasStep<T>(s: State<T>, t: nat, v: T, pos: nat, spurious: bool): State<T>
    requires s.cells != [] && t < |s.c|
  {
    if s.enq == pos && !spurious then
      var cell := s.cells[At(s, pos)];
      s.(enq := pos + 1, c := s.c[t := EWrite(v, pos)], log := s.log + [v],
         cells := s.cells[At(s, pos) := cell.(phase := Writing(t))])
    else s.(c := s.c[t := ELoadSequence(v, s.enq)])
  }

  function EWriteStep<T>(s: State<T>, t: nat, v: T, pos: nat): State<T>
    requires s.cells != [] && t < |s.c|
  {
    s.(cells := s.cells[At(s, pos) := s.cells[At(s, pos)].(data := v)], c := s.c[t := EStore(pos)])
  }

  function EStoreStep<T>(s: State<T>, t: nat, pos: nat): State<T>
    requires s.cells != [] && t < |s.c|
  {
    s.(cells := s.cells[At(s, pos) := s.cells[At(s, pos)].(sequence := pos + 1, phase := Ready)],
       c := s.c[t := EDone])
  }

  function DLoadSequenceStep<T>(s: State<T>, t: nat, pos: nat): State<T>
    requires s.cells != [] && t < |s.c|
  {
    var d := Difference(s.cells[At(s, pos)].sequence, pos + 1);
    s.(c := s.c[t := if d == 0 then DCas(pos) else if d < 0 then DEmpty(pos) else DLoadPos])
  }

  function DCasStep<T>(s: State<T>, t: nat, pos: nat, spurious: bool): State<T>
    requires s.cells != [] && t < |s.c|
  {
    if s.deq == pos && !spurious then
      var cell := s.cells[At(s, pos)];
      s.(deq := pos + 1, c := s.c[t := DRead(pos)], cells := s.cells[At(s, pos) := cell.(phase := Reading(t))])
    else s.(c := s.c[t := DLoadSequence(s.deq)])
  }

  function DStoreStep<T>(s: State<T>, t: nat, pos: nat, v: T): State<T>
    requires s.cells != [] && t < |s.c|
  {
    var next := pos + |s.cells|;
    s.(cells := s.cells[At(s, pos) := s.cells[At(s, pos)].(sequence := next, pos := next, phase := Free)],
       c := s.c[t := DGot(pos, v)])
  }

  function StepOf<T>(s: State<T>, t: nat, spurious: bool): State<T>
    requires s.cells != [] && t < |s.c|
  {
    match s.c[t]
    case ELoadPos(v) => s.(c := s.c[t := ELoadSequence(v, s.enq)])
    case ELoadSequence(v, pos) => ELoadSequenceStep(s, t, v, pos)
    case ECas(v, pos) => ECasStep(s, t, v, pos, spurious)
    case EWrite(v, pos) => EWriteStep(s, t, v, pos)
    case EStore(pos) => EStoreStep(s, t, pos)
    case DLoadPos => s.(c := s.c[t := DLoadSequence(s.deq)])
    case DLoadSequence(pos) => DLoadSequenceStep(s, t, pos)
    case DCas(pos) => DCasStep(s, t, pos, spurious)
    case DRead(pos) => s.(c := s.c[t := DStore(pos, s.cells[At(s, pos)].data)])
    case DStore(pos, v) => DStoreStep(s, t, pos, v)
    case _ => s
  }

  predicate Returned<T>(pc: Pc<T>) { pc.Idle? || pc.EDone? || pc.EFull? || pc.DGot? || pc.DEmpty? }

  function Do<T>(s: State<T>, act: Action<T>): State<T> {
    if act.t >= |s.c| || s.cells == [] then s
    else
      match act
      case StartEnqueue(t, v) => if Returned(s.c[t]) then s.(c := s.c[t := ELoadPos(v)]) else s
      case StartDequeue(t) => if Returned(s.c[t]) then s.(c := s.c[t := DLoadPos]) else s
      case Step(t, spurious) => StepOf(s, t, spurious)
  }

  function Run<T>(s: State<T>, schedule: seq<Action<T>>): State<T> {
    if schedule == [] then s else Do(Run(s, schedule[..|schedule| - 1]), schedule[|schedule| - 1])
  }

  function Start<T>(size: nat, threads: nat, junk: T): State<T> {
    State(seq(size, i requires 0 <= i < size => Cell(i, junk, i, Free)), 0, 0, seq(threads, i => Idle), [])
  }

  // ---------------------------------------------------------------- the invariant

  ghost predicate CellAt<T>(s: State<T>, i: nat)
    requires i < |s.cells| && |s.log| == s.enq
  {
    var cell := s.cells[i];
    var p := cell.pos;
    && At(s, p) == i
    && match cell.phase
       case Free => cell.sequence == p && s.enq <= p < s.deq + |s.cells|
       case Writing(t) =>
         && cell.sequence == p && s.deq <= p < s.enq <= p + |s.cells|
         && t < |s.c| && (s.c[t] == EWrite(s.log[p], p) || (s.c[t] == EStore(p) && cell.data == s.log[p]))
       case Ready =>
         && cell.sequence == p + 1 && s.deq <= p < s.enq <= p + |s.cells| && cell.data == s.log[p]
       case Reading(t) =>
         && cell.sequence == p + 1 && p < s.deq && p < s.enq <= p + |s.cells|
         && t < |s.c| && ((s.c[t] == DRead(p) && cell.data == s.log[p]) || s.c[t] == DStore(p, s.log[p]))
  }

  /** Cell At(pos) serves position pos in the given phase. */
  predicate Serves<T>(s: State<T>, pos: nat, phase: Phase)
    requires s.cells != []
  {
    s.cells[At(s, pos)].pos == pos && s.cells[At(s, pos)].phase == phase
  }

  ghost predicate ThreadAt<T>(s: State<T>, t: nat)
    requires t < |s.c| && s.cells != [] && |s.log| == s.enq
  {
    match s.c[t]
    case ELoadSequence(_, pos) => pos <= s.enq
    case ECas(_, pos) => pos <= s.enq && (pos == s.enq ==> Serves(s, pos, Free))
    case EWrite(_, pos) => Serves(s, pos, Writing(t))
    case EStore(pos) => Serves(s, pos, Writing(t))
    case DLoadSequence(pos) => pos <= s.deq
    case DCas(pos) => pos <= s.deq && (pos == s.deq ==> Serves(s, pos, Ready))
    case DRead(pos) => Serves(s, pos, Reading(t))
    case DStore(pos, _) => Serves(s, pos, Reading(t))
    case DGot(pos, v) => pos < s.deq <= |s.log| && v == s.log[pos]
    case _ => true
  }

  ghost predicate Inv<T>(s: State<T>) {
    && |s.cells| >= 2 && |s.log| == s.enq && s.deq <= s.enq <= s.deq + |s.cells|
    && (forall i :: 0 <= i < |s.cells| ==> CellAt(s, i))
    && (forall t :: 0 <= t < |s.c| ==> ThreadAt(s, t))
  }

  /** Counters far enough below 2^63. */
  predicate Small<T>(s: State<T>) { s.enq + |s.cells| < HALF && s.deq + |s.cells| < HALF }

  // ---------------------------------------------------------------- positions of one cell

  /** Two positions of one cell are a multiple of the size apart. */
  lemma SameCell(p: nat, q: nat, n: nat)
    requires n >= 1 && CellOf(p, n) == CellOf(q, n)
    ensures p < q ==> p + n <= q
    ensures q < p ==> q + n <= p
  {
    if p - q < n && q - p < n { ModDistinct(p, q, n); }
  }

  lemma NextLap(p: nat, n: nat)
    requires n >= 1
    ensures CellOf(p + n, n) == CellOf(p, n)
  {
    ModTurns(p, 1, n);
  }

  // ---------------------------------------------------------------- steps keep the invariant

  /** Thread t moves without touching memory; it neither holds a cell before nor after. */
  lemma MoveKeeps<T>(s: State<T>, t: nat, pc': Pc<T>)
    requires Inv(s) && t < |s.c| && !Holds(s.c[t]) && !Holds(pc')
    requires ThreadAt(s.(c := s.c[t := pc']), t)
    ensures Inv(s.(c := s.c[t := pc']))
  {
    var s' := s.(c := s.c[t := pc']);
    forall i | 0 <= i < |s.cells| ensures CellAt(s', i) { assert CellAt(s, i); }
    forall u | 0 <= u < |s'.c| ensures ThreadAt(s', u) { if u != t { assert ThreadAt(s, u); } }
  }

  predicate Holds<T>(pc: Pc<T>) { pc.EWrite? || pc.EStore? || pc.DRead? || pc.DStore? }

  /** What a sequence number says about the cell of an enqueue position that is not in the future. */
  lemma EnqueueTest<T>(s: State<T>, pos: nat)
    requires Inv(s) && pos <= s.enq
    ensures var x := s.cells[At(s, pos)].sequence;
            && (x == pos && pos == s.enq ==> Serves(s, pos, Free))
            && (x < pos <==> pos == s.enq && s.cells[At(s, pos)].pos + |s.cells| == pos)
            && (Serves(s, pos, Free) ==> x == pos == s.enq)
            && x < s.enq + |s.cells| + 1
  {
    assert CellAt(s, At(s, pos));
    SameCell(s.cells[At(s, pos)].pos, pos, |s.cells|);
  }

  /** And about the cell of a dequeue position. */
  lemma DequeueTest<T>(s: State<T>, pos: nat)
    requires Inv(s) && pos <= s.deq
    ensures var x := s.cells[At(s, pos)].sequence;
            && (x == pos + 1 && pos == s.deq ==> Serves(s, pos, Ready))
            && (x < pos + 1 <==> pos == s.deq && !Serves(s, pos, Ready))
            && (Serves(s, pos, Ready) ==> x == pos + 1 && pos == s.deq)
            && x < s.enq + |s.cells| + 1
  {
    assert CellAt(s, At(s, pos));
    SameCell(s.cells[At(s, pos)].pos, pos, |s.cells|);
  }

  lemma ELoadSequenceKeeps<T>(s: State<T>, t: nat, v: T, pos: nat)
    requires Inv(s) && Small(s) && t < |s.c| && s.c[t] == ELoadSequence(v, pos)
    ensures Inv(ELoadSequenceStep(s, t, v, pos))
  {
    assert ThreadAt(s, t);
    EnqueueTest(s, pos);
    DifferenceExact(s.cells[At(s, pos)].sequence, pos);
    MoveKeeps(s, t, ELoadSequenceStep(s, t, v, pos).c[t]);
  }

  lemma DLoadSequenceKeeps<T>(s: State<T>, t: nat, pos: nat)
    requires Inv(s) && Small(s) && t < |s.c| && s.c[t] == DLoadSequence(pos)
    ensures Inv(DLoadSequenceStep(s, t, pos))
  {
    assert ThreadAt(s, t);
    DequeueTest(s, pos);
    DifferenceExact(s.cells[At(s, pos)].sequence, pos + 1);
    MoveKeeps(s, t, DLoadSequenceStep(s, t, pos).c[t]);
  }

  /** Taking an enqueue position takes the cell that serves it, and no other cell serves it. */
  lemma ECasKeepsCell<T>(s: State<T>, t: nat, v: T, i: nat)
    requires Inv(s) && t < |s.c| && s.c[t] == ECas(v, s.enq) && i < |s.cells|
    ensures CellAt(ECasStep(s, t, v, s.enq, false), i)
  {
    assert ThreadAt(s, t) && CellAt(s, i);
    var p := s.cells[i].pos;
    NextLap(p, |s.cells|);
    assert p == s.enq || p + |s.cells| == s.enq ==> i == At(s, s.enq);
  }

  lemma ECasKeeps<T>(s: State<T>, t: nat, v: T)
    requires Inv(s) && t < |s.c| && s.c[t] == ECas(v, s.enq)
    ensures Inv(ECasStep(s, t, v, s.enq, false))
  {
    var s' := ECasStep(s, t, v, s.enq, false);
    assert ThreadAt(s, t) && CellAt(s, At(s, s.enq));
    forall i | 0 <= i < |s.cells| ensures CellAt(s', i) { ECasKeepsCell(s, t, v, i); }
    forall u | 0 <= u < |s'.c| ensures ThreadAt(s', u) { if u != t { assert ThreadAt(s, u); } }
  }

  lemma DCasKeepsCell<T>(s: State<T>, t: nat, i: nat)
    requires Inv(s) && t < |s.c| && s.c[t] == DCas(s.deq) && i < |s.cells|
    ensures CellAt(DCasStep(s, t, s.deq, false), i)
  {
    assert ThreadAt(s, t) && CellAt(s, i);
  }

  lemma DCasKeeps<T>(s: State<T>, t: nat)
    requires Inv(s) && t < |s.c| && s.c[t] == DCas(s.deq)
    ensures Inv(DCasStep(s, t, s.deq, false))
  {
    var s' := DCasStep(s, t, s.deq, false);
    assert ThreadAt(s, t) && CellAt(s, At(s, s.deq));
    forall i | 0 <= i < |s.cells| ensures CellAt(s', i) { DCasKeepsCell(s, t, i); }
    forall u | 0 <= u < |s'.c| ensures ThreadAt(s', u) { if u != t { assert ThreadAt(s, u); } }
  }

  /** The holder of a cell changes it. */
  lemma HolderKeeps<T>(s: State<T>, t: nat, pos: nat, cell': Cell<T>, pc': Pc<T>)
    requires Inv(s) && t < |s.c|
    requires Serves(s, pos, Writing(t)) || Serves(s, pos, Reading(t))
    requires var s' := s.(cells := s.cells[At(s, pos) := cell'], c := s.c[t := pc']);
             CellAt(s', At(s, pos)) && ThreadAt(s', t)
    requires HoldsAt(s.c[t], pos)
    ensures Inv(s.(cells := s.cells[At(s, pos) := cell'], c := s.c[t := pc']))
  {
    var s' := s.(cells := s.cells[At(s, pos) := cell'], c := s.c[t := pc']);
    forall i | 0 <= i < |s.cells| ensures CellAt(s', i) {
      if i != At(s, pos) { HolderKeepsCell(s, t, pos, cell', pc', i); }
    }
    forall u | 0 <= u < |s'.c| ensures ThreadAt(s', u) { if u != t { assert ThreadAt(s, u); } }
  }

  lemma HolderKeepsCell<T>(s: State<T>, t: nat, pos: nat, cell': Cell<T>, pc': Pc<T>, i: nat)
    requires Inv(s) && t < |s.c| && HoldsAt(s.c[t], pos) && i < |s.cells| && i != At(s, pos)
    ensures CellAt(s.(cells := s.cells[At(s, pos) := cell'], c := s.c[t := pc']), i)
  {
    assert CellAt(s, i);
  }

  predicate HoldsAt<T>(pc: Pc<T>, pos: nat) {
    (pc.EWrite? && pc.pos == pos) || (pc.EStore? && pc.pos == pos) || (pc.DRead? && pc.pos == pos)
    || (pc.DStore? && pc.pos == pos)
  }

  lemma EWriteKeeps<T>(s: State<T>, t: nat, v: T, pos: nat)
    requires Inv(s) && t < |s.c| && s.c[t] == EWrite(v, pos)
    ensures Inv(EWriteStep(s, t, v, pos))
  {
    assert ThreadAt(s, t) && CellAt(s, At(s, pos));
    HolderKeeps(s, t, pos, s.cells[At(s, pos)].(data := v), EStore(pos));
  }

  lemma EStoreKeeps<T>(s: State<T>, t: nat, pos: nat)
    requires Inv(s) && t < |s.c| && s.c[t] == EStore(pos)
    ensures Inv(EStoreStep(s, t, pos))
  {
    assert ThreadAt(s, t) && CellAt(s, At(s, pos));
    HolderKeeps(s, t, pos, s.cells[At(s, pos)].(sequence := pos + 1, phase := Ready), EDone);
  }

  lemma DReadKeeps<T>(s: State<T>, t: nat, pos: nat)
    requires Inv(s) && t < |s.c| && s.c[t] == DRead(pos)
    ensures Inv(s.(c := s.c[t := DStore(pos, s.cells[At(s, pos)].data)]))
  {
    assert ThreadAt(s, t) && CellAt(s, At(s, pos));
    var cell := s.cells[At(s, pos)];
    assert s.cells[At(s, pos) := cell] == s.cells;
    HolderKeeps(s, t, pos, cell, DStore(pos, cell.data));
  }

  lemma DStoreKeeps<T>(s: State<T>, t: nat, pos: nat, v: T)
    requires Inv(s) && t < |s.c| && s.c[t] == DStore(pos, v)
    ensures Inv(DStoreStep(s, t, pos, v))
  {
    assert ThreadAt(s, t) && CellAt(s, At(s, pos));
    var next := pos + |s.cells|;
    NextLap(pos, |s.cells|);
    HolderKeeps(s, t, pos, s.cells[At(s, pos)].(sequence := next, pos := next, phase := Free), DGot(pos, v));
  }

  lemma StepKeeps<T>(s: State<T>, t: nat, spurious: bool)
    requires Inv(s) && Small(s) && t < |s.c|
    ensures Inv(StepOf(s, t, spurious))
  {
    match s.c[t]
    case ELoadPos(v) => MoveKeeps(s, t, ELoadSequence(v, s.enq));
    case ELoadSequence(v, pos) => ELoadSequenceKeeps(s, t, v, pos);
    case ECas(v, pos) =>
      if s.enq == pos && !spurious { ECasKeeps(s, t, v); } else { MoveKeeps(s, t, ELoadSequence(v, s.enq)); }
    case EWrite(v, pos) => EWriteKeeps(s, t, v, pos);
    case EStore(pos) => EStoreKeeps(s, t, pos);
    case DLoadPos => MoveKeeps(s, t, DLoadSequence(s.deq));
    case DLoadSequence(pos) => DLoadSequenceKeeps(s, t, pos);
    case DCas(pos) =>
      if s.deq == pos && !spurious { DCasKeeps(s, t); } else { MoveKeeps(s, t, DLoadSequence(s.deq)); }
    case DRead(pos) => DReadKeeps(s, t, pos);
    case DStore(pos, v) => DStoreKeeps(s, t, pos, v);
    case _ =>
  }

  lemma DoKeeps<T>(s: State<T>, act: Action<T>)
    requires Inv(s) && Small(s)
    ensures Inv(Do(s, act))
  {
    if act.t < |s.c| {
      match act
      case StartEnqueue(t, v) => if Returned(s.c[t]) { MoveKeeps(s, t, ELoadPos(v)); }
      case StartDequeue(t) => if Returned(s.c[t]) { MoveKeeps(s, t, DLoadPos); }
      case Step(t, spurious) => StepKeeps(s, t, spurious);
    }
  }

  lemma StartInv<T>(size: nat, threads: nat, junk: T)
    requires size >= 2
    ensures Inv(Start(size, threads, junk))
  {
    var s := Start(size, threads, junk);
    forall i | 0 <= i < size ensures CellAt(s, i) { ModSmall(i, size); }
  }

  /** Runs too short for a position to reach 2^63. */
  lemma {:induction false} RunInv<T>(size: nat, threads: nat, junk: T, schedule: seq<Action<T>>)
    requires size >= 2 && |schedule| + size < HALF
    ensures var s := Run(Start(size, threads, junk), schedule);
            Inv(s) && s.enq <= |schedule| && |s.cells| == size && |s.c| == threads
  {
    if schedule == [] {
      StartInv(size, threads, junk);
    } else {
      RunInv(size, threads, junk, schedule[..|schedule| - 1]);
      DoKeeps(Run(Start(size, threads, junk), schedule[..|schedule| - 1]), schedule[|schedule| - 1]);
    }
  }

  // ---------------------------------------------------------------- exactly once, in order

  /** A dequeuer that has taken a position. */
  predicate Takes<T>(pc: Pc<T>) { pc.DRead? || pc.DStore? || pc.DGot? }

  ghost predicate Apart<T>(s: State<T>, t: nat, u: nat)
    requires t < |s.c| && u < |s.c|
  {
    Takes(s.c[t]) && Takes(s.c[u]) ==> s.c[t].pos != s.c[u].pos
  }

  ghost predicate AllApart<T>(s: State<T>) { forall t, u :: 0 <= t < u < |s.c| ==> Apart(s, t, u) }

  lemma TakenBelow<T>(s: State<T>, t: nat)
    requires Inv(s) && t < |s.c| && Takes(s.c[t])
    ensures s.c[t].pos < s.deq
  {
    assert ThreadAt(s, t) && CellAt(s, At(s, s.c[t].pos));
  }

  /** A step of t leaves what it has taken alone, or takes the next position, or gives it up. */
  lemma StepApart<T>(s: State<T>, act: Action<T>)
    requires Inv(s) && AllApart(s)
    ensures AllApart(Do(s, act))
  {
    forall t | 0 <= t < |s.c| && Takes(s.c[t]) ensures s.c[t].pos < s.deq { TakenBelow(s, t); }
    forall t, u | 0 <= t < u < |s.c| ensures Apart(Do(s, act), t, u) {
      assert Apart(s, t, u);
      PairApart(s, act, t, u);
    }
  }

  lemma PairApart<T>(s: State<T>, act: Action<T>, t: nat, u: nat)
    requires t < u < |s.c| && Apart(s, t, u)
    requires (Takes(s.c[t]) ==> s.c[t].pos < s.deq) && (Takes(s.c[u]) ==> s.c[u].pos < s.deq)
    ensures |Do(s, act).c| == |s.c| && Apart(Do(s, act), t, u)
  {
    OnlyOne(s, act);
    if act.t < |s.c| { TakesNext(s, act); }
  }

  lemma OnlyOne<T>(s: State<T>, act: Action<T>)
    ensures |Do(s, act).c| == |s.c| && forall u :: 0 <= u < |s.c| && u != act.t ==> Do(s, act).c[u] == s.c[u]
  {
  }

  lemma TakesNext<T>(s: State<T>, act: Action<T>)
    requires act.t < |s.c|
    ensures |Do(s, act).c| == |s.c|
    ensures var pc, pc' := s.c[act.t], Do(s, act).c[act.t];
            Takes(pc') ==> if Takes(pc) then pc'.pos == pc.pos else pc'.pos == s.deq
  {
  }

  lemma {:induction false} RunApart<T>(size: nat, threads: nat, junk: T, schedule: seq<Action<T>>)
    requires size >= 2 && |schedule| + size < HALF
    ensures AllApart(Run(Start(size, threads, junk), schedule))
  {
    if schedule != [] {
      RunInv(size, threads, junk, schedule[..|schedule| - 1]);
      RunApart(size, threads, junk, schedule[..|schedule| - 1]);
      StepApart(Run(Start(size, threads, junk), schedule[..|schedule| - 1]), schedule[|schedule| - 1]);
    }
  }

  ghost predicate Safe<T>(s: State<T>) {
    && s.cells != [] && |s.log| == s.enq && s.deq <= s.enq <= s.deq + |s.cells|
    // no two threads touch the data of one cell
    && (forall t, u :: 0 <= t < u < |s.c| && Holds(s.c[t]) && Holds(s.c[u]) ==>
          At(s, s.c[t].pos) != At(s, s.c[u].pos))
    // what is dequeued at a position is what was enqueued there, and no position is dequeued twice
    && (forall t :: 0 <= t < |s.c| && s.c[t].DRead? ==>
          s.c[t].pos < s.deq && s.cells[At(s, s.c[t].pos)].data == s.log[s.c[t].pos])
    && (forall t :: 0 <= t < |s.c| && s.c[t].DGot? ==> s.c[t].pos < s.deq && s.c[t].v == s.log[s.c[t].pos])
    && (forall t, u :: 0 <= t < u < |s.c| && Takes(s.c[t]) && Takes(s.c[u]) ==> s.c[t].pos != s.c[u].pos)
  }

  lemma InvSafe<T>(s: State<T>)
    requires Inv(s) && AllApart(s)
    ensures Safe(s)
  {
    forall t, u | 0 <= t < u < |s.c| && Holds(s.c[t]) && Holds(s.c[u])
      ensures At(s, s.c[t].pos) != At(s, s.c[u].pos)
    {
      assert ThreadAt(s, t) && ThreadAt(s, u);
    }
    forall t | 0 <= t < |s.c| && (s.c[t].DRead? || s.c[t].DGot?)
      ensures s.c[t].pos < s.deq
      ensures s.c[t].DRead? ==> s.cells[At(s, s.c[t].pos)].data == s.log[s.c[t].pos]
      ensures s.c[t].DGot? ==> s.c[t].v == s.log[s.c[t].pos]
    {
      assert ThreadAt(s, t) && CellAt(s, At(s, s.c[t].pos));
    }
    forall t, u | 0 <= t < u < |s.c| && Takes(s.c[t]) && Takes(s.c[u]) ensures s.c[t].pos != s.c[u].pos {
      assert Apart(s, t, u);
    }
  }

  /** In every run of any number of threads. */
  lemma AlwaysSafe<T>(size: nat, threads: nat, junk: T, schedule: seq<Action<T>>)
    requires size >= 2 && |schedule| + size < HALF
    ensures Safe(Run(Start(size, threads, junk), schedule))
  {
    RunInv(size, threads, junk, schedule);
    RunApart(size, threads, junk, schedule);
    InvSafe(Run(Start(size, threads, junk), schedule));
  }

  // ---------------------------------------------------------------- refusals

  /** An enqueue is refused exactly if, when it loads the sequence number, its position is still the
      next one and the cell still serves the position of the lap before. */
  lemma EnqueueRefusal<T>(s: State<T>, t: nat, spurious: bool)
    requires Inv(s) && Small(s) && t < |s.c| && s.c[t].ELoadSequence?
    ensures var pos := s.c[t].pos;
            StepOf(s, t, spurious).c[t].EFull? <==> pos == s.enq && s.cells[At(s, pos)].pos + |s.cells| == pos
  {
    assert ThreadAt(s, t);
    EnqueueTest(s, s.c[t].pos);
    DifferenceExact(s.cells[At(s, s.c[t].pos)].sequence, s.c[t].pos);
  }

  /** A dequeue is refused exactly if its position is still the next one and not yet published. */
  lemma DequeueRefusal<T>(s: State<T>, t: nat, spurious: bool)
    requires Inv(s) && Small(s) && t < |s.c| && s.c[t].DLoadSequence?
    ensures var pos := s.c[t].pos;
            StepOf(s, t, spurious).c[t].DEmpty? <==> pos == s.deq && !Serves(s, pos, Ready)
  {
    assert ThreadAt(s, t);
    DequeueTest(s, s.c[t].pos);
    DifferenceExact(s.cells[At(s, s.c[t].pos)].sequence, s.c[t].pos + 1);
  }

  /** Whatever a thread does, it is refused only so: an enqueue when the next position is still the one it
      looked at and its cell still serves the lap before, a dequeue when the next position is not published. */
  lemma RefusedOnlySo<T>(s: State<T>, act: Action<T>, t: nat)
    requires Inv(s) && Small(s) && t < |s.c|
    ensures var s' := Do(s, act);
            && |s'.c| == |s.c|
            && (s'.c[t].EFull? && !s.c[t].EFull? ==> s'.c[t].pos == s.enq && Lagging(s))
            && (s'.c[t].DEmpty? && !s.c[t].DEmpty? ==> s'.c[t].pos == s.deq && !Serves(s, s.deq, Ready))
  {
    OnlyOne(s, act);
    if act.t == t && act.Step? {
      if s.c[t].ELoadSequence? { EnqueueRefusal(s, t, act.spurious); }
      if s.c[t].DLoadSequence? { DequeueRefusal(s, t, act.spurious); }
    }
  }

  /** The cell of the next enqueue position still serves the lap before: nothing was dequeued from it, or
      the dequeuer that took it is not done. */
  predicate Lagging<T>(s: State<T>)
    requires s.cells != []
  {
    s.cells[At(s, s.enq)].pos + |s.cells| == s.enq
  }

  // ---------------------------------------------------------------- what a call returns

  /** A thread's last call; `at` is the position that an enqueue has taken. */
  datatype Called<T> = NoCall | Enq(v: T, at: int) | Deq

  function LastCall<T>(s: State<T>, schedule: seq<Action<T>>, t: nat): Called<T> {
    if schedule == [] then NoCall
    else
      var n := |schedule| - 1;
      NoteCall(Run(s, schedule[..n]), LastCall(s, schedule[..n], t), schedule[n], t)
  }

  function NoteCall<T>(s: State<T>, last: Called<T>, act: Action<T>, t: nat): Called<T> {
    if act.t != t || t >= |s.c| || s.cells == [] then last
    else
      match act
      case StartEnqueue(_, v) => if Returned(s.c[t]) then Enq(v, -1) else last
      case StartDequeue(_) => if Returned(s.c[t]) then Deq else last
      case Step(_, _) => if last.Enq? && |Do(s, act).log| > |s.log| then last.(at := |s.log|) else last
  }

  /** Where a thread may be in its call, and what it has appended. */
  ghost predicate Course<T>(pc: Pc<T>, last: Called<T>, log: seq<T>) {
    match pc
    case Idle => last.NoCall?
    case ELoadPos(v) => last == Enq(v, -1)
    case ELoadSequence(v, _) => last == Enq(v, -1)
    case ECas(v, _) => last == Enq(v, -1)
    case EWrite(v, pos) => last == Enq(v, pos) && pos < |log| && log[pos] == v
    case EStore(pos) => last.Enq? && last.at == pos < |log| && log[pos] == last.v
    case EDone => last.Enq? && 0 <= last.at < |log| && log[last.at] == last.v
    case EFull(_) => last.Enq? && last.at == -1
    case _ => last.Deq?
  }

  lemma StepCourse<T>(s: State<T>, last: Called<T>, act: Action<T>, t: nat)
    requires s.cells != [] && |s.log| == s.enq && t < |s.c| && Course(s.c[t], last, s.log)
    ensures var s' := Do(s, act);
            |s'.c| == |s.c| && Course(s'.c[t], NoteCall(s, last, act, t), s'.log)
    ensures s.log <= Do(s, act).log
  {
    if act.t == t { OwnCourse(s, last, act); } else { OnlyOne(s, act); LogGrows(s, act); }
  }

  lemma LogGrows<T>(s: State<T>, act: Action<T>)
    ensures s.log <= Do(s, act).log
  {
  }

  lemma OwnCourse<T>(s: State<T>, last: Called<T>, act: Action<T>)
    requires s.cells != [] && |s.log| == s.enq && act.t < |s.c| && Course(s.c[act.t], last, s.log)
    ensures var s' := Do(s, act);
            |s'.c| == |s.c| && Course(s'.c[act.t], NoteCall(s, last, act, act.t), s'.log) && s.log <= s'.log
  {
  }

  /** In every run, a call that has returned appended its own element once, if it was an enqueue that was not
      refused, and nothing otherwise; a refused call is of the kind refused. */
  lemma {:induction false} CallAnswers<T>(size: nat, threads: nat, junk: T, schedule: seq<Action<T>>, t: nat)
    requires size >= 2 && |schedule| + size < HALF && t < threads
    ensures var s0 := Start(size, threads, junk);
            var s := Run(s0, schedule);
            |s.c| == threads && Course(s.c[t], LastCall(s0, schedule, t), s.log)
  {
    if schedule != [] {
      var n := |schedule| - 1;
      CallAnswers(size, threads, junk, schedule[..n], t);
      RunInv(size, threads, junk, schedule[..n]);
      var s0 := Start(size, threads, junk);
      StepCourse(Run(s0, schedule[..n]), LastCall(s0, schedule[..n], t), schedule[n], t);
    }
  }

  /** Steps left in a call that is not disturbed. */
  function Left<T>(s: State<T>, pc: Pc<T>): nat {
    match pc
    case ELoadPos(_) => 5
    case ELoadSequence(_, pos) => if pos == s.enq then 4 else 6
    case ECas(_, pos) => if pos == s.enq then 3 else 5
    case EWrite(_, _) => 2
    case EStore(_) => 1
    case DLoadPos => 5
    case DLoadSequence(pos) => if pos == s.deq then 4 else 6
    case DCas(pos) => if pos == s.deq then 3 else 5
    case DRead(_) => 2
    case DStore(_, _) => 1
    case _ => 0
  }

  /** What a call at pc in s has come to in s'. */
  ghost predicate Answers<T>(s: State<T>, pc: Pc<T>, s': State<T>, pc': Pc<T>)
    requires s.cells != []
  {
    match pc
    case ELoadPos(v) => EnqueueAnswer(s, v, s', pc')
    case ELoadSequence(v, _) => EnqueueAnswer(s, v, s', pc')
    case ECas(v, _) => EnqueueAnswer(s, v, s', pc')
    case EWrite(_, _) => pc' == EDone && s'.log == s.log
    case EStore(_) => pc' == EDone && s'.log == s.log
    case DLoadPos => DequeueAnswer(s, s', pc')
    case DLoadSequence(_) => DequeueAnswer(s, s', pc')
    case DCas(_) => DequeueAnswer(s, s', pc')
    case DRead(pos) => pos < |s.log| && pc' == DGot(pos, s.log[pos]) && s'.log == s.log && s'.deq == s.deq
    case DStore(pos, v) => pc' == DGot(pos, v) && s'.log == s.log && s'.deq == s.deq
    case _ => true
  }

  ghost predicate EnqueueAnswer<T>(s: State<T>, v: T, s': State<T>, pc': Pc<T>)
    requires s.cells != []
  {
    if Lagging(s) then pc' == EFull(s.enq) && s'.log == s.log else pc' == EDone && s'.log == s.log + [v]
  }

  ghost predicate DequeueAnswer<T>(s: State<T>, s': State<T>, pc': Pc<T>)
    requires s.cells != []
  {
    && s'.log == s.log
    && if Serves(s, s.deq, Ready)
       then s.deq < |s.log| && pc' == DGot(s.deq, s.log[s.deq]) && s'.deq == s.deq + 1
       else pc' == DEmpty(s.deq) && s'.deq == s.deq
  }

  /** At the next position the sequence number tells how the call will end. */
  lemma NextEnqueueCell<T>(s: State<T>)
    requires Inv(s)
    ensures var x := s.cells[At(s, s.enq)].sequence; x <= s.enq && (x == s.enq <==> !Lagging(s))
  {
    assert CellAt(s, At(s, s.enq));
    SameCell(s.cells[At(s, s.enq)].pos, s.enq, |s.cells|);
  }

  lemma NextDequeueCell<T>(s: State<T>)
    requires Inv(s)
    ensures var x := s.cells[At(s, s.deq)].sequence; x <= s.deq + 1 && (x == s.deq + 1 <==> Serves(s, s.deq, Ready))
    ensures Serves(s, s.deq, Ready) ==> s.deq < |s.log| && s.cells[At(s, s.deq)].data == s.log[s.deq]
  {
    assert CellAt(s, At(s, s.deq));
    SameCell(s.cells[At(s, s.deq)].pos, s.deq, |s.cells|);
  }

  /** A step of a call that is not disturbed brings it nearer to its answer. */
  lemma EnqueueNearer<T>(s: State<T>, t: nat, v: T)
    requires Inv(s) && Small(s) && t < |s.c|
    requires s.c[t] == ELoadPos(v) || (s.c[t].ELoadSequence? && s.c[t].v == v) || (s.c[t].ECas? && s.c[t].v == v)
    ensures var s' := Do(s, Step(t, false));
            && |s'.c| == |s.c| && Left(s', s'.c[t]) < Left(s, s.c[t]) && s'.enq + Left(s', s'.c[t]) <= s.enq + Left(s, s.c[t])
            && s'.cells != []
            && (if Returned(s'.c[t]) then s'.c[t] == EFull(s.enq) && Lagging(s) && s'.log == s.log
                else if s'.c[t].EWrite? then !Lagging(s) && s'.log == s.log + [v]
                else s'.c[t].v == v && s'.cells == s.cells && s'.enq == s.enq && s'.log == s.log
                     && (s'.c[t].ELoadSequence? || s'.c[t].ECas? || s'.c[t].ELoadPos?))
            && s'.deq == s.deq
  {
    assert ThreadAt(s, t);
    NextEnqueueCell(s);
    if s.c[t].ELoadSequence? {
      EnqueueTest(s, s.c[t].pos);
      DifferenceExact(s.cells[At(s, s.c[t].pos)].sequence, s.c[t].pos);
    }
  }

  lemma DequeueNearer<T>(s: State<T>, t: nat)
    requires Inv(s) && Small(s) && t < |s.c| && (s.c[t].DLoadPos? || s.c[t].DLoadSequence? || s.c[t].DCas?)
    ensures var s' := Do(s, Step(t, false));
            && |s'.c| == |s.c| && Left(s', s'.c[t]) < Left(s, s.c[t])
            && s'.cells != [] && s'.log == s.log && s'.enq == s.enq
            && (if Returned(s'.c[t]) then s'.c[t] == DEmpty(s.deq) && !Serves(s, s.deq, Ready) && s'.deq == s.deq
                else if s'.c[t].DRead? then Serves(s, s.deq, Ready) && s'.c[t] == DRead(s.deq) && s'.deq == s.deq + 1
                else s'.cells == s.cells && s'.deq == s.deq
                     && (s'.c[t].DLoadSequence? || s'.c[t].DCas? || s'.c[t].DLoadPos?))
  {
    assert ThreadAt(s, t);
    NextDequeueCell(s);
    if s.c[t].DLoadSequence? {
      DequeueTest(s, s.c[t].pos);
      DifferenceExact(s.cells[At(s, s.c[t].pos)].sequence, s.c[t].pos + 1);
    }
  }

  lemma HolderNearer<T>(s: State<T>, t: nat)
    requires Inv(s) && t < |s.c| && Holds(s.c[t])
    ensures var s' := Do(s, Step(t, false));
            && |s'.c| == |s.c| && Left(s', s'.c[t]) < Left(s, s.c[t]) && s'.cells != []
            && s'.log == s.log && s'.enq == s.enq && s'.deq == s.deq
            && match s.c[t]
               case EWrite(_, pos) => s'.c[t] == EStore(pos)
               case EStore(_) => s'.c[t] == EDone
               case DRead(pos) => pos < |s.log| && s'.c[t] == DStore(pos, s.log[pos])
               case DStore(pos, v) => s'.c[t] == DGot(pos, v)
  {
    assert ThreadAt(s, t) && CellAt(s, At(s, s.c[t].pos));
  }

  /** Thread t takes k steps and nobody else moves; no exchange fails spuriously. */
  function Steps<T>(s: State<T>, t: nat, k: nat): State<T>
    decreases k
  {
    if k == 0 then s else Steps(Do(s, Step(t, false)), t, k - 1)
  }

  lemma Once<T>(s: State<T>, t: nat, k: nat)
    requires k >= 1
    ensures Steps(s, t, k) == Steps(Do(s, Step(t, false)), t, k - 1)
  {
  }

  /** So the answers of a call are those of the rest of it. */
  lemma Nearer<T>(s: State<T>, t: nat)
    requires Inv(s) && Small(s) && t < |s.c| && !Returned(s.c[t])
    ensures var s' := Do(s, Step(t, false));
            && |s'.c| == |s.c| && |s'.cells| == |s.cells| && Left(s', s'.c[t]) < Left(s, s.c[t])
            && s'.enq + Left(s', s'.c[t]) <= s.enq + Left(s, s.c[t])
            && (Returned(s'.c[t]) ==> Answers(s, s.c[t], s', s'.c[t]))
  {
    if Holds(s.c[t]) {
      HolderNearer(s, t);
    } else {
      match s.c[t]
      case ELoadPos(v) => EnqueueNearer(s, t, v);
      case ELoadSequence(v, _) => EnqueueNearer(s, t, v);
      case ECas(v, _) => EnqueueNearer(s, t, v);
      case _ => DequeueNearer(s, t);
    }
  }

  lemma EnqueueChain<T>(s: State<T>, t: nat, v: T, s2: State<T>, pc2: Pc<T>)
    requires Inv(s) && Small(s) && t < |s.c|
    requires s.c[t] == ELoadPos(v) || (s.c[t].ELoadSequence? && s.c[t].v == v) || (s.c[t].ECas? && s.c[t].v == v)
    requires var s1 := Do(s, Step(t, false));
             s1.cells != [] && |s1.c| == |s.c| && !Returned(s1.c[t]) && Answers(s1, s1.c[t], s2, pc2)
    ensures EnqueueAnswer(s, v, s2, pc2)
  {
    EnqueueNearer(s, t, v);
  }

  lemma DequeueChain<T>(s: State<T>, t: nat, s2: State<T>, pc2: Pc<T>)
    requires Inv(s) && Small(s) && t < |s.c| && (s.c[t].DLoadPos? || s.c[t].DLoadSequence? || s.c[t].DCas?)
    requires var s1 := Do(s, Step(t, false));
             s1.cells != [] && |s1.c| == |s.c| && !Returned(s1.c[t]) && Answers(s1, s1.c[t], s2, pc2)
    ensures DequeueAnswer(s, s2, pc2)
  {
    DequeueNearer(s, t);
    NextDequeueCell(s);
  }

  lemma HolderChain<T>(s: State<T>, t: nat, s2: State<T>, pc2: Pc<T>)
    requires Inv(s) && t < |s.c| && Holds(s.c[t])
    requires var s1 := Do(s, Step(t, false));
             s1.cells != [] && |s1.c| == |s.c| && !Returned(s1.c[t]) && Answers(s1, s1.c[t], s2, pc2)
    ensures Answers(s, s.c[t], s2, pc2)
  {
    HolderNearer(s, t);
  }

  lemma Chain<T>(s: State<T>, t: nat, s2: State<T>, pc2: Pc<T>)
    requires Inv(s) && Small(s) && t < |s.c| && !Returned(s.c[t])
    requires var s1 := Do(s, Step(t, false));
             s1.cells != [] && |s1.c| == |s.c| && !Returned(s1.c[t]) && Answers(s1, s1.c[t], s2, pc2)
    ensures Answers(s, s.c[t], s2, pc2)
  {
    if Holds(s.c[t]) {
      HolderChain(s, t, s2, pc2);
    } else {
      match s.c[t]
      case ELoadPos(v) => EnqueueChain(s, t, v, s2, pc2);
      case ELoadSequence(v, _) => EnqueueChain(s, t, v, s2, pc2);
      case ECas(v, _) => EnqueueChain(s, t, v, s2, pc2);
      case _ => DequeueChain(s, t, s2, pc2);
    }
  }

  /** Wherever the other threads have stopped: a call ends after a few of its own steps; an enqueue is refused
      exactly if the next cell still serves the lap before, a dequeue exactly if the next position is not
      published. */
  lemma {:induction false} CallEnds<T>(s: State<T>, t: nat) returns (k: nat)
    requires Inv(s) && t < |s.c| && s.enq + Left(s, s.c[t]) + |s.cells| < HALF
    ensures var s' := Steps(s, t, k);
            |s'.c| == |s.c| && Returned(s'.c[t]) && Answers(s, s.c[t], s', s'.c[t])
    decreases Left(s, s.c[t])
  {
    k := 0;
    if !Returned(s.c[t]) {
      var s1 := Do(s, Step(t, false));
      DoKeeps(s, Step(t, false));
      Nearer(s, t);
      k := CallEnds(s1, t);
      var s2 := Steps(s1, t, k);
      if Returned(s1.c[t]) { Stays(s1, t, k); } else { Chain(s, t, s2, s2.c[t]); }
      k := k + 1;
      Once(s, t, k);
    } else {
      Stays(s, t, k);
    }
  }

  lemma {:induction false} Stays<T>(s: State<T>, t: nat, k: nat)
    requires t < |s.c| && Returned(s.c[t])
    ensures Steps(s, t, k) == s
    decreases k
  {
    if k > 0 { Stays(s, t, k - 1); }
  }

  // ---------------------------------------------------------------- a call that runs alone

  predicate Quiet<T>(s: State<T>) { forall t :: 0 <= t < |s.c| ==> Returned(s.c[t]) }

  function EnqueueAlone<T>(s: State<T>, t: nat, v: T): State<T> { Steps(Do(s, StartEnqueue(t, v)), t, 5) }

  function DequeueAlone<T>(s: State<T>, t: nat): State<T> { Steps(Do(s, StartDequeue(t)), t, 5) }

  /** With no call in flight a cell is free for the next lap or ready. */
  lemma QuietCell<T>(s: State<T>, pos: nat)
    requires Inv(s) && Quiet(s)
    ensures s.cells[At(s, pos)].phase.Free? || s.cells[At(s, pos)].phase.Ready?
    ensures pos == s.enq ==> (Serves(s, pos, Free) <==> s.enq < s.deq + |s.cells|)
    ensures pos == s.enq == s.deq + |s.cells| ==> s.cells[At(s, pos)].pos == s.deq
    ensures pos == s.deq ==> (Serves(s, pos, Ready) <==> s.deq < s.enq)
  {
    assert CellAt(s, At(s, pos));
    SameCell(s.cells[At(s, pos)].pos, pos, |s.cells|);
  }

  /** The queue with v appended, and with its first element removed. */
  function Enqueued<T>(s: State<T>, t: nat, v: T): State<T>
    requires s.cells != [] && t < |s.c|
  {
    s.(enq := s.enq + 1, log := s.log + [v], c := s.c[t := EDone],
       cells := s.cells[At(s, s.enq) := s.cells[At(s, s.enq)].(sequence := s.enq + 1, data := v, phase := Ready)])
  }

  function Dequeued<T>(s: State<T>, t: nat): State<T>
    requires s.cells != [] && t < |s.c| && s.deq < |s.log|
  {
    var next := s.deq + |s.cells|;
    s.(deq := s.deq + 1, c := s.c[t := DGot(s.deq, s.log[s.deq])],
       cells := s.cells[At(s, s.deq) := s.cells[At(s, s.deq)].(sequence := next, pos := next, phase := Free)])
  }

  /** With no other call in flight, an enqueue is refused exactly if the queue is full. */
  lemma EnqueueWhenQuiet<T>(s: State<T>, t: nat, v: T)
    requires Inv(s) && Small(s) && Quiet(s) && t < |s.c|
    ensures EnqueueAlone(s, t, v) ==
            if s.enq == s.deq + |s.cells| then s.(c := s.c[t := EFull(s.enq)]) else Enqueued(s, t, v)
  {
    var s1 := Do(Do(s, StartEnqueue(t, v)), Step(t, false));
    assert s1 == s.(c := s.c[t := ELoadSequence(v, s.enq)]);
    QuietCell(s, s.enq);
    EnqueueTest(s, s.enq);
    DifferenceExact(s.cells[At(s, s.enq)].sequence, s.enq);
    var s2 := Do(s1, Step(t, false));
    if s.enq == s.deq + |s.cells| {
      assert s2.c == s.c[t := EFull(s.enq)];
      Stays(s2, t, 3);
    } else {
      assert s2 == s.(c := s.c[t := ECas(v, s.enq)]);
      EnqueueFinishes(s, s2, t, v);
    }
  }

  lemma EnqueueFinishes<T>(s: State<T>, s2: State<T>, t: nat, v: T)
    requires s.cells != [] && t < |s.c| && s2 == s.(c := s.c[t := ECas(v, s.enq)])
    ensures Steps(s2, t, 3) == Enqueued(s, t, v)
  {
    var s3 := Do(s2, Step(t, false));
    var s4 := Do(s3, Step(t, false));
    var s5 := Do(s4, Step(t, false));
    assert s5.c == s.c[t := EDone];
    assert s5.cells == Enqueued(s, t, v).cells;
    assert Steps(s5, t, 0) == s5;
    assert Steps(s4, t, 1) == s5;
    assert Steps(s3, t, 2) == s5;
  }

  /** And a dequeue exactly if it is empty; otherwise it returns the oldest element. */
  lemma DequeueWhenQuiet<T>(s: State<T>, t: nat)
    requires Inv(s) && Small(s) && Quiet(s) && t < |s.c|
    ensures DequeueAlone(s, t) ==
            if s.enq == s.deq then s.(c := s.c[t := DEmpty(s.deq)]) else Dequeued(s, t)
  {
    var s1 := Do(Do(s, StartDequeue(t)), Step(t, false));
    assert s1 == s.(c := s.c[t := DLoadSequence(s.deq)]);
    QuietCell(s, s.deq);
    DequeueTest(s, s.deq);
    DifferenceExact(s.cells[At(s, s.deq)].sequence, s.deq + 1);
    var s2 := Do(s1, Step(t, false));
    if s.enq == s.deq {
      assert s2.c == s.c[t := DEmpty(s.deq)];
      Stays(s2, t, 3);
    } else {
      assert s2 == s.(c := s.c[t := DCas(s.deq)]);
      assert CellAt(s, At(s, s.deq));
      DequeueFinishes(s, s2, t);
    }
  }

  lemma DequeueFinishes<T>(s: State<T>, s2: State<T>, t: nat)
    requires s.cells != [] && t < |s.c| && s.deq < |s.log| && s2 == s.(c := s.c[t := DCas(s.deq)])
    requires s.cells[At(s, s.deq)].data == s.log[s.deq]
    ensures Steps(s2, t, 3) == Dequeued(s, t)
  {
    var s3 := Do(s2, Step(t, false));
    var s4 := Do(s3, Step(t, false));
    var s5 := Do(s4, Step(t, false));
    assert s5.c == Dequeued(s, t).c;
    assert s5.cells == Dequeued(s, t).cells;
    assert Steps(s5, t, 0) == s5;
    assert Steps(s4, t, 1) == s5;
    assert Steps(s3, t, 2) == s5;
  }

  // ---------------------------------------------------------------- the object

  /** The queue in memory, used by one thread at a time. */
  class Queue<T> {
    const sequence: array<nat>
    const data: array<T>
    var enq: nat
    var deq: nat

    ghost predicate Valid()
      reads this, sequence, data
    {
      && (sequence as object) != (data as object) && sequence.Length == data.Length >= 2
      && deq <= enq <= deq + data.Length
      && (forall p: nat :: deq <= p < enq ==> sequence[CellOf(p, data.Length)] == p + 1)
      && (forall p: nat :: enq <= p < deq + data.Length ==> sequence[CellOf(p, data.Length)] == p)
    }

    ghost function Contents(): seq<T>
      reads this, sequence, data
      requires Valid()
    {
      seq(enq - deq, i requires 0 <= i < enq - deq reads this, sequence, data requires Valid() =>
            data[CellOf(deq + i, data.Length)])
    }

    constructor (size: nat, junk: T)
      requires size >= 2
      ensures Valid() && fresh(sequence) && fresh(data) && data.Length == size && Contents() == []
      ensures enq == deq == 0
    {
      sequence := new nat[size];
      data := new T[size](_ => junk);
      enq, deq := 0, 0;
      new;
      var i := 0;
      while i != size
        invariant 0 <= i <= size && enq == deq == 0
        invariant forall k :: 0 <= k < i ==> sequence[k] == k
      {
        sequence[i] := i;
        i := i + 1;
      }
      forall p: nat | p < size ensures sequence[CellOf(p, size)] == p { ModSmall(p, size); }
    }

    /** The loop of enqueue that takes a position. */
    method TakeEnqueue() returns (ok: bool, pos: nat)
      requires Valid() && enq + data.Length < HALF
      modifies this`enq
      ensures ok <==> old(enq) < deq + data.Length
      ensures pos == old(enq) && enq == if ok then pos + 1 else pos
    {
      var n := data.Length;
      pos, ok := enq, false;
      NextLap(deq, n);
      assert pos == deq + n ==> sequence[CellOf(deq, n)] == deq + 1;
      DifferenceExact(sequence[CellOf(pos, n)], pos);
      while !ok
        invariant pos == old(enq) && enq == if ok then pos + 1 else pos
        invariant ok ==> pos < deq + n
        decreases if ok then 0 else 1
      {
        var dif := Difference(sequence[CellOf(pos, n)], pos);
        if dif == 0 {
          if enq == pos { enq, ok := pos + 1, true; } else { pos := enq; }
        } else if dif < 0 {
          return;
        } else {
          pos := enq;
        }
      }
    }

    method Enqueue(v: T) returns (ok: bool)
      requires Valid() && enq + data.Length < HALF
      modifies this`enq, sequence, data
      ensures Valid()
      ensures ok <==> |old(Contents())| < data.Length
      ensures Contents() == if ok then old(Contents()) + [v] else old(Contents())
    {
      var n := data.Length;
      ghost var before := Contents();
      var pos;
      ok, pos := TakeEnqueue();
      if !ok { return; }
      var cell := CellOf(pos, n);
      forall p: nat | deq <= p < deq + n && p != pos ensures CellOf(p, n) != cell { Elsewhere(p, pos, n); }
      data[cell] := v;
      sequence[cell] := pos + 1;
      forall i | 0 <= i < |before| ensures Contents()[i] == before[i] {
        assert CellOf(deq + i, n) != cell;
      }
      assert deq + |before| == pos;
      assert Contents() == before + [v];
    }

    /** The loop of dequeue that takes a position. */
    method TakeDequeue() returns (ok: bool, pos: nat)
      requires Valid() && enq + data.Length < HALF
      modifies this`deq
      ensures ok <==> old(deq) < enq
      ensures pos == old(deq) && deq == if ok then pos + 1 else pos
    {
      var n := data.Length;
      pos, ok := deq, false;
      DifferenceExact(sequence[CellOf(pos, n)], pos + 1);
      while !ok
        invariant pos == old(deq) && deq == if ok then pos + 1 else pos
        invariant ok ==> pos < enq
        decreases if ok then 0 else 1
      {
        var dif := Difference(sequence[CellOf(pos, n)], pos + 1);
        if dif == 0 {
          if deq == pos { deq, ok := pos + 1, true; } else { pos := deq; }
        } else if dif < 0 {
          return;
        } else {
          pos := deq;
        }
      }
    }

    method Dequeue(otherwise: T) returns (ok: bool, v: T)
      requires Valid() && enq + data.Length < HALF
      modifies this`deq, sequence
      ensures Valid()
      ensures ok <==> old(Contents()) != []
      ensures ok ==> old(Contents()) == [v] + Contents()
      ensures !ok ==> v == otherwise && Contents() == old(Contents())
    {
      var n := data.Length;
      var pos;
      v := otherwise;
      ok, pos := TakeDequeue();
      if !ok { return; }
      var cell := CellOf(pos, n);
      NextLap(pos, n);
      forall p: nat | pos < p < pos + n ensures CellOf(p, n) != cell { Elsewhere(p, pos, n); }
      v := data[cell];
      sequence[cell] := pos + n;
      assert old(Contents())[0] == v;
    }
  }

  lemma Elsewhere(p: nat, q: nat, n: nat)
    requires n >= 1 && p != q && p - q < n && q - p < n
    ensures CellOf(p, n) != CellOf(q, n)
  {
    if CellOf(p, n) == CellOf(q, n) { SameCell(p, q, n); }
  }
}
