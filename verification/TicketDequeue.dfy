/** The optimistic tickets by which dequeuers of one sub-queue of the concurrent queue agree on the
    indices they may take, and the enqueuer that advances the tail.

    The four counters are true integers here; the code sees them only as 64-bit words, so every
    comparison goes through `Wrap`. One thread enqueues; any number of threads dequeue, one element
    or up to `max` elements a call. Every step is one access to a shared counter. At a block boundary
    the enqueuer of an implicit producer always tests that there is room; that of an explicit producer
    does not when it reuses a block. */
module TicketDequeue {
  import opened Words
  import opened Arith

  datatype Call = One | Many(max: nat)

  datatype Verdict = No | Yes(n: nat)

  /** A dequeuer. `ov` is its load of the overcommit counter, `m` its ticket (the value of the
      optimistic count before its addition), d the number of elements it asked for. */
  datatype Pc =
    | Idle
    | LoadTail(call: Call)
    | LoadOver(call: Call, tl: nat)
    | LoadCount(call: Call, tl: nat, ov: nat)
    | Take(call: Call, d: nat, ov: nat)
    | Reload(call: Call, d: nat, ov: nat, m: nat)
    | PayBack(a: nat, r: nat)
    | Claim(a: nat)
    | GiveUp(d: nat)
    | Got(first: nat, n: nat)

  /** Every unit of the optimistic count is undecided, granted or refused. */
  datatype Mark = Open | Granted | Refused

  /** `o` is the tail modulo the block size bs; `storing` is set between the room check of an enqueue
      and its store to the tail. `marks` is never read by the code. */
  datatype State = State(
    bs: nat, tail: nat, o: nat, storing: bool,
    head: nat, count: nat, over: nat,
    c: seq<Pc>,
    marks: seq<Mark>)

  datatype Action = StartEnqueue(test: bool) | StoreTail | StartDequeue(t: nat, call: Call) | Step(t: nat)

  // ---------------------------------------------------------------- the tests on words

  function WordDifference(x: int, y: int): nat { Wrap(Wrap(x) - Wrap(y)) }

  /** How many elements to ask for, given the three loads. */
  function Ask(call: Call, tl: nat, ov: nat, count: nat): Verdict {
    match call
    case One => if CircularLessThan(WordDifference(count, ov), Wrap(tl)) then Yes(1) else No
    case Many(max) =>
      var d := Wrap(Wrap(tl) - WordDifference(count, ov));
      if CircularLessThan(0, d) then Yes(Min(d, max)) else No
  }

  /** How many of the d elements asked for a ticket m gets, given the second load of the tail. */
  function Grant(call: Call, d: nat, ov: nat, m: nat, tl: nat): Verdict {
    match call
    case One => if CircularLessThan(WordDifference(m, ov), Wrap(tl)) then Yes(1) else No
    case Many(_) =>
      var a := Wrap(Wrap(tl) - WordDifference(m, ov));
      if CircularLessThan(0, a) then Yes(Min(d, a)) else No
  }

  // ---------------------------------------------------------------- steps

  function Mark1(n: nat, x: Mark): seq<Mark> { seq(n, i => x) }

  /** Marks a of the d units from m on as granted and the rest as refused. */
  function Decide(marks: seq<Mark>, m: nat, d: nat, a: nat): seq<Mark>
    requires m + d <= |marks| && a <= d
  {
    marks[..m] + Mark1(a, Granted) + Mark1(d - a, Refused) + marks[m + d..]
  }

  predicate CanStep(s: State, t: nat) {
    && t < |s.c|
    && (s.c[t].Reload? ==>
          var pc := s.c[t];
          pc.m + pc.d <= |s.marks| && (pc.call.One? ==> pc.d == 1))
  }

  function ReloadStep(s: State, t: nat): State
    requires CanStep(s, t) && s.c[t].Reload?
  {
    var pc := s.c[t];
    match Grant(pc.call, pc.d, pc.ov, pc.m, s.tail)
    case No => s.(c := s.c[t := GiveUp(pc.d)], marks := Decide(s.marks, pc.m, pc.d, 0))
    case Yes(a) =>
      s.(c := s.c[t := if a < pc.d then PayBack(a, pc.d - a) else Claim(a)],
         marks := Decide(s.marks, pc.m, pc.d, a))
  }

  function ThreadStep(s: State, t: nat): State
    requires CanStep(s, t)
  {
    match s.c[t]
    case Idle => s
    case LoadTail(call) => s.(c := s.c[t := LoadOver(call, s.tail)])
    case LoadOver(call, tl) => s.(c := s.c[t := LoadCount(call, tl, s.over)])
    case LoadCount(call, tl, ov) =>
      s.(c := s.c[t := match Ask(call, tl, ov, s.count) case No => Idle case Yes(d) => Take(call, d, ov)])
    case Take(call, d, ov) =>
      s.(c := s.c[t := Reload(call, d, ov, s.count)], count := s.count + d, marks := s.marks + Mark1(d, Open))
    case Reload(_, _, _, _) => ReloadStep(s, t)
    case PayBack(a, r) => s.(c := s.c[t := Claim(a)], over := s.over + r)
    case Claim(a) => s.(c := s.c[t := Got(s.head, a)], head := s.head + a)
    case GiveUp(d) => s.(c := s.c[t := Idle], over := s.over + d)
    case Got(_, _) => s.(c := s.c[t := Idle])
  }

  function Do(s: State, act: Action): State {
    match act
    case StartEnqueue(test) =>
      if !s.storing && (s.o != 0 || !test || CircularLessThan(Wrap(s.head), Wrap(s.tail + s.bs)))
      then s.(storing := true) else s
    case StoreTail =>
      if s.storing then s.(storing := false, tail := s.tail + 1, o := if s.o + 1 == s.bs then 0 else s.o + 1)
      else s
    case StartDequeue(t, call) =>
      if t < |s.c| && s.c[t] == Idle then s.(c := s.c[t := LoadTail(call)]) else s
    case Step(t) => if CanStep(s, t) then ThreadStep(s, t) else s
  }

  function Run(s: State, schedule: seq<Action>): State {
    if schedule == [] then s else Do(Run(s, schedule[..|schedule| - 1]), schedule[|schedule| - 1])
  }

  function Start(bs: nat, dequeuers: nat): State {
    State(bs, 0, 0, false, 0, 0, 0, seq(dequeuers, i => Idle), [])
  }

  /** No ticket is decided while the optimistic count has run more than 2^63 ahead of the tail plus
      the overcommit its holder has seen. */
  predicate Paced(s: State, act: Action) {
    act.Step? && act.t < |s.c| && s.c[act.t].Reload? && s.c[act.t].d >= 1 ==>
      s.c[act.t].m - s.c[act.t].ov - s.tail <= HALF
  }

  ghost predicate PacedRun(s: State, schedule: seq<Action>) {
    forall i :: 0 <= i < |schedule| ==> Paced(Run(s, schedule[..i]), schedule[i])
  }

  // ---------------------------------------------------------------- sums and counts

  function Sum(c: seq<Pc>, w: Pc -> nat): nat {
    if c == [] then 0 else Sum(c[..|c| - 1], w) + w(c[|c| - 1])
  }

  lemma {:induction false} SumUpdate(c: seq<Pc>, w: Pc -> nat, t: nat, pc: Pc)
    requires t < |c|
    ensures Sum(c[t := pc], w) == Sum(c, w) - w(c[t]) + w(pc)
  {
    var n := |c| - 1;
    if t < n {
      SumUpdate(c[..n], w, t, pc);
      assert c[t := pc][..n] == c[..n][t := pc];
    } else {
      assert c[t := pc][..n] == c[..n];
    }
  }

  lemma {:induction false} SumZero(c: seq<Pc>, w: Pc -> nat)
    requires forall t :: 0 <= t < |c| ==> w(c[t]) == 0
    ensures Sum(c, w) == 0
  {
    if c != [] { SumZero(c[..|c| - 1], w); }
  }

  function Count(s: seq<Mark>, x: Mark): nat {
    if s == [] then 0 else Count(s[..|s| - 1], x) + (if s[|s| - 1] == x then 1 else 0)
  }

  lemma {:induction false} CountAdd(s: seq<Mark>, r: seq<Mark>, x: Mark)
    ensures Count(s + r, x) == Count(s, x) + Count(r, x)
  {
    if r == [] {
      assert s + r == s;
    } else {
      CountAdd(s, r[..|r| - 1], x);
      assert (s + r)[..|s + r| - 1] == s + r[..|r| - 1];
    }
  }

  lemma {:induction false} CountSame(n: nat, y: Mark, x: Mark)
    ensures Count(Mark1(n, y), x) == if x == y then n else 0
  {
    if n > 0 {
      CountSame(n - 1, y, x);
      assert Mark1(n, y)[..n - 1] == Mark1(n - 1, y);
    }
  }

  lemma {:induction false} CountBound(s: seq<Mark>)
    ensures Count(s, Granted) + Count(s, Refused) <= |s|
  {
    if s != [] { CountBound(s[..|s| - 1]); }
  }

  // ---------------------------------------------------------------- the invariant

  /** Units of the optimistic count that pc has added and not yet turned into head or overcommit. */
  function InFlight(pc: Pc): nat { Undecided(pc) + ToClaim(pc) + ToRefund(pc) }

  function Undecided(pc: Pc): nat { if pc.Reload? then pc.d else 0 }

  function ToClaim(pc: Pc): nat { if pc.PayBack? || pc.Claim? then pc.a else 0 }

  function ToRefund(pc: Pc): nat { if pc.PayBack? then pc.r else if pc.GiveUp? then pc.d else 0 }

  /** A granted unit has at least as many elements before the tail as units not refused before it. */
  predicate Backed(s: State, p: nat)
    requires p < |s.marks|
  {
    s.marks[p].Granted? ==> p + 1 - Count(s.marks[..p], Refused) <= s.tail
  }

  /** Past the first test, which nobody passes before the first element was enqueued. */
  predicate Late(pc: Pc) { pc.Take? || pc.Reload? || pc.PayBack? || pc.Claim? || pc.GiveUp? || pc.Got? }

  predicate Holds(s: State, pc: Pc) {
    (Late(pc) ==> s.tail > 0) &&
    match pc
    case LoadCount(_, tl, ov) => tl <= s.tail && ov <= Count(s.marks, Refused)
    case LoadOver(_, tl) => tl <= s.tail
    case Take(call, d, ov) => ov <= Count(s.marks, Refused) && (call.One? ==> d == 1)
    case Reload(call, d, ov, m) =>
      && m + d <= |s.marks| && ov <= Count(s.marks[..m], Refused) && (call.One? ==> d == 1)
      && forall p :: m <= p < m + d ==> s.marks[p].Open?
    case Got(first, n) => first + n <= s.head
    case _ => true
  }

  /** Tickets do not overlap, and neither do claims. */
  predicate Separate(c: seq<Pc>, t: nat, u: nat)
    requires t < |c| && u < |c|
  {
    && (c[t].Reload? && c[u].Reload? ==> c[t].m + c[t].d <= c[u].m || c[u].m + c[u].d <= c[t].m)
    && (c[t].Got? && c[u].Got? ==> c[t].first + c[t].n <= c[u].first || c[u].first + c[u].n <= c[t].first)
  }

  predicate Totals(s: State) {
    && |s.marks| == s.count
    && s.count == s.head + s.over + Sum(s.c, InFlight)
    && Count(s.marks, Granted) == s.head + Sum(s.c, ToClaim)
    && Count(s.marks, Refused) == s.over + Sum(s.c, ToRefund)
  }

  ghost predicate Inv(s: State) {
    && Totals(s) && (s.count > 0 ==> s.tail > 0)
    && (forall p :: 0 <= p < |s.marks| ==> Backed(s, p))
    && (forall t :: 0 <= t < |s.c| ==> Holds(s, s.c[t]))
    && (forall t, u :: 0 <= t < u < |s.c| ==> Separate(s.c, t, u))
  }

  /** The granted units never outnumber the elements enqueued. */
  lemma {:induction false} GrantsBacked(s: State, k: nat)
    requires k <= |s.marks| && forall p :: 0 <= p < |s.marks| ==> Backed(s, p)
    ensures Count(s.marks[..k], Granted) <= s.tail
  {
    if k > 0 {
      GrantsBacked(s, k - 1);
      assert s.marks[..k][..k - 1] == s.marks[..k - 1];
      if s.marks[k - 1].Granted? {
        assert Backed(s, k - 1);
        CountBound(s.marks[..k - 1]);
      }
    }
  }

  lemma HeadBelowTail(s: State)
    requires Inv(s)
    ensures s.head + Sum(s.c, ToClaim) <= s.tail
  {
    GrantsBacked(s, |s.marks|);
    assert s.marks[..|s.marks|] == s.marks;
  }

  // ---------------------------------------------------------------- the tests are sound

  /** A single dequeue decides like a bulk dequeue of at most one element. */
  lemma SingleIsBulkOfOne(tl: nat, ov: nat, count: nat)
    ensures Ask(One, tl, ov, count) == Ask(Many(1), tl, ov, count)
    ensures Grant(One, 1, ov, count, tl) == Grant(Many(1), 1, ov, count, tl)
  {
    VerdictWords(One, tl, ov, count);
    VerdictWords(Many(1), tl, ov, count);
  }

  /** Both tests in terms of the true number of elements ahead of the ticket. */
  lemma VerdictWords(call: Call, tl: nat, ov: nat, m: nat)
    ensures var w := Wrap(tl - (m - ov));
            && Ask(call, tl, ov, m) == (if 0 < w < HALF then Yes(if call.One? then 1 else Min(w, call.max)) else No)
            && (forall d :: Grant(call, d, ov, m, tl) == (if 0 < w < HALF then Yes(if call.One? then 1 else Min(d, w)) else No))
  {
    var w := Wrap(tl - (m - ov));
    WrapDifference(m, ov);
    WrapDifference(tl, m - ov);
    WrapDifference(m - ov, tl);
    NegativeWord(tl - (m - ov));
    assert (m - ov) - tl == -(tl - (m - ov));
  }

  lemma NegativeWord(x: int)
    ensures Wrap(-x) == if Wrap(x) == 0 then 0 else WORD - Wrap(x)
    ensures Wrap(0 - Wrap(x)) == Wrap(-x)
  {
    WrapDifference(0, x);
  }

  /** A ticket is granted no more than there is, exactly unless it lies more than 2^63 beyond. */
  lemma GrantSound(call: Call, d: nat, ov: nat, m: nat, tl: nat)
    requires d >= 1 && (call.One? ==> d == 1) && m - ov - tl < WORD
    ensures var a := Grant(call, d, ov, m, tl);
            (a.Yes? ==> a.n <= d && a.n <= tl - (m - ov)) <==> m - ov - tl <= HALF
  {
    VerdictWords(call, tl, ov, m);
    WordOf(tl - (m - ov));
  }

  lemma WordOf(x: int)
    ensures 0 <= x < WORD ==> Wrap(x) == x
    ensures -WORD <= x < 0 ==> Wrap(x) == x + WORD
    ensures x >= 0 ==> Wrap(x) <= x
  {
    if -WORD <= x < 0 { WrapOne(x, -1); }
  }

  // ---------------------------------------------------------------- every step keeps the invariant

  lemma SumsUpdate(c: seq<Pc>, t: nat, pc: Pc)
    requires t < |c|
    ensures Sum(c[t := pc], InFlight) == Sum(c, InFlight) - InFlight(c[t]) + InFlight(pc)
    ensures Sum(c[t := pc], ToClaim) == Sum(c, ToClaim) - ToClaim(c[t]) + ToClaim(pc)
    ensures Sum(c[t := pc], ToRefund) == Sum(c, ToRefund) - ToRefund(c[t]) + ToRefund(pc)
  {
    SumUpdate(c, InFlight, t, pc);
    SumUpdate(c, ToClaim, t, pc);
    SumUpdate(c, ToRefund, t, pc);
  }

  /** Dequeuer t moves to pc', turning what it had in flight into head and overcommit. */
  lemma MoveKeeps(s: State, t: nat, pc': Pc, head': nat, over': nat)
    requires Inv(s) && t < |s.c| && head' >= s.head && over' >= s.over
    requires InFlight(s.c[t]) == InFlight(pc') + (head' - s.head) + (over' - s.over)
    requires ToClaim(s.c[t]) == ToClaim(pc') + (head' - s.head)
    requires ToRefund(s.c[t]) == ToRefund(pc') + (over' - s.over)
    requires !pc'.Reload? && (pc'.Got? ==> pc'.first >= s.head)
    requires Holds(s.(head := head'), pc')
    ensures Inv(s.(c := s.c[t := pc'], head := head', over := over'))
  {
    var s' := s.(c := s.c[t := pc'], head := head', over := over');
    SumsUpdate(s.c, t, pc');
    forall p | 0 <= p < |s'.marks| ensures Backed(s', p) { assert Backed(s, p); }
    forall u | 0 <= u < |s'.c| ensures Holds(s', s'.c[u]) { assert Holds(s, s.c[u]); }
    forall u, v | 0 <= u < v < |s'.c| ensures Separate(s'.c, u, v) {
      assert Separate(s.c, u, v);
      assert Holds(s, s.c[u]) && Holds(s, s.c[v]);
    }
  }

  lemma LoadCountKeeps(s: State, t: nat)
    requires Inv(s) && t < |s.c| && s.c[t].LoadCount?
    ensures Inv(ThreadStep(s, t))
  {
    assert Holds(s, s.c[t]);
    AskWithin(s.c[t].call, s.c[t].tl, s.c[t].ov, s.count);
    MoveKeeps(s, t, ThreadStep(s, t).c[t], s.head, s.over);
  }

  /** Nothing is asked for when nothing was enqueued, and never more than the call wants. */
  lemma AskWithin(call: Call, tl: nat, ov: nat, count: nat)
    ensures var a := Ask(call, tl, ov, count); a.Yes? ==> a.n <= Most(call) && (call.One? ==> a.n == 1)
    ensures tl == ov == count == 0 ==> Ask(call, tl, ov, count).No?
    ensures var a := Ask(call, tl, ov, count); a.Yes? && Most(call) >= 1 ==> a.n >= 1
  {
    VerdictWords(call, tl, ov, count);
    WordOf(tl - (count - ov));
  }

  function Most(call: Call): nat { if call.One? then 1 else call.max }

  lemma LoadOverKeeps(s: State, t: nat)
    requires Inv(s) && t < |s.c| && s.c[t].LoadOver?
    ensures Inv(ThreadStep(s, t))
  {
    assert Holds(s, s.c[t]);
    MoveKeeps(s, t, ThreadStep(s, t).c[t], s.head, s.over);
  }

  lemma {:induction false} CountPrefix(s: seq<Mark>, r: seq<Mark>, k: nat, x: Mark)
    requires k <= |s|
    ensures Count((s + r)[..k], x) == Count(s[..k], x)
  {
    assert (s + r)[..k] == s[..k];
  }

  lemma TakeTotals(s: State, t: nat)
    requires Totals(s) && t < |s.c| && s.c[t].Take?
    ensures Totals(ThreadStep(s, t))
  {
    var d := s.c[t].d;
    SumsUpdate(s.c, t, Reload(s.c[t].call, d, s.c[t].ov, s.count));
    CountAdd(s.marks, Mark1(d, Open), Granted);
    CountAdd(s.marks, Mark1(d, Open), Refused);
    CountSame(d, Open, Granted);
    CountSame(d, Open, Refused);
  }

  lemma TakeSeparate(s: State, t: nat, u: nat, v: nat)
    requires Inv(s) && t < |s.c| && s.c[t].Take? && u < v < |s.c|
    ensures Separate(ThreadStep(s, t).c, u, v)
  {
    assert Separate(s.c, u, v);
    assert Holds(s, s.c[u]) && Holds(s, s.c[v]);
  }

  lemma TakeKeeps(s: State, t: nat)
    requires Inv(s) && t < |s.c| && s.c[t].Take?
    ensures Inv(ThreadStep(s, t))
  {
    var s' := ThreadStep(s, t);
    var d := s.c[t].d;
    TakeTotals(s, t);
    forall p | 0 <= p < |s'.marks| ensures Backed(s', p) {
      if p < |s.marks| { assert Backed(s, p); CountPrefix(s.marks, Mark1(d, Open), p, Refused); }
    }
    forall u | 0 <= u < |s'.c| ensures Holds(s', s'.c[u]) { TakeKeepsHold(s, t, u); }
    forall u, v | 0 <= u < v < |s'.c| ensures Separate(s'.c, u, v) { TakeSeparate(s, t, u, v); }
  }

  lemma TakeKeepsHold(s: State, t: nat, u: nat)
    requires Inv(s) && t < |s.c| && s.c[t].Take? && u < |s.c|
    ensures Holds(ThreadStep(s, t), ThreadStep(s, t).c[u])
  {
    assert Holds(s, s.c[u]) && Holds(s, s.c[t]);
    if u == t { TakeHolds(s, s.c[t]); } else { TakeKeepsOther(s, s.c[t].d, s.c[u]); }
  }

  /** A new ticket. */
  lemma TakeHolds(s: State, pc: Pc)
    requires pc.Take? && Holds(s, pc) && |s.marks| == s.count
    ensures Holds(s.(count := s.count + pc.d, marks := s.marks + Mark1(pc.d, Open)), Reload(pc.call, pc.d, pc.ov, s.count))
  {
    CountPrefix(s.marks, Mark1(pc.d, Open), |s.marks|, Refused);
    assert s.marks[..|s.marks|] == s.marks;
  }

  lemma TakeKeepsOther(s: State, d: nat, pc: Pc)
    requires Holds(s, pc)
    ensures Holds(s.(count := s.count + d, marks := s.marks + Mark1(d, Open)), pc)
  {
    CountAdd(s.marks, Mark1(d, Open), Refused);
    if pc.Reload? { CountPrefix(s.marks, Mark1(d, Open), pc.m, Refused); }
  }

  // Deciding a ticket.

  /** Units that are open count for nothing else. */
  lemma OpenCounts(marks: seq<Mark>, m: nat, d: nat, x: Mark)
    requires m + d <= |marks| && !x.Open? && forall p :: m <= p < m + d ==> marks[p].Open?
    ensures Count(marks, x) == Count(marks[..m], x) + Count(marks[m + d..], x)
  {
    var before, after := marks[..m], marks[m + d..];
    assert marks == before + Mark1(d, Open) + after;
    CountAdd(before + Mark1(d, Open), after, x);
    CountAdd(before, Mark1(d, Open), x);
    CountSame(d, Open, x);
  }

  lemma DecidedCounts(marks: seq<Mark>, m: nat, d: nat, a: nat, x: Mark)
    requires m + d <= |marks| && a <= d
    ensures Count(Decide(marks, m, d, a), x)
         == Count(marks[..m], x) + Count(Mark1(a, Granted), x) + Count(Mark1(d - a, Refused), x) + Count(marks[m + d..], x)
  {
    var before, granted, refused := marks[..m], Mark1(a, Granted), Mark1(d - a, Refused);
    CountAdd(before + granted + refused, marks[m + d..], x);
    CountAdd(before + granted, refused, x);
    CountAdd(before, granted, x);
  }

  /** The counts of a decision, when the decided units were open. */
  lemma DecideCounts(marks: seq<Mark>, m: nat, d: nat, a: nat, x: Mark)
    requires m + d <= |marks| && a <= d && (forall p :: m <= p < m + d ==> marks[p].Open?)
    ensures x == Granted ==> Count(Decide(marks, m, d, a), x) == Count(marks, x) + a
    ensures x == Refused ==> Count(Decide(marks, m, d, a), x) == Count(marks, x) + d - a
  {
    if !x.Open? {
      OpenCounts(marks, m, d, x);
      DecidedCounts(marks, m, d, a, x);
      CountSame(a, Granted, x);
      CountSame(d - a, Refused, x);
    }
  }

  /** Refusals are only ever added. */
  lemma {:induction false} DecideRefuses(marks: seq<Mark>, m: nat, d: nat, a: nat, k: nat)
    requires m + d <= |marks| && a <= d && k <= |marks| && (forall p :: m <= p < m + d ==> marks[p].Open?)
    ensures Count(Decide(marks, m, d, a)[..k], Refused) >= Count(marks[..k], Refused)
  {
    if k > 0 {
      DecideRefuses(marks, m, d, a, k - 1);
      assert marks[..k][..k - 1] == marks[..k - 1];
      assert Decide(marks, m, d, a)[..k][..k - 1] == Decide(marks, m, d, a)[..k - 1];
    }
  }

  lemma {:induction false} CountMonotone(marks: seq<Mark>, i: nat, k: nat, x: Mark)
    requires i <= k <= |marks|
    ensures Count(marks[..i], x) <= Count(marks[..k], x)
  {
    if i < k {
      CountMonotone(marks, i, k - 1, x);
      assert marks[..k][..k - 1] == marks[..k - 1];
    }
  }

  lemma DecideBacked(s: State, m: nat, d: nat, a: nat, ov: nat, p: nat)
    requires m + d <= |s.marks| && a <= d && (forall p :: m <= p < m + d ==> s.marks[p].Open?)
    requires ov <= Count(s.marks[..m], Refused) && (a > 0 ==> a <= s.tail - (m - ov))
    requires p < |s.marks| && Backed(s, p)
    ensures Backed(s.(marks := Decide(s.marks, m, d, a)), p)
  {
    DecideRefuses(s.marks, m, d, a, p);
    if m <= p < m + a { CountMonotone(s.marks, m, p, Refused); }
  }

  lemma DecideHolds(s: State, m: nat, d: nat, a: nat, pc: Pc)
    requires m + d <= |s.marks| && a <= d && (forall p :: m <= p < m + d ==> s.marks[p].Open?)
    requires Holds(s, pc) && (pc.Reload? ==> pc.m + pc.d <= m || m + d <= pc.m)
    ensures Holds(s.(marks := Decide(s.marks, m, d, a)), pc)
  {
    DecideCounts(s.marks, m, d, a, Refused);
    if pc.Reload? { DecideRefuses(s.marks, m, d, a, pc.m); }
  }

  /** What a dequeuer does after its ticket for d elements was granted a of them. */
  predicate Settles(pc: Pc, d: nat, a: nat) {
    (pc.PayBack? || pc.Claim? || pc.GiveUp?) && ToClaim(pc) == a && ToRefund(pc) + a == d
  }

  lemma DecideTotals(s: State, t: nat, pc': Pc, a: nat)
    requires Totals(s) && t < |s.c| && s.c[t].Reload? && Holds(s, s.c[t]) && a <= s.c[t].d
    requires Settles(pc', s.c[t].d, a)
    ensures Totals(s.(c := s.c[t := pc'], marks := Decide(s.marks, s.c[t].m, s.c[t].d, a)))
  {
    var pc := s.c[t];
    var marks' := Decide(s.marks, pc.m, pc.d, a);
    DecideCounts(s.marks, pc.m, pc.d, a, Granted);
    DecideCounts(s.marks, pc.m, pc.d, a, Refused);
    TotalsMove(s, t, pc', marks', a);
  }

  lemma TotalsMove(s: State, t: nat, pc': Pc, marks': seq<Mark>, a: nat)
    requires Totals(s) && t < |s.c| && s.c[t].Reload? && a <= s.c[t].d && Settles(pc', s.c[t].d, a)
    requires |marks'| == |s.marks| && Count(marks', Granted) == Count(s.marks, Granted) + a
    requires Count(marks', Refused) == Count(s.marks, Refused) + s.c[t].d - a
    ensures Totals(s.(c := s.c[t := pc'], marks := marks'))
  {
    SumsUpdate(s.c, t, pc');
  }

  lemma DecideKeepsHold(s: State, t: nat, u: nat, a: nat)
    requires Inv(s) && t < |s.c| && s.c[t].Reload? && Holds(s, s.c[t]) && u < |s.c| && u != t && a <= s.c[t].d
    ensures Holds(s.(marks := Decide(s.marks, s.c[t].m, s.c[t].d, a)), s.c[u])
  {
    assert Holds(s, s.c[u]);
    assert Separate(s.c, if u < t then u else t, if u < t then t else u);
    DecideHolds(s, s.c[t].m, s.c[t].d, a, s.c[u]);
  }

  lemma DecideKeeps(s: State, t: nat, pc': Pc, a: nat)
    requires Inv(s) && t < |s.c| && s.c[t].Reload? && a <= s.c[t].d && (a > 0 ==> a <= s.tail - (s.c[t].m - s.c[t].ov))
    requires Settles(pc', s.c[t].d, a)
    requires s.c[t].m + s.c[t].d <= |s.marks|
    ensures Inv(s.(c := s.c[t := pc'], marks := Decide(s.marks, s.c[t].m, s.c[t].d, a)))
  {
    var pc := s.c[t];
    var s' := s.(c := s.c[t := pc'], marks := Decide(s.marks, pc.m, pc.d, a));
    assert Holds(s, pc);
    DecideTotals(s, t, pc', a);
    forall p | 0 <= p < |s'.marks| ensures Backed(s', p) {
      assert Backed(s, p);
      DecideBacked(s, pc.m, pc.d, a, pc.ov, p);
    }
    forall u | 0 <= u < |s'.c| ensures Holds(s', s'.c[u]) {
      if u != t { DecideKeepsHold(s, t, u, a); }
    }
    forall u, v | 0 <= u < v < |s'.c| ensures Separate(s'.c, u, v) { assert Separate(s.c, u, v); }
  }

  lemma ReloadKeeps(s: State, t: nat)
    requires Inv(s) && t < |s.c| && s.c[t].Reload? && Paced(s, Step(t))
    ensures CanStep(s, t) && Inv(ReloadStep(s, t))
  {
    var pc := s.c[t];
    assert Holds(s, pc);
    var g := Grant(pc.call, pc.d, pc.ov, pc.m, s.tail);
    if g.No? {
      DecideKeeps(s, t, GiveUp(pc.d), 0);
    } else {
      GrantBacked(pc.call, pc.d, pc.ov, pc.m, s.tail);
      DecideKeeps(s, t, if g.n < pc.d then PayBack(g.n, pc.d - g.n) else Claim(g.n), g.n);
    }
  }

  lemma GrantBacked(call: Call, d: nat, ov: nat, m: nat, tl: nat)
    requires (call.One? ==> d == 1) && (d >= 1 ==> m - ov - tl <= HALF)
    ensures var a := Grant(call, d, ov, m, tl); a.Yes? ==> a.n <= d && (a.n > 0 ==> a.n <= tl - (m - ov))
  {
    GrantAtMost(call, d, ov, m, tl);
    if d >= 1 { GrantSound(call, d, ov, m, tl); }
  }

  lemma GrantAtMost(call: Call, d: nat, ov: nat, m: nat, tl: nat)
    requires call.One? ==> d == 1
    ensures var a := Grant(call, d, ov, m, tl); a.Yes? ==> a.n <= d && (d >= 1 ==> a.n >= 1)
  {
    VerdictWords(call, tl, ov, m);
  }

  // The enqueuer.

  lemma StartEnqueueKeeps(s: State, test: bool)
    requires Inv(s)
    ensures Inv(Do(s, StartEnqueue(test)))
  {
    var s' := Do(s, StartEnqueue(test));
    forall p | 0 <= p < |s.marks| ensures Backed(s', p) { assert Backed(s, p); }
    forall t | 0 <= t < |s.c| ensures Holds(s', s'.c[t]) { assert Holds(s, s.c[t]); }
  }

  lemma StoreTailKeeps(s: State)
    requires Inv(s)
    ensures Inv(Do(s, StoreTail))
  {
    var s' := Do(s, StoreTail);
    forall p | 0 <= p < |s.marks| ensures Backed(s', p) { assert Backed(s, p); }
    forall t | 0 <= t < |s.c| ensures Holds(s', s'.c[t]) { assert Holds(s, s.c[t]); }
  }

  lemma StepKeeps(s: State, t: nat)
    requires Inv(s) && t < |s.c| && Paced(s, Step(t))
    ensures CanStep(s, t) && Inv(ThreadStep(s, t))
  {
    match s.c[t]
    case Idle =>
    case LoadTail(call) => MoveKeeps(s, t, LoadOver(call, s.tail), s.head, s.over);
    case LoadOver(_, _) => LoadOverKeeps(s, t);
    case LoadCount(_, _, _) => LoadCountKeeps(s, t);
    case Take(_, _, _) => TakeKeeps(s, t);
    case Reload(_, _, _, _) => ReloadKeeps(s, t);
    case _ => SettleKeeps(s, t);
  }

  /** From the decision of a ticket to the end of the call. */
  lemma SettleKeeps(s: State, t: nat)
    requires Inv(s) && t < |s.c| && (s.c[t].PayBack? || s.c[t].Claim? || s.c[t].GiveUp? || s.c[t].Got?)
    ensures Inv(ThreadStep(s, t))
  {
    match s.c[t]
    case PayBack(a, r) => PayBackKeeps(s, t, a, r);
    case Claim(a) => ClaimKeeps(s, t, a);
    case GiveUp(d) => GiveUpKeeps(s, t, d);
    case Got(_, _) => GotKeeps(s, t);
  }

  lemma PayBackKeeps(s: State, t: nat, a: nat, r: nat)
    requires Inv(s) && t < |s.c| && s.c[t] == PayBack(a, r)
    ensures Inv(ThreadStep(s, t))
  {
    assert Holds(s, s.c[t]);
    var o := s.over + r;
    assert ThreadStep(s, t) == s.(c := s.c[t := Claim(a)], head := s.head, over := o);
    MoveKeeps(s, t, Claim(a), s.head, o);
  }

  lemma ClaimKeeps(s: State, t: nat, a: nat)
    requires Inv(s) && t < |s.c| && s.c[t] == Claim(a)
    ensures Inv(ThreadStep(s, t))
  {
    assert Holds(s, s.c[t]);
    var h := s.head + a;
    assert ThreadStep(s, t) == s.(c := s.c[t := Got(s.head, a)], head := h, over := s.over);
    MoveKeeps(s, t, Got(s.head, a), h, s.over);
  }

  lemma GiveUpKeeps(s: State, t: nat, d: nat)
    requires Inv(s) && t < |s.c| && s.c[t] == GiveUp(d)
    ensures Inv(ThreadStep(s, t))
  {
    var o := s.over + d;
    assert ThreadStep(s, t) == s.(c := s.c[t := Idle], head := s.head, over := o);
    MoveKeeps(s, t, Idle, s.head, o);
  }

  lemma GotKeeps(s: State, t: nat)
    requires Inv(s) && t < |s.c| && s.c[t].Got?
    ensures Inv(ThreadStep(s, t))
  {
    MoveKeeps(s, t, Idle, s.head, s.over);
  }

  lemma DoKeeps(s: State, act: Action)
    requires Inv(s) && Paced(s, act)
    ensures Inv(Do(s, act))
  {
    match act
    case StartEnqueue(test) => StartEnqueueKeeps(s, test);
    case StoreTail => StoreTailKeeps(s);
    case StartDequeue(t, call) =>
      if t < |s.c| && s.c[t] == Idle { MoveKeeps(s, t, LoadTail(call), s.head, s.over); }
    case Step(t) => if t < |s.c| { StepKeeps(s, t); }
  }

  lemma {:induction false} RunInv(bs: nat, dequeuers: nat, schedule: seq<Action>)
    requires PacedRun(Start(bs, dequeuers), schedule)
    ensures Inv(Run(Start(bs, dequeuers), schedule))
  {
    var s := Start(bs, dequeuers);
    if schedule == [] {
      SumZero(s.c, InFlight);
      SumZero(s.c, ToClaim);
      SumZero(s.c, ToRefund);
    } else {
      var n := |schedule| - 1;
      PacedPrefix(s, schedule);
      RunInv(bs, dequeuers, schedule[..n]);
      DoKeeps(Run(s, schedule[..n]), schedule[n]);
    }
  }

  // ---------------------------------------------------------------- what the tickets guarantee

  /** Never claimed beyond the tail; what is about to be claimed lies below the tail, and something was
      enqueued; claims do not overlap; the assertion overcommit <= ticket; and the balance of the
      counters. */
  ghost predicate Safe(s: State) {
    && s.head <= s.tail
    && s.count == s.head + s.over + Sum(s.c, InFlight)
    && (forall t :: 0 <= t < |s.c| && s.c[t].Claim? ==> s.head + s.c[t].a <= s.tail && s.tail > 0)
    && (forall t :: 0 <= t < |s.c| && s.c[t].Got? ==> s.c[t].first + s.c[t].n <= s.head)
    && (forall t :: 0 <= t < |s.c| && s.c[t].Reload? ==> s.c[t].ov <= s.c[t].m)
    && (forall t, u :: 0 <= t < u < |s.c| && s.c[t].Got? && s.c[u].Got? ==>
          s.c[t].first + s.c[t].n <= s.c[u].first || s.c[u].first + s.c[u].n <= s.c[t].first)
  }

  lemma {:induction false} SumAtLeast(c: seq<Pc>, w: Pc -> nat, t: nat)
    requires t < |c|
    ensures w(c[t]) <= Sum(c, w)
  {
    if t < |c| - 1 { SumAtLeast(c[..|c| - 1], w, t); }
  }

  lemma InvSafe(s: State)
    requires Inv(s)
    ensures Safe(s)
  {
    HeadBelowTail(s);
    forall t | 0 <= t < |s.c| && s.c[t].Claim? ensures s.head + s.c[t].a <= s.tail && s.tail > 0 {
      SumAtLeast(s.c, ToClaim, t);
      assert Holds(s, s.c[t]);
    }
    forall t | 0 <= t < |s.c| && s.c[t].Reload? ensures s.c[t].ov <= s.c[t].m {
      assert Holds(s, s.c[t]);
      CountBound(s.marks[..s.c[t].m]);
    }
    forall t | 0 <= t < |s.c| && s.c[t].Got? ensures s.c[t].first + s.c[t].n <= s.head {
      assert Holds(s, s.c[t]);
    }
    forall t, u | 0 <= t < u < |s.c| && s.c[t].Got? && s.c[u].Got?
      ensures s.c[t].first + s.c[t].n <= s.c[u].first || s.c[u].first + s.c[u].n <= s.c[t].first
    {
      assert Separate(s.c, t, u);
    }
  }

  /** In every paced run of one enqueuer and any number of single and bulk dequeuers. */
  lemma PacedSafe(bs: nat, dequeuers: nat, schedule: seq<Action>)
    requires PacedRun(Start(bs, dequeuers), schedule)
    ensures Safe(Run(Start(bs, dequeuers), schedule))
  {
    RunInv(bs, dequeuers, schedule);
    InvSafe(Run(Start(bs, dequeuers), schedule));
  }

  // ---------------------------------------------------------------- how much may be asked for

  /** Elements asked for by all the calls of a schedule. */
  function Asked(schedule: seq<Action>): nat {
    if schedule == [] then 0
    else
      var act := schedule[|schedule| - 1];
      Asked(schedule[..|schedule| - 1]) + if act.StartDequeue? then Most(act.call) else 0
  }

  /** What a call may still add to the optimistic count. */
  function ToAdd(pc: Pc): nat {
    match pc
    case LoadTail(call) => Most(call)
    case LoadOver(call, _) => Most(call)
    case LoadCount(call, _, _) => Most(call)
    case Take(_, d, _) => d
    case _ => 0
  }

  lemma AddStep(s: State, act: Action)
    ensures var s' := Do(s, act);
            s'.count + Sum(s'.c, ToAdd) <= s.count + Sum(s.c, ToAdd) + if act.StartDequeue? then Most(act.call) else 0
  {
    var s' := Do(s, act);
    match act
    case StartDequeue(t, call) => if t < |s.c| { SumUpdate(s.c, ToAdd, t, LoadTail(call)); }
    case Step(t) =>
      if CanStep(s, t) {
        AddOwn(s, t);
        SumUpdate(s.c, ToAdd, t, s'.c[t]);
      }
    case _ =>
  }

  lemma AddOwn(s: State, t: nat)
    requires CanStep(s, t)
    ensures var s' := ThreadStep(s, t);
            |s'.c| == |s.c| && s'.c == s.c[t := s'.c[t]] && s'.count + ToAdd(s'.c[t]) <= s.count + ToAdd(s.c[t])
  {
    if s.c[t].LoadCount? { AskWithin(s.c[t].call, s.c[t].tl, s.c[t].ov, s.count); }
    var s' := ThreadStep(s, t);
    assert s'.c == s.c[t := s'.c[t]];
  }

  /** The optimistic count is at most what was asked for. */
  lemma {:induction false} CountBelowAsked(bs: nat, dequeuers: nat, schedule: seq<Action>)
    ensures var s := Run(Start(bs, dequeuers), schedule); s.count + Sum(s.c, ToAdd) <= Asked(schedule)
  {
    if schedule == [] {
      SumZero(Start(bs, dequeuers).c, ToAdd);
    } else {
      var n := |schedule| - 1;
      CountBelowAsked(bs, dequeuers, schedule[..n]);
      AddStep(Run(Start(bs, dequeuers), schedule[..n]), schedule[n]);
    }
  }

  /** A ticket lies below the optimistic count and something was enqueued. */
  lemma SmallIsPaced(s: State, act: Action)
    requires Inv(s) && s.count <= HALF + 2
    ensures Paced(s, act)
  {
    if act.Step? && act.t < |s.c| && s.c[act.t].Reload? { assert Holds(s, s.c[act.t]); }
  }

  lemma {:induction false} AskedPaced(bs: nat, dequeuers: nat, schedule: seq<Action>)
    requires Asked(schedule) <= HALF + 2
    ensures PacedRun(Start(bs, dequeuers), schedule)
  {
    var s0 := Start(bs, dequeuers);
    if schedule != [] {
      var n := |schedule| - 1;
      AskedPaced(bs, dequeuers, schedule[..n]);
      AskedNow(bs, dequeuers, schedule[..n], schedule[n]);
      PacedAppend(s0, schedule);
    }
  }

  lemma AskedNow(bs: nat, dequeuers: nat, before: seq<Action>, act: Action)
    requires PacedRun(Start(bs, dequeuers), before) && Asked(before) <= HALF + 2
    ensures Paced(Run(Start(bs, dequeuers), before), act)
  {
    RunInv(bs, dequeuers, before);
    CountBelowAsked(bs, dequeuers, before);
    SmallIsPaced(Run(Start(bs, dequeuers), before), act);
  }

  lemma PacedAppend(s: State, schedule: seq<Action>)
    requires schedule != [] && PacedRun(s, schedule[..|schedule| - 1])
    requires Paced(Run(s, schedule[..|schedule| - 1]), schedule[|schedule| - 1])
    ensures PacedRun(s, schedule)
  {
    var n := |schedule| - 1;
    forall i | 0 <= i < |schedule| ensures Paced(Run(s, schedule[..i]), schedule[i]) {
      if i < n { assert schedule[..n][..i] == schedule[..i] && schedule[..n][i] == schedule[i]; }
    }
  }

  /** In every run whose dequeues ask for at most 2^63 + 2 elements in all. */
  lemma AlwaysSafe(bs: nat, dequeuers: nat, schedule: seq<Action>)
    requires Asked(schedule) <= HALF + 2
    ensures Safe(Run(Start(bs, dequeuers), schedule))
  {
    AskedPaced(bs, dequeuers, schedule);
    PacedSafe(bs, dequeuers, schedule);
  }

  // ---------------------------------------------------------------- how much may be asked for at a time

  /** For each dequeuer, what its call in progress asked for, and what the calls of others that overlap
      its last call have asked for in all. */
  datatype Book = Book(asks: seq<nat>, others: seq<nat>)

  function Total(asks: seq<nat>): nat {
    if asks == [] then 0 else Total(asks[..|asks| - 1]) + asks[|asks| - 1]
  }

  /** Dequeuer t starts a call that asks for n elements: its call overlaps all calls in progress. */
  function Opens(b: Book, c: seq<Pc>, t: nat, n: nat): Book
    requires |b.asks| == |b.others| == |c| && t < |c|
  {
    Book(b.asks[t := n],
         seq(|c|, u requires 0 <= u < |c| =>
           if u == t then Total(b.asks[t := 0]) else if c[u] == Idle then b.others[u] else b.others[u] + n))
  }

  /** After the action, dequeuers that are idle ask for nothing. */
  function Note(b: Book, s: State, act: Action): (r: Book)
    requires |b.asks| == |b.others| == |s.c|
    ensures |r.asks| == |r.others| == |s.c|
  {
    if act.StartDequeue? && act.t < |s.c| && s.c[act.t] == Idle then Opens(b, s.c, act.t, Most(act.call))
    else if act.Step? && CanStep(s, act.t) && Do(s, act).c[act.t] == Idle then b.(asks := b.asks[act.t := 0])
    else b
  }

  lemma DoThreads(s: State, act: Action)
    ensures |Do(s, act).c| == |s.c|
  {
  }

  function Books(s: State, schedule: seq<Action>): (b: Book)
    ensures |b.asks| == |b.others| == |Run(s, schedule).c|
  {
    if schedule == [] then Book(seq(|s.c|, i => 0), seq(|s.c|, i => 0))
    else
      var n := |schedule| - 1;
      DoThreads(Run(s, schedule[..n]), schedule[n]);
      Note(Books(s, schedule[..n]), Run(s, schedule[..n]), schedule[n])
  }

  /** At no time do the calls that overlap one dequeue ask for more than 2^63 elements in all. */
  ghost predicate Moderate(s: State, schedule: seq<Action>) {
    forall i :: 0 <= i <= |schedule| ==> AllModerate(Books(s, schedule[..i]))
  }

  predicate AllModerate(b: Book) { forall t :: 0 <= t < |b.others| ==> b.others[t] <= HALF }

  /** What pc may still add to the optimistic count or turn into overcommit. */
  function Cap(pc: Pc): nat { ToAdd(pc) + InFlight(pc) }

  lemma {:induction false} SumBelow(c: seq<Pc>, w: Pc -> nat, asks: seq<nat>)
    requires |asks| == |c| && forall t :: 0 <= t < |c| ==> w(c[t]) <= asks[t]
    ensures Sum(c, w) <= Total(asks)
  {
    if c != [] { SumBelow(c[..|c| - 1], w, asks[..|asks| - 1]); }
  }

  lemma {:induction false} SumBelowSum(c: seq<Pc>, v: Pc -> nat, w: Pc -> nat)
    requires forall pc :: v(pc) <= w(pc)
    ensures Sum(c, v) <= Sum(c, w)
  {
    if c != [] { SumBelowSum(c[..|c| - 1], v, w); }
  }

  /** What all others than t may still add. */
  function Others(c: seq<Pc>, t: nat): nat
    requires t < |c|
  {
    Sum(c[t := Idle], Cap)
  }

  /** The overcommit seen lags behind by no more than others have refunded since. */
  predicate LagOk(s: State, b: Book, t: nat)
    requires t < |s.c| && t < |b.others|
  {
    match s.c[t]
    case Idle => true
    case LoadCount(_, _, ov) => s.over - ov + Others(s.c, t) <= b.others[t]
    case Take(_, _, ov) => s.over - ov + Others(s.c, t) <= b.others[t]
    case Reload(_, _, ov, m) => m - ov - s.tail <= b.others[t]
    case LoadTail(_) => Others(s.c, t) <= b.others[t]
    case LoadOver(_, _) => Others(s.c, t) <= b.others[t]
    case _ => true
  }

  predicate BookOk(s: State, b: Book) {
    && |b.asks| == |b.others| == |s.c|
    && (forall t :: 0 <= t < |s.c| ==> Cap(s.c[t]) <= b.asks[t])
    && (forall t :: 0 <= t < |s.c| ==> LagOk(s, b, t))
  }

  /** The state after a ticket has been decided, whatever the verdict. */
  lemma ReloadCap(s: State, t: nat, verdict: Verdict)
    requires CanStep(s, t) && s.c[t].Reload?
    requires verdict == Grant(s.c[t].call, s.c[t].d, s.c[t].ov, s.c[t].m, s.tail)
    requires verdict.Yes? ==> verdict.n <= s.c[t].d
    ensures var s' := ThreadStep(s, t);
            && s'.c == s.c[t := s'.c[t]] && s'.over == s.over && s'.tail == s.tail && Cap(s'.c[t]) <= Cap(s.c[t])
  {
  }

  lemma AskCap(s: State, t: nat, verdict: Verdict)
    requires CanStep(s, t) && s.c[t].LoadCount?
    requires verdict == Ask(s.c[t].call, s.c[t].tl, s.c[t].ov, s.count)
    requires verdict.Yes? ==> verdict.n <= Most(s.c[t].call)
    ensures var s' := ThreadStep(s, t);
            && s'.c == s.c[t := s'.c[t]] && s'.over == s.over && s'.tail == s.tail && Cap(s'.c[t]) <= Cap(s.c[t])
  {
  }

  lemma PlainCap(s: State, t: nat)
    requires CanStep(s, t) && !s.c[t].Reload? && !s.c[t].LoadCount?
    ensures var s' := ThreadStep(s, t);
            && s'.c == s.c[t := s'.c[t]] && s'.over >= s.over && s'.tail == s.tail
            && Cap(s'.c[t]) + (s'.over - s.over) <= Cap(s.c[t])
  {
  }

  /** One step of a dequeuer never gains. */
  lemma CapStep(s: State, t: nat)
    requires CanStep(s, t)
    ensures var s' := ThreadStep(s, t);
            && s'.c == s.c[t := s'.c[t]] && s'.over >= s.over && s'.tail == s.tail
            && Cap(s'.c[t]) + (s'.over - s.over) <= Cap(s.c[t])
  {
    var pc := s.c[t];
    if pc.LoadCount? {
      AskWithin(pc.call, pc.tl, pc.ov, s.count);
      AskCap(s, t, Ask(pc.call, pc.tl, pc.ov, s.count));
    } else if pc.Reload? {
      GrantAtMost(pc.call, pc.d, pc.ov, pc.m, s.tail);
      ReloadCap(s, t, Grant(pc.call, pc.d, pc.ov, pc.m, s.tail));
    } else {
      PlainCap(s, t);
    }
  }

  lemma OthersUpdate(c: seq<Pc>, t: nat, pc: Pc, u: nat)
    requires t < |c| && u < |c|
    ensures u != t ==> Others(c[t := pc], u) == Others(c, u) - Cap(c[t]) + Cap(pc)
    ensures u == t ==> Others(c[t := pc], u) == Others(c, u)
  {
    if u != t {
      assert c[t := pc][u := Idle] == c[u := Idle][t := pc];
      SumUpdate(c[u := Idle], Cap, t, pc);
    } else {
      assert c[t := pc][u := Idle] == c[u := Idle];
    }
  }

  /** A ticket lies beyond the tail by at most what others asked for. */
  lemma TicketLag(s: State, t: nat)
    requires Inv(s) && t < |s.c| && s.c[t].Take?
    ensures s.count - s.c[t].ov - s.tail <= s.over - s.c[t].ov + Others(s.c, t)
  {
    HeadBelowTail(s);
    SumUpdate(s.c, InFlight, t, Idle);
    SumBelowSum(s.c[t := Idle], InFlight, Cap);
  }

  lemma StepLag(s: State, b: Book, t: nat, u: nat)
    requires Inv(s) && BookOk(s, b) && CanStep(s, t) && u < |s.c|
    ensures |ThreadStep(s, t).c| == |s.c| && LagOk(ThreadStep(s, t), b, u)
  {
    var s' := ThreadStep(s, t);
    assert Holds(s, s.c[t]) && LagOk(s, b, u);
    CapStep(s, t);
    OthersUpdate(s.c, t, s'.c[t], u);
    if u == t && s.c[t].Take? { TicketLag(s, t); }
  }

  lemma StepBook(s: State, b: Book, t: nat)
    requires Inv(s) && BookOk(s, b) && CanStep(s, t)
    ensures BookOk(ThreadStep(s, t), Note(b, s, Step(t)))
  {
    var s' := ThreadStep(s, t);
    var b' := Note(b, s, Step(t));
    CapStep(s, t);
    forall u | 0 <= u < |s'.c| ensures Cap(s'.c[u]) <= b'.asks[u] { assert Cap(s.c[u]) <= b.asks[u]; }
    forall u | 0 <= u < |s'.c| ensures LagOk(s', b', u) { StepLag(s, b, t, u); }
  }

  lemma OpensBook(s: State, b: Book, t: nat, call: Call)
    requires BookOk(s, b) && t < |s.c| && s.c[t] == Idle
    ensures BookOk(s.(c := s.c[t := LoadTail(call)]), Opens(b, s.c, t, Most(call)))
  {
    var s' := s.(c := s.c[t := LoadTail(call)]);
    var b' := Opens(b, s.c, t, Most(call));
    forall u | 0 <= u < |s'.c| ensures Cap(s'.c[u]) <= b'.asks[u] { assert Cap(s.c[u]) <= b.asks[u]; }
    forall u | 0 <= u < |s'.c| ensures LagOk(s', b', u) {
      assert LagOk(s, b, u);
      OthersUpdate(s.c, t, LoadTail(call), u);
      if u == t { OpenLag(s, b, t); }
    }
  }

  lemma OpenLag(s: State, b: Book, t: nat)
    requires BookOk(s, b) && t < |s.c|
    ensures Others(s.c, t) <= Total(b.asks[t := 0])
  {
    var c0, asks0 := s.c[t := Idle], b.asks[t := 0];
    forall u | 0 <= u < |c0| ensures Cap(c0[u]) <= asks0[u] { assert Cap(s.c[u]) <= b.asks[u]; }
    SumBelow(c0, Cap, asks0);
  }

  lemma DoBook(s: State, b: Book, act: Action)
    requires Inv(s) && BookOk(s, b)
    ensures BookOk(Do(s, act), Note(b, s, act))
  {
    match act
    case StartDequeue(t, call) => if t < |s.c| && s.c[t] == Idle { OpensBook(s, b, t, call); }
    case Step(t) => if CanStep(s, t) { StepBook(s, b, t); }
    case _ => EnqueueBook(s, b, act);
  }

  lemma EnqueueBook(s: State, b: Book, act: Action)
    requires BookOk(s, b) && (act.StartEnqueue? || act.StoreTail?)
    ensures BookOk(Do(s, act), b)
  {
    forall u | 0 <= u < |s.c| ensures LagOk(Do(s, act), b, u) { assert LagOk(s, b, u); }
  }

  /** The bookkeeping keeps up with the counters, and a moderate run is paced. */
  lemma {:induction false} ModeratePaced(bs: nat, dequeuers: nat, schedule: seq<Action>)
    requires Moderate(Start(bs, dequeuers), schedule)
    ensures PacedRun(Start(bs, dequeuers), schedule)
    ensures Inv(Run(Start(bs, dequeuers), schedule))
    ensures BookOk(Run(Start(bs, dequeuers), schedule), Books(Start(bs, dequeuers), schedule))
  {
    var s0 := Start(bs, dequeuers);
    if schedule == [] {
      StartBook(bs, dequeuers);
    } else {
      var n := |schedule| - 1;
      ModeratePrefix(s0, schedule);
      ModeratePaced(bs, dequeuers, schedule[..n]);
      var s, b := Run(s0, schedule[..n]), Books(s0, schedule[..n]);
      BookPaces(s, b, schedule[n]);
      PacedAppend(s0, schedule);
      DoBook(s, b, schedule[n]);
    }
    RunInv(bs, dequeuers, schedule);
  }

  lemma StartBook(bs: nat, dequeuers: nat)
    ensures BookOk(Start(bs, dequeuers), Books(Start(bs, dequeuers), []))
  {
  }

  lemma ModeratePrefix(s: State, schedule: seq<Action>)
    requires schedule != [] && Moderate(s, schedule)
    ensures Moderate(s, schedule[..|schedule| - 1]) && AllModerate(Books(s, schedule[..|schedule| - 1]))
  {
    var n := |schedule| - 1;
    forall i | 0 <= i <= n ensures AllModerate(Books(s, schedule[..n][..i])) {
      assert schedule[..n][..i] == schedule[..i];
    }
  }

  lemma BookPaces(s: State, b: Book, act: Action)
    requires BookOk(s, b) && AllModerate(b)
    ensures Paced(s, act)
  {
    if act.Step? && act.t < |s.c| && s.c[act.t].Reload? { assert LagOk(s, b, act.t); }
  }

  /** In every run, however long, in which the calls that overlap one dequeue never ask for more than 2^63
      elements in all. */
  lemma ModerateSafe(bs: nat, dequeuers: nat, schedule: seq<Action>)
    requires Moderate(Start(bs, dequeuers), schedule)
    ensures Safe(Run(Start(bs, dequeuers), schedule))
  {
    ModeratePaced(bs, dequeuers, schedule);
    PacedSafe(bs, dequeuers, schedule);
  }

  // ---------------------------------------------------------------- what a dequeue gets

  /** What a thread's last call has read: the tail and the overcommit at its loads, `first`, the elements that
      this left when it loaded the count, its ticket, and `second`, the elements that the tail left beyond the
      ticket when it loaded it again. `tests` counts the tests made and `sane` says that every difference so
      far was within a signed word. */
  datatype Tried =
    | NoCall
    | Tried(call: Call, tl: nat, ov: nat, first: int, ticket: int, second: int, tests: nat, got: bool, sane: bool)

  predicate InWord(x: int) { -HALF <= x < HALF }

  function NoteTest(s: State, last: Tried, act: Action, t: nat): Tried {
    if act.StoreTail? || act.StartEnqueue? || act.t != t || t >= |s.c| then last
    else if act.StartDequeue? then
      if s.c[t] == Idle then Tried(act.call, 0, 0, 0, 0, 0, 0, false, true) else last
    else if last.NoCall? || !CanStep(s, t) then last
    else
      match s.c[t]
      case LoadTail(_) => last.(tl := s.tail)
      case LoadOver(_, _) => last.(ov := s.over)
      case LoadCount(_, _, _) =>
        var first := last.tl - (s.count - last.ov);
        last.(first := first, tests := 1, sane := last.sane && InWord(first))
      case Take(_, _, _) => last.(ticket := s.count)
      case Reload(_, _, _, _) =>
        var second := s.tail - (last.ticket - last.ov);
        last.(second := second, tests := 2, sane := last.sane && InWord(second))
      case Claim(_) => last.(got := true)
      case _ => last
  }

  function LastTest(s: State, schedule: seq<Action>, t: nat): Tried {
    if schedule == [] then NoCall
    else
      var n := |schedule| - 1;
      NoteTest(Run(s, schedule[..n]), LastTest(s, schedule[..n], t), schedule[n], t)
  }

  /** What the call is entitled to. */
  function Entitled(last: Tried): int
    requires last.Tried?
  {
    var most: int := Most(last.call);
    if last.first < 1 || last.second < 1 then 0
    else if most <= last.first && most <= last.second then most
    else if last.first <= last.second then last.first else last.second
  }

  predicate Course(pc: Pc, last: Tried) {
    last.Tried? && last.sane ==>
      match pc
      case Idle =>
        || (last.tests == 1 && last.first < 1) || (last.tests == 2 && (last.second < 1 || last.got))
      case LoadTail(call) => call == last.call && last.tests == 0
      case LoadOver(call, tl) => call == last.call && last.tests == 0 && tl == last.tl
      case LoadCount(call, tl, ov) => call == last.call && last.tests == 0 && tl == last.tl && ov == last.ov
      case Take(call, d, ov) => call == last.call && Asks(last, d) && last.tests == 1 && ov == last.ov
      case Reload(call, d, ov, m) =>
        call == last.call && Asks(last, d) && last.tests == 1 && ov == last.ov && m == last.ticket
      case PayBack(a, r) => last.tests == 2 && last.second >= 1 && Asks(last, a + r) && a == Entitled(last)
      case Claim(a) => last.tests == 2 && last.second >= 1 && a == Entitled(last) && last.first >= 1
      case GiveUp(d) => last.tests == 2 && last.second < 1 && Asks(last, d)
      case Got(_, n) => last.tests == 2 && last.got && last.second >= 1 && last.first >= 1 && n == Entitled(last)
  }

  predicate Asks(last: Tried, d: nat)
    requires last.Tried?
  {
    last.first >= 1 && d == if Most(last.call) <= last.first then Most(last.call) else last.first
  }

  /** Within a signed word the tests decide like the true differences. */
  lemma InWordDecides(call: Call, tl: nat, ov: nat, m: nat)
    requires InWord(tl - (m - ov))
    ensures var x := tl - (m - ov);
            && Ask(call, tl, ov, m) == (if x < 1 then No else Yes(if call.One? then 1 else Min(x, call.max)))
            && forall d :: Grant(call, d, ov, m, tl) == (if x < 1 then No else Yes(if call.One? then 1 else Min(d, x)))
  {
    VerdictWords(call, tl, ov, m);
    WordOf(tl - (m - ov));
  }

  lemma AskCourse(s: State, last: Tried, t: nat)
    requires t < |s.c| && s.c[t].LoadCount? && Course(s.c[t], last)
    ensures Course(ThreadStep(s, t).c[t], NoteTest(s, last, Step(t), t))
  {
    var pc := s.c[t];
    if InWord(pc.tl - (s.count - pc.ov)) { InWordDecides(pc.call, pc.tl, pc.ov, s.count); }
  }

  lemma GrantCourse(s: State, last: Tried, t: nat)
    requires CanStep(s, t) && s.c[t].Reload? && Course(s.c[t], last)
    ensures Course(ThreadStep(s, t).c[t], NoteTest(s, last, Step(t), t))
  {
    var pc := s.c[t];
    if InWord(s.tail - (pc.m - pc.ov)) { InWordDecides(pc.call, s.tail, pc.ov, pc.m); }
  }

  lemma MoveCourse(s: State, last: Tried, t: nat)
    requires CanStep(s, t) && !s.c[t].Reload? && !s.c[t].LoadCount? && Course(s.c[t], last)
    ensures Course(ThreadStep(s, t).c[t], NoteTest(s, last, Step(t), t))
  {
  }

  lemma DoCourse(s: State, last: Tried, act: Action, t: nat)
    requires t < |s.c| && CanStep(s, t) && Course(s.c[t], last)
    ensures |Do(s, act).c| == |s.c| && Course(Do(s, act).c[t], NoteTest(s, last, act, t))
  {
    DoThreads(s, act);
    if act == Step(t) {
      if s.c[t].LoadCount? {
        AskCourse(s, last, t);
      } else if s.c[t].Reload? {
        GrantCourse(s, last, t);
      } else {
        MoveCourse(s, last, t);
      }
    }
  }

  /** In every paced run, for every thread: a call whose differences stayed within a signed word gets the least
      of what it asked for, what it saw when it asked, and what the tail then left beyond its ticket, and
      nothing exactly if one of the last two was nothing. */
  lemma {:induction false} DequeueGets(bs: nat, dequeuers: nat, schedule: seq<Action>, t: nat)
    requires PacedRun(Start(bs, dequeuers), schedule) && t < dequeuers
    ensures var s := Run(Start(bs, dequeuers), schedule);
            |s.c| == dequeuers && Course(s.c[t], LastTest(Start(bs, dequeuers), schedule, t))
  {
    if schedule != [] {
      var n, s0 := |schedule| - 1, Start(bs, dequeuers);
      PacedPrefix(s0, schedule);
      DequeueGets(bs, dequeuers, schedule[..n], t);
      RunInv(bs, dequeuers, schedule[..n]);
      var s := Run(s0, schedule[..n]);
      assert Holds(s, s.c[t]);
      DoCourse(s, LastTest(s0, schedule[..n], t), schedule[n], t);
    }
  }

  /** Steps left in a call. */
  function Left(pc: Pc): nat {
    match pc
    case Idle => 0
    case LoadTail(_) => 7
    case LoadOver(_, _) => 6
    case LoadCount(_, _, _) => 5
    case Take(_, _, _) => 4
    case Reload(_, _, _, _) => 3
    case PayBack(_, _) => 2
    case Claim(_) => 1
    case GiveUp(_) => 1
    case Got(_, _) => 0
  }

  /** Every call ends after at most seven of its own steps, whatever the others do. */
  lemma WaitFree(s: State, t: nat)
    requires CanStep(s, t) && Left(s.c[t]) > 0
    ensures |Do(s, Step(t)).c| == |s.c| && Left(Do(s, Step(t)).c[t]) < Left(s.c[t]) <= 7
  {
    if s.c[t].Reload? { ReloadLeft(s, t); }
  }

  lemma ReloadLeft(s: State, t: nat)
    requires CanStep(s, t) && s.c[t].Reload?
    ensures |ReloadStep(s, t).c| == |s.c| && Left(ReloadStep(s, t).c[t]) < 3
  {
  }

  /** An enqueue is refused exactly if it starts a block, makes the room test, and the elements not dequeued
      and the new block would come to 2^63 or more. */
  lemma EnqueueRefused(s: State, test: bool)
    requires Inv(s) && !s.storing && 1 <= s.bs && s.tail - s.head + s.bs < WORD
    ensures Do(s, StartEnqueue(test)).storing <==> s.o != 0 || !test || s.tail - s.head + s.bs < HALF
  {
    HeadBelowTail(s);
    CircularOrderExact(s.head, s.tail + s.bs);
  }

  // ---------------------------------------------------------------- calls that ask for something

  /** Every call of the schedule asks for at least one element. */
  predicate AsksSome(schedule: seq<Action>) {
    forall i :: 0 <= i < |schedule| && schedule[i].StartDequeue? ==> Most(schedule[i].call) >= 1
  }

  predicate Eager(pc: Pc) {
    match pc
    case LoadTail(call) => Most(call) >= 1
    case LoadOver(call, _) => Most(call) >= 1
    case LoadCount(call, _, _) => Most(call) >= 1
    case Take(call, d, _) => d >= 1 && (call.One? ==> d == 1)
    case Reload(call, d, _, _) => d >= 1 && (call.One? ==> d == 1)
    case PayBack(a, _) => a >= 1
    case Claim(a) => a >= 1
    case Got(_, n) => n >= 1
    case _ => true
  }

  predicate AllEager(c: seq<Pc>) { forall t :: 0 <= t < |c| ==> Eager(c[t]) }

  lemma EagerStep(s: State, t: nat)
    requires CanStep(s, t) && Eager(s.c[t])
    ensures |ThreadStep(s, t).c| == |s.c| && Eager(ThreadStep(s, t).c[t])
  {
    var pc := s.c[t];
    if pc.LoadCount? { AskWithin(pc.call, pc.tl, pc.ov, s.count); }
    if pc.Reload? { GrantAtMost(pc.call, pc.d, pc.ov, pc.m, s.tail); }
  }

  /** A call that asks for something claims something, or gets nothing and claims nothing. */
  lemma {:induction false} ClaimsSomething(bs: nat, dequeuers: nat, schedule: seq<Action>)
    requires AsksSome(schedule)
    ensures AllEager(Run(Start(bs, dequeuers), schedule).c)
  {
    if schedule != [] {
      var n := |schedule| - 1;
      ClaimsSomething(bs, dequeuers, schedule[..n]);
      var s := Run(Start(bs, dequeuers), schedule[..n]);
      EagerDo(s, schedule[n]);
    }
  }

  lemma EagerDo(s: State, act: Action)
    requires AllEager(s.c) && (act.StartDequeue? ==> Most(act.call) >= 1)
    ensures AllEager(Do(s, act).c)
  {
    var c' := Do(s, act).c;
    if act.Step? && CanStep(s, act.t) {
      assert Eager(s.c[act.t]);
      EagerStep(s, act.t);
      assert c' == s.c[act.t := c'[act.t]];
    }
    forall t | 0 <= t < |c'| ensures Eager(c'[t]) { if c'[t] == s.c[t] { assert Eager(s.c[t]); } }
  }

  // ---------------------------------------------------------------- a dequeue that runs alone

  function Steps(s: State, t: nat, k: nat): State
    decreases k
  {
    if k == 0 then s else Steps(Do(s, Step(t)), t, k - 1)
  }

  /** One dequeuer from its start through three loads, the ticket, the second load and the claim. */
  function Alone(s: State, t: nat, call: Call): State { Steps(Do(s, StartDequeue(t, call)), t, 6) }

  predicate Quiet(s: State) { forall t :: 0 <= t < |s.c| ==> s.c[t] == Idle }

  /** With no dequeue in flight, a dequeue that runs alone takes the next element, or as many as it
      may, exactly if there is one; otherwise it changes nothing. */
  lemma DequeueAlone(s: State, t: nat, call: Call)
    requires Inv(s) && t < |s.c| && Quiet(s) && s.tail - s.head < HALF
    ensures s.head <= s.tail
    ensures var n := Min(s.tail - s.head, if call.One? then 1 else call.max);
            Alone(s, t, call) ==
            if s.head == s.tail then s
            else s.(head := s.head + n, count := s.count + n, c := s.c[t := Got(s.head, n)],
                    marks := s.marks + Mark1(n, Granted))
  {
    QuietCounts(s);
    AloneRuns(s, t, call);
  }

  lemma QuietCounts(s: State)
    requires Inv(s) && Quiet(s)
    ensures s.head <= s.tail && s.count == s.head + s.over == |s.marks|
  {
    HeadBelowTail(s);
    SumZero(s.c, InFlight);
  }

  lemma AloneRuns(s: State, t: nat, call: Call)
    requires t < |s.c| && s.c[t] == Idle && 0 <= s.tail - s.head < HALF && s.count == s.head + s.over == |s.marks|
    ensures var n := Min(s.tail - s.head, if call.One? then 1 else call.max);
            Alone(s, t, call) ==
            if s.head == s.tail then s
            else s.(head := s.head + n, count := s.count + n, c := s.c[t := Got(s.head, n)],
                    marks := s.marks + Mark1(n, Granted))
  {
    AloneLoads(s, t, call);
    assert s.tail - (s.count - s.over) == s.tail - s.head;
    AloneVerdict(s.tail, s.over, s.count, call);
    if s.head < s.tail {
      AloneGets(s, t, call, Min(s.tail - s.head, if call.One? then 1 else call.max));
    } else {
      AloneNone(s, t, call);
    }
  }

  lemma AloneVerdict(tl: nat, ov: nat, count: nat, call: Call)
    requires 0 <= tl - (count - ov) < HALF
    ensures var x := tl - (count - ov);
            var n := Min(x, if call.One? then 1 else call.max);
            && Ask(call, tl, ov, count) == (if x == 0 then No else Yes(n))
            && (x != 0 ==> Grant(call, n, ov, count, tl) == Yes(n))
  {
    VerdictWords(call, tl, ov, count);
    WordOf(tl - (count - ov));
  }

  lemma AloneNone(s: State, t: nat, call: Call)
    requires t < |s.c| && s.c[t] == Idle && Ask(call, s.tail, s.over, s.count) == No
    ensures Steps(s.(c := s.c[t := LoadCount(call, s.tail, s.over)]), t, 4) == s
  {
    assert s.c[t := LoadCount(call, s.tail, s.over)][t := Idle] == s.c;
    assert Do(s.(c := s.c[t := LoadCount(call, s.tail, s.over)]), Step(t)) == s;
    IdleSteps(s, t, 3);
  }

  lemma AloneLoads(s: State, t: nat, call: Call)
    requires t < |s.c| && s.c[t] == Idle
    ensures Alone(s, t, call) == Steps(s.(c := s.c[t := LoadCount(call, s.tail, s.over)]), t, 4)
  {
    var s1 := Do(s, StartDequeue(t, call));
    var s2 := Do(s1, Step(t));
    assert s2 == s.(c := s.c[t := LoadOver(call, s.tail)]);
    var s3 := Do(s2, Step(t));
    assert s3 == s.(c := s.c[t := LoadCount(call, s.tail, s.over)]);
  }

  lemma IdleSteps(s: State, t: nat, k: nat)
    requires t < |s.c| && s.c[t] == Idle
    ensures Steps(s, t, k) == s
  {
  }

  lemma AloneGets(s: State, t: nat, call: Call, n: nat)
    requires t < |s.c| && |s.marks| == s.count && (call.One? ==> n == 1)
    requires Ask(call, s.tail, s.over, s.count) == Yes(n) == Grant(call, n, s.over, s.count, s.tail)
    ensures Steps(s.(c := s.c[t := LoadCount(call, s.tail, s.over)]), t, 4) ==
            s.(head := s.head + n, count := s.count + n, c := s.c[t := Got(s.head, n)],
               marks := s.marks + Mark1(n, Granted))
  {
    var s0 := s.(c := s.c[t := LoadCount(call, s.tail, s.over)]);
    var s1 := Do(s0, Step(t));
    assert s1 == s.(c := s.c[t := Take(call, n, s.over)]);
    var s2 := Do(s1, Step(t));
    assert s2 == s.(c := s.c[t := Reload(call, n, s.over, s.count)], count := s.count + n,
                    marks := s.marks + Mark1(n, Open));
    AloneDecides(s, s2, t, call, n);
    var s3 := Do(s2, Step(t));
    assert Do(s3, Step(t)).c == s.c[t := Got(s.head, n)];
    assert Steps(s3, t, 1) == Do(s3, Step(t));
    assert Steps(s2, t, 2) == Steps(s3, t, 1);
    assert Steps(s1, t, 3) == Steps(s2, t, 2);
  }

  lemma AloneDecides(s: State, s2: State, t: nat, call: Call, n: nat)
    requires t < |s.c| && |s.marks| == s.count && (call.One? ==> n == 1)
    requires Grant(call, n, s.over, s.count, s.tail) == Yes(n)
    requires s2 == s.(c := s.c[t := Reload(call, n, s.over, s.count)], count := s.count + n,
                      marks := s.marks + Mark1(n, Open))
    ensures Do(s2, Step(t)) == s.(c := s.c[t := Claim(n)], count := s.count + n, marks := s.marks + Mark1(n, Granted))
  {
    var s3 := Do(s2, Step(t));
    assert s3.c == s.c[t := Claim(n)];
    assert Decide(s2.marks, s.count, n, n) == s.marks + Mark1(n, Granted);
  }

  /** In every reachable state with no dequeue in flight and less than a turn of elements, a dequeue that
      asks for something gets something exactly if there are elements, and fewer than 2^63. */
  lemma NonEmptySucceeds(bs: nat, dequeuers: nat, schedule: seq<Action>, t: nat, call: Call)
    requires PacedRun(Start(bs, dequeuers), schedule) && Most(call) >= 1
    ensures var s := Run(Start(bs, dequeuers), schedule);
            t < |s.c| && Quiet(s) && s.tail - s.head < WORD ==>
              (0 < s.tail - s.head < HALF <==> s.head < Alone(s, t, call).head)
  {
    var s := Run(Start(bs, dequeuers), schedule);
    RunInv(bs, dequeuers, schedule);
    if t < |s.c| && Quiet(s) && s.tail - s.head < WORD {
      if s.tail - s.head < HALF { DequeueAlone(s, t, call); } else { TooMany(s, t, call); }
    }
  }

  /** 2^63 or more elements look like none. */
  lemma TooMany(s: State, t: nat, call: Call)
    requires Inv(s) && t < |s.c| && Quiet(s) && HALF <= s.tail - s.head < WORD
    ensures Alone(s, t, call) == s
  {
    QuietCounts(s);
    AloneLoads(s, t, call);
    VerdictTooMany(call, s.tail, s.over, s.count);
    AloneNone(s, t, call);
  }

  lemma VerdictTooMany(call: Call, tl: nat, ov: nat, count: nat)
    requires HALF <= tl - (count - ov) < WORD
    ensures Ask(call, tl, ov, count) == No
  {
    VerdictWords(call, tl, ov, count);
    WordOf(tl - (count - ov));
  }

  /** The elements not dequeued, and the block being filled, stay below 2^63. */
  predicate Room(s: State) {
    && s.o < s.bs && 1 <= s.bs <= HALF
    && s.tail - s.head + (if s.storing || s.o != 0 then s.bs - s.o else 0) < HALF
  }

  /** All enqueues that start a block make the room test. */
  predicate Tested(schedule: seq<Action>) {
    forall i :: 0 <= i < |schedule| && schedule[i].StartEnqueue? ==> schedule[i].test
  }

  lemma RoomStep(s: State, act: Action)
    requires Inv(s) && Room(s) && (act.StartEnqueue? ==> act.test)
    ensures Room(Do(s, act))
  {
    if act.StartEnqueue? {
      HeadBelowTail(s);
      CircularOrderExact(s.head, s.tail + s.bs);
    }
  }

  /** Then fewer than 2^63 elements are in the sub-queue, and a dequeue that runs alone succeeds exactly if
      it is not empty. */
  lemma {:induction false} TestedRoom(bs: nat, dequeuers: nat, schedule: seq<Action>)
    requires 1 <= bs <= HALF && PacedRun(Start(bs, dequeuers), schedule) && Tested(schedule)
    ensures var s := Run(Start(bs, dequeuers), schedule); Room(s) && 0 <= s.tail - s.head < HALF
  {
    var s0 := Start(bs, dequeuers);
    if schedule != [] {
      var n := |schedule| - 1;
      PacedPrefix(s0, schedule);
      TestedRoom(bs, dequeuers, schedule[..n]);
      RunInv(bs, dequeuers, schedule[..n]);
      RoomStep(Run(s0, schedule[..n]), schedule[n]);
      RunInv(bs, dequeuers, schedule);
      HeadBelowTail(Run(s0, schedule));
    }
  }

  lemma PacedPrefix(s: State, schedule: seq<Action>)
    requires schedule != [] && PacedRun(s, schedule)
    ensures PacedRun(s, schedule[..|schedule| - 1])
  {
    var n := |schedule| - 1;
    forall i | 0 <= i < n ensures Paced(Run(s, schedule[..n][..i]), schedule[..n][i]) {
      assert schedule[..n][..i] == schedule[..i];
    }
  }

  // ---------------------------------------------------------------- asking for more

  function Then(schedule: seq<Action>, act: Action): seq<Action> { schedule + [act] }

  lemma RunThen(s: State, schedule: seq<Action>, act: Action)
    ensures Run(s, Then(schedule, act)) == Do(Run(s, schedule), act)
    ensures Asked(Then(schedule, act)) == Asked(schedule) + if act.StartDequeue? then Most(act.call) else 0
  {
    assert Then(schedule, act)[..|schedule|] == schedule;
  }

  /** n elements enqueued. */
  lemma {:induction false} Fill(bs: nat, dequeuers: nat, n: nat) returns (schedule: seq<Action>)
    requires 1 <= bs && n + bs < HALF
    ensures Run(Start(bs, dequeuers), schedule) == Start(bs, dequeuers).(tail := n, o := n % bs)
    ensures Asked(schedule) == 0
  {
    if n == 0 {
      schedule := [];
      ModSmall(0, bs);
    } else {
      var s0 := Start(bs, dequeuers);
      var before := Fill(bs, dequeuers, n - 1);
      schedule := Then(Then(before, StartEnqueue(true)), StoreTail);
      RunThen(s0, before, StartEnqueue(true));
      RunThen(s0, Then(before, StartEnqueue(true)), StoreTail);
      FillOne(s0, bs, n - 1);
    }
  }

  lemma FillOne(s0: State, bs: nat, n: nat)
    requires s0.bs == bs >= 1 && n + bs < HALF && s0.head == 0 && !s0.storing
    ensures Do(Do(s0.(tail := n, o := n % bs), StartEnqueue(true)), StoreTail) == s0.(tail := n + 1, o := (n + 1) % bs)
  {
    CircularOrderExact(0, n + bs);
    NextOffset(n, bs);
  }

  lemma NextOffset(n: nat, bs: nat)
    requires bs >= 1
    ensures (n + 1) % bs == if n % bs + 1 == bs then 0 else n % bs + 1
  {
    Euclid(n, bs);
    ModEarly(n, 1, bs);
    if n % bs + 1 == bs { ModUnique(bs, 1, 0, bs); } else { ModSmall(n % bs + 1, bs); }
  }

  /** A run of k steps of dequeuer t. */
  lemma {:induction false} RunSteps(s: State, schedule: seq<Action>, t: nat, k: nat) returns (longer: seq<Action>)
    ensures Run(s, longer) == Steps(Run(s, schedule), t, k) && Asked(longer) == Asked(schedule)
    decreases k
  {
    if k == 0 {
      longer := schedule;
    } else {
      RunThen(s, schedule, Step(t));
      longer := RunSteps(s, Then(schedule, Step(t)), t, k - 1);
    }
  }

  function Times(k: nat, n: nat): nat { if k == 0 then 0 else Times(k - 1, n) + n }

  lemma {:induction false} TimesOne(k: nat)
    ensures Times(k, 1) == k
  {
    if k > 0 { TimesOne(k - 1); }
  }

  lemma {:induction false} TimesGrows(j: nat, k: nat, n: nat)
    requires j < k
    ensures Times(j, n) + n <= Times(k, n)
    decreases k
  {
    if j < k - 1 { TimesGrows(j, k - 1, n); }
  }

  lemma FewTimes(n: nat)
    ensures Times(4, n) == 4 * n && Times(5, n) == 5 * n
  {
    assert Times(1, n) == Times(0, n) + n;
    assert Times(2, n) == Times(1, n) + n;
    assert Times(3, n) == Times(2, n) + n;
    assert Times(4, n) == Times(3, n) + n;
  }

  /** The dequeuers below k, of N, want n of the n elements and the others are idle. */
  predicate Wanting(s: State, n: nat, N: nat, k: nat) {
    && s.tail == n && s.head == s.over == s.count == 0 && s.marks == [] && |s.c| == N
    && (forall t :: 0 <= t < N ==> s.c[t] == if t < k then Take(Many(n), n, 0) else Idle)
  }

  lemma Wants(s: State, n: nat, N: nat, t: nat)
    requires 0 < n < HALF && t < N && Wanting(s, n, N, t)
    ensures Wanting(Steps(Do(s, StartDequeue(t, Many(n))), t, 3), n, N, t + 1)
  {
    var s1 := Do(s, StartDequeue(t, Many(n)));
    var s2 := Do(s1, Step(t));
    var s3 := Do(s2, Step(t));
    AloneVerdict(n, 0, 0, Many(n));
    var s4 := Do(s3, Step(t));
    assert Steps(s3, t, 1) == s4;
    assert Steps(s2, t, 2) == s4;
  }

  lemma OneWants(s0: State, before: seq<Action>, n: nat, N: nat, t: nat) returns (schedule: seq<Action>)
    requires 0 < n < HALF && t < N && Wanting(Run(s0, before), n, N, t)
    ensures Wanting(Run(s0, schedule), n, N, t + 1) && Asked(schedule) == Asked(before) + n
  {
    Wants(Run(s0, before), n, N, t);
    RunThen(s0, before, StartDequeue(t, Many(n)));
    schedule := RunSteps(s0, Then(before, StartDequeue(t, Many(n))), t, 3);
  }

  lemma {:induction false} AllWant(bs: nat, n: nat, N: nat, k: nat) returns (schedule: seq<Action>)
    requires bs >= 1 && 0 < n && n + bs < HALF && k <= N
    ensures Wanting(Run(Start(bs, N), schedule), n, N, k) && Asked(schedule) == Times(k, n)
    decreases k
  {
    if k == 0 {
      schedule := Fill(bs, N, n);
    } else {
      var before := AllWant(bs, n, N, k - 1);
      schedule := OneWants(Start(bs, N), before, n, N, k - 1);
    }
  }

  /** The dequeuers below k have taken their tickets. */
  predicate Ticketed(s: State, n: nat, N: nat, k: nat) {
    && s.tail == n && s.head == s.over == 0 && s.count == Times(k, n) == |s.marks| && |s.c| == N
    && (forall t :: 0 <= t < N ==>
          s.c[t] == if t < k then Reload(Many(n), n, 0, Times(t, n)) else Take(Many(n), n, 0))
  }

  lemma {:induction false} AllTicketed(bs: nat, n: nat, N: nat, k: nat) returns (schedule: seq<Action>)
    requires bs >= 1 && 0 < n && n + bs < HALF && k <= N
    ensures Ticketed(Run(Start(bs, N), schedule), n, N, k) && Asked(schedule) == Times(N, n)
    decreases k
  {
    if k == 0 {
      schedule := AllWant(bs, n, N, N);
    } else {
      var before := AllTicketed(bs, n, N, k - 1);
      RunThen(Start(bs, N), before, Step(k - 1));
      schedule := Then(before, Step(k - 1));
    }
  }

  /** Deciding and claiming a ticket for n elements that is granted in full. */
  lemma Claims(s: State, t: nat, n: nat, m: nat)
    requires t < |s.c| && s.c[t] == Reload(Many(n), n, 0, m) && m + n <= |s.marks|
    requires Grant(Many(n), n, 0, m, s.tail) == Yes(n)
    ensures var s' := Steps(s, t, 2);
            && s'.head == s.head + n && s'.tail == s.tail && |s'.c| == |s.c| && |s'.marks| == |s.marks|
            && (forall u :: 0 <= u < |s.c| && u != t ==> s'.c[u] == s.c[u])
  {
    var s1 := Do(s, Step(t));
    assert s1.c[t] == Claim(n);
    assert Steps(s1, t, 1) == Do(s1, Step(t));
  }

  /** If dequeuer number j is granted what it asks for, like the first one, the claims pass the tail. */
  lemma Overclaims(bs: nat, n: nat, N: nat, j: nat) returns (schedule: seq<Action>)
    requires bs >= 1 && 0 < n && n + bs < HALF && 0 < j < N
    requires Grant(Many(n), n, 0, Times(j, n), n) == Yes(n)
    ensures var s := Run(Start(bs, N), schedule); s.head > s.tail
    ensures Asked(schedule) == Times(N, n)
  {
    var s0 := Start(bs, N);
    var before := AllTicketed(bs, n, N, N);
    VerdictWords(Many(n), n, 0, 0);
    WordOf(n);
    Claims(Run(s0, before), 0, n, 0);
    var first := RunSteps(s0, before, 0, 2);
    TimesGrows(j, N, n);
    Claims(Run(s0, first), j, n, Times(j, n));
    schedule := RunSteps(s0, first, j, 2);
  }

  /** Five bulk dequeues ask for 2^62 elements each before any ticket is taken; the fifth ticket starts
      2^64 units in, which the words cannot tell from the first, so both get the 2^62 elements that
      exist. */
  lemma UnpacedOverclaims() returns (schedule: seq<Action>)
    ensures var s := Run(Start(2, 5), schedule); s.head > s.tail
    ensures Asked(schedule) == 5 * (HALF / 2)
  {
    var n := HALF / 2;
    FewTimes(n);
    VerdictWords(Many(n), n, 0, 4 * n);
    WordOf(n - 4 * n);
    schedule := Overclaims(2, n, 5, 4);
  }

  /** With one element and 2^63 + 3 dequeues that ask for one element each, the last ticket lies just so
      far beyond the tail that it is granted. */
  lemma LeastOverclaim(bs: nat) returns (schedule: seq<Action>)
    requires 1 <= bs && 1 + bs < HALF
    ensures var s := Run(Start(bs, HALF + 3), schedule); s.head > s.tail
    ensures Asked(schedule) == HALF + 3
  {
    TimesOne(HALF + 2);
    TimesOne(HALF + 3);
    VerdictWords(Many(1), 1, 0, HALF + 2);
    WordOf(1 - (HALF + 2));
    schedule := Overclaims(bs, 1, HALF + 3, HALF + 2);
  }

  /** The head stays behind the tail in all runs that ask for at most so many elements, exactly if that is
      at most 2^63 + 2. */
  lemma SafeExactly(bs: nat, most: nat)
    requires 1 <= bs && 1 + bs < HALF
    ensures (forall n: nat, schedule: seq<Action> :: Asked(schedule) <= most ==>
               Run(Start(bs, n), schedule).head <= Run(Start(bs, n), schedule).tail) <==> most <= HALF + 2
  {
    if most <= HALF + 2 {
      forall n: nat, schedule: seq<Action> | Asked(schedule) <= most
        ensures Run(Start(bs, n), schedule).head <= Run(Start(bs, n), schedule).tail
      {
        AlwaysSafe(bs, n, schedule);
      }
    } else {
      var schedule := LeastOverclaim(bs);
      assert Asked(schedule) <= most;
    }
  }
}
