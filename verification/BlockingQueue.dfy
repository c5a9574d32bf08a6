/** The blocking queue: the single-producer single-consumer queue with a lightweight semaphore that
    counts its elements. The model is composed of the step models of both, so that the producer and the
    consumer interleave in every access, inside the queue and inside the semaphore. */
module BlockingQueue {
  import Semaphore
  import Spsc = SpscQueue

  /** PInside: in the inner enqueue; PSignal: enqueued and not yet signalled. */
  datatype Producer = PIdle | PInside | PSignal

  /** How the consumer's last call ended. Failed: a granted wait, and then no element. */
  datatype Outcome = Nothing | Dequeued | Peeked | Failed

  /** CGranted: granted a wait and not yet in the inner dequeue. */
  datatype Consumer = CIdle(last: Outcome) | CWaiting | CGranted | CInside | CPeeking

  datatype State<T> = State(q: Spsc.State<T>, sem: Semaphore.State, p: Producer, c: Consumer)

  /** The three ways to wait are those of try_dequeue and pop, of wait_dequeue, and of
      wait_dequeue_timed. */
  datatype Action<T> =
    | StartEnqueue(v: T, alloc: bool)
    | Produce(m: Spsc.Supply<T>)
    | Signal
    | Post
    | StartDequeue(call: Semaphore.Call)
    | Wait(timeout: bool)
    | Enter
    | StartPeek
    | Consume

  // ---------------------------------------------------------------- steps

  function ProduceStep<T>(s: State<T>, m: Spsc.Supply<T>): State<T> {
    var q' := Spsc.Do(s.q, Spsc.Produce(m));
    s.(q := q', p := if !q'.p.PDone? then PInside else if q'.p.ok then PSignal else PIdle)
  }

  function WaitStep<T>(s: State<T>, timeout: bool): State<T> {
    var sem' := Semaphore.Do(s.sem, Semaphore.Step(timeout));
    s.(sem := sem', c := if !sem'.w.Returned? then CWaiting else if sem'.w.ok then CGranted else CIdle(Nothing))
  }

  function ConsumeStep<T>(s: State<T>): State<T> {
    var q' := Spsc.Do(s.q, Spsc.Consume);
    s.(q := q',
       c := if !Spsc.ConsumerDone(q'.c) then s.c
            else if s.c.CPeeking? then CIdle(Peeked) else if q'.c.CGot? then CIdle(Dequeued) else CIdle(Failed))
  }

  function Do<T>(s: State<T>, act: Action<T>): State<T> {
    match act
    case StartEnqueue(v, alloc) =>
      if s.p.PIdle? && !s.sem.posting
      then s.(q := Spsc.Do(s.q, Spsc.StartEnqueue(v, alloc)), p := PInside) else s
    case Produce(m) => if s.p.PInside? then ProduceStep(s, m) else s
    case Signal => if s.p.PSignal? then s.(p := PIdle, sem := Semaphore.Do(s.sem, Semaphore.Signal(1))) else s
    case Post => s.(sem := Semaphore.Do(s.sem, Semaphore.Post))
    case StartDequeue(call) =>
      if s.c.CIdle? then s.(c := CWaiting, sem := Semaphore.Do(s.sem, Semaphore.StartWait(call))) else s
    case Wait(timeout) => if s.c.CWaiting? then WaitStep(s, timeout) else s
    case Enter =>
      if s.c.CGranted? then s.(q := Spsc.Do(s.q, Spsc.StartDequeue(false)), c := CInside) else s
    case StartPeek =>
      if s.c.CIdle? then s.(q := Spsc.Do(s.q, Spsc.StartDequeue(true)), c := CPeeking) else s
    case Consume => if s.c.CInside? || s.c.CPeeking? then ConsumeStep(s) else s
  }

  function Run<T>(s: State<T>, schedule: seq<Action<T>>): State<T> {
    if schedule == [] then s else Do(Run(s, schedule[..|schedule| - 1]), schedule[|schedule| - 1])
  }

  function Start<T>(maxSize: nat, maxBlock: nat, n: nat, size: nat, junk: T): State<T> {
    State(Spsc.Start(maxSize, maxBlock, n, size, junk), Semaphore.Start(0), PIdle, CIdle(Nothing))
  }

  // ---------------------------------------------------------------- the invariant

  /** Elements enqueued and not yet signalled, or granted and not yet dequeued. */
  function InTransit(p: Producer, c: Consumer): nat {
    (if p.PSignal? then 1 else 0) + (if c.CGranted? || c.CInside? then 1 else 0)
  }

  ghost predicate PhasesOk<T>(s: State<T>) {
    && (s.p.PInside? <==> !s.q.p.PDone?)
    && (s.c.CInside? || s.c.CPeeking? <==> !Spsc.ConsumerDone(s.q.c))
    && (s.c.CInside? ==> !Spsc.Peeks(s.q.c) && s.q.cHeld >= 1)
    && (s.c.CPeeking? ==> Spsc.Peeks(s.q.c))
    && (s.c.CWaiting? <==> !s.sem.w.Returned?)
    && (!s.p.PIdle? ==> !s.sem.posting)
    && s.c != CIdle(Failed) && (s.c == CIdle(Dequeued) ==> s.q.c.CGot?)
  }

  /** Every element is counted by a permit, unless it is in transit. */
  ghost predicate Balance<T>(s: State<T>) {
    Spsc.Held(s.q) == s.sem.permits + InTransit(s.p, s.c)
  }

  ghost predicate Inv<T>(s: State<T>) {
    && Spsc.Inv(s.q) && Semaphore.Inv(s.sem) && PhasesOk(s)
    && Balance(s)
  }

  // ---------------------------------------------------------------- every step keeps it

  lemma PermitsSigned(s: Semaphore.State)
    requires Semaphore.Inv(s)
    ensures s.permits >= 0
  {
  }

  lemma WaitGrants(s: Semaphore.State, timeout: bool)
    requires !s.w.Returned?
    ensures var s' := Semaphore.WaitStep(s, timeout);
            s'.permits == (if s'.w == Semaphore.Returned(true) then s.permits - 1 else s.permits) && s'.posting == s.posting
  {
  }

  lemma StartEnqueuePhases<T>(s: State<T>, v: T, alloc: bool)
    requires Spsc.WellFormed(s.q) && PhasesOk(s) && Balance(s) && s.p.PIdle? && !s.sem.posting
    ensures var s' := s.(q := Spsc.StartEnqueueStep(s.q, v, alloc), p := PInside); PhasesOk(s') && Balance(s')
  {
  }

  lemma StartEnqueueKeeps<T>(s: State<T>, v: T, alloc: bool)
    requires Inv(s) && s.p.PIdle? && !s.sem.posting
    ensures Inv(Do(s, StartEnqueue(v, alloc)))
  {
    StartEnqueuePhases(s, v, alloc);
    Spsc.StartEnqueueKeeps(s.q, v, alloc);
  }

  lemma ProducePhases<T>(s: State<T>, m: Spsc.Supply<T>)
    requires Spsc.WellFormed(s.q) && PhasesOk(s) && Balance(s) && s.p.PInside?
    ensures PhasesOk(ProduceStep(s, m)) && Balance(ProduceStep(s, m))
  {
    Spsc.ProduceEffect(s.q, m);
  }

  lemma ProduceKeeps<T>(s: State<T>, m: Spsc.Supply<T>)
    requires Inv(s) && s.p.PInside?
    ensures Inv(ProduceStep(s, m))
  {
    ProducePhases(s, m);
    Spsc.ProduceKeeps(s.q, m);
  }

  lemma SignalKeeps<T>(s: State<T>)
    requires Inv(s)
    ensures Inv(Do(s, Signal)) && Inv(Do(s, Post))
  {
    Semaphore.DoKeeps(s.sem, Semaphore.Signal(1));
    Semaphore.DoKeeps(s.sem, Semaphore.Post);
  }

  lemma StartDequeueKeeps<T>(s: State<T>, call: Semaphore.Call)
    requires Inv(s)
    ensures Inv(Do(s, StartDequeue(call)))
  {
    Semaphore.DoKeeps(s.sem, Semaphore.StartWait(call));
  }

  lemma WaitKeeps<T>(s: State<T>, timeout: bool)
    requires Inv(s) && s.c.CWaiting?
    ensures Inv(WaitStep(s, timeout))
  {
    Semaphore.WaitKeeps(s.sem, timeout);
    WaitGrants(s.sem, timeout);
  }

  lemma EnterPhases<T>(s: State<T>, peek: bool)
    requires Spsc.WellFormed(s.q) && PhasesOk(s) && Balance(s) && s.sem.permits >= 0
    requires if peek then s.c.CIdle? else s.c.CGranted?
    ensures !peek ==> Spsc.Held(s.q) >= 1
    ensures var s' := s.(q := Spsc.StartDequeueStep(s.q, peek), c := if peek then CPeeking else CInside);
            PhasesOk(s') && Balance(s')
  {
  }

  /** The inner dequeue of a granted wait begins with an element in the queue. */
  lemma EnterKeeps<T>(s: State<T>)
    requires Inv(s) && s.c.CGranted?
    ensures Spsc.Held(s.q) >= 1 && Inv(Do(s, Enter))
  {
    PermitsSigned(s.sem);
    EnterPhases(s, false);
    Spsc.StartDequeueKeeps(s.q, false);
  }

  lemma PeekKeeps<T>(s: State<T>)
    requires Inv(s) && s.c.CIdle?
    ensures Inv(Do(s, StartPeek))
  {
    PermitsSigned(s.sem);
    PeekDone(s);
    EnterPhases(s, true);
    Spsc.StartDequeueKeeps(s.q, true);
    Assembled(Do(s, StartPeek));
  }

  lemma PeekDone<T>(s: State<T>)
    requires Spsc.WellFormed(s.q) && PhasesOk(s) && s.c.CIdle?
    ensures Spsc.ConsumerDone(s.q.c)
    ensures Do(s, StartPeek) == s.(q := Spsc.StartDequeueStep(s.q, true), c := CPeeking)
  {
  }

  lemma Assembled<T>(s: State<T>)
    requires Spsc.Inv(s.q) && Semaphore.Inv(s.sem) && PhasesOk(s) && Balance(s)
    ensures Inv(s)
  {
  }

  lemma ConsumePhases<T>(s: State<T>)
    requires Spsc.WellFormed(s.q) && PhasesOk(s) && Balance(s) && (s.c.CInside? || s.c.CPeeking?)
    requires var q' := Spsc.ConsumeStep(s.q); q'.c.CEmpty? ==> q'.cHeld == 0
    ensures PhasesOk(ConsumeStep(s)) && Balance(ConsumeStep(s))
  {
    Spsc.ConsumeEffect(s.q);
    if !Spsc.ConsumeStep(s.q).c.CEmpty? { Spsc.PeekStays(s.q); }
  }

  lemma EmptyMeans<T>(q: Spsc.State<T>)
    requires Spsc.Inv(q)
    ensures q.c.CEmpty? ==> q.cHeld == 0
  {
  }

  /** So it does not find the queue empty. */
  lemma ConsumeKeeps<T>(s: State<T>)
    requires Inv(s) && (s.c.CInside? || s.c.CPeeking?)
    ensures Inv(ConsumeStep(s))
  {
    Spsc.ConsumeKeeps(s.q);
    EmptyMeans(Spsc.ConsumeStep(s.q));
    ConsumePhases(s);
  }

  lemma DoKeeps<T>(s: State<T>, act: Action<T>)
    requires Inv(s)
    ensures Inv(Do(s, act))
  {
    match act
    case StartEnqueue(v, alloc) => if s.p.PIdle? && !s.sem.posting { StartEnqueueKeeps(s, v, alloc); }
    case Produce(m) => if s.p.PInside? { ProduceKeeps(s, m); }
    case Signal => SignalKeeps(s);
    case Post => SignalKeeps(s);
    case StartDequeue(call) => StartDequeueKeeps(s, call);
    case Wait(timeout) => if s.c.CWaiting? { WaitKeeps(s, timeout); }
    case Enter => if s.c.CGranted? { EnterKeeps(s); }
    case StartPeek => if s.c.CIdle? { PeekKeeps(s); }
    case Consume => if s.c.CInside? || s.c.CPeeking? { ConsumeKeeps(s); }
  }

  lemma StartInv<T>(s: State<T>)
    requires Spsc.Inv(s.q) && s.q.p.PDone? && Spsc.ConsumerDone(s.q.c) && Spsc.Held(s.q) == 0
    requires Semaphore.Inv(s.sem) && s.sem.permits == 0 && s.sem.w.Returned? && s.p.PIdle? && s.c == CIdle(Nothing)
    ensures Inv(s)
  {
  }

  lemma {:induction false} RunInv<T>(maxSize: nat, maxBlock: nat, n: nat, size: nat, junk: T, schedule: seq<Action<T>>)
    requires Spsc.Ready(maxSize, n, size)
    ensures Inv(Run(Start(maxSize, maxBlock, n, size, junk), schedule))
  {
    if schedule == [] {
      Spsc.StartInv(maxSize, maxBlock, n, size, junk);
      StartInv(Start(maxSize, maxBlock, n, size, junk));
    } else {
      var before := schedule[..|schedule| - 1];
      RunInv(maxSize, maxBlock, n, size, junk, before);
      DoKeeps(Run(Start(maxSize, maxBlock, n, size, junk), before), schedule[|schedule| - 1]);
    }
  }

  // ---------------------------------------------------------------- what it guarantees

  ghost predicate Safe<T>(s: State<T>) {
    && Spsc.Refines(s.q)
    // a granted wait is followed by an inner dequeue that finds an element
    && (s.c.CGranted? ==> Spsc.Abs(s.q) != [])
    && s.c != CIdle(Failed) && (s.c == CIdle(Dequeued) ==> s.q.c.CGot?)
    // a consumer that stays blocked while the producer is idle has nothing to dequeue
    && (s.c.CWaiting? && s.sem.w.Block? && s.sem.sema == 0 && !s.sem.posting && !s.p.PSignal? ==> Spsc.Abs(s.q) == [])
    // between calls the semaphore counts the elements
    && (s.c.CIdle? && !s.p.PSignal? ==>
          s.sem.count == |Spsc.Abs(s.q)| && s.sem.sema == 0 && !s.sem.posting)
  }

  lemma InvSafe<T>(s: State<T>)
    requires Inv(s)
    ensures Safe(s)
  {
    Spsc.InvRefines(s.q);
    HeldIsAbs(s.q);
    PermitsSigned(s.sem);
    Balanced(s.sem);
  }

  lemma HeldIsAbs<T>(q: Spsc.State<T>)
    requires Spsc.Refines(q)
    ensures Spsc.Held(q) == |Spsc.Abs(q)|
  {
    assert |q.enq| == |q.deq| + |Spsc.Abs(q)|;
  }

  lemma Balanced(s: Semaphore.State)
    requires Semaphore.Inv(s)
    ensures s.w.Returned? ==> s.count == s.permits && s.sema == 0 && !s.posting
    ensures s.w.Block? && s.sema == 0 && !s.posting ==> s.permits == 0
  {
  }

  /** From every constructed queue, in every interleaving of one producer and one consumer. */
  lemma GrantedFindsElement<T>(maxSize: nat, maxBlock: nat, n: nat, size: nat, junk: T, schedule: seq<Action<T>>)
    requires Spsc.Ready(maxSize, n, size)
    ensures Safe(Run(Start(maxSize, maxBlock, n, size, junk), schedule))
  {
    RunInv(maxSize, maxBlock, n, size, junk, schedule);
    InvSafe(Run(Start(maxSize, maxBlock, n, size, junk), schedule));
  }

  /** A dequeue that returns nothing saw no element signalled. */
  lemma NothingSignalled<T>(s: State<T>, timeout: bool)
    requires Inv(s) && s.c.CWaiting? && Do(s, Wait(timeout)).c == CIdle(Nothing)
    ensures Spsc.Held(s.q) == if s.p.PSignal? then 1 else 0
  {
    Semaphore.RefusalExact(s.sem, timeout);
  }

  // ---------------------------------------------------------------- what a dequeue returns

  /** The consumer's last dequeue, and whether its wait has timed out. */
  function LastDequeue<T>(s: State<T>, schedule: seq<Action<T>>): Semaphore.Waited {
    if schedule == [] then Semaphore.Never
    else
      var before, act := Run(s, schedule[..|schedule| - 1]), schedule[|schedule| - 1];
      var last := LastDequeue(s, schedule[..|schedule| - 1]);
      if act.StartDequeue? && before.c.CIdle? then Semaphore.Waited(act.call, false)
      else if TimesOut(before, act) && last.Waited? then last.(timedOut := true)
      else last
  }

  predicate TimesOut<T>(s: State<T>, act: Action<T>) { s.c.CWaiting? && act == Wait(true) && s.sem.w.BlockTimed? }

  predicate Allowed<T>(s: State<T>, last: Semaphore.Waited) {
    && (s.c.CWaiting? <==> !s.sem.w.Returned?) && Semaphore.Allowed(s.sem.w, last)
    && (s.c == CIdle(Nothing) && last.Waited? ==> s.sem.w == Semaphore.Returned(false))
  }

  lemma StepAllowed<T>(s: State<T>, last: Semaphore.Waited, act: Action<T>)
    requires Allowed(s, last)
    ensures act.StartDequeue? && s.c.CIdle? ==> Allowed(Do(s, act), Semaphore.Waited(act.call, false))
    ensures !(act.StartDequeue? && s.c.CIdle?) ==>
              Allowed(Do(s, act), if TimesOut(s, act) && last.Waited? then last.(timedOut := true) else last)
  {
    match act
    case StartDequeue(call) => Semaphore.StepAllowed(s.sem, last, Semaphore.StartWait(call));
    case Wait(timeout) => Semaphore.StepAllowed(s.sem, last, Semaphore.Step(timeout));
    case Signal => Semaphore.StepAllowed(s.sem, last, Semaphore.Signal(1));
    case Post => Semaphore.StepAllowed(s.sem, last, Semaphore.Post);
    case _ =>
  }

  lemma {:induction false} RunAllowed<T>(maxSize: nat, maxBlock: nat, n: nat, size: nat, junk: T, schedule: seq<Action<T>>)
    ensures var s0 := Start(maxSize, maxBlock, n, size, junk);
            Allowed(Run(s0, schedule), LastDequeue(s0, schedule))
  {
    if schedule != [] {
      var s0, k := Start(maxSize, maxBlock, n, size, junk), |schedule| - 1;
      RunAllowed(maxSize, maxBlock, n, size, junk, schedule[..k]);
      StepAllowed(Run(s0, schedule[..k]), LastDequeue(s0, schedule[..k]), schedule[k]);
    }
  }

  /** In every run: a dequeue that waits without a time limit does not end without an element, and one with
      a limit only after a time-out. */
  lemma WaitDequeues<T>(maxSize: nat, maxBlock: nat, n: nat, size: nat, junk: T, schedule: seq<Action<T>>)
    ensures var s0 := Start(maxSize, maxBlock, n, size, junk);
            var s, last := Run(s0, schedule), LastDequeue(s0, schedule);
            && (last.Waited? && s.c == CIdle(Nothing) ==> last.call.Try? || (last.call.TimedWait? && last.timedOut))
            && (last.Waited? && last.call.Try? && s.c.CWaiting? ==> s.sem.w.TryLoad? || s.sem.w.TryTake?)
  {
    RunAllowed(maxSize, maxBlock, n, size, junk, schedule);
  }

  // ---------------------------------------------------------------- the parts

  /** What an action is for the inner queue, if anything. */
  function QueueActs<T>(s: State<T>, act: Action<T>): seq<Spsc.Action<T>> {
    match act
    case StartEnqueue(v, alloc) => if s.p.PIdle? && !s.sem.posting then [Spsc.StartEnqueue(v, alloc)] else []
    case Produce(m) => if s.p.PInside? then [Spsc.Produce(m)] else []
    case Enter => if s.c.CGranted? then [Spsc.StartDequeue(false)] else []
    case StartPeek => if s.c.CIdle? then [Spsc.StartDequeue(true)] else []
    case Consume => if s.c.CInside? || s.c.CPeeking? then [Spsc.Consume] else []
    case _ => []
  }

  /** The schedule of the inner queue in a schedule of the whole. */
  function QueueRun<T>(s: State<T>, schedule: seq<Action<T>>): seq<Spsc.Action<T>> {
    if schedule == [] then []
    else
      var k := |schedule| - 1;
      QueueRun(s, schedule[..k]) + QueueActs(Run(s, schedule[..k]), schedule[k])
  }

  lemma ActsEffect<T>(s: State<T>, act: Action<T>)
    ensures var acts := QueueActs(s, act);
            |acts| <= 1 && Do(s, act).q == if acts == [] then s.q else Spsc.Do(s.q, acts[0])
  {
  }

  lemma RunOne<T>(q: Spsc.State<T>, before: seq<Spsc.Action<T>>, acts: seq<Spsc.Action<T>>)
    requires |acts| <= 1
    ensures Spsc.Run(q, before + acts) == if acts == [] then Spsc.Run(q, before) else Spsc.Do(Spsc.Run(q, before), acts[0])
  {
    if acts == [] {
      assert before + acts == before;
    } else {
      assert (before + acts)[..|before|] == before && (before + acts)[|before|] == acts[0];
    }
  }

  /** What an action is for the semaphore, if anything. */
  function SemaphoreActs<T>(s: State<T>, act: Action<T>): seq<Semaphore.Action> {
    match act
    case Signal => if s.p.PSignal? then [Semaphore.Signal(1)] else []
    case Post => [Semaphore.Post]
    case StartDequeue(call) => if s.c.CIdle? then [Semaphore.StartWait(call)] else []
    case Wait(timeout) => if s.c.CWaiting? then [Semaphore.Step(timeout)] else []
    case _ => []
  }

  function SemaphoreRun<T>(s: State<T>, schedule: seq<Action<T>>): seq<Semaphore.Action> {
    if schedule == [] then []
    else
      var k := |schedule| - 1;
      SemaphoreRun(s, schedule[..k]) + SemaphoreActs(Run(s, schedule[..k]), schedule[k])
  }

  lemma SemaphoreEffect<T>(s: State<T>, act: Action<T>)
    ensures var acts := SemaphoreActs(s, act);
            |acts| <= 1 && Do(s, act).sem == if acts == [] then s.sem else Semaphore.Do(s.sem, acts[0])
  {
  }

  lemma SemaphoreOne(sem: Semaphore.State, before: seq<Semaphore.Action>, acts: seq<Semaphore.Action>)
    requires |acts| <= 1
    ensures Semaphore.Run(sem, before + acts)
         == if acts == [] then Semaphore.Run(sem, before) else Semaphore.Do(Semaphore.Run(sem, before), acts[0])
  {
    if acts == [] {
      assert before + acts == before;
    } else {
      assert (before + acts)[..|before|] == before && (before + acts)[|before|] == acts[0];
    }
  }

  /** A run of the whole is a run of the inner queue and a run of the semaphore, so what their calls return is
      what they return there. */
  lemma {:induction false} Projects<T>(s: State<T>, schedule: seq<Action<T>>)
    ensures Run(s, schedule).q == Spsc.Run(s.q, QueueRun(s, schedule))
    ensures Run(s, schedule).sem == Semaphore.Run(s.sem, SemaphoreRun(s, schedule))
  {
    if schedule != [] {
      var k := |schedule| - 1;
      Projects(s, schedule[..k]);
      ActsEffect(Run(s, schedule[..k]), schedule[k]);
      RunOne(s.q, QueueRun(s, schedule[..k]), QueueActs(Run(s, schedule[..k]), schedule[k]));
      SemaphoreEffect(Run(s, schedule[..k]), schedule[k]);
      SemaphoreOne(s.sem, SemaphoreRun(s, schedule[..k]), SemaphoreActs(Run(s, schedule[..k]), schedule[k]));
    }
  }

  /** The producer signals exactly if its enqueue said that it appended the element. */
  lemma SignalsIfEnqueued<T>(s: State<T>, m: Spsc.Supply<T>)
    requires Inv(s) && s.p.PInside? && Do(s, Produce(m)).p != PInside
    ensures var s' := Do(s, Produce(m));
            && s'.q.p.PDone? && (s'.p.PSignal? <==> s'.q.p.ok)
            && (s'.p.PSignal? ==> s'.q.enq == s.q.enq + [s.q.p.v]) && (s'.p.PIdle? ==> s'.q.enq == s.q.enq)
  {
    Spsc.ProduceEffect(s.q, m);
  }
}
