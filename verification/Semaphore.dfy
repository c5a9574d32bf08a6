/** The lightweight semaphore between one signaller and one waiter: a counter that the waiter may take
    to -1 before it waits on an operating-system semaphore, with waits that may time out and then
    repair the counter. Every step is one access to the counter or to the operating-system semaphore,
    whose timed wait may fail at any time. */
module Semaphore {

  const SPINS: nat := 10000

  datatype Call = Try | Wait | TimedWait

  datatype Waiter =
    | Returned(ok: bool)
    | TryLoad(call: Call)
    | TryTake
    | SpinLoad(call: Call, left: nat)
    | SpinTake
    | Fetch(call: Call)
    | Block
    | BlockTimed
    | Repair
    | Retry
    | TrySema

  /** `posting`: the signaller is about to post the operating-system semaphore. `permits` is never read
      by the code: the initial count plus what was signalled minus the waits that were granted. */
  datatype State = State(count: int, sema: nat, posting: bool, w: Waiter, permits: int)

  datatype Action = Signal(n: nat) | Post | StartWait(call: Call) | Step(timeout: bool)

  // ---------------------------------------------------------------- steps

  function SignalStep(s: State, n: nat): State {
    s.(count := s.count + n, posting := s.count < 0, permits := s.permits + n)
  }

  function Granted(s: State): State { s.(w := Returned(true), permits := s.permits - 1) }

  function FetchStep(s: State, call: Call): State {
    var s' := s.(count := s.count - 1);
    if s.count > 0 then Granted(s')
    else s'.(w := if call.TimedWait? then BlockTimed else Block)
  }

  function WaitStep(s: State, timeout: bool): State {
    match s.w
    case Returned(_) => s
    case TryLoad(call) =>
      s.(w := if s.count > 0 then TryTake else if call.Try? then Returned(false) else SpinLoad(call, SPINS))
    case TryTake => Granted(s.(count := s.count - 1))
    case SpinLoad(call, left) =>
      s.(w := if left == 0 then Fetch(call) else if s.count > 0 then SpinTake else SpinLoad(call, left - 1))
    case SpinTake => Granted(s.(count := s.count - 1))
    case Fetch(call) => FetchStep(s, call)
    case Block => if s.sema > 0 then Granted(s.(sema := s.sema - 1)) else s
    case BlockTimed =>
      if timeout then s.(w := Repair) else if s.sema > 0 then Granted(s.(sema := s.sema - 1)) else s
    case Repair => s.(count := s.count + 1, w := if s.count < 0 then Returned(false) else Retry)
    case Retry => s.(count := s.count - 1, w := if s.count > 0 then TrySema else Repair)
    case TrySema => if s.sema > 0 then Granted(s.(sema := s.sema - 1)) else s.(w := Repair)
  }

  function Do(s: State, act: Action): State {
    match act
    case Signal(n) => if s.posting then s else SignalStep(s, n)
    case Post => if s.posting then s.(sema := s.sema + 1, posting := false) else s
    case StartWait(call) => if s.w.Returned? then s.(w := TryLoad(call)) else s
    case Step(timeout) => WaitStep(s, timeout)
  }

  function Run(s: State, schedule: seq<Action>): State {
    if schedule == [] then s else Do(Run(s, schedule[..|schedule| - 1]), schedule[|schedule| - 1])
  }

  function Start(initial: nat): State { State(initial, 0, false, Returned(false), initial) }

  // ---------------------------------------------------------------- the invariant

  /** The waiter has counted itself down and not been granted. */
  function Debt(w: Waiter): nat { if w.Block? || w.BlockTimed? || w.Repair? || w.TrySema? then 1 else 0 }

  /** Posts made or about to be made and not yet taken. */
  function Tokens(s: State): nat { s.sema + if s.posting then 1 else 0 }

  predicate Inv(s: State) {
    && s.count == s.permits - Debt(s.w)
    && s.count >= 0 - Debt(s.w)
    // a waiter in debt is owed exactly one post, once the count shows that a signal came
    && Tokens(s) == (if s.w.Retry? || (Debt(s.w) == 1 && s.count >= 0) then 1 else 0)
    && (s.w.TryTake? || s.w.SpinTake? || s.w.Retry? ==> s.count > 0)
  }

  /** A signal of nothing while the waiter is in debt posts the semaphore without a permit. */
  predicate Harmless(s: State, act: Action) { act.Signal? && !s.posting && s.count < 0 ==> act.n > 0 }

  /** Exactly the harmless actions keep the invariant. */
  lemma DoKeeps(s: State, act: Action)
    requires Inv(s)
    ensures Inv(Do(s, act)) <==> Harmless(s, act)
  {
    if act.Step? { WaitKeeps(s, act.timeout); }
  }

  lemma WaitKeeps(s: State, timeout: bool)
    requires Inv(s)
    ensures Inv(WaitStep(s, timeout))
  {
  }

  ghost predicate HarmlessRun(s: State, schedule: seq<Action>) {
    forall i :: 0 <= i < |schedule| ==> Harmless(Run(s, schedule[..i]), schedule[i])
  }

  lemma {:induction false} RunInv(initial: nat, schedule: seq<Action>)
    requires HarmlessRun(Start(initial), schedule)
    ensures Inv(Run(Start(initial), schedule))
  {
    if schedule != [] {
      var s, n := Start(initial), |schedule| - 1;
      forall i | 0 <= i < n ensures Harmless(Run(s, schedule[..n][..i]), schedule[..n][i]) {
        assert schedule[..n][..i] == schedule[..i];
      }
      RunInv(initial, schedule[..n]);
      DoKeeps(Run(s, schedule[..n]), schedule[n]);
    }
  }

  // ---------------------------------------------------------------- what it guarantees

  /** Waits granted since the start of a run, and permits signalled in it. */
  function Grants(s: State, schedule: seq<Action>): nat {
    if schedule == [] then 0
    else
      var s' := Run(s, schedule[..|schedule| - 1]);
      Grants(s, schedule[..|schedule| - 1])
      + if !s'.w.Returned? && Do(s', schedule[|schedule| - 1]).w == Returned(true) then 1 else 0
  }

  function Signalled(s: State, schedule: seq<Action>): nat {
    if schedule == [] then 0
    else
      var act := schedule[|schedule| - 1];
      Signalled(s, schedule[..|schedule| - 1])
      + if act.Signal? && !Run(s, schedule[..|schedule| - 1]).posting then act.n else 0
  }

  /** The history field is what its name says. */
  lemma {:induction false} PermitsBalance(s: State, schedule: seq<Action>)
    ensures Run(s, schedule).permits == s.permits + Signalled(s, schedule) - Grants(s, schedule)
  {
    if schedule != [] {
      PermitsBalance(s, schedule[..|schedule| - 1]);
      StepBalance(Run(s, schedule[..|schedule| - 1]), schedule[|schedule| - 1]);
    }
  }

  lemma StepBalance(s: State, act: Action)
    ensures Do(s, act).permits == s.permits
              + (if act.Signal? && !s.posting then act.n else 0)
              - (if !s.w.Returned? && Do(s, act).w == Returned(true) then 1 else 0)
  {
  }

  /** In every interleaving, through time-outs and repairs: the count never drops below -1 or rises
      above the permits given in all (so it fits its signed word while those are below 2^63), no more waits
      are granted than were permitted, a waiter that stays blocked with nothing posted has no
      permit to take, and with nobody in a call the count is the number of permits left. */
  lemma Conserved(initial: nat, schedule: seq<Action>)
    requires HarmlessRun(Start(initial), schedule)
    ensures var s := Run(Start(initial), schedule);
            && -1 <= s.count <= initial + Signalled(Start(initial), schedule)
            && Grants(Start(initial), schedule) <= initial + Signalled(Start(initial), schedule)
            && (s.w.Block? && s.sema == 0 && !s.posting ==>
                  Grants(Start(initial), schedule) == initial + Signalled(Start(initial), schedule))
            && (s.w.Returned? ==>
                  && s.count == initial + Signalled(Start(initial), schedule) - Grants(Start(initial), schedule)
                  && s.sema == 0 && !s.posting)
  {
    RunInv(initial, schedule);
    PermitsBalance(Start(initial), schedule);
  }

  /** A wait returns false only when there is no permit at that moment. */
  lemma RefusalExact(s: State, timeout: bool)
    requires Inv(s) && !s.w.Returned? && WaitStep(s, timeout).w == Returned(false)
    ensures s.permits == 0
  {
  }

  // ---------------------------------------------------------------- what a call returns

  /** The waiter's last call, and whether it has timed out. */
  datatype Waited = Never | Waited(call: Call, timedOut: bool)

  function LastWait(s: State, schedule: seq<Action>): Waited {
    if schedule == [] then Never
    else
      var before, act := Run(s, schedule[..|schedule| - 1]), schedule[|schedule| - 1];
      var last := LastWait(s, schedule[..|schedule| - 1]);
      if act.StartWait? && before.w.Returned? then Waited(act.call, false)
      else if act.Step? && act.timeout && before.w.BlockTimed? && last.Waited? then last.(timedOut := true)
      else last
  }

  /** Where a waiter may be in its call, and what the call may have returned. */
  predicate Allowed(w: Waiter, last: Waited) {
    match w
    case Returned(ok) => last.Never? || ok || last.call.Try? || (last.call.TimedWait? && last.timedOut)
    case TryLoad(call) => last.Waited? && last.call == call
    case TryTake => last.Waited?
    case SpinLoad(call, _) => last.Waited? && last.call == call && !call.Try?
    case SpinTake => last.Waited? && !last.call.Try?
    case Fetch(call) => last.Waited? && last.call == call && !call.Try?
    case Block => last.Waited? && last.call.Wait?
    case BlockTimed => last.Waited? && last.call.TimedWait?
    case _ => last.Waited? && last.call.TimedWait? && last.timedOut
  }

  lemma {:induction false} RunAllowed(initial: nat, schedule: seq<Action>)
    ensures Allowed(Run(Start(initial), schedule).w, LastWait(Start(initial), schedule))
  {
    if schedule != [] {
      var n := |schedule| - 1;
      RunAllowed(initial, schedule[..n]);
      StepAllowed(Run(Start(initial), schedule[..n]), LastWait(Start(initial), schedule[..n]), schedule[n]);
    }
  }

  lemma StepAllowed(s: State, last: Waited, act: Action)
    requires Allowed(s.w, last)
    ensures act.StartWait? && s.w.Returned? ==> Allowed(Do(s, act).w, Waited(act.call, false))
    ensures !(act.StartWait? && s.w.Returned?) ==>
              Allowed(Do(s, act).w, if act.Step? && act.timeout && s.w.BlockTimed? then last.(timedOut := true) else last)
  {
  }

  /** In every run: only a `tryWait` and a wait that timed out return false; a wait without a time limit
      returns nothing but true, a `tryWait` never blocks, and neither does a timed wait without its limit. */
  lemma OnlyTimeoutRefuses(initial: nat, schedule: seq<Action>)
    ensures var s, last := Run(Start(initial), schedule), LastWait(Start(initial), schedule);
            last.Waited? ==>
              && (s.w == Returned(false) ==> last.call.Try? || (last.call.TimedWait? && last.timedOut))
              && (s.w.Block? ==> last.call.Wait?) && (s.w.BlockTimed? ==> last.call.TimedWait?)
              && (last.call.Try? ==> s.w.Returned? || s.w.TryLoad? || s.w.TryTake?)
  {
    RunAllowed(initial, schedule);
  }

  /** The waiter takes k steps, without a time-out, and nobody else moves. */
  function Alone(s: State, k: nat): State
    decreases k
  {
    if k == 0 then s else Alone(WaitStep(s, false), k - 1)
  }

  function Left(s: State): nat {
    match s.w
    case TryLoad(_) => SPINS + 4
    case SpinLoad(_, left) => left + 3
    case Fetch(_) => 2
    case Repair => if s.count < 0 then 1 else 3
    case Retry => 2
    case TrySema => if s.sema > 0 then 1 else 2
    case _ => 1
  }

  predicate Blocked(s: State) { s.permits == 0 && (s.w.Block? || s.w.BlockTimed?) }

  /** A call that is going to return false if there is no permit. */
  predicate GivesUp(w: Waiter) { w == TryLoad(Try) || w.Repair? || w.TrySema? }

  lemma WaitEnds(s: State)
    requires Inv(s) && !s.posting && !s.w.Returned? && WaitStep(s, false).w.Returned?
    ensures var s' := WaitStep(s, false);
            && s'.permits == (if s'.w == Returned(true) then s.permits - 1 else s.permits)
            && (s'.w.ok <==> s.permits >= 1) && (!s'.w.ok ==> GivesUp(s.w))
  {
  }

  lemma WaitAdvances(s: State)
    requires Inv(s) && !s.posting && !s.w.Returned? && !Blocked(s) && !WaitStep(s, false).w.Returned?
    ensures var s' := WaitStep(s, false);
            && !s'.posting && s'.permits == s.permits && Left(s') < Left(s)
            && (s.permits == 0 ==> (GivesUp(s'.w) <==> GivesUp(s.w)))
  {
    match s.w
    case TryLoad(_) =>
    case SpinLoad(_, _) =>
    case Fetch(_) =>
    case Repair =>
    case Retry =>
    case TrySema =>
    case _ =>
  }

  lemma AloneNone(s: State)
    ensures Alone(s, 0) == s
  {
  }

  lemma AloneOnce(s: State, k: nat)
    requires k >= 1
    ensures Alone(s, k) == Alone(WaitStep(s, false), k - 1)
  {
  }

  /** Undisturbed, a call takes a permit if there is one; without one it returns false if it is a `tryWait`
      or is giving up after a time-out, and blocks otherwise. */
  lemma {:induction false} WaitAlone(s: State) returns (k: nat)
    requires Inv(s) && !s.posting && !s.w.Returned?
    ensures var s' := Alone(s, k);
            && (s.permits >= 1 ==> s'.w == Returned(true) && s'.permits == s.permits - 1)
            && (s.permits == 0 ==> s'.permits == 0)
            && (s.permits == 0 ==> if GivesUp(s.w) then s'.w == Returned(false) else Blocked(s'))
    decreases Left(s)
  {
    k := 0;
    if !Blocked(s) {
      var s1 := WaitStep(s, false);
      WaitKeeps(s, false);
      if s1.w.Returned? {
        WaitEnds(s);
        AloneNone(s1);
      } else {
        WaitAdvances(s);
        k := WaitAlone(s1);
      }
      k := k + 1;
      AloneOnce(s, k);
    }
  }

  /** A signal: one addition to the count, and a post if a waiter is in debt. */
  function Signalling(s: State, n: nat): State {
    var s' := Do(s, Signal(n));
    if s'.posting then Do(s', Post) else s'
  }

  /** An undisturbed signal adds its permits and leaves no post under way, and a waiter that was blocked without
      a permit can go on. */
  lemma SignalAlone(s: State, n: nat)
    requires Inv(s) && !s.posting && n >= 1
    ensures var s' := Signalling(s, n);
            && Inv(s') && !s'.posting && s'.permits == s.permits + n && s'.w == s.w
            && (Blocked(s) ==> WaitStep(s', false).w == Returned(true))
  {
    DoKeeps(s, Signal(n));
    DoKeeps(Do(s, Signal(n)), Post);
  }

  // ---------------------------------------------------------------- a signal of nothing

  function Then(schedule: seq<Action>, act: Action): seq<Action> { schedule + [act] }

  lemma RunThen(s: State, schedule: seq<Action>, act: Action)
    ensures Run(s, Then(schedule, act)) == Do(Run(s, schedule), act)
  {
    assert Then(schedule, act)[..|schedule|] == schedule;
  }

  /** A waiter that has seen no permit in k of its spins. */
  lemma {:induction false} Spun(k: nat) returns (schedule: seq<Action>)
    requires k <= SPINS
    ensures Run(Start(0), schedule) == Start(0).(w := SpinLoad(Wait, SPINS - k))
  {
    if k == 0 {
      RunThen(Start(0), [], StartWait(Wait));
      schedule := Then(Then([], StartWait(Wait)), Step(false));
      RunThen(Start(0), Then([], StartWait(Wait)), Step(false));
    } else {
      var before := Spun(k - 1);
      schedule := Then(before, Step(false));
      RunThen(Start(0), before, Step(false));
    }
  }

  /** A signal of nothing, which the assertion in `signal` allows, grants a wait without a permit. */
  lemma SignalNothing() returns (schedule: seq<Action>)
    ensures var s := Run(Start(0), schedule); s.w == Returned(true) && s.permits == -1 && s.count == -1
  {
    var spun := Spun(SPINS);
    var blocked := Then(Then(spun, Step(false)), Step(false));
    RunThen(Start(0), spun, Step(false));
    RunThen(Start(0), Then(spun, Step(false)), Step(false));
    var posted := Then(Then(blocked, Signal(0)), Post);
    RunThen(Start(0), blocked, Signal(0));
    RunThen(Start(0), Then(blocked, Signal(0)), Post);
    schedule := Then(posted, Step(false));
    RunThen(Start(0), posted, Step(false));
  }

  /** Every signal of the schedule is for at least so many permits. */
  predicate SignalsAtLeast(schedule: seq<Action>, least: nat) {
    forall i :: 0 <= i < |schedule| && schedule[i].Signal? ==> schedule[i].n >= least
  }

  /** No more waits are granted than there were permits, in all runs whose signals are for at least so
      many permits, exactly if that is at least one. */
  lemma SafeExactly(least: nat)
    ensures (forall initial: nat, schedule: seq<Action> :: SignalsAtLeast(schedule, least) ==>
               Grants(Start(initial), schedule) <= initial + Signalled(Start(initial), schedule)) <==> least >= 1
  {
    if least >= 1 {
      forall initial: nat, schedule: seq<Action> | SignalsAtLeast(schedule, least)
        ensures Grants(Start(initial), schedule) <= initial + Signalled(Start(initial), schedule)
      {
        Conserved(initial, schedule);
      }
    } else {
      var schedule := SignalNothing();
      PermitsBalance(Start(0), schedule);
      assert SignalsAtLeast(schedule, least);
    }
  }
}
