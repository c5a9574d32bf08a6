/** The event broker: clients make producers and consumers, publish and destroy, by putting actions on
    a queue; `do_work` takes the actions one by one and notifies the consumers whose filter matches the
    topic of the producer. Notification handlers may call the broker again while an action is being
    worked on.

    Handles are numbered in the order in which they were made. A step is one client call (which may
    come from a handler, between two notifications) or one piece of work: taking the next action from
    the queue, or one turn of the loop that the action runs. */
module Broker {

  datatype Topic = Topic(typeId: nat, name: string)
  datatype Filter = Filter(typeId: nat, accepts: string -> bool)

  datatype Action<E> =
    | InitProducer(p: nat)
    | DestroyProducer(p: nat)
    | Publish(p: nat, e: E)
    | InitConsumer(c: nat)
    | DestroyConsumer(c: nat)

  datatype Kind<E> = START | EVENT(e: E) | STOP

  /** Consumer c was notified about the stream of producer p. */
  datatype Note<E> = Note(c: nat, p: nat, kind: Kind<E>)

  /** A live producer and its cached list of matching consumers. */
  datatype Producer = Producer(id: nat, consumers: seq<nat>)

  /** The loop in progress: adding the consumers from number k on to the new producer; adding the new
      consumer to the producers from number k on; notifying the consumers in todo. */
  datatype Job<E> = Idle | Adding(k: nat) | Joining(k: nat) | Sending(p: nat, kind: Kind<E>, todo: seq<nat>)

  /** `openP` and `openC` are the handles that their client has not destroyed; the code keeps openC as
      the consumers whose handler it has not replaced. `done` and `trace` are never read by the code:
      the actions taken from the queue, and the notifications handled. */
  datatype State<E> = State(
    topics: seq<Topic>, filters: seq<Filter>,
    producers: seq<Producer>, consumers: seq<nat>, pending: seq<Action<E>>, job: Job<E>,
    openP: set<nat>, openC: set<nat>,
    done: seq<Action<E>>, trace: seq<Note<E>>)

  datatype Call<E> =
    | MakeProducer(topic: Topic)
    | PublishCall(p: nat, e: E)
    | DestroyProducerCall(p: nat)
    | MakeConsumer(filter: Filter)
    | DestroyConsumerCall(c: nat)

  datatype Step<E> = Client(call: Call<E>) | Work

  // ---------------------------------------------------------------- clients

  /** Clients use a handle only between making and destroying it; other calls are not made. */
  function CallStep<E>(s: State<E>, call: Call<E>): State<E> {
    match call
    case MakeProducer(topic) =>
      var p := |s.topics|;
      s.(topics := s.topics + [topic], openP := s.openP + {p}, pending := s.pending + [InitProducer(p)])
    case PublishCall(p, e) =>
      if p in s.openP then s.(pending := s.pending + [Publish(p, e)]) else s
    case DestroyProducerCall(p) =>
      if p in s.openP then s.(openP := s.openP - {p}, pending := s.pending + [DestroyProducer(p)]) else s
    case MakeConsumer(filter) =>
      var c := |s.filters|;
      s.(filters := s.filters + [filter], openC := s.openC + {c}, pending := s.pending + [InitConsumer(c)])
    case DestroyConsumerCall(c) =>
      if c in s.openC then s.(openC := s.openC - {c}, pending := s.pending + [DestroyConsumer(c)]) else s
  }

  // ---------------------------------------------------------------- work

  predicate Match<E>(s: State<E>, c: nat, p: nat) {
    && c < |s.filters| && p < |s.topics|
    && s.filters[c].typeId == s.topics[p].typeId && s.filters[c].accepts(s.topics[p].name)
  }

  function Notify<E>(s: State<E>, c: nat, p: nat, kind: Kind<E>): State<E> {
    if c in s.openC then s.(trace := s.trace + [Note(c, p, kind)]) else s
  }

  /** find_if over the producers: the first with that handle. */
  function Find(producers: seq<Producer>, p: nat): (i: nat)
    ensures i <= |producers|
    ensures i < |producers| ==> producers[i].id == p
    ensures forall j :: 0 <= j < i ==> producers[j].id != p
  {
    if producers == [] then 0 else if producers[0].id == p then 0 else 1 + Find(producers[1..], p)
  }

  /** find_if and erase: the list without the first c, if any. */
  function Erase(cs: seq<nat>, c: nat): seq<nat> {
    if cs == [] then [] else if cs[0] == c then cs[1..] else [cs[0]] + Erase(cs[1..], c)
  }

  function MaybeAdd<E>(s: State<E>, i: nat, c: nat): State<E>
    requires i < |s.producers|
  {
    var p := s.producers[i];
    if Match(s, c, p.id)
    then Notify(s.(producers := s.producers[i := p.(consumers := p.consumers + [c])]), c, p.id, START)
    else s
  }

  function MaybeRemove(producers: seq<Producer>, c: nat): seq<Producer> {
    seq(|producers|, i requires 0 <= i < |producers| => producers[i].(consumers := Erase(producers[i].consumers, c)))
  }

  function Remove(producers: seq<Producer>, i: nat): seq<Producer>
    requires i < |producers|
  {
    producers[..i] + producers[i + 1..]
  }

  /** Takes action a from the queue. An action on a handle that is not there has no meaning in the code;
      here it does nothing, and none is ever taken. */
  function Take<E>(s: State<E>, a: Action<E>): State<E> {
    match a
    case InitProducer(p) => s.(producers := s.producers + [Producer(p, [])], job := Adding(0))
    case Publish(p, e) =>
      var i := Find(s.producers, p);
      if i < |s.producers| then s.(job := Sending(p, EVENT(e), s.producers[i].consumers)) else s
    case DestroyProducer(p) =>
      var i := Find(s.producers, p);
      if i < |s.producers|
      then s.(producers := Remove(s.producers, i), job := Sending(p, STOP, s.producers[i].consumers)) else s
    case InitConsumer(c) => s.(consumers := s.consumers + [c], job := Joining(0))
    case DestroyConsumer(c) =>
      s.(producers := MaybeRemove(s.producers, c), consumers := Erase(s.consumers, c))
  }

  function WorkStep<E>(s: State<E>): State<E> {
    match s.job
    case Idle =>
      if s.pending == [] then s
      else Take(s.(pending := s.pending[1..], done := s.done + [s.pending[0]]), s.pending[0])
    case Adding(k) =>
      if k < |s.consumers| && s.producers != []
      then MaybeAdd(s.(job := Adding(k + 1)), |s.producers| - 1, s.consumers[k]) else s.(job := Idle)
    case Joining(k) =>
      if k < |s.producers| && s.consumers != []
      then MaybeAdd(s.(job := Joining(k + 1)), k, s.consumers[|s.consumers| - 1]) else s.(job := Idle)
    case Sending(p, kind, todo) =>
      if todo != [] then Notify(s.(job := Sending(p, kind, todo[1..])), todo[0], p, kind) else s.(job := Idle)
  }

  function Do<E>(s: State<E>, step: Step<E>): State<E> {
    match step
    case Client(call) => CallStep(s, call)
    case Work => WorkStep(s)
  }

  function Run<E>(s: State<E>, schedule: seq<Step<E>>): State<E> {
    if schedule == [] then s else Do(Run(s, schedule[..|schedule| - 1]), schedule[|schedule| - 1])
  }

  /** The calls of the clients in a schedule. */
  function CallsOf<E>(schedule: seq<Step<E>>): seq<Call<E>> {
    if schedule == [] then []
    else
      var rest, step := CallsOf(schedule[..|schedule| - 1]), schedule[|schedule| - 1];
      if step.Client? then rest + [step.call] else rest
  }

  function Start<E>(): State<E> { State([], [], [], [], [], Idle, {}, {}, [], []) }

  // ---------------------------------------------------------------- what the actions mean

  /** The live producers and consumers after some actions, oldest first. */
  datatype View = View(bornP: nat, producers: seq<nat>, bornC: nat, consumers: seq<nat>)

  function After<E>(v: View, a: Action<E>): View {
    match a
    case InitProducer(p) => v.(bornP := v.bornP + 1, producers := v.producers + [p])
    case DestroyProducer(p) => v.(producers := Erase(v.producers, p))
    case Publish(_, _) => v
    case InitConsumer(c) => v.(bornC := v.bornC + 1, consumers := v.consumers + [c])
    case DestroyConsumer(c) => v.(consumers := Erase(v.consumers, c))
  }

  function ViewOf<E>(log: seq<Action<E>>): View {
    if log == [] then View(0, [], 0, []) else After(ViewOf(log[..|log| - 1]), log[|log| - 1])
  }

  /** The action is one that a disciplined client can cause. */
  predicate Proper<E>(v: View, a: Action<E>) {
    match a
    case InitProducer(p) => p == v.bornP
    case DestroyProducer(p) => p in v.producers
    case Publish(p, _) => p in v.producers
    case InitConsumer(c) => c == v.bornC
    case DestroyConsumer(c) => c in v.consumers
  }

  predicate ProperLog<E>(log: seq<Action<E>>) {
    log == [] || (ProperLog(log[..|log| - 1]) && Proper(ViewOf(log[..|log| - 1]), log[|log| - 1]))
  }

  /** What consumer c is to be told about the stream of p by action a, if filter and topic match. */
  function Due<E>(v: View, a: Action<E>, c: nat, p: nat): seq<Kind<E>> {
    match a
    case InitProducer(q) => if q == p && c in v.consumers then [START] else []
    case DestroyProducer(q) => if q == p && c in v.consumers then [STOP] else []
    case Publish(q, e) => if q == p && c in v.consumers then [EVENT(e)] else []
    case InitConsumer(d) => if d == c && p in v.producers then [START] else []
    case DestroyConsumer(_) => []
  }

  function Expected<E>(log: seq<Action<E>>, c: nat, p: nat): seq<Kind<E>> {
    if log == [] then []
    else Expected(log[..|log| - 1], c, p) + Due(ViewOf(log[..|log| - 1]), log[|log| - 1], c, p)
  }

  /** What consumer c has been told about the stream of p. */
  function Seen<E>(trace: seq<Note<E>>, c: nat, p: nat): seq<Kind<E>> {
    if trace == [] then []
    else
      var n, seen := trace[|trace| - 1], Seen(trace[..|trace| - 1], c, p);
      if n.c == c && n.p == p then seen + [n.kind] else seen
  }

  /** The consumers in cs that match the topic of p, in their order. */
  function Routed<E>(s: State<E>, cs: seq<nat>, p: nat): seq<nat> {
    if cs == [] then []
    else
      var r := Routed(s, cs[..|cs| - 1], p);
      if Match(s, cs[|cs| - 1], p) then r + [cs[|cs| - 1]] else r
  }

  // ---------------------------------------------------------------- lists

  predicate Distinct(cs: seq<nat>) { forall i, j :: 0 <= i < j < |cs| ==> cs[i] != cs[j] }

  lemma {:induction false} EraseAppend(a: seq<nat>, x: nat, c: nat)
    ensures Erase(a + [x], c) == if c in a then Erase(a, c) + [x] else if x == c then a else a + [x]
  {
    if a == [] {
      assert a + [x] == [x];
      assert Erase([x], c) == if x == c then [] else [x] + Erase([], c);
    } else {
      assert (a + [x])[1..] == a[1..] + [x];
      EraseAppend(a[1..], x, c);
      assert a == [a[0]] + a[1..];
    }
  }

  lemma {:induction false} EraseMembers(cs: seq<nat>, c: nat)
    requires Distinct(cs)
    ensures Distinct(Erase(cs, c)) && forall x :: x in Erase(cs, c) <==> x in cs && x != c
  {
    if cs != [] {
      assert forall x :: x in cs <==> x == cs[0] || x in cs[1..];
      EraseMembers(cs[1..], c);
      if cs[0] == c {
        assert c !in cs[1..];
      } else {
        var r := Erase(cs[1..], c);
        forall i, j | 0 <= i < j < |[cs[0]] + r| ensures ([cs[0]] + r)[i] != ([cs[0]] + r)[j] {
          if i == 0 { assert r[j - 1] in r; }
        }
      }
    }
  }

  /** The position of an element, and the list without it. */
  lemma {:induction false} EraseAt(cs: seq<nat>, i: nat)
    requires Distinct(cs) && i < |cs|
    ensures Erase(cs, cs[i]) == cs[..i] + cs[i + 1..]
  {
    if i > 0 {
      EraseAt(cs[1..], i - 1);
      assert cs[1..][..i - 1] == cs[1..i] && cs[1..][i..] == cs[i + 1..];
      assert cs[..i] == [cs[0]] + cs[1..i];
    }
  }

  lemma {:induction false} RoutedMembers<E>(s: State<E>, cs: seq<nat>, p: nat)
    ensures forall c :: c in Routed(s, cs, p) <==> c in cs && Match(s, c, p)
    ensures Distinct(cs) ==> Distinct(Routed(s, cs, p))
  {
    if cs != [] {
      var n := |cs| - 1;
      RoutedMembers(s, cs[..n], p);
      assert cs == cs[..n] + [cs[n]];
    }
  }

  lemma RoutedAppend<E>(s: State<E>, cs: seq<nat>, c: nat, p: nat)
    ensures Routed(s, cs + [c], p) == if Match(s, c, p) then Routed(s, cs, p) + [c] else Routed(s, cs, p)
  {
    assert (cs + [c])[..|cs|] == cs;
  }

  /** Removing a consumer from the cached list is the same as routing without it. */
  lemma {:induction false} RoutedErase<E>(s: State<E>, cs: seq<nat>, c: nat, p: nat)
    ensures Routed(s, Erase(cs, c), p) == Erase(Routed(s, cs, p), c)
  {
    if cs != [] {
      var n := |cs| - 1;
      assert cs == cs[..n] + [cs[n]];
      RoutedErase(s, cs[..n], c, p);
      if c in cs[..n] { EraseEarly(s, cs[..n], cs[n], c, p); } else { EraseLate(s, cs[..n], cs[n], c, p); }
    }
  }

  lemma EraseEarly<E>(s: State<E>, a: seq<nat>, x: nat, c: nat, p: nat)
    requires c in a && Routed(s, Erase(a, c), p) == Erase(Routed(s, a, p), c)
    ensures Routed(s, Erase(a + [x], c), p) == Erase(Routed(s, a + [x], p), c)
  {
    EraseAppend(a, x, c);
    RoutedAppend(s, Erase(a, c), x, p);
    RoutedAppend(s, a, x, p);
    EraseAppend(Routed(s, a, p), x, c);
    RoutedMembers(s, a, p);
    EraseAbsent(Routed(s, a, p), c);
  }

  lemma EraseLate<E>(s: State<E>, a: seq<nat>, x: nat, c: nat, p: nat)
    requires c !in a
    ensures Routed(s, Erase(a + [x], c), p) == Erase(Routed(s, a + [x], p), c)
  {
    EraseAppend(a, x, c);
    RoutedAppend(s, a, x, p);
    EraseAppend(Routed(s, a, p), x, c);
    RoutedMembers(s, a, p);
    EraseAbsent(Routed(s, a, p), c);
  }

  lemma {:induction false} EraseAbsent(cs: seq<nat>, c: nat)
    ensures c !in cs ==> Erase(cs, c) == cs
  {
    if cs != [] {
      EraseAbsent(cs[1..], c);
      assert cs == [cs[0]] + cs[1..];
    }
  }

  lemma {:induction false} RoutedFrame<E>(s: State<E>, s': State<E>, cs: seq<nat>, p: nat)
    requires forall c :: c in cs ==> (Match(s, c, p) <==> Match(s', c, p))
    ensures Routed(s, cs, p) == Routed(s', cs, p)
  {
    if cs != [] { RoutedFrame(s, s', cs[..|cs| - 1], p); }
  }

  // ---------------------------------------------------------------- logs

  lemma {:induction false} ProperPrefix<E>(a: seq<Action<E>>, b: seq<Action<E>>)
    requires ProperLog(a + b)
    ensures ProperLog(a)
  {
    if b == [] {
      assert a + b == a;
    } else {
      assert (a + b)[..|a + b| - 1] == a + b[..|b| - 1];
      ProperPrefix(a, b[..|b| - 1]);
    }
  }

  lemma LogAppend<E>(log: seq<Action<E>>, a: Action<E>, c: nat, p: nat)
    ensures ViewOf(log + [a]) == After(ViewOf(log), a)
    ensures ProperLog(log + [a]) <==> ProperLog(log) && Proper(ViewOf(log), a)
    ensures Expected(log + [a], c, p) == Expected(log, c, p) + Due(ViewOf(log), a, c, p)
    ensures Due(ViewOf(log), a, c, p) == [] ==> Expected(log + [a], c, p) == Expected(log, c, p)
  {
    assert (log + [a])[..|log|] == log;
  }

  /** The next action of a proper log is proper where it is taken. */
  lemma NextProper<E>(log: seq<Action<E>>, rest: seq<Action<E>>)
    requires rest != [] && ProperLog(log + rest)
    ensures ProperLog(log) && ProperLog(log + [rest[0]]) && Proper(ViewOf(log), rest[0])
  {
    SplitFirst(log, rest);
    ProperPrefix(log + [rest[0]], rest[1..]);
    LogAppend(log, rest[0], 0, 0);
  }

  lemma SplitFirst<E>(log: seq<Action<E>>, rest: seq<Action<E>>)
    requires rest != []
    ensures log + [rest[0]] + rest[1..] == log + rest
  {
  }

  ghost predicate Sane(v: View) {
    && Distinct(v.producers) && Distinct(v.consumers)
    && (forall p :: p in v.producers ==> p < v.bornP)
    && (forall c :: c in v.consumers ==> c < v.bornC)
  }

  lemma AfterSane<E>(v: View, a: Action<E>)
    requires Sane(v) && Proper(v, a)
    ensures Sane(After(v, a))
  {
    match a
    case InitProducer(p) => assert p !in v.producers;
    case DestroyProducer(p) => EraseMembers(v.producers, p);
    case Publish(_, _) =>
    case InitConsumer(c) => assert c !in v.consumers;
    case DestroyConsumer(c) => EraseMembers(v.consumers, c);
  }

  lemma {:induction false} ViewSane<E>(log: seq<Action<E>>)
    requires ProperLog(log)
    ensures Sane(ViewOf(log))
  {
    if log != [] {
      ViewSane(log[..|log| - 1]);
      AfterSane(ViewOf(log[..|log| - 1]), log[|log| - 1]);
    }
  }

  /** Nothing is expected before both handles were initialised. */
  lemma {:induction false} ExpectedUnborn<E>(log: seq<Action<E>>, c: nat, p: nat)
    requires ProperLog(log) && (c >= ViewOf(log).bornC || p >= ViewOf(log).bornP)
    ensures Expected(log, c, p) == []
  {
    if log != [] {
      var init := log[..|log| - 1];
      ViewSane(init);
      ExpectedUnborn(init, c, p);
    }
  }

  // ---------------------------------------------------------------- the invariant

  /** The queue is in order: taking all pending actions leaves exactly the open handles. */
  ghost predicate QueueOk<E>(s: State<E>) {
    var log := s.done + s.pending;
    && ProperLog(log) && ViewOf(log).bornP == |s.topics| && ViewOf(log).bornC == |s.filters|
    && (forall p :: p in s.openP <==> p in ViewOf(log).producers)
    && (forall c :: c in s.openC <==> c in ViewOf(log).consumers)
  }

  /** The broker's lists are those of the actions taken. */
  ghost predicate ListsOk<E>(s: State<E>) {
    var v := ViewOf(s.done);
    && s.consumers == v.consumers
    && |s.producers| == |v.producers| && (forall i :: 0 <= i < |v.producers| ==> s.producers[i].id == v.producers[i])
  }

  /** The consumers that producer number i has been offered. */
  function Offered<E>(s: State<E>, i: nat): seq<nat> {
    match s.job
    case Adding(k) => if i + 1 == |s.producers| && k <= |s.consumers| then s.consumers[..k] else s.consumers
    case Joining(k) =>
      if i >= k && s.consumers != [] then s.consumers[..|s.consumers| - 1] else s.consumers
    case _ => s.consumers
  }

  ghost predicate CacheAt<E>(s: State<E>, i: nat)
    requires i < |s.producers|
  {
    s.producers[i].consumers == Routed(s, Offered(s, i), s.producers[i].id)
  }

  /** The loop in progress belongs to the last action taken. */
  ghost predicate JobOk<E>(s: State<E>) {
    match s.job
    case Idle => true
    case Adding(k) =>
      && s.producers != [] && k <= |s.consumers|
      && s.done != [] && s.done[|s.done| - 1] == InitProducer(s.producers[|s.producers| - 1].id)
    case Joining(k) =>
      && s.consumers != [] && k <= |s.producers|
      && s.done != [] && s.done[|s.done| - 1] == InitConsumer(s.consumers[|s.consumers| - 1])
    case Sending(p, kind, todo) =>
      && Distinct(todo) && (forall c :: c in todo ==> c in s.consumers && Match(s, c, p))
      && s.done != [] && match s.done[|s.done| - 1]
                         case Publish(q, e) => q == p && kind == EVENT(e)
                         case DestroyProducer(q) => q == p && kind == STOP
                         case _ => false
  }

  /** The last action taken has still to be told to c about p. */
  predicate Waiting<E>(s: State<E>, c: nat, p: nat) {
    match s.job
    case Idle => false
    case Adding(k) =>
      s.producers != [] && p == s.producers[|s.producers| - 1].id && k <= |s.consumers| && c in s.consumers[k..]
    case Joining(k) =>
      s.consumers != [] && c == s.consumers[|s.consumers| - 1] && exists i :: k <= i < |s.producers| && s.producers[i].id == p
    case Sending(q, _, todo) => p == q && c in todo
  }

  /** What c must have been told about p so far, if it has not been muted. */
  function Told<E>(s: State<E>, c: nat, p: nat): seq<Kind<E>> {
    if !Match(s, c, p) then []
    else Expected(if s.done != [] && Waiting(s, c, p) then s.done[..|s.done| - 1] else s.done, c, p)
  }

  ghost predicate TraceAt<E>(s: State<E>, c: nat, p: nat) {
    && (c in s.openC ==> Seen(s.trace, c, p) == Told(s, c, p))
    && Seen(s.trace, c, p) <= if Match(s, c, p) then Expected(s.done, c, p) else []
  }

  ghost predicate Inv<E>(s: State<E>) {
    && QueueOk(s) && ListsOk(s) && JobOk(s)
    && (forall i :: 0 <= i < |s.producers| ==> CacheAt(s, i))
    && (forall c: nat, p: nat :: TraceAt(s, c, p))
  }

  // ---------------------------------------------------------------- calls keep the invariant

  lemma {:induction false} BornGrows<E>(a: seq<Action<E>>, b: seq<Action<E>>)
    ensures ViewOf(a).bornP <= ViewOf(a + b).bornP && ViewOf(a).bornC <= ViewOf(a + b).bornC
  {
    if b == [] {
      assert a + b == a;
    } else {
      BornGrows(a, b[..|b| - 1]);
      assert (a + b)[..|a + b| - 1] == a + b[..|b| - 1];
    }
  }

  /** Live handles have been made. */
  lemma Bounds<E>(s: State<E>)
    requires QueueOk(s) && ListsOk(s)
    ensures ProperLog(s.done) && ViewOf(s.done).bornP <= |s.topics| && ViewOf(s.done).bornC <= |s.filters|
    ensures Distinct(s.consumers) && (forall c :: c in s.consumers ==> c < |s.filters|)
    ensures forall i :: 0 <= i < |s.producers| ==> s.producers[i].id < |s.topics|
    ensures forall i, j :: 0 <= i < j < |s.producers| ==> s.producers[i].id != s.producers[j].id
  {
    ProperPrefix(s.done, s.pending);
    BornGrows(s.done, s.pending);
    ViewSane(s.done);
    var v := ViewOf(s.done);
    forall i | 0 <= i < |s.producers| ensures s.producers[i].id < |s.topics| { assert v.producers[i] in v.producers; }
  }

  /** A call leaves the work in progress alone. */
  ghost predicate Calls<E>(s: State<E>, s': State<E>) {
    && s'.producers == s.producers && s'.consumers == s.consumers && s'.job == s.job
    && s'.done == s.done && s'.trace == s.trace && s.topics <= s'.topics && s.filters <= s'.filters
    && (forall c :: c in s'.openC ==> c in s.openC || c >= |s.filters|)
  }

  lemma CallQueue<E>(s: State<E>, a: Action<E>)
    requires QueueOk(s)
    ensures var log := s.done + (s.pending + [a]);
            && (Proper(ViewOf(s.done + s.pending), a) ==> ProperLog(log))
            && ViewOf(log) == After(ViewOf(s.done + s.pending), a)
            && Sane(ViewOf(s.done + s.pending))
  {
    assert s.done + (s.pending + [a]) == s.done + s.pending + [a];
    LogAppend(s.done + s.pending, a, 0, 0);
    ViewSane(s.done + s.pending);
  }

  lemma CallKeepsQueue<E>(s: State<E>, call: Call<E>)
    requires QueueOk(s)
    ensures QueueOk(CallStep(s, call))
  {
    var v := ViewOf(s.done + s.pending);
    match call
    case MakeProducer(_) => CallQueue(s, InitProducer(|s.topics|));
    case PublishCall(p, e) => CallQueue(s, Publish(p, e));
    case DestroyProducerCall(p) =>
      CallQueue(s, DestroyProducer(p));
      EraseMembers(v.producers, p);
    case MakeConsumer(_) => CallQueue(s, InitConsumer(|s.filters|));
    case DestroyConsumerCall(c) =>
      CallQueue(s, DestroyConsumer(c));
      EraseMembers(v.consumers, c);
  }

  lemma CallKeepsTrace<E>(s: State<E>, s': State<E>, c: nat, p: nat)
    requires Inv(s) && Calls(s, s')
    ensures TraceAt(s', c, p)
  {
    assert TraceAt(s, c, p);
    if c >= |s.filters| || p >= |s.topics| { NotMade(s, c, p); NotMadeTrace(s, s', c, p); }
  }

  lemma NotMadeTrace<E>(s: State<E>, s': State<E>, c: nat, p: nat)
    requires TraceAt(s, c, p) && !Match(s, c, p) && s'.done == s.done && s'.trace == s.trace
    requires Expected(s.done, c, p) == [] && (s.done != [] ==> Expected(s.done[..|s.done| - 1], c, p) == [])
    ensures TraceAt(s', c, p)
  {
  }

  lemma NotMade<E>(s: State<E>, c: nat, p: nat)
    requires QueueOk(s) && ListsOk(s) && (c >= |s.filters| || p >= |s.topics|)
    ensures Expected(s.done, c, p) == [] && (s.done != [] ==> Expected(s.done[..|s.done| - 1], c, p) == [])
  {
    Bounds(s);
    ExpectedUnborn(s.done, c, p);
  }

  lemma CallKeepsCache<E>(s: State<E>, s': State<E>, i: nat)
    requires Inv(s) && Calls(s, s') && i < |s.producers|
    ensures CacheAt(s', i)
  {
    assert CacheAt(s, i);
    Bounds(s);
    assert forall c :: c in Offered(s, i) ==> c in s.consumers;
    RoutedFrame(s, s', Offered(s, i), s.producers[i].id);
  }

  lemma CallKeepsJob<E>(s: State<E>, s': State<E>)
    requires ListsOk(s) && JobOk(s) && Calls(s, s')
    ensures ListsOk(s') && JobOk(s')
  {
    if s.job.Sending? {
      forall c | c in s.job.todo ensures Match(s', c, s.job.p) { assert Match(s, c, s.job.p); }
    }
  }

  lemma CallKeeps<E>(s: State<E>, call: Call<E>)
    requires Inv(s)
    ensures Inv(CallStep(s, call))
  {
    var s' := CallStep(s, call);
    CallKeepsQueue(s, call);
    CallKeepsJob(s, s');
    forall i | 0 <= i < |s.producers| ensures CacheAt(s', i) { CallKeepsCache(s, s', i); }
    forall c: nat, p: nat ensures TraceAt(s', c, p) { CallKeepsTrace(s, s', c, p); }
  }

  // ---------------------------------------------------------------- what work does to the trace

  ghost predicate SameClients<E>(s: State<E>, s': State<E>) {
    s'.topics == s.topics && s'.filters == s.filters && s'.openC == s.openC && s'.openP == s.openP
  }

  /** Taking action a: whoever it concerns is waiting for its notification. */
  lemma TakeTrace<E>(s: State<E>, s': State<E>, a: Action<E>, c: nat, p: nat)
    requires s.job.Idle? && TraceAt(s, c, p) && SameClients(s, s') && s'.trace == s.trace && s'.done == s.done + [a]
    requires Match(s, c, p) && Due(ViewOf(s.done), a, c, p) != [] ==> Waiting(s', c, p)
    ensures TraceAt(s', c, p)
  {
    LogAppend(s.done, a, c, p);
    assert s'.done[..|s'.done| - 1] == s.done;
  }

  /** No notification, and nobody ceases to wait. */
  lemma SkipTrace<E>(s: State<E>, s': State<E>, c: nat, p: nat)
    requires TraceAt(s, c, p) && SameClients(s, s') && s'.trace == s.trace && s'.done == s.done
    requires Match(s, c, p) ==> (Waiting(s, c, p) <==> Waiting(s', c, p))
    ensures TraceAt(s', c, p)
  {
  }

  /** One notification, for which c0 was waiting. */
  lemma TellTrace<E>(s: State<E>, s': State<E>, c0: nat, p0: nat, kind: Kind<E>, c: nat, p: nat)
    requires TraceAt(s, c, p) && SameClients(s, s') && s'.done == s.done && s.done != []
    requires s'.trace == if c0 in s.openC then s.trace + [Note(c0, p0, kind)] else s.trace
    requires var n := |s.done| - 1; Due(ViewOf(s.done[..n]), s.done[n], c0, p0) == [kind]
    requires Match(s, c0, p0) && Waiting(s, c0, p0) && !Waiting(s', c0, p0)
    requires Match(s, c, p) && (c != c0 || p != p0) ==> (Waiting(s, c, p) <==> Waiting(s', c, p))
    ensures TraceAt(s', c, p)
  {
    if c0 in s.openC { SeenAppend(s.trace, Note(c0, p0, kind), c, p); }
    ExpectedLast(s.done, c, p);
  }

  lemma SeenAppend<E>(trace: seq<Note<E>>, n: Note<E>, c: nat, p: nat)
    ensures Seen(trace + [n], c, p) ==
            if n.c == c && n.p == p then Seen(trace, c, p) + [n.kind] else Seen(trace, c, p)
  {
    assert (trace + [n])[..|trace|] == trace;
  }

  lemma ExpectedLast<E>(log: seq<Action<E>>, c: nat, p: nat)
    requires log != []
    ensures var n := |log| - 1;
            && Expected(log, c, p) == Expected(log[..n], c, p) + Due(ViewOf(log[..n]), log[n], c, p)
            && Expected(log[..n], c, p) <= Expected(log, c, p)
  {
  }

  // ---------------------------------------------------------------- taking an action

  /** The queue after its first action was taken. */
  function Popped<E>(s: State<E>): State<E>
    requires s.pending != []
  {
    s.(pending := s.pending[1..], done := s.done + [s.pending[0]])
  }

  ghost predicate Takes<E>(s: State<E>, a: Action<E>) {
    Inv(s) && s.job.Idle? && s.pending != [] && s.pending[0] == a
  }

  lemma TakeFacts<E>(s: State<E>, a: Action<E>)
    requires Takes(s, a)
    ensures Proper(ViewOf(s.done), a) && ViewOf(s.done + [a]) == After(ViewOf(s.done), a) && Sane(ViewOf(s.done))
    ensures QueueOk(Popped(s))
  {
    NextProper(s.done, s.pending);
    LogAppend(s.done, a, 0, 0);
    ViewSane(s.done);
    SplitFirst(s.done, s.pending);
  }

  /** The parts of the invariant that each action has to restore. */
  lemma TakeKeeps<E>(s: State<E>, s': State<E>, a: Action<E>)
    requires Takes(s, a) && s' == Take(Popped(s), a) && SameClients(s, s')
    requires s'.trace == s.trace && s'.done == s.done + [a] && s'.pending == s.pending[1..]
    requires ListsOk(s') && JobOk(s') && (forall i :: 0 <= i < |s'.producers| ==> CacheAt(s', i))
    requires forall c: nat, p: nat :: Match(s, c, p) && Due(ViewOf(s.done), a, c, p) != [] ==> Waiting(s', c, p)
    ensures Inv(s')
  {
    TakeFacts(s, a);
    forall c: nat, p: nat ensures TraceAt(s', c, p) {
      assert TraceAt(s, c, p);
      TakeTrace(s, s', a, c, p);
    }
  }

  lemma SameRouted<E>(s: State<E>, s': State<E>, cs: seq<nat>, p: nat)
    requires s'.topics == s.topics && s'.filters == s.filters
    ensures Routed(s', cs, p) == Routed(s, cs, p)
  {
    RoutedFrame(s, s', cs, p);
  }

  lemma InitProducerKeeps<E>(s: State<E>, p: nat)
    requires Takes(s, InitProducer(p))
    ensures Inv(Take(Popped(s), InitProducer(p)))
  {
    var s' := Take(Popped(s), InitProducer(p));
    TakeFacts(s, InitProducer(p));
    forall i | 0 <= i < |s'.producers| ensures CacheAt(s', i) {
      if i < |s.producers| {
        assert CacheAt(s, i);
        SameRouted(s, s', s.consumers, s.producers[i].id);
      }
    }
    assert s.consumers[0..] == s.consumers;
    TakeKeeps(s, s', InitProducer(p));
  }

  /** The assertion of DestroyProducer, and what Publish relies on: the producer is there, and its list
      is the matching consumers. */
  lemma FindsProducer<E>(s: State<E>, p: nat)
    requires Inv(s) && s.job.Idle? && p in ViewOf(s.done).producers
    ensures var i := Find(s.producers, p);
            && i < |s.producers| && s.producers[i].consumers == Routed(s, s.consumers, p)
            && Distinct(s.producers[i].consumers)
            && (forall c :: c in s.producers[i].consumers <==> c in s.consumers && Match(s, c, p))
  {
    var j :| 0 <= j < |ViewOf(s.done).producers| && ViewOf(s.done).producers[j] == p;
    assert s.producers[j].id == p;
    var i := Find(s.producers, p);
    assert CacheAt(s, i);
    Bounds(s);
    RoutedMembers(s, s.consumers, p);
  }

  lemma PublishKeeps<E>(s: State<E>, p: nat, e: E)
    requires Takes(s, Publish(p, e))
    ensures Inv(Take(Popped(s), Publish(p, e)))
  {
    var s' := Take(Popped(s), Publish(p, e));
    TakeFacts(s, Publish(p, e));
    FindsProducer(s, p);
    forall i | 0 <= i < |s'.producers| ensures CacheAt(s', i) {
      assert CacheAt(s, i);
      SameRouted(s, s', s.consumers, s.producers[i].id);
    }
    TakeKeeps(s, s', Publish(p, e));
  }

  lemma DestroyProducerLists<E>(s: State<E>, p: nat)
    requires Takes(s, DestroyProducer(p))
    ensures ListsOk(Take(Popped(s), DestroyProducer(p)))
  {
    TakeFacts(s, DestroyProducer(p));
    FindsProducer(s, p);
    EraseAt(ViewOf(s.done).producers, Find(s.producers, p));
  }

  lemma DestroyProducerCache<E>(s: State<E>, p: nat, i: nat)
    requires s.pending != [] && s.job.Idle? && Find(s.producers, p) < |s.producers| && i + 1 < |s.producers|
    requires forall i :: 0 <= i < |s.producers| ==> CacheAt(s, i)
    ensures var s' := Take(Popped(s), DestroyProducer(p)); i < |s'.producers| && CacheAt(s', i)
  {
    var s' := Take(Popped(s), DestroyProducer(p));
    var j := if i < Find(s.producers, p) then i else i + 1;
    assert CacheAt(s, j);
    SameRouted(s, s', s.consumers, s.producers[j].id);
  }

  lemma DestroyProducerKeeps<E>(s: State<E>, p: nat)
    requires Takes(s, DestroyProducer(p))
    ensures Inv(Take(Popped(s), DestroyProducer(p)))
  {
    var s' := Take(Popped(s), DestroyProducer(p));
    TakeFacts(s, DestroyProducer(p));
    FindsProducer(s, p);
    DestroyProducerLists(s, p);
    forall i | 0 <= i < |s'.producers| ensures CacheAt(s', i) { DestroyProducerCache(s, p, i); }
    TakeKeeps(s, s', DestroyProducer(p));
  }

  lemma InitConsumerKeeps<E>(s: State<E>, c: nat)
    requires Takes(s, InitConsumer(c))
    ensures Inv(Take(Popped(s), InitConsumer(c)))
  {
    var s' := Take(Popped(s), InitConsumer(c));
    TakeFacts(s, InitConsumer(c));
    assert s'.consumers[..|s'.consumers| - 1] == s.consumers;
    forall i | 0 <= i < |s'.producers| ensures CacheAt(s', i) {
      assert CacheAt(s, i);
      SameRouted(s, s', s.consumers, s.producers[i].id);
    }
    forall d: nat, p: nat | Match(s, d, p) && Due(ViewOf(s.done), Action<E>.InitConsumer(c), d, p) != [] ensures Waiting(s', d, p) {
      var i :| 0 <= i < |ViewOf(s.done).producers| && ViewOf(s.done).producers[i] == p;
      assert s'.producers[i].id == p;
    }
    TakeKeeps(s, s', InitConsumer(c));
  }

  lemma DestroyConsumerKeeps<E>(s: State<E>, c: nat)
    requires Takes(s, DestroyConsumer(c))
    ensures Inv(Take(Popped(s), DestroyConsumer(c)))
  {
    var s' := Take(Popped(s), DestroyConsumer(c));
    TakeFacts(s, DestroyConsumer(c));
    forall i | 0 <= i < |s'.producers| ensures CacheAt(s', i) {
      assert CacheAt(s, i);
      RoutedErase(s, s.consumers, c, s.producers[i].id);
      SameRouted(s, s', s'.consumers, s.producers[i].id);
    }
    TakeKeeps(s, s', DestroyConsumer(c));
  }

  // ---------------------------------------------------------------- turns of the loops

  /** The lists before the last action, as far as it concerns its notifications. */
  lemma LastAction<E>(s: State<E>)
    requires QueueOk(s) && ListsOk(s) && s.done != []
    ensures var n := |s.done| - 1; ViewOf(s.done) == After(ViewOf(s.done[..n]), s.done[n])
  {
  }

  /** Only c0 stops waiting, for news of p0. */
  ghost predicate Served<E>(s: State<E>, s': State<E>, c0: nat, p0: nat) {
    && Waiting(s, c0, p0) && !Waiting(s', c0, p0)
    && (forall c: nat, p: nat :: c != c0 || p != p0 ==> (Waiting(s, c, p) <==> Waiting(s', c, p)))
  }

  lemma ServedTrace<E>(s: State<E>, s': State<E>, c0: nat, p0: nat, kind: Kind<E>)
    requires Inv(s) && SameClients(s, s') && s'.done == s.done && s.done != [] && Served(s, s', c0, p0)
    requires s'.trace == if Match(s, c0, p0) && c0 in s.openC then s.trace + [Note(c0, p0, kind)] else s.trace
    requires Match(s, c0, p0) ==> var n := |s.done| - 1; Due(ViewOf(s.done[..n]), s.done[n], c0, p0) == [kind]
    ensures forall c: nat, p: nat :: TraceAt(s', c, p)
  {
    forall c: nat, p: nat ensures TraceAt(s', c, p) {
      assert TraceAt(s, c, p);
      if Match(s, c0, p0) { TellTrace(s, s', c0, p0, kind, c, p); } else { SkipTrace(s, s', c, p); }
    }
  }

  lemma FinishKeeps<E>(s: State<E>)
    requires Inv(s) && (s.job.Adding? ==> s.job.k == |s.consumers|) && (s.job.Joining? ==> s.job.k == |s.producers|)
    requires s.job.Sending? ==> s.job.todo == []
    ensures Inv(s.(job := Idle))
  {
    var s' := s.(job := Idle);
    assert s.consumers[..|s.consumers|] == s.consumers;
    forall i | 0 <= i < |s'.producers| ensures CacheAt(s', i) {
      assert CacheAt(s, i);
      SameRouted(s, s', s.consumers, s.producers[i].id);
    }
    forall c: nat, p: nat ensures TraceAt(s', c, p) {
      assert TraceAt(s, c, p);
      SkipTrace(s, s', c, p);
    }
  }

  lemma AddingServes<E>(s: State<E>, k: nat)
    requires Inv(s) && s.job == Adding(k) && k < |s.consumers|
    ensures Served(s, WorkStep(s), s.consumers[k], s.producers[|s.producers| - 1].id)
  {
    Bounds(s);
    AddingServed(s, k);
  }

  lemma AddingServed<E>(s: State<E>, k: nat)
    requires s.job == Adding(k) && k < |s.consumers| && s.producers != [] && Distinct(s.consumers)
    ensures Served(s, WorkStep(s), s.consumers[k], s.producers[|s.producers| - 1].id)
  {
    assert s.consumers[k..] == [s.consumers[k]] + s.consumers[k + 1..];
    assert |WorkStep(s).producers| == |s.producers|;
    assert WorkStep(s).producers[|s.producers| - 1].id == s.producers[|s.producers| - 1].id;
  }

  /** Offering consumer c to producer number j. */
  lemma AddedTo<E>(s: State<E>, j: nat, c: nat, i: nat, cs: seq<nat>)
    requires j < |s.producers| && i < |s.producers| && s.producers[i].consumers == Routed(s, cs, s.producers[i].id)
    ensures var s' := MaybeAdd(s, j, c);
            && |s'.producers| == |s.producers| && s'.producers[i].id == s.producers[i].id
            && s'.producers[i].consumers == Routed(s', if i == j then cs + [c] else cs, s.producers[i].id)
  {
    if i == j { AddedSelf(s, j, c, cs); } else { AddedElse(s, j, c, i, cs); }
  }

  lemma AddedSelf<E>(s: State<E>, j: nat, c: nat, cs: seq<nat>)
    requires j < |s.producers| && s.producers[j].consumers == Routed(s, cs, s.producers[j].id)
    ensures var s' := MaybeAdd(s, j, c);
            && |s'.producers| == |s.producers| && s'.producers[j].id == s.producers[j].id
            && s'.producers[j].consumers == Routed(s', cs + [c], s.producers[j].id)
  {
    RoutedAppend(s, cs, c, s.producers[j].id);
    SameRouted(s, MaybeAdd(s, j, c), cs + [c], s.producers[j].id);
  }

  lemma AddedElse<E>(s: State<E>, j: nat, c: nat, i: nat, cs: seq<nat>)
    requires j < |s.producers| && i < |s.producers| && i != j
    requires s.producers[i].consumers == Routed(s, cs, s.producers[i].id)
    ensures var s' := MaybeAdd(s, j, c);
            && |s'.producers| == |s.producers| && s'.producers[i] == s.producers[i]
            && s'.producers[i].consumers == Routed(s', cs, s.producers[i].id)
  {
    SameRouted(s, MaybeAdd(s, j, c), cs, s.producers[i].id);
  }

  lemma CacheFrom<E>(s: State<E>, i: nat, cs: seq<nat>)
    requires i < |s.producers| && Offered(s, i) == cs
    requires s.producers[i].consumers == Routed(s, cs, s.producers[i].id)
    ensures CacheAt(s, i)
  {
  }

  /** One turn of the loop: the job moves on, then the consumer is offered to the producer. */
  lemma AddingStep<E>(s: State<E>, k: nat)
    requires s.job == Adding(k) && k < |s.consumers| && s.producers != []
    ensures WorkStep(s) == MaybeAdd(s.(job := Adding(k + 1)), |s.producers| - 1, s.consumers[k])
  {
  }

  lemma AddingCache<E>(s: State<E>, k: nat, i: nat)
    requires s.job == Adding(k) && k < |s.consumers| && i < |s.producers| && CacheAt(s, i)
    ensures var s' := MaybeAdd(s.(job := Adding(k + 1)), |s.producers| - 1, s.consumers[k]);
            i < |s'.producers| && CacheAt(s', i)
  {
    var s1 := s.(job := Adding(k + 1));
    var last := |s.producers| - 1;
    SameRouted(s, s1, Offered(s, i), s.producers[i].id);
    AddedTo(s1, last, s.consumers[k], i, Offered(s, i));
    AddingOffers(s, k, i);
    CacheFrom(MaybeAdd(s1, last, s.consumers[k]), i, if i == last then Offered(s, i) + [s.consumers[k]] else Offered(s, i));
  }

  lemma AddingOffers<E>(s: State<E>, k: nat, i: nat)
    requires s.job == Adding(k) && k < |s.consumers| && i < |s.producers|
    ensures Offered(MaybeAdd(s.(job := Adding(k + 1)), |s.producers| - 1, s.consumers[k]), i)
         == if i + 1 == |s.producers| then Offered(s, i) + [s.consumers[k]] else Offered(s, i)
  {
    assert s.consumers[..k + 1] == s.consumers[..k] + [s.consumers[k]];
  }

  lemma AddingCaches<E>(s: State<E>, k: nat)
    requires s.job == Adding(k) && k < |s.consumers| && s.producers != []
    requires forall i :: 0 <= i < |s.producers| ==> CacheAt(s, i)
    ensures |WorkStep(s).producers| == |s.producers| && forall i :: 0 <= i < |s.producers| ==> CacheAt(WorkStep(s), i)
  {
    AddingStep(s, k);
    forall i | 0 <= i < |s.producers| ensures CacheAt(WorkStep(s), i) { AddingCache(s, k, i); }
  }

  lemma AddingKeeps<E>(s: State<E>, k: nat)
    requires Inv(s) && s.job == Adding(k) && k < |s.consumers|
    ensures Inv(WorkStep(s))
  {
    AddingCaches(s, k);
    AddingLists(s, k);
    AddingTrace(s, k);
  }

  /** A turn of a loop moves neither actions nor handles. */
  lemma QueueFrame<E>(s: State<E>, s': State<E>)
    requires QueueOk(s) && s'.done == s.done && s'.pending == s.pending && SameClients(s, s')
    ensures QueueOk(s')
  {
  }

  lemma MaybeAddFrame<E>(s: State<E>, i: nat, c: nat)
    requires i < |s.producers|
    ensures var s' := MaybeAdd(s, i, c);
            && s'.done == s.done && s'.pending == s.pending && SameClients(s, s') && s'.job == s.job
            && s'.consumers == s.consumers && |s'.producers| == |s.producers|
            && forall j :: 0 <= j < |s.producers| ==> s'.producers[j].id == s.producers[j].id
  {
  }

  lemma AddingLists<E>(s: State<E>, k: nat)
    requires QueueOk(s) && ListsOk(s) && JobOk(s) && s.job == Adding(k) && k < |s.consumers|
    ensures QueueOk(WorkStep(s)) && ListsOk(WorkStep(s)) && JobOk(WorkStep(s))
  {
    AddingStep(s, k);
    MaybeAddFrame(s.(job := Adding(k + 1)), |s.producers| - 1, s.consumers[k]);
    QueueFrame(s, WorkStep(s));
  }

  lemma AddingTrace<E>(s: State<E>, k: nat)
    requires Inv(s) && s.job == Adding(k) && k < |s.consumers|
    ensures forall c: nat, p: nat :: TraceAt(WorkStep(s), c, p)
  {
    AddingServes(s, k);
    LastAction(s);
    assert s.consumers[k] in s.consumers;
    ServedTrace(s, WorkStep(s), s.consumers[k], s.producers[|s.producers| - 1].id, START);
  }

  lemma JoiningServes<E>(s: State<E>, k: nat)
    requires Inv(s) && s.job == Joining(k) && k < |s.producers|
    ensures Served(s, WorkStep(s), s.consumers[|s.consumers| - 1], s.producers[k].id)
  {
    Bounds(s);
    JoiningServed(s, k);
  }

  lemma JoiningServed<E>(s: State<E>, k: nat)
    requires s.job == Joining(k) && k < |s.producers| && s.consumers != []
    requires forall i, j :: 0 <= i < j < |s.producers| ==> s.producers[i].id != s.producers[j].id
    ensures Served(s, WorkStep(s), s.consumers[|s.consumers| - 1], s.producers[k].id)
  {
    var s' := WorkStep(s);
    forall i | 0 <= i < |s.producers| ensures s'.producers[i].id == s.producers[i].id {}
  }

  lemma JoiningStep<E>(s: State<E>, k: nat)
    requires s.job == Joining(k) && k < |s.producers| && s.consumers != []
    ensures WorkStep(s) == MaybeAdd(s.(job := Joining(k + 1)), k, s.consumers[|s.consumers| - 1])
  {
  }

  lemma JoiningCache<E>(s: State<E>, k: nat, i: nat)
    requires s.job == Joining(k) && k < |s.producers| && i < |s.producers| && s.consumers != [] && CacheAt(s, i)
    ensures var s' := MaybeAdd(s.(job := Joining(k + 1)), k, s.consumers[|s.consumers| - 1]);
            i < |s'.producers| && CacheAt(s', i)
  {
    var s1 := s.(job := Joining(k + 1));
    var c := s.consumers[|s.consumers| - 1];
    SameRouted(s, s1, Offered(s, i), s.producers[i].id);
    AddedTo(s1, k, c, i, Offered(s, i));
    JoiningOffers(s, k, i);
    CacheFrom(MaybeAdd(s1, k, c), i, if i == k then Offered(s, i) + [c] else Offered(s, i));
  }

  lemma JoiningOffers<E>(s: State<E>, k: nat, i: nat)
    requires s.job == Joining(k) && k < |s.producers| && i < |s.producers| && s.consumers != []
    ensures var c := s.consumers[|s.consumers| - 1];
            Offered(MaybeAdd(s.(job := Joining(k + 1)), k, c), i) == if i == k then Offered(s, i) + [c] else Offered(s, i)
  {
    var n := |s.consumers| - 1;
    assert s.consumers == s.consumers[..n] + [s.consumers[n]];
  }

  lemma JoiningCaches<E>(s: State<E>, k: nat)
    requires s.job == Joining(k) && k < |s.producers| && s.consumers != []
    requires forall i :: 0 <= i < |s.producers| ==> CacheAt(s, i)
    ensures |WorkStep(s).producers| == |s.producers| && forall i :: 0 <= i < |s.producers| ==> CacheAt(WorkStep(s), i)
  {
    JoiningStep(s, k);
    forall i | 0 <= i < |s.producers| ensures CacheAt(WorkStep(s), i) { JoiningCache(s, k, i); }
  }

  lemma JoiningKeeps<E>(s: State<E>, k: nat)
    requires Inv(s) && s.job == Joining(k) && k < |s.producers|
    ensures Inv(WorkStep(s))
  {
    JoiningCaches(s, k);
    JoiningLists(s, k);
    JoiningTrace(s, k);
  }

  lemma JoiningLists<E>(s: State<E>, k: nat)
    requires QueueOk(s) && ListsOk(s) && JobOk(s) && s.job == Joining(k) && k < |s.producers|
    ensures QueueOk(WorkStep(s)) && ListsOk(WorkStep(s)) && JobOk(WorkStep(s))
  {
    JoiningStep(s, k);
    MaybeAddFrame(s.(job := Joining(k + 1)), k, s.consumers[|s.consumers| - 1]);
    QueueFrame(s, WorkStep(s));
  }

  lemma JoiningTrace<E>(s: State<E>, k: nat)
    requires Inv(s) && s.job == Joining(k) && k < |s.producers|
    ensures forall c: nat, p: nat :: TraceAt(WorkStep(s), c, p)
  {
    JoiningServes(s, k);
    LastAction(s);
    assert ViewOf(s.done).producers[k] in ViewOf(s.done).producers;
    ServedTrace(s, WorkStep(s), s.consumers[|s.consumers| - 1], s.producers[k].id, START);
  }

  lemma SendingKeeps<E>(s: State<E>, p: nat, kind: Kind<E>, todo: seq<nat>)
    requires Inv(s) && s.job == Sending(p, kind, todo) && todo != []
    ensures Inv(WorkStep(s))
  {
    var s' := WorkStep(s);
    forall i | 0 <= i < |s'.producers| ensures CacheAt(s', i) {
      assert CacheAt(s, i);
      SameRouted(s, s', s.consumers, s.producers[i].id);
    }
    assert todo[0] in todo;
    SendingServes(s, p, kind, todo);
    SendingJob(s, p, kind, todo);
    LastAction(s);
    ServedTrace(s, s', todo[0], p, kind);
  }

  lemma SendingServes<E>(s: State<E>, p: nat, kind: Kind<E>, todo: seq<nat>)
    requires s.job == Sending(p, kind, todo) && todo != [] && Distinct(todo)
    ensures Served(s, WorkStep(s), todo[0], p)
  {
    assert todo == [todo[0]] + todo[1..];
  }

  lemma SendingJob<E>(s: State<E>, p: nat, kind: Kind<E>, todo: seq<nat>)
    requires JobOk(s) && s.job == Sending(p, kind, todo) && todo != []
    ensures JobOk(WorkStep(s))
  {
    var s' := WorkStep(s);
    forall c | c in todo[1..] ensures c in s'.consumers && Match(s', c, p) {
      assert c in todo;
      assert Match(s, c, p);
    }
  }

  lemma TakeNextKeeps<E>(s: State<E>)
    requires Inv(s) && s.job.Idle? && s.pending != []
    ensures Inv(WorkStep(s))
  {
    match s.pending[0]
    case InitProducer(p) => InitProducerKeeps(s, p);
    case DestroyProducer(p) => DestroyProducerKeeps(s, p);
    case Publish(p, e) => PublishKeeps(s, p, e);
    case InitConsumer(c) => InitConsumerKeeps(s, c);
    case DestroyConsumer(c) => DestroyConsumerKeeps(s, c);
  }

  lemma WorkKeeps<E>(s: State<E>)
    requires Inv(s)
    ensures Inv(WorkStep(s))
  {
    match s.job
    case Idle => if s.pending != [] { TakeNextKeeps(s); }
    case Adding(k) => if k < |s.consumers| { AddingKeeps(s, k); } else { FinishKeeps(s); }
    case Joining(k) => if k < |s.producers| { JoiningKeeps(s, k); } else { FinishKeeps(s); }
    case Sending(p, kind, todo) => if todo != [] { SendingKeeps(s, p, kind, todo); } else { FinishKeeps(s); }
  }

  lemma StartInv<E>(s: State<E>)
    requires s == Start()
    ensures Inv(s)
  {
    assert s.done + s.pending == [];
  }

  lemma {:induction false} RunInv<E>(schedule: seq<Step<E>>)
    ensures Inv(Run(Start(), schedule))
  {
    if schedule == [] {
      StartInv<E>(Start());
    } else {
      var before := schedule[..|schedule| - 1];
      RunInv(before);
      match schedule[|schedule| - 1]
      case Client(call) => CallKeeps(Run(Start(), before), call);
      case Work => WorkKeeps(Run(Start(), before));
    }
  }

  // ---------------------------------------------------------------- what consumers see

  /** START, then events, then at most one STOP. */
  ghost predicate Shape<E>(notes: seq<Kind<E>>) {
    forall i :: 0 <= i < |notes| ==> (notes[i].START? <==> i == 0) && (notes[i].STOP? ==> i == |notes| - 1)
  }

  predicate Live(v: View, c: nat, p: nat) { c in v.consumers && p in v.producers }

  /** While both are live the stream has been started and not stopped. */
  ghost predicate Flowing<E>(log: seq<Action<E>>, c: nat, p: nat) {
    var notes := Expected(log, c, p);
    Shape(notes) && (Live(ViewOf(log), c, p) ==> notes != [] && !notes[|notes| - 1].STOP?)
  }

  lemma {:induction false} ExpectedFlows<E>(log: seq<Action<E>>, c: nat, p: nat)
    requires ProperLog(log)
    ensures Flowing(log, c, p)
  {
    if log != [] {
      var init, a := log[..|log| - 1], log[|log| - 1];
      ExpectedFlows(init, c, p);
      ViewSane(init);
      var v := ViewOf(init);
      if v.bornP <= p || v.bornC <= c { ExpectedUnborn(init, c, p); }
      FlowStep(v, a, Expected(init, c, p), c, p);
    }
  }

  lemma FlowStep<E>(v: View, a: Action<E>, notes: seq<Kind<E>>, c: nat, p: nat)
    requires Sane(v) && Proper(v, a) && Shape(notes) && (v.bornP <= p || v.bornC <= c ==> notes == [])
    requires Live(v, c, p) ==> notes != [] && !notes[|notes| - 1].STOP?
    ensures var notes' := notes + Due(v, a, c, p);
            Shape(notes') && (Live(After(v, a), c, p) ==> notes' != [] && !notes'[|notes'| - 1].STOP?)
  {
    match a
    case DestroyProducer(q) => EraseMembers(v.producers, q);
    case DestroyConsumer(d) => EraseMembers(v.consumers, d);
    case _ =>
  }

  /** Everything consumer c may rely on about the stream of p. */
  ghost predicate Delivered<E>(s: State<E>, c: nat, p: nat) {
    var due := if Match(s, c, p) then Expected(s.done, c, p) else [];
    && Seen(s.trace, c, p) <= due
    && Shape(Seen(s.trace, c, p))
    && (c in s.openC && s.job.Idle? ==> Seen(s.trace, c, p) == due)
  }

  lemma InvDelivers<E>(s: State<E>, c: nat, p: nat)
    requires Inv(s)
    ensures Delivered(s, c, p)
  {
    assert TraceAt(s, c, p);
    ProperPrefix(s.done, s.pending);
    ExpectedFlows(s.done, c, p);
  }

  /** In every run, with calls made at any moment, also by handlers: what a consumer sees of a stream
      is START, events and at most one STOP; it is a prefix of what the actions taken amount to, and
      all of it, between two actions, for a consumer that was not destroyed. */
  lemma DeliveryTrace<E>(schedule: seq<Step<E>>, c: nat, p: nat)
    ensures Delivered(Run(Start(), schedule), c, p)
  {
    RunInv(schedule);
    InvDelivers(Run(Start(), schedule), c, p);
  }

  /** Actions are taken in the order in which they were called for. */
  lemma {:induction false} ActionsInOrder<E>(s: State<E>, schedule: seq<Step<E>>)
    ensures s.done + s.pending <= Run(s, schedule).done + Run(s, schedule).pending
  {
    if schedule != [] {
      ActionsInOrder(s, schedule[..|schedule| - 1]);
      StepInOrder(Run(s, schedule[..|schedule| - 1]), schedule[|schedule| - 1]);
    }
  }

  lemma StepInOrder<E>(s: State<E>, step: Step<E>)
    ensures s.done + s.pending <= Do(s, step).done + Do(s, step).pending
  {
    var s' := Do(s, step);
    if step.Client? {
      assert s'.done == s.done && s.pending <= s'.pending;
    } else if s.job.Idle? && s.pending != [] {
      assert s'.done == s.done + [s.pending[0]] && s'.pending == s.pending[1..];
      SplitFirst(s.done, s.pending);
    } else {
      assert s'.done == s.done && s'.pending == s.pending;
    }
  }

  /** Nothing reaches a consumer once its destruction was called for. */
  lemma {:induction false} NothingAfterDestroy<E>(s: State<E>, schedule: seq<Step<E>>, c: nat, p: nat)
    requires c !in s.openC && c < |s.filters|
    ensures Seen(Run(s, schedule).trace, c, p) == Seen(s.trace, c, p)
    ensures c !in Run(s, schedule).openC && c < |Run(s, schedule).filters|
  {
    if schedule != [] {
      NothingAfterDestroy(s, schedule[..|schedule| - 1], c, p);
      StepPasses(Run(s, schedule[..|schedule| - 1]), schedule[|schedule| - 1], c, p);
    }
  }

  lemma StepPasses<E>(s: State<E>, step: Step<E>, c: nat, p: nat)
    requires c !in s.openC && c < |s.filters|
    ensures var s' := Do(s, step);
            c !in s'.openC && c < |s'.filters| && Seen(s'.trace, c, p) == Seen(s.trace, c, p)
  {
    match step
    case Client(call) => CallPasses(s, call, c);
    case Work =>
      WorkTells(s, c, p);
      assert WorkStep(s).openC == s.openC && WorkStep(s).filters == s.filters;
  }

  lemma CallPasses<E>(s: State<E>, call: Call<E>, c: nat)
    requires c !in s.openC && c < |s.filters|
    ensures var s' := CallStep(s, call); c !in s'.openC && c < |s'.filters| && s'.trace == s.trace
  {
  }

  /** A piece of work makes at most one notification, to a consumer that is open. */
  lemma WorkTells<E>(s: State<E>, c: nat, p: nat)
    requires c !in s.openC
    ensures Seen(WorkStep(s).trace, c, p) == Seen(s.trace, c, p)
  {
    match s.job
    case Idle => if s.pending != [] { TakeSilent(Popped(s), s.pending[0]); }
    case Adding(k) =>
      if k < |s.consumers| && s.producers != [] {
        MaybeAddPasses(s.(job := Adding(k + 1)), |s.producers| - 1, s.consumers[k], c, p);
      }
    case Joining(k) =>
      if k < |s.producers| && s.consumers != [] {
        MaybeAddPasses(s.(job := Joining(k + 1)), k, s.consumers[|s.consumers| - 1], c, p);
      }
    case Sending(q, kind, todo) =>
      if todo != [] { NotifyPasses(s.(job := Sending(q, kind, todo[1..])), todo[0], q, kind, c, p); }
  }

  lemma NotifyPasses<E>(s: State<E>, d: nat, q: nat, kind: Kind<E>, c: nat, p: nat)
    requires c !in s.openC
    ensures Seen(Notify(s, d, q, kind).trace, c, p) == Seen(s.trace, c, p)
  {
    if d in s.openC { SeenAppend(s.trace, Note(d, q, kind), c, p); }
  }

  lemma MaybeAddPasses<E>(s: State<E>, i: nat, d: nat, c: nat, p: nat)
    requires c !in s.openC && i < |s.producers|
    ensures Seen(MaybeAdd(s, i, d).trace, c, p) == Seen(s.trace, c, p)
  {
    var q := s.producers[i];
    if Match(s, d, q.id) {
      NotifyPasses(s.(producers := s.producers[i := q.(consumers := q.consumers + [d])]), d, q.id, START, c, p);
    }
  }

  lemma TakeSilent<E>(s: State<E>, a: Action<E>)
    ensures Take(s, a).trace == s.trace && Take(s, a).openC == s.openC && Take(s, a).filters == s.filters
  {
  }

  /** After every action each live producer's list is exactly the broker's consumers filtered by topic,
      in the same order and without duplicates, and the live producers and consumers are those that
      the actions taken have made and not destroyed. */
  lemma RoutingCache<E>(schedule: seq<Step<E>>, i: nat)
    ensures var s := Run(Start(), schedule);
            && s.consumers == ViewOf(s.done).consumers && Distinct(s.consumers)
            && |s.producers| == |ViewOf(s.done).producers|
            && (i < |s.producers| ==> s.producers[i].id == ViewOf(s.done).producers[i])
            && (s.job.Idle? && i < |s.producers| ==>
                  && s.producers[i].consumers == Routed(s, s.consumers, s.producers[i].id)
                  && Distinct(s.producers[i].consumers))
  {
    var s := Run(Start(), schedule);
    RunInv(schedule);
    Bounds(s);
    if s.job.Idle? && i < |s.producers| {
      assert CacheAt(s, i);
      RoutedMembers(s, s.consumers, s.producers[i].id);
    }
  }

  predicate Finds<E>(s: State<E>, a: Action<E>) {
    match a
    case DestroyProducer(p) => Find(s.producers, p) < |s.producers|
    case Publish(p, _) => Find(s.producers, p) < |s.producers|
    case DestroyConsumer(c) => c in s.consumers
    case _ => true
  }

  /** The searches of the destroying actions find what they look for, and publishing goes to a producer
      that is there. */
  lemma NextActionFinds<E>(schedule: seq<Step<E>>)
    ensures var s := Run(Start(), schedule);
            s.job.Idle? && s.pending != [] ==> Finds(s, s.pending[0])
  {
    var s := Run(Start(), schedule);
    RunInv(schedule);
    if s.job.Idle? && s.pending != [] {
      TakeFacts(s, s.pending[0]);
      match s.pending[0]
      case DestroyProducer(p) => FindsProducer(s, p);
      case Publish(p, _) => FindsProducer(s, p);
      case _ =>
    }
  }

  // ---------------------------------------------------------------- the objects

  /** A producer and its cached list, with the loops that maintain it. */
  class ProducerImpl {
    const id: nat
    var consumers: seq<nat>

    constructor (id: nat)
      ensures this.id == id && consumers == []
    {
      this.id, consumers := id, [];
    }

    /** find_if, then erase if found. */
    method MaybeRemove(c: nat)
      modifies this
      ensures consumers == Erase(old(consumers), c)
    {
      var i := 0;
      while i != |consumers| && consumers[i] != c
        invariant 0 <= i <= |consumers| && consumers == old(consumers)
        invariant Erase(consumers, c) == consumers[..i] + Erase(consumers[i..], c)
      {
        assert consumers[i..][1..] == consumers[i + 1..];
        assert consumers[..i + 1] == consumers[..i] + [consumers[i]];
        i := i + 1;
      }
      if i != |consumers| {
        assert consumers[i..][1..] == consumers[i + 1..];
        consumers := consumers[..i] + consumers[i + 1..];
      } else {
        assert Erase(consumers[i..], c) == [];
      }
    }

    /** Offers all consumers of the broker to a new producer, and returns those that were notified. */
    method Init<E>(s: State<E>) returns (notified: seq<nat>)
      requires consumers == []
      modifies this
      ensures consumers == Routed(s, s.consumers, id) == notified
    {
      notified := [];
      var k := 0;
      while k != |s.consumers|
        invariant 0 <= k <= |s.consumers| && consumers == notified == Routed(s, s.consumers[..k], id)
      {
        var c := s.consumers[k];
        RoutedAppend(s, s.consumers[..k], c, id);
        assert s.consumers[..k + 1] == s.consumers[..k] + [c];
        if Match(s, c, id) {
          consumers := consumers + [c];
          notified := notified + [c];
        }
        k := k + 1;
      }
      assert s.consumers[..k] == s.consumers;
    }
  }

  /** Turns left in the loop in progress. */
  ghost function Turns<E>(s: State<E>): nat
    requires JobOk(s)
  {
    match s.job
    case Idle => 0
    case Adding(k) => |s.consumers| - k + 1
    case Joining(k) => |s.producers| - k + 1
    case Sending(_, _, todo) => |todo| + 1
  }

  lemma WorkShrinks<E>(s: State<E>)
    requires JobOk(s) && JobOk(WorkStep(s)) && (s.pending != [] || !s.job.Idle?)
    ensures var s' := WorkStep(s);
            |s'.pending| < |s.pending| || (s'.pending == s.pending && Turns(s') < Turns(s))
  {
    match s.job
    case Idle => TakeShrinks(s);
    case Adding(k) => AddingShrinks(s, k);
    case Joining(k) => JoiningShrinks(s, k);
    case Sending(p, kind, todo) => SendingShrinks(s, p, kind, todo);
  }

  lemma TakeShrinks<E>(s: State<E>)
    requires s.job.Idle? && s.pending != []
    ensures |WorkStep(s).pending| < |s.pending|
  {
  }

  lemma AddingShrinks<E>(s: State<E>, k: nat)
    requires JobOk(s) && s.job == Adding(k) && JobOk(WorkStep(s))
    ensures WorkStep(s).pending == s.pending && Turns(WorkStep(s)) < Turns(s)
  {
  }

  lemma JoiningShrinks<E>(s: State<E>, k: nat)
    requires JobOk(s) && s.job == Joining(k) && JobOk(WorkStep(s))
    ensures WorkStep(s).pending == s.pending && Turns(WorkStep(s)) < Turns(s)
  {
  }

  lemma SendingShrinks<E>(s: State<E>, p: nat, kind: Kind<E>, todo: seq<nat>)
    requires JobOk(s) && s.job == Sending(p, kind, todo) && JobOk(WorkStep(s))
    ensures WorkStep(s).pending == s.pending && Turns(WorkStep(s)) < Turns(s)
  {
  }

  /** The broker. `script` is what the handlers of the clients will do: for each notification that is
      handled, in order, the calls that its handler makes. */
  class OldBroker<E> {
    var s: State<E>
    var script: seq<seq<Call<E>>>

    constructor (script: seq<seq<Call<E>>>)
      ensures s == Start() && this.script == script && Inv(s)
    {
      s := Start();
      this.script := script;
      new;
      StartInv(s);
    }

    /** Ends with nothing left to do, after steps that the model allows, whatever the handlers call; the calls
        made are those of the handlers, in the order of the notifications handled. */
    method DoWork() returns (ghost schedule: seq<Step<E>>)
      requires Inv(s)
      modifies this
      ensures Inv(s) && s.pending == [] && s.job.Idle? && s == Run(old(s), schedule)
      ensures forall c: nat, p: nat :: Delivered(s, c, p)
      ensures CallsMade(schedule, old(script), script, |s.trace| - |old(s.trace)|)
    {
      schedule := [];
      assert Joined(old(script)[..0]) == [];
      while s.pending != [] || !s.job.Idle?
        invariant Inv(s) && s == Run(old(s), schedule)
        invariant CallsMade(schedule, old(script), script, |s.trace| - |old(s.trace)|)
        decreases |script|, |s.pending|, Turns(s)
      {
        schedule := TurnOf(old(s), old(script), schedule);
      }
      AllDelivered(s);
    }

    /** The next turn of a loop that began in s0 with script0. */
    method TurnOf(ghost s0: State<E>, ghost script0: seq<seq<Call<E>>>, ghost schedule: seq<Step<E>>)
      returns (ghost schedule': seq<Step<E>>)
      requires Inv(s) && (s.pending != [] || !s.job.Idle?)
      requires s == Run(s0, schedule) && CallsMade(schedule, script0, script, |s.trace| - |s0.trace|)
      modifies this
      ensures Inv(s)
      ensures s == Run(s0, schedule') && CallsMade(schedule', script0, script, |s.trace| - |s0.trace|)
      ensures |script| <= old(|script|)
      ensures |script| == old(|script|) ==>
                |s.pending| < old(|s.pending|) || (|s.pending| == old(|s.pending|) && Turns(s) < old(Turns(s)))
    {
      var made := Turn();
      RunAppend(s0, schedule, made);
      MadeInTurn(schedule, made, script0, old(script), script, |old(s.trace)| - |s0.trace|, |s.trace| - |s0.trace|);
      schedule' := schedule + made;
    }

    /** One piece of work, and the calls of the handler, if it made a notification. */
    method Turn() returns (ghost made: seq<Step<E>>)
      requires Inv(s) && (s.pending != [] || !s.job.Idle?)
      modifies this
      ensures Inv(s) && s == Run(old(s), made)
      ensures TurnMade(made, old(script), script, |s.trace| - |old(s.trace)|)
      ensures |script| <= old(|script|)
      ensures |script| == old(|script|) ==>
                |s.pending| < old(|s.pending|) || (|s.pending| == old(|s.pending|) && Turns(s) < old(Turns(s)))
    {
      WorkKeeps(s);
      WorkShrinks(s);
      OneNote(s);
      OneStep(s, Work);
      made := [Work];
      var handled := |s.trace|;
      s := WorkStep(s);
      if |s.trace| > handled && script != [] {
        var calls := HandlerCalls(script[0]);
        RunAppend(old(s), made, calls);
        CallsAppend(made, calls);
        script := script[1..];
        made := made + calls;
      }
    }

    method HandlerCalls(calls: seq<Call<E>>) returns (ghost made: seq<Step<E>>)
      requires Inv(s)
      modifies this`s
      ensures Inv(s) && s == Run(old(s), made) && CallsOf(made) == calls && s.trace == old(s.trace)
    {
      made := [];
      for i := 0 to |calls|
        invariant Inv(s) && s == Run(old(s), made) && CallsOf(made) == calls[..i] && s.trace == old(s.trace)
      {
        CallMade(old(s), made, s, calls[i]);
        s := CallStep(s, calls[i]);
        made := made + [Client(calls[i])];
        assert calls[..i + 1] == calls[..i] + [calls[i]];
      }
      assert calls[..|calls|] == calls;
    }
  }

  /** One after the other. */
  function Joined<T>(parts: seq<seq<T>>): seq<T> {
    if parts == [] then [] else Joined(parts[..|parts| - 1]) + parts[|parts| - 1]
  }

  lemma JoinedNext<T>(parts: seq<seq<T>>, n: nat)
    requires n < |parts|
    ensures Joined(parts[..n + 1]) == Joined(parts[..n]) + parts[n]
  {
    assert parts[..n + 1][..n] == parts[..n];
  }

  /** Each notification handled used up one part of the script, while there was any, and its calls were made. */
  ghost predicate CallsMade<E>(schedule: seq<Step<E>>, script: seq<seq<Call<E>>>, left: seq<seq<Call<E>>>, handled: int) {
    var n := |script| - |left|;
    && 0 <= n && left == script[n..] && CallsOf(schedule) == Joined(script[..n])
    && n == (if handled < |script| then handled else |script|)
  }

  lemma StepAppended<E>(s: State<E>, schedule: seq<Step<E>>, step: Step<E>)
    ensures Run(s, schedule + [step]) == Do(Run(s, schedule), step)
    ensures CallsOf(schedule + [step]) == CallsOf(schedule) + if step.Client? then [step.call] else []
  {
    assert (schedule + [step])[..|schedule|] == schedule;
  }

  lemma AllDelivered<E>(s: State<E>)
    requires Inv(s)
    ensures forall c: nat, p: nat :: Delivered(s, c, p)
  {
    forall c: nat, p: nat ensures Delivered(s, c, p) { InvDelivers(s, c, p); }
  }

  lemma OneStep<E>(s: State<E>, step: Step<E>)
    ensures Run(s, [step]) == Do(s, step) && CallsOf([step]) == if step.Client? then [step.call] else []
  {
    StepAppended(s, [], step);
    assert [] + [step] == [step];
  }

  lemma CallMade<E>(start: State<E>, made: seq<Step<E>>, s: State<E>, call: Call<E>)
    requires Inv(s) && s == Run(start, made)
    ensures Inv(CallStep(s, call)) && CallStep(s, call) == Run(start, made + [Client(call)])
    ensures CallStep(s, call).trace == s.trace && CallsOf(made + [Client(call)]) == CallsOf(made) + [call]
  {
    CallKeeps(s, call);
    CallSilent(s, call);
    StepAppended(start, made, Client(call));
  }

  lemma CallSilent<E>(s: State<E>, call: Call<E>)
    ensures CallStep(s, call).trace == s.trace
  {
  }

  /** The calls of a turn are those that the script has for the notification, if any. */
  ghost predicate TurnMade<E>(made: seq<Step<E>>, script: seq<seq<Call<E>>>, left: seq<seq<Call<E>>>, handled: int) {
    && 0 <= handled <= 1
    && if handled == 1 && script != [] then left == script[1..] && CallsOf(made) == script[0]
       else left == script && CallsOf(made) == []
  }

  lemma MadeInTurn<E>(
      schedule: seq<Step<E>>, made: seq<Step<E>>, script: seq<seq<Call<E>>>, before: seq<seq<Call<E>>>,
      left: seq<seq<Call<E>>>, handled: int, handled': int)
    requires CallsMade(schedule, script, before, handled) && TurnMade(made, before, left, handled' - handled)
    ensures CallsMade(schedule + made, script, left, handled')
  {
    CallsAppend(schedule, made);
    if handled' > handled && before != [] { JoinedNext(script, |script| - |before|); }
  }

  /** A piece of work makes at most one notification. */
  lemma OneNote<E>(s: State<E>)
    ensures s.trace <= WorkStep(s).trace && |WorkStep(s).trace| <= |s.trace| + 1
  {
    if s.job.Idle? && s.pending != [] { TakeSilent(Popped(s), s.pending[0]); }
  }

  lemma {:induction false} CallsAppend<E>(a: seq<Step<E>>, b: seq<Step<E>>)
    ensures CallsOf(a + b) == CallsOf(a) + CallsOf(b)
  {
    if b == [] {
      assert a + b == a;
    } else {
      CallsAppend(a, b[..|b| - 1]);
      assert (a + b)[..|a + b| - 1] == a + b[..|b| - 1];
    }
  }

  lemma {:induction false} RunAppend<E>(s: State<E>, a: seq<Step<E>>, b: seq<Step<E>>)
    ensures Run(s, a + b) == Run(Run(s, a), b)
  {
    if b == [] {
      assert a + b == a;
    } else {
      RunAppend(s, a, b[..|b| - 1]);
      assert (a + b)[..|a + b| - 1] == a + b[..|b| - 1];
    }
  }
}
