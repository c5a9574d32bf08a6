/** What the broker delivers, in terms of the calls of its clients alone. */
module BrokerCalls {
  import opened Broker

  // ---------------------------------------------------------------- what the calls ask for

  /** The topics of the producers made, and the filters of the consumers made, in order; a handle is the
      number of its maker. */
  function TopicsOf<E>(calls: seq<Call<E>>): seq<Topic> {
    if calls == [] then []
    else
      var rest, call := TopicsOf(calls[..|calls| - 1]), calls[|calls| - 1];
      if call.MakeProducer? then rest + [call.topic] else rest
  }

  function FiltersOf<E>(calls: seq<Call<E>>): seq<Filter> {
    if calls == [] then []
    else
      var rest, call := FiltersOf(calls[..|calls| - 1]), calls[|calls| - 1];
      if call.MakeConsumer? then rest + [call.filter] else rest
  }

  /** Producer p has been made and not destroyed. */
  predicate OpenProducer<E>(calls: seq<Call<E>>, p: nat) {
    calls != [] &&
    var before, call := calls[..|calls| - 1], calls[|calls| - 1];
    if call.MakeProducer? && p == |TopicsOf(before)| then true
    else OpenProducer(before, p) && !(call.DestroyProducerCall? && call.p == p)
  }

  predicate OpenConsumer<E>(calls: seq<Call<E>>, c: nat) {
    calls != [] &&
    var before, call := calls[..|calls| - 1], calls[|calls| - 1];
    if call.MakeConsumer? && c == |FiltersOf(before)| then true
    else OpenConsumer(before, c) && !(call.DestroyConsumerCall? && call.c == c)
  }

  /** The actions that the calls put on the queue, in order: one for each call, except on handles that are
      not open. */
  function ActionsOf<E>(calls: seq<Call<E>>): seq<Action<E>> {
    if calls == [] then []
    else ActionsOf(calls[..|calls| - 1]) + ActionOf(calls[..|calls| - 1], calls[|calls| - 1])
  }

  function ActionOf<E>(before: seq<Call<E>>, call: Call<E>): seq<Action<E>> {
    match call
    case MakeProducer(_) => [InitProducer(|TopicsOf(before)|)]
    case PublishCall(p, e) => if OpenProducer(before, p) then [Publish(p, e)] else []
    case DestroyProducerCall(p) => if OpenProducer(before, p) then [DestroyProducer(p)] else []
    case MakeConsumer(_) => [InitConsumer(|FiltersOf(before)|)]
    case DestroyConsumerCall(c) => if OpenConsumer(before, c) then [DestroyConsumer(c)] else []
  }

  // ---------------------------------------------------------------- the broker does it

  ghost predicate Agrees<E>(s: State<E>, calls: seq<Call<E>>) {
    && s.done + s.pending == ActionsOf(calls)
    && s.topics == TopicsOf(calls) && s.filters == FiltersOf(calls)
    && (forall p: nat :: p in s.openP <==> OpenProducer(calls, p))
    && (forall c: nat :: c in s.openC <==> OpenConsumer(calls, c))
  }

  lemma CallAgrees<E>(s: State<E>, calls: seq<Call<E>>, call: Call<E>)
    requires Agrees(s, calls)
    ensures Agrees(CallStep(s, call), calls + [call])
  {
    assert (calls + [call])[..|calls|] == calls;
    var s' := CallStep(s, call);
    assert s'.done + s'.pending == (s.done + s.pending) + ActionOf(calls, call);
  }

  /** Work moves actions from pending to done, and leaves the rest alone. */
  lemma WorkMoves<E>(s: State<E>)
    ensures var s' := WorkStep(s);
            && s'.topics == s.topics && s'.filters == s.filters && s'.openP == s.openP && s'.openC == s.openC
            && (if s.job.Idle? && s.pending != [] then s'.done == s.done + [s.pending[0]] && s'.pending == s.pending[1..]
                else s'.done == s.done && s'.pending == s.pending)
  {
    match s.job
    case Idle => if s.pending != [] { TakeMoves(Popped(s), s.pending[0]); }
    case Adding(k) =>
    case Joining(k) =>
    case Sending(_, _, _) =>
  }

  lemma TakeMoves<E>(s: State<E>, a: Action<E>)
    ensures var s' := Take(s, a);
            && s'.topics == s.topics && s'.filters == s.filters && s'.openP == s.openP && s'.openC == s.openC
            && s'.done == s.done && s'.pending == s.pending
  {
  }

  lemma WorkAgrees<E>(s: State<E>, calls: seq<Call<E>>)
    requires Agrees(s, calls)
    ensures Agrees(WorkStep(s), calls)
  {
    WorkMoves(s);
    if s.pending != [] { SplitFirst(s.done, s.pending); }
    SameAgrees(s, WorkStep(s), calls);
  }

  lemma SameAgrees<E>(s: State<E>, s': State<E>, calls: seq<Call<E>>)
    requires Agrees(s, calls) && s'.done + s'.pending == s.done + s.pending
    requires s'.topics == s.topics && s'.filters == s.filters && s'.openP == s.openP && s'.openC == s.openC
    ensures Agrees(s', calls)
  {
  }

  /** In every run, what has been taken and what is pending is exactly what the calls asked for, and topics,
      filters and open handles are those of the calls. */
  lemma {:induction false} TakesTheCalls<E>(schedule: seq<Step<E>>)
    ensures Agrees(Run(Start(), schedule), CallsOf(schedule))
  {
    if schedule != [] {
      var before, step := schedule[..|schedule| - 1], schedule[|schedule| - 1];
      TakesTheCalls(before);
      match step
      case Client(call) => CallAgrees(Run(Start(), before), CallsOf(before), call);
      case Work => WorkAgrees(Run(Start(), before), CallsOf(before));
    }
  }

  // ---------------------------------------------------------------- delivery

  /** The filter is for streams of the topic's type and accepts its name. */
  predicate Accepts(filter: Filter, topic: Topic) { filter.typeId == topic.typeId && filter.accepts(topic.name) }

  /** What consumer c is to be told about the stream of p, by all the calls. */
  function DueTo<E>(calls: seq<Call<E>>, c: nat, p: nat): seq<Kind<E>> {
    if c < |FiltersOf(calls)| && p < |TopicsOf(calls)| && Accepts(FiltersOf(calls)[c], TopicsOf(calls)[p])
    then Expected(ActionsOf(calls), c, p) else []
  }

  lemma {:induction false} ExpectedPrefix<E>(a: seq<Action<E>>, b: seq<Action<E>>, c: nat, p: nat)
    ensures Expected(a, c, p) <= Expected(a + b, c, p)
  {
    if b == [] {
      assert a + b == a;
    } else {
      ExpectedPrefix(a, b[..|b| - 1], c, p);
      assert (a + b)[..|a + b| - 1] == a + b[..|b| - 1];
    }
  }

  /** In every run: what a consumer has seen is a prefix of what the calls amount to, and when the broker has
      nothing left to do it is all of it, for a consumer that was not destroyed. */
  lemma Delivers<E>(schedule: seq<Step<E>>, c: nat, p: nat)
    ensures var s, calls := Run(Start(), schedule), CallsOf(schedule);
            && Seen(s.trace, c, p) <= DueTo(calls, c, p)
            && (s.job.Idle? && s.pending == [] && OpenConsumer(calls, c) ==> Seen(s.trace, c, p) == DueTo(calls, c, p))
  {
    var s, calls := Run(Start(), schedule), CallsOf(schedule);
    TakesTheCalls(schedule);
    DeliveryTrace(schedule, c, p);
    ExpectedPrefix(s.done, s.pending, c, p);
    assert Match(s, c, p) <==>
           c < |FiltersOf(calls)| && p < |TopicsOf(calls)| && Accepts(FiltersOf(calls)[c], TopicsOf(calls)[p]);
    if s.pending == [] { assert s.done + s.pending == s.done; }
  }

  /** The clients make these calls and the broker does nothing. */
  function Calling<E>(calls: seq<Call<E>>): (r: seq<Step<E>>)
    ensures |r| == |calls|
  {
    seq(|calls|, i requires 0 <= i < |calls| => Client(calls[i]))
  }

  lemma {:induction false} CallsOfCalling<E>(calls: seq<Call<E>>)
    ensures CallsOf(Calling(calls)) == calls
  {
    if calls != [] {
      var n := |calls| - 1;
      CallsOfCalling(calls[..n]);
      assert Calling(calls)[..n] == Calling(calls[..n]);
      assert calls == calls[..n] + [calls[n]];
    }
  }

  /** The open handles are those that live in the actions. */
  lemma OpenAreLive<E>(calls: seq<Call<E>>, c: nat, p: nat)
    ensures OpenProducer(calls, p) <==> p in ViewOf(ActionsOf(calls)).producers
    ensures OpenConsumer(calls, c) <==> c in ViewOf(ActionsOf(calls)).consumers
  {
    CallsOfCalling(calls);
    TakesTheCalls(Calling(calls));
    RunInv(Calling(calls));
  }

  lemma {:induction false} ActionsPrefix<E>(a: seq<Call<E>>, b: seq<Call<E>>)
    ensures ActionsOf(a) <= ActionsOf(a + b) && TopicsOf(a) <= TopicsOf(a + b) && FiltersOf(a) <= FiltersOf(a + b)
  {
    if b == [] {
      assert a + b == a;
    } else {
      ActionsPrefix(a, b[..|b| - 1]);
      assert (a + b)[..|a + b| - 1] == a + b[..|b| - 1];
    }
  }

  /** What the calls up to a publication amount to, with its event. */
  lemma PublishedIsDue<E>(before: seq<Call<E>>, p: nat, e: E, c: nat)
    requires OpenProducer(before, p) && OpenConsumer(before, c)
    ensures Expected(ActionsOf(before + [PublishCall(p, e)]), c, p) == Expected(ActionsOf(before), c, p) + [EVENT(e)]
  {
    OpenAreLive(before, c, p);
    assert (before + [PublishCall(p, e)])[..|before|] == before;
    LogAppend(ActionsOf(before), Publish(p, e), c, p);
  }

  lemma EventIsDue<E>(before: seq<Call<E>>, p: nat, e: E, after: seq<Call<E>>, c: nat)
    requires OpenProducer(before, p) && OpenConsumer(before, c)
    ensures Expected(ActionsOf(before), c, p) + [EVENT(e)]
         <= Expected(ActionsOf(before + [PublishCall(p, e)] + after), c, p)
  {
    var upto := before + [PublishCall(p, e)];
    PublishedIsDue(before, p, e, c);
    ActionsPrefix(upto, after);
    ExpectedGrows(ActionsOf(upto), ActionsOf(upto + after), c, p);
  }

  lemma ExpectedGrows<E>(a: seq<Action<E>>, b: seq<Action<E>>, c: nat, p: nat)
    requires a <= b
    ensures Expected(a, c, p) <= Expected(b, c, p)
  {
    assert a + b[|a|..] == b;
    ExpectedPrefix(a, b[|a|..], c, p);
  }

  /** An event published while producer and consumer are open reaches the consumer, right after what was due
      before it, if the filter accepts the topic, once the broker has done its work, whatever calls follow
      that do not destroy the consumer. */
  lemma EventReaches<E>(schedule: seq<Step<E>>, before: seq<Call<E>>, p: nat, e: E, after: seq<Call<E>>, c: nat)
    requires CallsOf(schedule) == before + [PublishCall(p, e)] + after
    requires OpenProducer(before, p) && OpenConsumer(before, c) && OpenConsumer(CallsOf(schedule), c)
    requires p < |TopicsOf(CallsOf(schedule))| && c < |FiltersOf(CallsOf(schedule))|
    requires Accepts(FiltersOf(CallsOf(schedule))[c], TopicsOf(CallsOf(schedule))[p])
    requires Run(Start(), schedule).job.Idle? && Run(Start(), schedule).pending == []
    ensures Expected(ActionsOf(before), c, p) + [EVENT(e)] <= Seen(Run(Start(), schedule).trace, c, p)
  {
    Delivers(schedule, c, p);
    EventIsDue(before, p, e, after, c);
  }
}
