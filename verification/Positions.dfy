/** Element indices of the concurrent queue, split into block number and offset in the block. */
module Positions {
  import opened Arith

  /** An element index, split into its block number and its offset in the block. */
  datatype Pos = Pos(q: nat, o: nat)

  function Index(p: Pos, bs: nat): nat { p.q * bs + p.o }

  function Succ(p: Pos, bs: nat): Pos {
    if p.o + 1 == bs then Pos(p.q + 1, 0) else Pos(p.q, p.o + 1)
  }

  predicate Less(p: Pos, r: Pos) { p.q < r.q || (p.q == r.q && p.o < r.o) }
  predicate AtMost(p: Pos, r: Pos) { p == r || Less(p, r) }

  /** Splitting element indices loses nothing: successor, order and block number are those of the index. */
  lemma PosIsIndex(p: Pos, r: Pos, bs: nat)
    requires bs >= 2 && p.o < bs && r.o < bs
    ensures Index(Succ(p, bs), bs) == Index(p, bs) + 1
    ensures Less(p, r) <==> Index(p, bs) < Index(r, bs)
    ensures Index(p, bs) / bs == p.q && Index(p, bs) % bs == p.o
  {
    Distribute(p.q, 1, bs);
    ModUnique(Index(p, bs), p.q, p.o, bs);
    if p.q < r.q { IndexBelow(p, r, bs); }
    if r.q < p.q { IndexBelow(r, p, bs); }
  }

  lemma IndexBelow(p: Pos, r: Pos, bs: nat)
    requires p.o < bs && p.q < r.q
    ensures Index(p, bs) < Index(r, bs)
  {
    MulMonotone(p.q + 1, r.q, bs);
    Distribute(p.q, 1, bs);
  }

  /** Block number of the last index below e. */
  function LastBlock(e: Pos): int { if e.o == 0 then e.q - 1 else e.q }

  /** End of the part of the claim that lies in the block of a. */
  function Stop(a: Pos, e: Pos, bs: nat): nat { if e.q == a.q then e.o else bs }

  function AfterBlock(a: Pos, e: Pos, bs: nat): Pos {
    if Stop(a, e, bs) == bs then Pos(a.q + 1, 0) else Pos(a.q, Stop(a, e, bs))
  }

  /** All the elements of a list of blocks, in order. */
  function Flat<T>(log: seq<seq<T>>): seq<T> {
    if log == [] then [] else Flat(log[..|log| - 1]) + log[|log| - 1]
  }

  lemma {:induction false} FlatSize<T>(log: seq<seq<T>>, bs: nat)
    requires forall q :: 0 <= q < |log| ==> |log[q]| == bs
    ensures |Flat(log)| == |log| * bs
  {
    if log != [] {
      FlatSize(log[..|log| - 1], bs);
      Distribute(|log| - 1, 1, bs);
    }
  }

  /** When all blocks but the last are full, the element at a position is the one with its index. */
  lemma {:induction false} FlatAt<T>(log: seq<seq<T>>, bs: nat, p: Pos)
    requires (forall q :: 0 <= q < |log| - 1 ==> |log[q]| == bs) && p.q < |log| && p.o < |log[p.q]|
    ensures Index(p, bs) < |Flat(log)| && Flat(log)[Index(p, bs)] == log[p.q][p.o]
  {
    var init := log[..|log| - 1];
    FlatSize(init, bs);
    if p.q < |log| - 1 {
      FlatAt(init, bs, p);
    }
  }

  lemma FlatLast<T>(log: seq<seq<T>>, bs: nat)
    requires log != [] && forall q :: 0 <= q < |log| - 1 ==> |log[q]| == bs
    ensures |Flat(log)| == (|log| - 1) * bs + |log[|log| - 1]|
  {
    FlatSize(log[..|log| - 1], bs);
  }

  /** Starting another block adds nothing, and appending to the last one adds at the end. */
  lemma FlatGrows<T>(log: seq<seq<T>>, log': seq<seq<T>>)
    requires log' == log || log' == log + [[]] || (log != [] && |log'| == |log| && log'[..|log| - 1] == log[..|log| - 1]
                                                   && log[|log| - 1] <= log'[|log| - 1])
    ensures Flat(log) <= Flat(log')
  {
    if log' == log + [[]] { assert log'[..|log'| - 1] == log; }
  }

  /** The end of the part of a claim in the block of a. */
  lemma AfterIndex(a: Pos, e: Pos, bs: nat)
    requires a.o < bs && e.o < bs && Less(a, e)
    ensures Index(AfterBlock(a, e, bs), bs) == Index(a, bs) + (Stop(a, e, bs) - a.o) <= Index(e, bs)
    ensures Stop(a, e, bs) > a.o
  {
    Distribute(a.q, 1, bs);
    if a.q < e.q { MulMonotone(a.q + 1, e.q, bs); }
  }

  /** The base of the block of an index is the index rounded down. */
  lemma BaseIsRounded(p: Pos, bs: nat)
    requires bs >= 2 && p.o < bs
    ensures p.q * bs == Index(p, bs) - Index(p, bs) % bs
  {
    PosIsIndex(p, p, bs);
  }
}
