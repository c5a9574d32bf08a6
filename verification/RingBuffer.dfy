/** The broadcast ring buffer: one writer cuts messages into chunks of at most 56 bytes and overwrites
    the slots in turn; any number of readers follow, each at its own pace, and detect with sequence
    numbers when they were overrun.

    In the step model every step is one access to shared memory: a header (one atomic word of sequence
    number and size) or one byte of a slot's data. */
module RingBuffer {
  import opened Arith

  const SLOT_BYTES: nat := 56
  const SN_LIMIT: nat := 0x1_0000_0000

  newtype byte = x: int | 0 <= x < 256

  datatype Header = Header(sn: nat, sz: nat)

  datatype Slot = Slot(h: Header, data: seq<byte>)

  datatype WriteResult = WroteOk | MsgTooBig | EmptyMsg

  datatype ReadResult = Ok(data: seq<byte>) | NoData | Loss

  /** Increment of a 32-bit word, and the 32-bit word of a count at most 2^32. */
  function Inc32(x: nat): nat { if x + 1 == SN_LIMIT then 0 else x + 1 }

  function Next(slot: nat, n: nat): nat { if slot + 1 == n then 0 else slot + 1 }

  // ---------------------------------------------------------------- chunks

  /** The chunks of a message, in order. */
  function Chunks(msg: seq<byte>): seq<seq<byte>> {
    if msg == [] then []
    else [msg[..Min(SLOT_BYTES, |msg|)]] + Chunks(msg[Min(SLOT_BYTES, |msg|)..])
  }

  function Flatten(chunks: seq<seq<byte>>): seq<byte> {
    if chunks == [] then [] else Flatten(chunks[..|chunks| - 1]) + chunks[|chunks| - 1]
  }

  lemma {:induction false} FlattenAppend(a: seq<seq<byte>>, b: seq<seq<byte>>)
    ensures Flatten(a + b) == Flatten(a) + Flatten(b)
  {
    if b == [] {
      assert a + b == a;
    } else {
      FlattenAppend(a, b[..|b| - 1]);
      assert (a + b)[..|a + b| - 1] == a + b[..|b| - 1];
    }
  }

  /** No byte is lost or moved by cutting, and every chunk fits a slot and is not empty. */
  lemma {:induction false} ChunksJoin(msg: seq<byte>)
    ensures Flatten(Chunks(msg)) == msg
    ensures forall i :: 0 <= i < |Chunks(msg)| ==> 1 <= |Chunks(msg)[i]| <= SLOT_BYTES
    ensures forall i :: 0 <= i < |Chunks(msg)| - 1 ==> |Chunks(msg)[i]| == SLOT_BYTES
    decreases |msg|
  {
    if msg != [] {
      var k := Min(SLOT_BYTES, |msg|);
      ChunksJoin(msg[k..]);
      FlattenAppend([msg[..k]], Chunks(msg[k..]));
      assert Flatten([msg[..k]]) == Flatten([]) + msg[..k];
      if k == |msg| { assert msg[k..] == []; }
    }
  }

  /** The debug build asserts that a chunk is smaller than a slot: it accepts exactly the messages of
      fewer than 56 bytes. */
  lemma DebugAccepts(msg: seq<byte>)
    ensures (forall i :: 0 <= i < |Chunks(msg)| ==> |Chunks(msg)[i]| < SLOT_BYTES) <==> |msg| < SLOT_BYTES
  {
    ChunksJoin(msg);
    if msg != [] {
      assert Chunks(msg)[0] == msg[..Min(SLOT_BYTES, |msg|)];
      if |msg| < SLOT_BYTES {
        assert msg[|msg|..] == [] && msg[..|msg|] == msg;
        assert Chunks(msg) == [msg];
      }
    }
  }

  /** The chunks of several messages, in order. */
  function AllChunks(msgs: seq<seq<byte>>): seq<seq<byte>> {
    if msgs == [] then [] else AllChunks(msgs[..|msgs| - 1]) + Chunks(msgs[|msgs| - 1])
  }

  lemma {:induction false} AllChunksJoin(msgs: seq<seq<byte>>)
    ensures Flatten(AllChunks(msgs)) == Flatten(msgs)
  {
    if msgs != [] {
      AllChunksJoin(msgs[..|msgs| - 1]);
      FlattenAppend(AllChunks(msgs[..|msgs| - 1]), Chunks(msgs[|msgs| - 1]));
      ChunksJoin(msgs[|msgs| - 1]);
    }
  }

  // ---------------------------------------------------------------- slots

  /** Slot of the chunk with sequence number sn. */
  function SlotOf(sn: int, n: nat): nat
    requires n >= 1
  {
    (sn - 1) % n
  }

  /** The slot holds the chunk with the sequence number in its header. */
  ghost predicate Holds(slot: Slot, chunks: seq<seq<byte>>) {
    && 1 <= slot.h.sn <= |chunks| && 1 <= slot.h.sz <= |slot.data|
    && chunks[slot.h.sn - 1] == slot.data[..slot.h.sz]
  }

  /** Slot j after the given chunks: not used yet, being overwritten, or holding the latest chunk that
      belongs in it. */
  ghost predicate SlotAt(slots: seq<Slot>, chunks: seq<seq<byte>>, busy: bool, j: nat)
    requires j < |slots|
  {
    var slot := slots[j];
    && |slot.data| == SLOT_BYTES
    && (slot.h.sn == 0 ==> |chunks| <= j || (busy && SlotOf(|chunks| + 1, |slots|) == j))
    && (slot.h.sn != 0 ==>
          && Holds(slot, chunks) && SlotOf(slot.h.sn, |slots|) == j && |chunks| - |slots| < slot.h.sn
          && !(busy && SlotOf(|chunks| + 1, |slots|) == j))
  }

  ghost predicate SlotsOk(slots: seq<Slot>, chunks: seq<seq<byte>>, busy: bool) {
    |slots| >= 1 && forall j :: 0 <= j < |slots| ==> SlotAt(slots, chunks, busy, j)
  }

  lemma SlotSteps(sn: int, n: nat)
    requires n >= 1
    ensures SlotOf(sn, n) < n && SlotOf(sn + 1, n) == Next(SlotOf(sn, n), n)
  {
    Euclid(sn - 1, n);
    ModEarly(sn - 1, 1, n);
    var r := SlotOf(sn, n);
    if r + 1 == n { ModUnique(r + 1, 1, 0, n); } else { ModSmall(r + 1, n); }
  }

  lemma SlotsDiffer(a: int, b: int, n: nat)
    requires n >= 1 && SlotOf(a, n) == SlotOf(b, n) && a - b < n && b - a < n
    ensures a == b
  {
    ModDistinct(a - 1, b - 1, n);
  }

  lemma FirstLap(sn: nat, n: nat)
    requires n >= 1 && sn >= 1
    ensures SlotOf(sn, n) <= sn - 1
    ensures sn <= n ==> SlotOf(sn, n) == sn - 1
  {
    Euclid(sn - 1, n);
    if sn <= n { ModSmall(sn - 1, n); }
  }

  /** Clearing the header of the slot to be overwritten. */
  lemma ClearKeeps(slots: seq<Slot>, chunks: seq<seq<byte>>)
    requires SlotsOk(slots, chunks, false)
    ensures var j := SlotOf(|chunks| + 1, |slots|);
            j < |slots| && SlotsOk(slots[j := slots[j].(h := Header(0, 0))], chunks, true)
  {
    var j := SlotOf(|chunks| + 1, |slots|);
    SlotSteps(|chunks| + 1, |slots|);
    var slots' := slots[j := slots[j].(h := Header(0, 0))];
    forall k | 0 <= k < |slots'| ensures SlotAt(slots', chunks, true, k) { assert SlotAt(slots, chunks, false, k); }
  }

  /** Writing a byte into the slot whose header is cleared. */
  lemma CopyKeeps(slots: seq<Slot>, chunks: seq<seq<byte>>, i: nat, b: byte)
    requires SlotsOk(slots, chunks, true) && i < SLOT_BYTES
    ensures var j := SlotOf(|chunks| + 1, |slots|);
            && j < |slots| && |slots[j].data| == SLOT_BYTES && slots[j].h.sn == 0
            && SlotsOk(slots[j := slots[j].(data := slots[j].data[i := b])], chunks, true)
  {
    var j := SlotOf(|chunks| + 1, |slots|);
    SlotSteps(|chunks| + 1, |slots|);
    assert SlotAt(slots, chunks, true, j);
    var slots' := slots[j := slots[j].(data := slots[j].data[i := b])];
    forall k | 0 <= k < |slots'| ensures SlotAt(slots', chunks, true, k) { assert SlotAt(slots, chunks, true, k); }
  }

  /** Storing the header of the finished chunk. */
  lemma PublishKeeps(slots: seq<Slot>, chunks: seq<seq<byte>>, chunk: seq<byte>)
    requires SlotsOk(slots, chunks, true) && 1 <= |chunk| <= SLOT_BYTES
    requires var j := SlotOf(|chunks| + 1, |slots|);
             j < |slots| && |slots[j].data| == SLOT_BYTES && slots[j].data[..|chunk|] == chunk
    ensures var j := SlotOf(|chunks| + 1, |slots|);
            SlotsOk(slots[j := slots[j].(h := Header(|chunks| + 1, |chunk|))], chunks + [chunk], false)
  {
    var j := SlotOf(|chunks| + 1, |slots|);
    var slots' := slots[j := slots[j].(h := Header(|chunks| + 1, |chunk|))];
    forall k | 0 <= k < |slots'| ensures SlotAt(slots', chunks + [chunk], false, k) {
      PublishKeepsSlot(slots, chunks, chunk, k);
    }
  }

  lemma PublishKeepsSlot(slots: seq<Slot>, chunks: seq<seq<byte>>, chunk: seq<byte>, k: nat)
    requires SlotsOk(slots, chunks, true) && 1 <= |chunk| <= SLOT_BYTES && k < |slots|
    requires var j := SlotOf(|chunks| + 1, |slots|);
             j < |slots| && |slots[j].data| == SLOT_BYTES && slots[j].data[..|chunk|] == chunk
    ensures var j := SlotOf(|chunks| + 1, |slots|);
            SlotAt(slots[j := slots[j].(h := Header(|chunks| + 1, |chunk|))], chunks + [chunk], false, k)
  {
    var j := SlotOf(|chunks| + 1, |slots|);
    assert SlotAt(slots, chunks, true, k);
    if k == j {
      PublishedSlot(slots, chunks, chunk, j);
    } else {
      OtherIsLater(slots, chunks, k);
      OtherSlot(slots, chunks, chunk, j, k);
    }
  }

  lemma PublishedSlot(slots: seq<Slot>, chunks: seq<seq<byte>>, chunk: seq<byte>, j: nat)
    requires 1 <= |chunk| <= SLOT_BYTES && j < |slots| && j == SlotOf(|chunks| + 1, |slots|)
    requires |slots[j].data| == SLOT_BYTES && slots[j].data[..|chunk|] == chunk
    ensures SlotAt(slots[j := slots[j].(h := Header(|chunks| + 1, |chunk|))], chunks + [chunk], false, j)
  {
  }

  /** A slot other than the one being written is not about to be overtaken. */
  lemma OtherIsLater(slots: seq<Slot>, chunks: seq<seq<byte>>, k: nat)
    requires k < |slots| && SlotAt(slots, chunks, true, k) && k != SlotOf(|chunks| + 1, |slots|)
    ensures slots[k].h.sn == 0 ==> |chunks| + 1 <= k
    ensures slots[k].h.sn != 0 ==> |chunks| + 1 - |slots| < slots[k].h.sn
  {
    var n, sn := |slots|, slots[k].h.sn;
    if sn == |chunks| + 1 - n { ModTurns(sn - 1, 1, n); }
    if |chunks| < n { FirstLap(|chunks| + 1, n); }
  }

  lemma OtherSlot(slots: seq<Slot>, chunks: seq<seq<byte>>, chunk: seq<byte>, j: nat, k: nat)
    requires j < |slots| && k < |slots| && j != k && SlotAt(slots, chunks, true, k)
    requires slots[k].h.sn == 0 ==> |chunks| + 1 <= k
    requires slots[k].h.sn != 0 ==> |chunks| + 1 - |slots| < slots[k].h.sn
    ensures SlotAt(slots[j := slots[j].(h := Header(|chunks| + 1, |chunk|))], chunks + [chunk], false, k)
  {
  }

  // ---------------------------------------------------------------- what a header tells a reader

  /** The header of a slot that is not being overwritten tells whether the chunk expected is there. */
  lemma HeaderTells(slots: seq<Slot>, chunks: seq<seq<byte>>, busy: bool, e: nat)
    requires SlotsOk(slots, chunks, busy) && 1 <= e <= |chunks| + 1
    requires !(busy && SlotOf(|chunks| + 1, |slots|) == SlotOf(e, |slots|))
    ensures var j := SlotOf(e, |slots|);
            && j < |slots|
            && (slots[j].h.sn == e <==> |chunks| - |slots| < e <= |chunks|)
            && (slots[j].h.sn == 0 <==> e == |chunks| + 1 && |chunks| < |slots|)
            && (slots[j].h.sn == e ==> slots[j].h.sz == |chunks[e - 1]| >= 1)
  {
    var n := |slots|;
    var j := SlotOf(e, n);
    SlotSteps(e, n);
    assert SlotAt(slots, chunks, busy, j);
    FirstLap(e, n);
    var sn := slots[j].h.sn;
    if |chunks| - n < e <= |chunks| { SlotsDiffer(e, sn, n); }
  }

  /** What the header of its slot tells a reader that expects chunk e, when no chunk is being written:
      the chunk if it is among the last |slots|, nothing if it comes next and the buffer has not wrapped,
      and a loss otherwise, even for a reader that has missed nothing. */
  lemma Classified(slots: seq<Slot>, chunks: seq<seq<byte>>, e: nat)
    requires SlotsOk(slots, chunks, false) && 1 <= e <= |chunks| + 1
    ensures var j := SlotOf(e, |slots|);
            && j < |slots|
            && (slots[j].h.sn == e <==> |chunks| - |slots| < e <= |chunks|)
            && (slots[j].h.sn == 0 <==> e == |chunks| + 1 && |chunks| < |slots|)
  {
    HeaderTells(slots, chunks, false, e);
  }

  // ---------------------------------------------------------------- steps of the writer and the readers

  datatype Writer =
    | WDone(r: WriteResult)
    | WClear(rest: seq<byte>)
    | WCopy(chunk: seq<byte>, k: nat, rest: seq<byte>)

  datatype ReaderPc =
    | RDone(r: ReadResult)
    | RHeader(buf: seq<byte>)
    | RCopy(h: Header, buf: seq<byte>, k: nat)
    | RCheck(h: Header, buf: seq<byte>)

  /** `got` records the data of the reads that returned OK and is never read by the code. */
  datatype Reader = Reader(expected: nat, slot: nat, pc: ReaderPc, got: seq<seq<byte>>)

  /** `chunks` records the chunks published and `sent` the messages accepted; neither is read by the
      code. */
  datatype State = State(
    slots: seq<Slot>, wsn: nat, wslot: nat, w: Writer, r: seq<Reader>,
    chunks: seq<seq<byte>>, sent: seq<seq<byte>>)

  datatype Action = StartWrite(msg: seq<byte>) | Write | StartRead(t: nat) | Read(t: nat)

  function StartWriteStep(s: State, msg: seq<byte>): State {
    if |msg| > |s.slots| * SLOT_BYTES then s.(w := WDone(MsgTooBig))
    else if msg == [] then s.(w := WDone(EmptyMsg))
    else s.(w := WClear(msg), sent := s.sent + [msg])
  }

  predicate Shaped(s: State) {
    && s.wslot < |s.slots|
    && (forall j :: 0 <= j < |s.slots| ==> |s.slots[j].data| == SLOT_BYTES)
    && (s.w.WCopy? ==> s.w.k <= |s.w.chunk| <= SLOT_BYTES)
    && (forall t :: 0 <= t < |s.r| ==> s.r[t].slot < |s.slots|)
  }

  function WriteStep(s: State): State
    requires Shaped(s)
  {
    var slot := s.slots[s.wslot];
    match s.w
    case WDone(_) => s
    case WClear(rest) =>
      var k := Min(SLOT_BYTES, |rest|);
      s.(slots := s.slots[s.wslot := slot.(h := Header(0, 0))], w := WCopy(rest[..k], 0, rest[k..]))
    case WCopy(chunk, k, rest) =>
      if k < |chunk| then
        s.(slots := s.slots[s.wslot := slot.(data := slot.data[k := chunk[k]])], w := WCopy(chunk, k + 1, rest))
      else
        s.(slots := s.slots[s.wslot := slot.(h := Header(s.wsn, |chunk|))],
           wsn := Inc32(s.wsn), wslot := Next(s.wslot, |s.slots|), chunks := s.chunks + [chunk],
           w := if rest == [] then WDone(WroteOk) else WClear(rest))
  }

  function ReadStep(r: Reader, slots: seq<Slot>): Reader
    requires r.slot < |slots|
  {
    var slot := slots[r.slot];
    match r.pc
    case RDone(_) => r
    case RHeader(buf) =>
      if slot.h.sn == 0 then r.(pc := RDone(NoData))
      else if slot.h.sn != r.expected then r.(pc := RDone(Loss))
      else r.(pc := RCopy(slot.h, buf, 0))
    case RCopy(h, buf, k) =>
      if k < (if h.sz != 0 then h.sz else SLOT_BYTES) && k < |slot.data|
      then r.(pc := RCopy(h, buf + [slot.data[k]], k + 1))
      else r.(pc := RCheck(h, buf))
    case RCheck(h, buf) =>
      if h.sn != slot.h.sn then r.(pc := RDone(Loss))
      else if slot.h.sz != 0
      then Reader(Inc32(r.expected), Next(r.slot, |slots|), RDone(Ok(buf)), r.got + [buf])
      else r.(pc := RHeader(buf))
  }

  function Do(s: State, act: Action): State {
    match act
    case StartWrite(msg) => if s.w.WDone? then StartWriteStep(s, msg) else s
    case Write => if Shaped(s) then WriteStep(s) else s
    case StartRead(t) => if t < |s.r| && s.r[t].pc.RDone? then s.(r := s.r[t := s.r[t].(pc := RHeader([]))]) else s
    case Read(t) => if t < |s.r| && Shaped(s) then s.(r := s.r[t := ReadStep(s.r[t], s.slots)]) else s
  }

  function Run(s: State, schedule: seq<Action>): State {
    if schedule == [] then s else Do(Run(s, schedule[..|schedule| - 1]), schedule[|schedule| - 1])
  }

  function Start(n: nat, readers: nat): State {
    State(seq(n, i => Slot(Header(0, 0), Zeros())), 1, 0, WDone(WroteOk),
          seq(readers, i => Reader(1, 0, RDone(NoData), [])), [], [])
  }

  function Zeros(): (r: seq<byte>)
    ensures |r| == SLOT_BYTES
  {
    seq(SLOT_BYTES, i => 0 as byte)
  }

  // ---------------------------------------------------------------- the invariant

  ghost predicate WriterOk(s: State) {
    && s.wsn == (if |s.chunks| + 1 == SN_LIMIT then 0 else |s.chunks| + 1)
    && |s.slots| >= 1 && s.wslot == SlotOf(|s.chunks| + 1, |s.slots|) < |s.slots|
    && SlotsOk(s.slots, s.chunks, s.w.WCopy?)
    && match s.w
       case WDone(_) => AllChunks(s.sent) == s.chunks
       case WClear(rest) => rest != [] && AllChunks(s.sent) == s.chunks + Chunks(rest)
       case WCopy(chunk, k, rest) =>
         && 1 <= |chunk| <= SLOT_BYTES && k <= |chunk| && AllChunks(s.sent) == s.chunks + [chunk] + Chunks(rest)
         && |s.slots[s.wslot].data| == SLOT_BYTES && s.slots[s.wslot].data[..k] == chunk[..k]
  }

  /** A reader has got a prefix of the chunks. What it has copied is good as long as the header of the
      slot still has the sequence number it saw. */
  ghost predicate ReaderOk(s: State, r: Reader)
    requires |s.slots| >= 1
  {
    var n := |r.got|;
    && n <= |s.chunks| && r.got == s.chunks[..n]
    && r.expected == (if n + 1 == SN_LIMIT then 0 else n + 1) && r.slot == SlotOf(n + 1, |s.slots|) < |s.slots|
    && match r.pc
       case RDone(result) => result.Ok? ==> n > 0 && result.data == r.got[n - 1]
       case RHeader(buf) => buf == []
       case RCopy(h, buf, k) =>
         && h.sn == n + 1 <= |s.chunks| && h.sz == |s.chunks[n]| && 1 <= h.sz <= SLOT_BYTES && k <= h.sz
         && (s.slots[r.slot].h.sn == h.sn ==> buf == s.chunks[n][..k])
       case RCheck(h, buf) =>
         && h.sn == n + 1 <= |s.chunks| && (s.slots[r.slot].h.sn == h.sn ==> buf == s.chunks[n])
  }

  ghost predicate Inv(s: State) {
    && WriterOk(s)
    && (forall t :: 0 <= t < |s.r| ==> ReaderOk(s, s.r[t]))
  }

  lemma InvShaped(s: State)
    requires Inv(s)
    ensures Shaped(s)
  {
    forall j | 0 <= j < |s.slots| ensures |s.slots[j].data| == SLOT_BYTES {
      assert SlotAt(s.slots, s.chunks, s.w.WCopy?, j);
    }
  }

  // ---------------------------------------------------------------- the writer keeps the invariant

  lemma ClearStepKeeps(s: State, rest: seq<byte>)
    requires Inv(s) && Shaped(s) && s.w == WClear(rest)
    ensures WriterOk(WriteStep(s))
  {
    ClearKeeps(s.slots, s.chunks);
  }

  lemma CopyStepKeeps(s: State, chunk: seq<byte>, k: nat, rest: seq<byte>)
    requires Inv(s) && Shaped(s) && s.w == WCopy(chunk, k, rest) && k < |chunk|
    ensures WriterOk(WriteStep(s))
  {
    CopyKeeps(s.slots, s.chunks, k, chunk[k]);
    var data := s.slots[s.wslot].data;
    assert data[k := chunk[k]][..k + 1] == data[..k] + [chunk[k]];
    assert chunk[..k + 1] == chunk[..k] + [chunk[k]];
  }

  lemma PublishStepKeeps(s: State, chunk: seq<byte>, k: nat, rest: seq<byte>)
    requires Inv(s) && Shaped(s) && s.w == WCopy(chunk, k, rest) && k == |chunk| && |s.chunks| + 1 < SN_LIMIT
    ensures WriterOk(WriteStep(s))
  {
    assert chunk[..k] == chunk;
    PublishKeeps(s.slots, s.chunks, chunk);
    SlotSteps(|s.chunks| + 1, |s.slots|);
  }

  lemma WriteKeepsReader(s: State, r: Reader)
    requires Inv(s) && Shaped(s) && ReaderOk(s, r) && |WriteStep(s).chunks| < SN_LIMIT
    ensures ReaderOk(WriteStep(s), r)
  {
  }

  lemma WriteKeeps(s: State)
    requires Inv(s) && Shaped(s) && |WriteStep(s).chunks| < SN_LIMIT
    ensures Inv(WriteStep(s))
  {
    match s.w
    case WDone(_) =>
    case WClear(rest) => ClearStepKeeps(s, rest);
    case WCopy(chunk, k, rest) =>
      if k < |chunk| { CopyStepKeeps(s, chunk, k, rest); } else { PublishStepKeeps(s, chunk, k, rest); }
    forall t | 0 <= t < |s.r| ensures ReaderOk(WriteStep(s), WriteStep(s).r[t]) { WriteKeepsReader(s, s.r[t]); }
  }

  // ---------------------------------------------------------------- the readers keep the invariant

  lemma ReadKeepsReader(s: State, r: Reader)
    requires Inv(s) && Shaped(s) && ReaderOk(s, r) && |s.chunks| < SN_LIMIT
    ensures ReaderOk(s, ReadStep(r, s.slots))
  {
    var n := |r.got|;
    assert SlotAt(s.slots, s.chunks, s.w.WCopy?, r.slot);
    match r.pc
    case RDone(_) =>
    case RHeader(_) =>
    case RCopy(h, buf, k) =>
      if k < h.sz {
        assert s.chunks[n][..k + 1] == s.chunks[n][..k] + [s.chunks[n][k]];
      } else {
        assert s.chunks[n][..k] == s.chunks[n];
      }
    case RCheck(h, buf) =>
      SlotSteps(n + 1, |s.slots|);
      if n < |s.chunks| { assert s.chunks[..n + 1] == s.chunks[..n] + [s.chunks[n]]; }
  }

  lemma StartWriteKeeps(s: State, msg: seq<byte>)
    requires Inv(s) && s.w.WDone?
    ensures Inv(StartWriteStep(s, msg))
  {
    var s' := StartWriteStep(s, msg);
    assert (s.sent + [msg])[..|s.sent|] == s.sent;
    forall t | 0 <= t < |s.r| ensures ReaderOk(s', s'.r[t]) { assert ReaderOk(s, s.r[t]); }
  }

  lemma ReaderKeeps(s: State, t: nat, r': Reader)
    requires Inv(s) && t < |s.r| && ReaderOk(s, r')
    ensures Inv(s.(r := s.r[t := r']))
  {
    var s' := s.(r := s.r[t := r']);
    forall u | 0 <= u < |s.r| ensures ReaderOk(s', s'.r[u]) { assert ReaderOk(s, s'.r[u]); }
  }

  lemma DoKeeps(s: State, act: Action)
    requires Inv(s) && |Do(s, act).chunks| < SN_LIMIT
    ensures Inv(Do(s, act))
  {
    InvShaped(s);
    match act
    case StartWrite(msg) => if s.w.WDone? { StartWriteKeeps(s, msg); }
    case Write => WriteKeeps(s);
    case StartRead(t) => if t < |s.r| && s.r[t].pc.RDone? { ReaderKeeps(s, t, s.r[t].(pc := RHeader([]))); }
    case Read(t) =>
      if t < |s.r| {
        ReadKeepsReader(s, s.r[t]);
        ReaderKeeps(s, t, ReadStep(s.r[t], s.slots));
      }
  }

  lemma StartInv(n: nat, readers: nat)
    requires n >= 1
    ensures Inv(Start(n, readers))
  {
    FirstLap(1, n);
    var s := Start(n, readers);
    forall j | 0 <= j < n ensures SlotAt(s.slots, s.chunks, false, j) {}
  }

  lemma ChunksGrow(s: State, act: Action)
    ensures s.chunks <= Do(s, act).chunks && |Do(s, act).r| == |s.r| && |Do(s, act).slots| == |s.slots|
  {
  }

  lemma {:induction false} RunInv(n: nat, readers: nat, schedule: seq<Action>)
    requires n >= 1 && |Run(Start(n, readers), schedule).chunks| < SN_LIMIT
    ensures Inv(Run(Start(n, readers), schedule))
  {
    if schedule == [] {
      StartInv(n, readers);
    } else {
      var k := |schedule| - 1;
      ChunksGrow(Run(Start(n, readers), schedule[..k]), schedule[k]);
      RunInv(n, readers, schedule[..k]);
      DoKeeps(Run(Start(n, readers), schedule[..k]), schedule[k]);
    }
  }

  // ---------------------------------------------------------------- no torn reads

  /** The reads that returned OK are the first chunks written, whole and in order, and the chunks
      written are those of the messages accepted. */
  ghost predicate Faithful(s: State, r: Reader) {
    && r.got <= s.chunks <= AllChunks(s.sent)
    && Flatten(r.got) <= Flatten(s.sent)
    && (r.pc.RDone? && r.pc.r.Ok? ==> r.got != [] && r.pc.r.data == r.got[|r.got| - 1])
  }

  lemma InvFaithful(s: State, r: Reader)
    requires Inv(s) && ReaderOk(s, r)
    ensures Faithful(s, r)
  {
    assert s.chunks <= AllChunks(s.sent);
    AllChunksJoin(s.sent);
    PrefixFlattens(r.got, AllChunks(s.sent));
  }

  lemma PrefixFlattens(a: seq<seq<byte>>, b: seq<seq<byte>>)
    requires a <= b
    ensures Flatten(a) <= Flatten(b)
  {
    FlattenAppend(a, b[|a|..]);
    assert a + b[|a|..] == b;
  }

  /** In every interleaving, byte by byte, of the writer and any number of readers, over fewer than
      2^32 chunks. */
  lemma NoTornReads(n: nat, readers: nat, schedule: seq<Action>, t: nat)
    requires n >= 1 && |Run(Start(n, readers), schedule).chunks| < SN_LIMIT
    ensures var s := Run(Start(n, readers), schedule); t < |s.r| ==> Faithful(s, s.r[t])
  {
    var s := Run(Start(n, readers), schedule);
    RunInv(n, readers, schedule);
    if t < |s.r| { InvFaithful(s, s.r[t]); }
  }

  // ---------------------------------------------------------------- a read with no write in progress

  function ReadSteps(r: Reader, slots: seq<Slot>, k: nat): Reader
    requires r.slot < |slots|
    decreases k
  {
    if k == 0 || ReadStep(r, slots).slot >= |slots| then r else ReadSteps(ReadStep(r, slots), slots, k - 1)
  }

  /** The result of a read that expects chunk e, when the writer is idle. */
  function Expected(chunks: seq<seq<byte>>, n: nat, e: nat): ReadResult
    requires e >= 1
  {
    if |chunks| - n < e <= |chunks| then Ok(chunks[e - 1])
    else if e == |chunks| + 1 && |chunks| < n then NoData
    else Loss
  }

  lemma {:induction false} CopyRuns(r: Reader, slots: seq<Slot>, chunk: seq<byte>, k: nat, more: nat)
    requires r.slot < |slots| && Next(r.slot, |slots|) < |slots|
    requires var h := slots[r.slot].h;
             && h.sn != 0 && 1 <= h.sz == |chunk| <= |slots[r.slot].data| && slots[r.slot].data[..h.sz] == chunk
             && k <= h.sz && r.pc == RCopy(h, chunk[..k], k) && more >= h.sz - k + 2
    ensures ReadSteps(r, slots, more)
         == Reader(Inc32(r.expected), Next(r.slot, |slots|), RDone(Ok(chunk)), r.got + [chunk])
    decreases |chunk| - k
  {
    var h := slots[r.slot].h;
    var r1 := ReadStep(r, slots);
    if k < h.sz {
      assert chunk[..k + 1] == chunk[..k] + [chunk[k]];
      CopyRuns(r1, slots, chunk, k + 1, more - 1);
    } else {
      assert chunk[..k] == chunk;
      var r2 := ReadStep(r1, slots);
      assert r2 == Reader(Inc32(r.expected), Next(r.slot, |slots|), RDone(Ok(chunk)), r.got + [chunk]);
      DoneStays(r2, slots, more - 2);
    }
  }

  lemma DoneStays(r: Reader, slots: seq<Slot>, k: nat)
    requires r.slot < |slots| && r.pc.RDone?
    ensures ReadSteps(r, slots, k) == r
  {
  }

  /** Reader t starts a read and takes k steps, and nobody else moves. */
  function ReadAlone(s: State, t: nat, k: nat): State { Reads(Do(s, StartRead(t)), t, k) }

  function Reads(s: State, t: nat, k: nat): State
    decreases k
  {
    if k == 0 then s else Reads(Do(s, Read(t)), t, k - 1)
  }

  lemma {:induction false} ReadsAre(s: State, t: nat, k: nat)
    requires Shaped(s) && t < |s.r| && forall r: Reader :: r.slot < |s.slots| ==> ReadStep(r, s.slots).slot < |s.slots|
    ensures |Reads(s, t, k).r| == |s.r| && Reads(s, t, k).r[t] == ReadSteps(s.r[t], s.slots, k)
    decreases k
  {
    if k > 0 { ReadsAre(Do(s, Read(t)), t, k - 1); }
  }

  lemma NextWithin(slots: seq<Slot>)
    requires slots != []
    ensures forall r: Reader :: r.slot < |slots| ==> ReadStep(r, slots).slot < |slots|
  {
  }

  /** Over every history of writes and reads: what a read returns when no write is in progress. */
  lemma ReadClassified(n: nat, readers: nat, schedule: seq<Action>, t: nat, k: nat)
    requires n >= 1 && |Run(Start(n, readers), schedule).chunks| < SN_LIMIT && k >= SLOT_BYTES + 3
    ensures var s := Run(Start(n, readers), schedule);
            t < |s.r| && s.w.WDone? && s.r[t].pc.RDone? ==>
              && |ReadAlone(s, t, k).r| == |s.r|
              && ReadAlone(s, t, k).r[t].pc == RDone(Expected(s.chunks, n, |s.r[t].got| + 1))
  {
    var s := Run(Start(n, readers), schedule);
    RunInv(n, readers, schedule);
    RunSize(n, readers, schedule);
    if t < |s.r| && s.w.WDone? && s.r[t].pc.RDone? {
      ReadRuns(s, s.r[t], k);
      ReaderKeeps(s, t, s.r[t].(pc := RHeader([])));
      InvShaped(Do(s, StartRead(t)));
      NextWithin(s.slots);
      ReadsAre(Do(s, StartRead(t)), t, k);
    }
  }

  lemma {:induction false} RunSize(n: nat, readers: nat, schedule: seq<Action>)
    ensures |Run(Start(n, readers), schedule).slots| == n
  {
    if schedule != [] { RunSize(n, readers, schedule[..|schedule| - 1]); }
  }

  lemma ReadRuns(s: State, r: Reader, k: nat)
    requires Inv(s) && s.w.WDone? && ReaderOk(s, r) && |s.chunks| < SN_LIMIT && k >= SLOT_BYTES + 3
    ensures ReadSteps(r.(pc := RHeader([])), s.slots, k).pc == RDone(Expected(s.chunks, |s.slots|, |r.got| + 1))
  {
    var r0 := r.(pc := RHeader([]));
    var r1 := ReadStep(r0, s.slots);
    Classified(s.slots, s.chunks, |r.got| + 1);
    assert SlotAt(s.slots, s.chunks, false, r.slot);
    if r1.pc.RDone? {
      DoneStays(r1, s.slots, k - 1);
    } else {
      CopyRuns(r1, s.slots, s.chunks[|r.got|], 0, k - 1);
    }
  }

  // ---------------------------------------------------------------- what a read returns at any moment

  /** The chunk that reader r expects is being overwritten, or is about to be written there. */
  predicate Overwritten(s: State, r: Reader) { s.w.WCopy? && s.wslot == r.slot }

  /** And is among those that the slots hold. */
  predicate Available(s: State, r: Reader) {
    !Overwritten(s, r) && |s.chunks| - |s.slots| <= |r.got| < |s.chunks|
  }

  lemma OverwrittenHeader(slots: seq<Slot>, chunks: seq<seq<byte>>, j: nat)
    requires SlotsOk(slots, chunks, true) && j < |slots| && j == SlotOf(|chunks| + 1, |slots|)
    ensures slots[j].h.sn == 0
  {
    assert SlotAt(slots, chunks, true, j);
  }

  /** The next access of reader r: what it answers, and why. */
  ghost predicate Answers(s: State, r: Reader, r': Reader) {
    match r.pc
    case RDone(_) => r' == r
    case RHeader(_) =>
      && (r'.pc.RCopy? <==> Available(s, r))
      && (r'.pc == RDone(NoData) <==> Overwritten(s, r) || (|r.got| == |s.chunks| < |s.slots|))
      && (r'.pc.RCopy? || r'.pc == RDone(NoData) || r'.pc == RDone(Loss)) && r'.got == r.got
    case RCopy(_, _, _) => !r'.pc.RDone? && r'.got == r.got
    case RCheck(_, _) =>
      if Available(s, r) then r'.pc == RDone(Ok(s.chunks[|r.got|])) && r'.got == r.got + [s.chunks[|r.got|]]
      else r'.pc == RDone(Loss) && r'.got == r.got
  }

  lemma HeaderAnswers(s: State, r: Reader)
    requires Inv(s) && ReaderOk(s, r) && |s.chunks| < SN_LIMIT && r.pc.RHeader?
    ensures Answers(s, r, ReadStep(r, s.slots))
  {
    if Overwritten(s, r) {
      OverwrittenHeader(s.slots, s.chunks, r.slot);
    } else {
      HeaderTells(s.slots, s.chunks, s.w.WCopy?, |r.got| + 1);
    }
  }

  lemma CheckAnswers(s: State, r: Reader)
    requires Inv(s) && ReaderOk(s, r) && |s.chunks| < SN_LIMIT && r.pc.RCheck?
    ensures Answers(s, r, ReadStep(r, s.slots))
  {
    if Overwritten(s, r) {
      OverwrittenHeader(s.slots, s.chunks, r.slot);
    } else {
      HeaderTells(s.slots, s.chunks, s.w.WCopy?, |r.got| + 1);
    }
  }

  /** In every interleaving, at every access: a read reports no data exactly if it finds its slot being
      overwritten or not yet used, it goes on to copy exactly if the chunk is there, and when it has copied it
      returns the chunk exactly if it is still there, and a loss otherwise. */
  lemma ReadAnswers(n: nat, readers: nat, schedule: seq<Action>, t: nat)
    requires n >= 1 && |Run(Start(n, readers), schedule).chunks| < SN_LIMIT
    ensures var s := Run(Start(n, readers), schedule);
            t < |s.r| ==> |Do(s, Read(t)).r| == |s.r| && Answers(s, s.r[t], Do(s, Read(t)).r[t])
  {
    var s := Run(Start(n, readers), schedule);
    RunInv(n, readers, schedule);
    InvShaped(s);
    if t < |s.r| {
      assert ReaderOk(s, s.r[t]);
      if s.r[t].pc.RHeader? { HeaderAnswers(s, s.r[t]); }
      if s.r[t].pc.RCheck? { CheckAnswers(s, s.r[t]); }
    }
  }

  /** Steps left in a read. */
  function ReadLeft(pc: ReaderPc): int {
    match pc
    case RDone(_) => 0
    case RHeader(_) => SLOT_BYTES + 3
    case RCopy(h, _, k) => h.sz - k + 2
    case RCheck(_, _) => 1
  }

  /** A read ends after a bounded number of its own steps, whatever the writer does. */
  lemma ReadWaitFree(s: State, r: Reader)
    requires Inv(s) && ReaderOk(s, r) && |s.chunks| < SN_LIMIT && !r.pc.RDone?
    ensures 0 <= ReadLeft(ReadStep(r, s.slots).pc) < ReadLeft(r.pc) <= SLOT_BYTES + 3
  {
    if r.pc.RHeader? && ReadStep(r, s.slots).pc.RCopy? { HeaderSize(s, r); }
    if r.pc.RCheck? { CheckAnswers(s, r); }
  }

  lemma HeaderSize(s: State, r: Reader)
    requires Inv(s) && ReaderOk(s, r) && |s.chunks| < SN_LIMIT && r.pc.RHeader? && ReadStep(r, s.slots).pc.RCopy?
    ensures 1 <= ReadStep(r, s.slots).pc.h.sz <= SLOT_BYTES
  {
    assert SlotAt(s.slots, s.chunks, s.w.WCopy?, r.slot);
  }

  // ---------------------------------------------------------------- what a write returns

  /** The last message passed to `write`, and the chunks and messages before it. */
  datatype Wrote = NoWrite | Wrote(msg: seq<byte>, chunks: seq<seq<byte>>, sent: seq<seq<byte>>)

  function LastWrite(s: State, schedule: seq<Action>): Wrote {
    if schedule == [] then NoWrite
    else
      var before, act := Run(s, schedule[..|schedule| - 1]), schedule[|schedule| - 1];
      if act.StartWrite? && before.w.WDone? then Wrote(act.msg, before.chunks, before.sent)
      else LastWrite(s, schedule[..|schedule| - 1])
  }

  /** What the writer of that message has published, and what it returns. */
  ghost predicate Writes(s: State, last: Wrote) {
    last.Wrote? ==>
      match s.w
      case WDone(r) =>
        && r == (if |last.msg| > |s.slots| * SLOT_BYTES then MsgTooBig else if last.msg == [] then EmptyMsg else WroteOk)
        && s.chunks == last.chunks + (if r == WroteOk then Chunks(last.msg) else [])
        && s.sent == last.sent + (if r == WroteOk then [last.msg] else [])
      case WClear(rest) => Fits(s, last) && rest != [] && s.chunks + Chunks(rest) == last.chunks + Chunks(last.msg)
      case WCopy(chunk, _, rest) => Fits(s, last) && s.chunks + [chunk] + Chunks(rest) == last.chunks + Chunks(last.msg)
  }

  ghost predicate Fits(s: State, last: Wrote)
    requires last.Wrote?
  {
    0 < |last.msg| <= |s.slots| * SLOT_BYTES && s.sent == last.sent + [last.msg]
  }

  lemma WriteWrites(s: State, last: Wrote)
    requires Shaped(s) && Writes(s, last)
    ensures Writes(WriteStep(s), last)
  {
    match s.w
    case WDone(_) =>
    case WClear(rest) =>
      var k := Min(SLOT_BYTES, |rest|);
      if last.Wrote? { assert s.chunks + [rest[..k]] + Chunks(rest[k..]) == s.chunks + Chunks(rest); }
    case WCopy(chunk, k, rest) => if k >= |chunk| && rest == [] { assert Chunks(rest) == []; }
  }

  /** In every interleaving: a write that has returned refused its message exactly if it was too big or empty,
      and otherwise published exactly its chunks. */
  lemma {:induction false} WriteAnswers(n: nat, readers: nat, schedule: seq<Action>)
    requires n >= 1
    ensures Writes(Run(Start(n, readers), schedule), LastWrite(Start(n, readers), schedule))
  {
    if schedule != [] {
      var k, s0 := |schedule| - 1, Start(n, readers);
      WriteAnswers(n, readers, schedule[..k]);
      if Shaped(Run(s0, schedule[..k])) { WriteWrites(Run(s0, schedule[..k]), LastWrite(s0, schedule[..k])); }
    }
  }

  /** Steps left in a write. */
  function WriteLeft(w: Writer): int {
    match w
    case WDone(_) => 0
    case WClear(rest) => 3 * |rest|
    case WCopy(chunk, k, rest) => |chunk| - k + 1 + 3 * |rest|
  }

  lemma WriteWaitFree(s: State)
    requires Inv(s) && Shaped(s) && !s.w.WDone?
    ensures 0 <= WriteLeft(WriteStep(s).w) < WriteLeft(s.w)
  {
  }

  // ---------------------------------------------------------------- the objects

  /** The buffer in memory, and its writer. */
  class Buffer {
    var slots: seq<Slot>
    var currentSlot: nat
    var currentSn: nat
    ghost var chunks: seq<seq<byte>>

    ghost predicate Valid()
      reads this
    {
      && SlotsOk(slots, chunks, false) && |chunks| < SN_LIMIT
      && currentSlot == SlotOf(|chunks| + 1, |slots|)
      && currentSn == if |chunks| + 1 == SN_LIMIT then 0 else |chunks| + 1
    }

    constructor (n: nat)
      requires n >= 1
      ensures Valid() && |slots| == n && chunks == []
    {
      slots := seq(n, i => Slot(Header(0, 0), Zeros()));
      currentSlot, currentSn, chunks := 0, 1, [];
      FirstLap(1, n);
    }

    method Write(msg: seq<byte>) returns (r: WriteResult)
      requires Valid() && |chunks| + |Chunks(msg)| < SN_LIMIT
      modifies this
      ensures Valid() && |slots| == old(|slots|)
      ensures r == if |msg| > |slots| * SLOT_BYTES then MsgTooBig else if msg == [] then EmptyMsg else WroteOk
      ensures chunks == old(chunks) + if r == WroteOk then Chunks(msg) else []
      ensures r != WroteOk ==> slots == old(slots)
    {
      if |msg| > |slots| * SLOT_BYTES { return MsgTooBig; }
      if msg == [] { return EmptyMsg; }
      var at := 0;
      assert msg[0..] == msg;
      while at != |msg|
        invariant 0 <= at <= |msg| && Valid() && |slots| == old(|slots|)
        invariant |chunks| + |Chunks(msg[at..])| < SN_LIMIT
        invariant chunks + Chunks(msg[at..]) == old(chunks) + Chunks(msg)
      {
        var k := Min(SLOT_BYTES, |msg| - at);
        assert msg[at..][..k] == msg[at..at + k] && msg[at..][k..] == msg[at + k..];
        Update(msg[at..at + k]);
        at := at + k;
      }
      assert msg[at..] == [];
      r := WroteOk;
    }

    /** Overwrites the current slot and moves on. */
    method Update(d: seq<byte>)
      requires Valid() && 1 <= |d| <= SLOT_BYTES && |chunks| + 1 < SN_LIMIT
      modifies this
      ensures Valid() && |slots| == old(|slots|) && chunks == old(chunks) + [d]
    {
      var n, j := |slots|, currentSlot;
      ClearKeeps(slots, chunks);
      assert SlotAt(slots, chunks, false, j);
      slots := slots[j := slots[j].(h := Header(0, 0))];
      var i := 0;
      while i != |d|
        invariant 0 <= i <= |d| && |slots| == n && SlotsOk(slots, chunks, true)
        invariant currentSlot == j < n && |slots[j].data| == SLOT_BYTES && slots[j].data[..i] == d[..i]
        invariant chunks == old(chunks) && currentSn == old(currentSn)
      {
        CopyKeeps(slots, chunks, i, d[i]);
        slots := slots[j := slots[j].(data := slots[j].data[i := d[i]])];
        i := i + 1;
      }
      PublishKeeps(slots, chunks, d);
      SlotSteps(|chunks| + 1, n);
      slots := slots[j := slots[j].(h := Header(currentSn, |d|))];
      chunks := chunks + [d];
      currentSn := Inc32(currentSn);
      currentSlot := Next(currentSlot, n);
    }
  }

  class BufferReader {
    const buffer: Buffer
    var expected: nat
    var slot: nat
    /** Chunks read so far. */
    ghost var count: nat

    ghost predicate Valid()
      reads this, buffer
    {
      && buffer.Valid() && count <= |buffer.chunks|
      && expected == (if count + 1 == SN_LIMIT then 0 else count + 1)
      && slot == SlotOf(count + 1, |buffer.slots|)
    }

    constructor (b: Buffer)
      requires b.Valid()
      ensures Valid() && buffer == b && count == 0
    {
      buffer, expected, slot, count := b, 1, 0, 0;
      FirstLap(1, |b.slots|);
    }

    /** With no write in progress. */
    method ReadNext() returns (r: ReadResult)
      requires Valid()
      modifies this
      ensures Valid()
      ensures r == Expected(buffer.chunks, |buffer.slots|, old(count) + 1)
      ensures count == old(count) + if r.Ok? then 1 else 0
    {
      var data: seq<byte> := [];
      var sn, cs := expected, slot;
      Classified(buffer.slots, buffer.chunks, count + 1);
      var done := false;
      r := Loss;
      while !done
        invariant !done ==> data == [] && sn == expected == old(expected) && cs == slot == old(slot) && count == old(count)
        invariant Valid() && (done ==> r == Expected(buffer.chunks, |buffer.slots|, old(count) + 1))
        invariant done ==> count == old(count) + if r.Ok? then 1 else 0
        decreases if done then 0 else 1
      {
        var h := buffer.slots[slot].h;
        assert SlotAt(buffer.slots, buffer.chunks, false, slot);
        if h.sn == 0 {
          r, done := NoData, true;
        } else if h.sn != expected {
          r, done := Loss, true;
        } else {
          data := data + buffer.slots[slot].data[..if h.sz != 0 then h.sz else SLOT_BYTES];
          SlotSteps(count + 1, |buffer.slots|);
          sn, cs := Inc32(sn), Next(cs, |buffer.slots|);
          var now := buffer.slots[slot].h;
          if h.sn != now.sn {
            r, done := Loss, true;
          } else if now.sz != 0 {
            expected, slot, count := sn, cs, count + 1;
            r, done := Ok(data), true;
          }
        }
      }
    }
  }
}
