/**
 * The single-writer recorder (threads/recorder.py) as interleaved steps of its callers and its writer
 * task. A step is what runs between two awaits; the write itself is one step with an arbitrary fault.
 */
module Recorder {
  import opened Messages
  import opened RolloutRows

  datatype Lifecycle = Open | Failed | Closing | Closed

  /** An acknowledgement: pending, set, failed with the recorder's error, or cancelled with its caller. */
  datatype Ack = Waiting | Granted | Rejected | Cancelled

  datatype Command = Batch(items: seq<Item>) | Flush(ack: nat) | Shutdown(ack: nat)

  datatype Writer = NotStarted | Idle | Writing(items: seq<Item>) | Exited

  /** `recorded` and `promised` are history: all accepted items, and those accepted before each flush. */
  datatype State = State(
    lifecycle: Lifecycle,
    writer: Writer,
    queue: seq<Command>,
    acks: map<nat, Ack>,
    written: seq<Item>,
    recorded: seq<Item>,
    promised: map<nat, seq<Item>>)

  datatype Event =
    | Record(items: seq<Item>)
    | CallFlush(ack: nat)
    | CancelFlush(ack: nat)
    | CallShutdown(ack: nat)
    | ShutdownReturns(ack: nat)
    | Take
    | WriteDone
    | WriteFault(rows: nat)

  function Started(w: Writer): Writer { if w.NotStarted? then Idle else w }

  function Enqueue(s: State, c: Command): State { s.(writer := Started(s.writer), queue := s.queue + [c]) }

  /** Every acknowledgement still queued fails with the recorder. */
  function RejectAll(queue: seq<Command>, acks: map<nat, Ack>): map<nat, Ack>
    decreases |queue|
  {
    if queue == [] then acks
    else if queue[0].Batch? || queue[0].ack !in acks || acks[queue[0].ack] != Waiting then RejectAll(queue[1..], acks)
    else RejectAll(queue[1..], acks[queue[0].ack := Rejected])
  }

  function SetFailure(s: State): State {
    s.(lifecycle := Failed, writer := Exited, acks := RejectAll(s.queue, s.acks), queue := [])
  }

  function TakeNext(s: State): State
    requires s.queue != []
  {
    var rest := s.(queue := s.queue[1..]);
    match s.queue[0]
    case Batch(items) => rest.(writer := Writing(items))
    case Flush(ack) =>
      if ack in s.acks && s.acks[ack] == Cancelled then SetFailure(rest) else rest.(acks := s.acks[ack := Granted])
    case Shutdown(ack) => rest.(writer := Exited, acks := s.acks[ack := Granted])
  }

  /** Events that cannot happen in a state leave it alone; a call that raises does too. */
  function Step(s: State, e: Event): State {
    match e
    case Record(items) =>
      if s.lifecycle != Open || items == [] then s else Enqueue(s, Batch(items)).(recorded := s.recorded + items)
    case CallFlush(ack) =>
      if s.lifecycle != Open || ack in s.acks then s
      else Enqueue(s, Flush(ack)).(acks := s.acks[ack := Waiting], promised := s.promised[ack := s.recorded])
    case CancelFlush(ack) =>
      if ack in s.promised && ack in s.acks && s.acks[ack] == Waiting then s.(acks := s.acks[ack := Cancelled]) else s
    case CallShutdown(ack) =>
      if s.lifecycle in {Failed, Closed} || ack in s.acks then s
      else if s.writer.NotStarted? then s.(lifecycle := Closed)
      else Enqueue(s, Shutdown(ack)).(lifecycle := Closing, acks := s.acks[ack := Waiting])
    case ShutdownReturns(ack) =>
      if s.lifecycle == Closing && s.writer.Exited? && ack in s.acks && ack !in s.promised && s.acks[ack] == Granted
      then s.(lifecycle := Closed) else s
    case Take => if s.writer.Idle? && s.queue != [] then TakeNext(s) else s
    case WriteDone => if s.writer.Writing? then s.(writer := Idle, written := s.written + s.writer.items) else s
    case WriteFault(rows) =>
      if s.writer.Writing? && rows <= |s.writer.items|
      then SetFailure(s.(written := s.written + s.writer.items[..rows])) else s
  }

  function Run(s: State, events: seq<Event>): State {
    if events == [] then s else Step(Run(s, events[..|events| - 1]), events[|events| - 1])
  }

  predicate Initial(s: State) {
    s == State(Open, NotStarted, [], map[], s.written, s.written, map[])
  }

  // ----- The invariant -----

  function Batches(queue: seq<Command>): seq<Item> {
    if queue == [] then []
    else (if queue[0].Batch? then queue[0].items else []) + Batches(queue[1..])
  }

  function InHand(w: Writer): seq<Item> { if w.Writing? then w.items else [] }

  /** Nothing but further shutdowns is queued behind a shutdown. */
  predicate ShutdownLast(queue: seq<Command>) {
    forall i, j :: 0 <= i < j < |queue| && queue[i].Shutdown? ==> queue[j].Shutdown?
  }

  predicate HasShutdown(queue: seq<Command>) { exists c :: c in queue && c.Shutdown? }

  /** A queued flush was promised what is written, in hand, or queued before it. */
  predicate KeepsPromises(s: State) {
    forall k :: 0 <= k < |s.queue| && s.queue[k].Flush? ==>
      && s.queue[k].ack in s.promised && s.queue[k].ack in s.acks && s.acks[s.queue[k].ack] in {Waiting, Cancelled}
      && s.promised[s.queue[k].ack] == s.written + InHand(s.writer) + Batches(s.queue[..k])
  }

  /** Items move from callers to the file in order, and no lifecycle is left by accident. */
  predicate Flow(s: State) {
    && (s.lifecycle == Failed ==> s.queue == [] && s.writer.Exited?)
    && (s.lifecycle != Failed ==> s.recorded == s.written + InHand(s.writer) + Batches(s.queue))
    && s.written <= s.recorded
    && (s.lifecycle == Open ==> !HasShutdown(s.queue) && !s.writer.Exited?)
    && (s.writer.NotStarted? ==> s.queue == [])
    && (s.writer.Exited? ==> forall c :: c in s.queue ==> c.Shutdown?)
    && ShutdownLast(s.queue) && DistinctAcks(s.queue)
  }

  /** What every acknowledgement stands for. */
  predicate Promises(s: State) {
    && s.promised.Keys <= s.acks.Keys
    && KeepsPromises(s)
    && (forall a :: a in s.promised && s.acks[a] == Waiting ==> Flush(a) in s.queue)
    && (forall a :: a in s.promised && s.acks[a] == Granted ==> s.promised[a] <= s.written)
    && (forall c :: c in s.queue && !c.Batch? ==> c.ack in s.acks)
    && (forall c :: c in s.queue && c.Shutdown? ==> c.ack !in s.promised)
  }

  predicate Valid(s: State) { Flow(s) && Promises(s) }

  predicate DistinctAcks(queue: seq<Command>) {
    forall i, j :: 0 <= i < j < |queue| && !queue[i].Batch? && !queue[j].Batch? ==> queue[i].ack != queue[j].ack
  }

  lemma Join(a: seq<Item>, b: seq<Item>, c: seq<Item>)
    ensures (a + b) + c == a + (b + c)
  {
  }

  lemma {:induction false} BatchesAppend(a: seq<Command>, c: Command)
    ensures Batches(a + [c]) == Batches(a) + if c.Batch? then c.items else []
  {
    var last := if c.Batch? then c.items else [];
    if a == [] {
      assert a + [c] == [c] && [c][1..] == [];
      assert last + [] == last && [] + last == last;
    } else {
      var first := if a[0].Batch? then a[0].items else [];
      assert (a + [c])[1..] == a[1..] + [c] && (a + [c])[0] == a[0];
      BatchesAppend(a[1..], c);
      Join(first, Batches(a[1..]), last);
    }
  }

  lemma QueueGrows(queue: seq<Command>, c: Command)
    requires ShutdownLast(queue) && DistinctAcks(queue) && (c.Shutdown? || !HasShutdown(queue))
    requires c.Batch? || forall d :: d in queue && !d.Batch? ==> d.ack != c.ack
    ensures ShutdownLast(queue + [c]) && DistinctAcks(queue + [c])
  {
  }

  lemma PromisesGrow(s: State, t: State, c: Command)
    requires KeepsPromises(s) && t.queue == s.queue + [c] && t.written == s.written && InHand(t.writer) == InHand(s.writer)
    requires forall k :: 0 <= k < |s.queue| && s.queue[k].Flush? && s.queue[k].ack in s.promised ==>
               var a := s.queue[k].ack;
               a in t.promised && t.promised[a] == s.promised[a] && (a in s.acks ==> a in t.acks && t.acks[a] == s.acks[a])
    requires c.Flush? ==> c.ack in t.promised && c.ack in t.acks && t.acks[c.ack] == Waiting
                          && t.promised[c.ack] == s.written + InHand(s.writer) + Batches(s.queue)
    ensures KeepsPromises(t)
  {
    forall k | 0 <= k < |t.queue|
      ensures t.queue[..k] == s.queue[..k] && (k == |s.queue| ==> t.queue[..k] == s.queue)
    {
    }
  }

  lemma RecordValid(s: State, items: seq<Item>)
    requires Valid(s)
    ensures Valid(Step(s, Record(items)))
  {
    if s.lifecycle == Open && items != [] {
      var t := Step(s, Record(items));
      BatchesAppend(s.queue, Batch(items));
      QueueGrows(s.queue, Batch(items));
      PromisesGrow(s, t, Batch(items));
    }
  }

  lemma FlushFlow(s: State, ack: nat)
    requires Flow(s) && s.lifecycle == Open && ack !in s.acks
    requires forall c :: c in s.queue && !c.Batch? ==> c.ack in s.acks
    ensures Flow(Step(s, CallFlush(ack)))
  {
    BatchesAppend(s.queue, Flush(ack));
    QueueGrows(s.queue, Flush(ack));
  }

  lemma FlushPromises(s: State, ack: nat)
    requires Valid(s) && s.lifecycle == Open && ack !in s.acks
    ensures Promises(Step(s, CallFlush(ack)))
  {
    FlushPromised(s, Step(s, CallFlush(ack)), ack);
  }

  lemma FlushPromised(s: State, t: State, ack: nat)
    requires Promises(s) && ack !in s.acks
    requires t.queue == s.queue + [Flush(ack)] && t.acks == s.acks[ack := Waiting] && t.promised == s.promised[ack := s.recorded]
    requires t.written == s.written && InHand(t.writer) == InHand(s.writer)
    requires s.recorded == s.written + InHand(s.writer) + Batches(s.queue)
    ensures Promises(t)
  {
    FlushKeeps(s, t, ack);
    FlushWaits(s, t, ack);
    FlushAcks(s, t, ack);
  }

  lemma FlushKeeps(s: State, t: State, ack: nat)
    requires KeepsPromises(s) && s.promised.Keys <= s.acks.Keys && ack !in s.acks
    requires t.queue == s.queue + [Flush(ack)] && t.acks == s.acks[ack := Waiting] && t.promised == s.promised[ack := s.recorded]
    requires t.written == s.written && InHand(t.writer) == InHand(s.writer)
    requires s.recorded == s.written + InHand(s.writer) + Batches(s.queue)
    ensures KeepsPromises(t)
  {
    assert ack !in s.promised;
    PromisesGrow(s, t, Flush(ack));
  }

  lemma FlushWaits(s: State, t: State, ack: nat)
    requires s.promised.Keys <= s.acks.Keys
    requires forall a :: a in s.promised && s.acks[a] == Waiting ==> Flush(a) in s.queue
    requires t.queue == s.queue + [Flush(ack)] && t.acks == s.acks[ack := Waiting] && t.promised.Keys == s.promised.Keys + {ack}
    ensures t.promised.Keys <= t.acks.Keys
    ensures forall a :: a in t.promised && t.acks[a] == Waiting ==> Flush(a) in t.queue
  {
    assert t.queue[|s.queue|] == Flush(ack);
  }

  lemma FlushAcks(s: State, t: State, ack: nat)
    requires forall c :: c in s.queue && !c.Batch? ==> c.ack in s.acks
    requires forall c :: c in s.queue && c.Shutdown? ==> c.ack !in s.promised
    requires ack !in s.acks && t.queue == s.queue + [Flush(ack)]
    requires t.acks.Keys == s.acks.Keys + {ack} && t.promised.Keys == s.promised.Keys + {ack}
    ensures forall c :: c in t.queue && !c.Batch? ==> c.ack in t.acks
    ensures forall c :: c in t.queue && c.Shutdown? ==> c.ack !in t.promised
  {
    assert forall c :: c in t.queue ==> c in s.queue || c == Flush(ack);
  }

  lemma FlushValid(s: State, ack: nat)
    requires Valid(s)
    ensures Valid(Step(s, CallFlush(ack)))
  {
    if s.lifecycle == Open && ack !in s.acks {
      FlushFlow(s, ack);
      FlushPromises(s, ack);
    }
  }

  lemma WaitingGrows(s: State, t: State, c: Command)
    requires forall a :: a in s.promised && a in s.acks && s.acks[a] == Waiting ==> Flush(a) in s.queue
    requires t.queue == s.queue + [c] && !c.Batch?
    requires t.promised.Keys <= s.promised.Keys + {c.ack}
    requires forall a :: a in s.promised && a in t.acks && t.acks[a] == Waiting ==> a in s.acks && s.acks[a] == Waiting
    requires c.ack in t.promised ==> c.Flush?
    ensures forall a :: a in t.promised && a in t.acks && t.acks[a] == Waiting ==> Flush(a) in t.queue
  {
    assert t.queue[|s.queue|] == c;
    forall a | a in t.promised && a in t.acks && t.acks[a] == Waiting
      ensures Flush(a) in t.queue
    {
      assert a in s.promised || a == c.ack;
    }
  }

  lemma CancelValid(s: State, ack: nat)
    requires Valid(s)
    ensures Valid(Step(s, CancelFlush(ack)))
  {
  }

  lemma ShutdownFlow(s: State, ack: nat)
    requires Flow(s) && s.lifecycle in {Open, Closing} && ack !in s.acks && !s.writer.NotStarted?
    requires forall c :: c in s.queue && !c.Batch? ==> c.ack in s.acks
    ensures Flow(Step(s, CallShutdown(ack)))
  {
    BatchesAppend(s.queue, Shutdown(ack));
    QueueGrows(s.queue, Shutdown(ack));
  }

  lemma ShutdownPromises(s: State, ack: nat)
    requires Valid(s) && s.lifecycle in {Open, Closing} && ack !in s.acks && !s.writer.NotStarted?
    ensures Promises(Step(s, CallShutdown(ack)))
  {
    var t := Step(s, CallShutdown(ack));
    PromisesGrow(s, t, Shutdown(ack));
    WaitingGrows(s, t, Shutdown(ack));
  }

  lemma ShutdownValid(s: State, ack: nat)
    requires Valid(s)
    ensures Valid(Step(s, CallShutdown(ack)))
  {
    if s.lifecycle in {Open, Closing} && ack !in s.acks && !s.writer.NotStarted? {
      ShutdownFlow(s, ack);
      ShutdownPromises(s, ack);
    }
  }

  lemma ReturnValid(s: State, ack: nat)
    requires Valid(s)
    ensures Valid(Step(s, ShutdownReturns(ack)))
  {
  }

  lemma WriteValid(s: State)
    requires Valid(s)
    ensures Valid(Step(s, WriteDone))
  {
  }

  lemma {:induction false} RejectsAll(queue: seq<Command>, acks: map<nat, Ack>)
    requires forall c :: c in queue && !c.Batch? ==> c.ack in acks
    ensures RejectAll(queue, acks).Keys == acks.Keys
    ensures forall a :: a in acks ==> RejectAll(queue, acks)[a] == acks[a] || (acks[a] == Waiting && RejectAll(queue, acks)[a] == Rejected)
    ensures forall c :: c in queue && !c.Batch? ==> RejectAll(queue, acks)[c.ack] != Waiting
  {
    if queue != [] {
      var first := queue[0];
      assert forall c :: c in queue <==> c == first || c in queue[1..];
      if !first.Batch? && acks[first.ack] == Waiting {
        RejectsAll(queue[1..], acks[first.ack := Rejected]);
      } else {
        RejectsAll(queue[1..], acks);
      }
    }
  }

  /** Failing answers every queued acknowledgement. */
  lemma FailureValid(s: State)
    requires s.written <= s.recorded && ShutdownLast(s.queue) && s.promised.Keys <= s.acks.Keys
    requires forall c :: c in s.queue && !c.Batch? ==> c.ack in s.acks
    requires forall a :: a in s.promised && s.acks[a] == Waiting ==> Flush(a) in s.queue
    requires forall a :: a in s.promised && s.acks[a] == Granted ==> s.promised[a] <= s.written
    ensures Valid(SetFailure(s))
  {
    RejectsAll(s.queue, s.acks);
    var t := SetFailure(s);
    forall a | a in t.promised
      ensures t.acks[a] != Waiting
    {
      if s.acks[a] == Waiting {
        var c := Flush(a);
        assert c in s.queue && !c.Batch? && c.ack == a;
      }
    }
  }

  lemma FaultValid(s: State, rows: nat)
    requires Valid(s)
    ensures Valid(Step(s, WriteFault(rows)))
  {
    if s.writer.Writing? && rows <= |s.writer.items| {
      var t := s.(written := s.written + s.writer.items[..rows]);
      assert s.recorded == t.written + (s.writer.items[rows..] + Batches(s.queue));
      FailureValid(t);
    }
  }

  // ----- The writer takes the next command -----

  lemma QueueShrinks(queue: seq<Command>)
    requires queue != [] && ShutdownLast(queue) && DistinctAcks(queue)
    ensures ShutdownLast(queue[1..]) && DistinctAcks(queue[1..])
    ensures queue[0].Shutdown? ==> forall c :: c in queue ==> c.Shutdown?
    ensures forall c :: c in queue[1..] ==> c in queue
    ensures !queue[0].Batch? ==> forall c :: c in queue[1..] && !c.Batch? ==> c.ack != queue[0].ack
  {
  }

  /** Taking a command keeps the promises of those that remain, wherever its items go. */
  lemma PromisesShift(s: State, t: State)
    requires KeepsPromises(s) && s.queue != [] && t.queue == s.queue[1..] && t.promised == s.promised
    requires t.written + InHand(t.writer) == s.written + InHand(s.writer) + if s.queue[0].Batch? then s.queue[0].items else []
    requires forall k :: 1 <= k < |s.queue| && s.queue[k].Flush? && s.queue[k].ack in s.acks ==>
               s.queue[k].ack in t.acks && t.acks[s.queue[k].ack] == s.acks[s.queue[k].ack]
    ensures KeepsPromises(t)
  {
    forall k | 0 <= k < |t.queue| && t.queue[k].Flush?
      ensures && t.queue[k].ack in t.promised && t.queue[k].ack in t.acks && t.acks[t.queue[k].ack] in {Waiting, Cancelled}
              && t.promised[t.queue[k].ack] == t.written + InHand(t.writer) + Batches(t.queue[..k])
    {
      assert t.queue[k] == s.queue[k + 1];
      assert s.queue[..k + 1][1..] == t.queue[..k];
    }
  }

  lemma TakeBatch(s: State)
    requires Valid(s) && s.writer.Idle? && s.queue != [] && s.queue[0].Batch?
    ensures Valid(TakeNext(s))
  {
    var t := TakeNext(s);
    QueueShrinks(s.queue);
    PromisesShift(s, t);
    forall a | a in t.promised && t.acks[a] == Waiting
      ensures Flush(a) in t.queue
    {
      assert Flush(a) in s.queue;
    }
  }

  lemma TakeFlush(s: State)
    requires Valid(s) && s.writer.Idle? && s.queue != [] && s.queue[0].Flush?
    requires s.acks[s.queue[0].ack] == Waiting
    ensures Valid(TakeNext(s))
  {
    var t := TakeNext(s);
    QueueShrinks(s.queue);
    PromisesShift(s, t);
    assert s.queue[..0] == [];
    StillQueued(s, t);
  }

  lemma StillQueued(s: State, t: State)
    requires s.promised.Keys <= s.acks.Keys && s.queue != [] && s.queue[0].Flush?
    requires forall a :: a in s.promised && s.acks[a] == Waiting ==> Flush(a) in s.queue
    requires t.promised == s.promised && t.queue == s.queue[1..] && t.acks == s.acks[s.queue[0].ack := Granted]
    ensures forall a :: a in t.promised && t.acks[a] == Waiting ==> Flush(a) in t.queue
  {
    forall a | a in t.promised && t.acks[a] == Waiting
      ensures Flush(a) in t.queue
    {
      assert Flush(a) in s.queue;
    }
  }

  lemma TakeCancelled(s: State)
    requires Valid(s) && s.writer.Idle? && s.queue != [] && s.queue[0].Flush?
    requires s.acks[s.queue[0].ack] == Cancelled
    ensures Valid(TakeNext(s))
  {
    QueueShrinks(s.queue);
    var rest := s.(queue := s.queue[1..]);
    forall a | a in rest.promised && rest.acks[a] == Waiting
      ensures Flush(a) in rest.queue
    {
      assert Flush(a) in s.queue;
    }
    FailureValid(rest);
  }

  lemma TakeShutdown(s: State)
    requires Valid(s) && s.writer.Idle? && s.queue != [] && s.queue[0].Shutdown?
    ensures Valid(TakeNext(s))
  {
    var t := TakeNext(s);
    QueueShrinks(s.queue);
    PromisesShift(s, t);
    assert s.queue[0] in s.queue;
    assert HasShutdown(s.queue);
    assert forall a :: Flush(a) !in s.queue;
  }

  lemma TakeValid(s: State)
    requires Valid(s)
    ensures Valid(Step(s, Take))
  {
    if s.writer.Idle? && s.queue != [] {
      match s.queue[0]
      case Batch(_) => TakeBatch(s);
      case Shutdown(_) => TakeShutdown(s);
      case Flush(ack) =>
        if s.acks[ack] == Cancelled {
          TakeCancelled(s);
        } else {
          TakeFlush(s);
        }
    }
  }

  lemma StepValid(s: State, e: Event)
    requires Valid(s)
    ensures Valid(Step(s, e))
  {
    match e
    case Record(items) => RecordValid(s, items);
    case CallFlush(ack) => FlushValid(s, ack);
    case CancelFlush(ack) => CancelValid(s, ack);
    case CallShutdown(ack) => ShutdownValid(s, ack);
    case ShutdownReturns(ack) => ReturnValid(s, ack);
    case Take => TakeValid(s);
    case WriteDone => WriteValid(s);
    case WriteFault(rows) => FaultValid(s, rows);
  }

  lemma {:induction false} RunValid(s: State, events: seq<Event>)
    requires Initial(s)
    ensures Valid(Run(s, events))
  {
    if events != [] {
      RunValid(s, events[..|events| - 1]);
      StepValid(Run(s, events[..|events| - 1]), events[|events| - 1]);
    }
  }

  // ----- What the protocol promises -----

  lemma {:induction false} RunFrom(s: State, before: seq<Event>, after: seq<Event>)
    ensures Run(s, before + after) == Run(Run(s, before), after)
  {
    if after == [] {
      assert before + after == before;
    } else {
      RunFrom(s, before, after[..|after| - 1]);
      assert (before + after)[..|before + after| - 1] == before + after[..|after| - 1];
    }
  }

  /** A promise is fixed when the flush is called. */
  lemma {:induction false} PromiseStays(s: State, events: seq<Event>, ack: nat)
    requires ack in s.promised && s.promised.Keys <= s.acks.Keys
    ensures var t := Run(s, events); ack in t.promised && t.promised[ack] == s.promised[ack] && t.promised.Keys <= t.acks.Keys
  {
    if events != [] {
      PromiseStays(s, events[..|events| - 1], ack);
      PromiseStep(Run(s, events[..|events| - 1]), events[|events| - 1], ack);
    }
  }

  lemma {:induction false} RejectKeys(queue: seq<Command>, acks: map<nat, Ack>)
    ensures RejectAll(queue, acks).Keys == acks.Keys
  {
    if queue != [] {
      RejectKeys(queue[1..], acks);
      if !queue[0].Batch? {
        RejectKeys(queue[1..], acks[queue[0].ack := Rejected]);
      }
    }
  }

  lemma PromiseStep(s: State, e: Event, ack: nat)
    requires ack in s.promised && s.promised.Keys <= s.acks.Keys
    ensures var t := Step(s, e); ack in t.promised && t.promised[ack] == s.promised[ack] && t.promised.Keys <= t.acks.Keys
  {
    RejectKeys(s.queue, s.acks);
    if s.queue != [] {
      RejectKeys(s.queue[1..], s.acks);
    }
  }

  /**
   * A flush that returns without an error means what it says: everything recorded before the call is in
   * the file, and stays at its front whatever happens later.
   */
  lemma FlushMeansWritten(s: State, before: seq<Event>, ack: nat, after: seq<Event>)
    requires Initial(s) && Run(s, before).lifecycle == Open && ack !in Run(s, before).acks
    ensures var t := Run(s, before + [CallFlush(ack)] + after);
            && ack in t.acks
            && (t.acks[ack] == Granted ==> Run(s, before).recorded <= t.written)
  {
    var called := before + [CallFlush(ack)];
    RunFrom(s, before, [CallFlush(ack)]);
    assert [CallFlush(ack)][..0] == [];
    var m := Run(s, before);
    assert Run(m, [CallFlush(ack)]) == Step(m, CallFlush(ack));
    RunValid(s, called);
    RunFrom(s, called, after);
    PromiseStays(Run(s, called), after, ack);
    RunValid(s, called + after);
  }

  lemma FailedStep(s: State, e: Event)
    requires Valid(s) && s.lifecycle == Failed
    ensures Step(s, e).lifecycle == Failed && Step(s, e).written == s.written && Step(s, e).recorded == s.recorded
  {
  }

  /** After the first failure nothing more is accepted or written, ever. */
  lemma {:induction false} FailureIsForever(s: State, before: seq<Event>, after: seq<Event>)
    requires Initial(s) && Run(s, before).lifecycle == Failed
    ensures var m, t := Run(s, before), Run(s, before + after);
            t.lifecycle == Failed && t.written == m.written && t.recorded == m.recorded
  {
    if after == [] {
      assert before + after == before;
    } else {
      var n := |after| - 1;
      FailureIsForever(s, before, after[..n]);
      RunValid(s, before + after[..n]);
      FailedStep(Run(s, before + after[..n]), after[n]);
      RunFrom(s, before + after[..n], [after[n]]);
      assert before + after == before + after[..n] + [after[n]];
      assert [after[n]][..0] == [];
      assert Run(Run(s, before + after[..n]), [after[n]]) == Step(Run(s, before + after[..n]), after[n]);
    }
  }

  /** Once the writer is gone, failed or shut down, no flush is left waiting. */
  lemma ExitAnswersEveryFlush(s: State, events: seq<Event>, ack: nat)
    requires Initial(s) && Run(s, events).writer.Exited? && ack in Run(s, events).promised
    ensures ack in Run(s, events).acks && Run(s, events).acks[ack] != Waiting
  {
    RunValid(s, events);
    assert Flush(ack) !in Run(s, events).queue;
  }

  /** A write that faults, or a flush whose caller was cancelled before its turn. */
  predicate Fails(s: State, e: Event) {
    || (e.WriteFault? && s.writer.Writing? && e.rows <= |s.writer.items|)
    || (e.Take? && s.writer.Idle? && s.queue != [] && s.queue[0].Flush? && s.queue[0].ack in s.acks
        && s.acks[s.queue[0].ack] == Cancelled)
  }

  predicate FailsAt(s: State, events: seq<Event>, k: nat) {
    k < |events| && Fails(Run(s, events[..k]), events[k])
  }

  lemma FailureCause(s: State, e: Event)
    requires Valid(s) && s.lifecycle != Failed
    ensures Step(s, e).lifecycle == Failed <==> Fails(s, e)
  {
    if e.Take? && s.writer.Idle? && s.queue != [] && s.queue[0].Flush? {
      assert s.queue[0].ack in s.acks;
    }
  }

  lemma FailsBefore(s: State, events: seq<Event>, n: nat, k: nat)
    requires k < n <= |events|
    ensures FailsAt(s, events, k) <==> FailsAt(s, events[..n], k)
  {
    assert events[..n][..k] == events[..k];
  }

  /** A recorder is FAILED at the end of a run if and only if one of those two events occurred in it. */
  lemma {:induction false} FailedExactlyWhen(s: State, events: seq<Event>)
    requires Initial(s)
    ensures Run(s, events).lifecycle == Failed <==> exists k :: FailsAt(s, events, k)
  {
    if events == [] {
      assert forall k :: !FailsAt(s, events, k);
    } else {
      var n := |events| - 1;
      var p := Run(s, events[..n]);
      FailedExactlyWhen(s, events[..n]);
      RunValid(s, events[..n]);
      forall k: nat | k < n
        ensures FailsAt(s, events, k) <==> FailsAt(s, events[..n], k)
      {
        FailsBefore(s, events, n, k);
      }
      if p.lifecycle == Failed {
        FailedStep(p, events[n]);
      } else {
        FailureCause(p, events[n]);
        assert FailsAt(s, events, n) <==> Fails(p, events[n]);
      }
    }
  }

  predicate NoneCancelled(s: State) {
    forall c :: c in s.queue && c.Flush? ==> c.ack !in s.acks || s.acks[c.ack] != Cancelled
  }

  /** Left to itself, a writer without faults writes and answers everything that no shutdown precedes. */
  lemma {:induction false} Drain(s: State) returns (events: seq<Event>)
    requires Valid(s) && s.lifecycle != Failed && !s.writer.NotStarted? && NoneCancelled(s)
    ensures forall e :: e in events ==> e == Take || e == WriteDone
    ensures var t := Run(s, events);
            && t.lifecycle == s.lifecycle && t.written == s.recorded
            && forall a :: a in s.promised && a in s.acks && s.acks[a] == Waiting ==> a in t.acks && t.acks[a] == Granted
    decreases |s.queue|, if s.writer.Writing? then 1 else 0
  {
    if s.writer.Writing? {
      StepValid(s, WriteDone);
      var rest := Drain(Step(s, WriteDone));
      events := [WriteDone] + rest;
      RunFrom(s, [WriteDone], rest);
      assert [WriteDone][..0] == [];
      assert Run(s, [WriteDone]) == Step(s, WriteDone);
    } else if s.queue == [] || s.writer.Exited? {
      events := [];
      ExitedBatches(s.queue);
    } else {
      StepValid(s, Take);
      DrainTake(s);
      var rest := Drain(Step(s, Take));
      events := [Take] + rest;
      RunFrom(s, [Take], rest);
      assert [Take][..0] == [];
      assert Run(s, [Take]) == Step(s, Take);
      GrantedStays(Step(s, Take), rest);
    }
  }

  lemma ExitedBatches(queue: seq<Command>)
    requires forall c :: c in queue ==> c.Shutdown?
    ensures Batches(queue) == []
  {
    if queue != [] {
      assert queue[0] in queue && forall c :: c in queue[1..] ==> c in queue;
      ExitedBatches(queue[1..]);
    }
  }

  /** What one take does when no queued flush was cancelled. */
  lemma DrainTake(s: State)
    requires Valid(s) && s.lifecycle != Failed && s.writer.Idle? && s.queue != [] && NoneCancelled(s)
    ensures var t := Step(s, Take);
            && t.lifecycle == s.lifecycle && t.recorded == s.recorded && t.promised == s.promised
            && !t.writer.NotStarted? && NoneCancelled(t) && t.queue == s.queue[1..]
            && forall a :: a in s.promised && s.acks[a] == Waiting ==> a in t.acks && t.acks[a] in {Waiting, Granted}
  {
  }

  lemma GrantedStep(s: State, e: Event)
    requires e == Take || e == WriteDone
    requires Valid(s) && s.lifecycle != Failed && NoneCancelled(s)
    ensures forall a :: a in s.acks && s.acks[a] == Granted ==> a in Step(s, e).acks && Step(s, e).acks[a] == Granted
    ensures Step(s, e).lifecycle != Failed && NoneCancelled(Step(s, e))
  {
  }

  lemma {:induction false} GrantedStays(s: State, events: seq<Event>)
    requires forall e :: e in events ==> e == Take || e == WriteDone
    requires Valid(s) && s.lifecycle != Failed && NoneCancelled(s)
    ensures var t := Run(s, events);
            && Valid(t) && t.lifecycle != Failed && NoneCancelled(t)
            && forall a :: a in s.acks && s.acks[a] == Granted ==> a in t.acks && t.acks[a] == Granted
  {
    if events != [] {
      var n := |events| - 1;
      assert events[n] in events && forall e :: e in events[..n] ==> e in events;
      GrantedStays(s, events[..n]);
      StepValid(Run(s, events[..n]), events[n]);
      GrantedStep(Run(s, events[..n]), events[n]);
    }
  }
}
