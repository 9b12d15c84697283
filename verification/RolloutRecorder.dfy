/** The recorder object: its fields change as the protocol says, and its file holds what the protocol calls written. */
module RolloutRecorder {
  import opened Messages
  import opened RolloutRows
  import opened RolloutFile
  import opened RolloutRecovery
  import R = Recorder

  lemma {:induction false} StampAppend(sequence: nat, previousHash: string, a: seq<Item>, b: seq<Item>)
    ensures Stamp(sequence, previousHash, a + b)
            == Stamp(sequence, previousHash, a) + Stamp(sequence + |a|, EndHash(sequence, previousHash, a), b)
    ensures EndHash(sequence, previousHash, a + b) == EndHash(sequence + |a|, EndHash(sequence, previousHash, a), b)
    decreases |a|
  {
    if a == [] {
      assert a + b == b;
    } else {
      var first := Seal(a[0], sequence + 1, previousHash);
      assert (a + b)[1..] == a[1..] + b;
      StampAppend(sequence + 1, first.itemHash, a[1..], b);
    }
  }

  /** The bytes of everything written since the recorder opened. */
  function Written(sequence: nat, previousHash: string, items: seq<Item>): string {
    Rows(Stamp(sequence, previousHash, items))
  }

  lemma WrittenAppend(sequence: nat, previousHash: string, a: seq<Item>, b: seq<Item>)
    ensures Written(sequence, previousHash, a + b)
            == Written(sequence, previousHash, a) + Written(sequence + |a|, EndHash(sequence, previousHash, a), b)
  {
    StampAppend(sequence, previousHash, a, b);
    RowsJoin(Stamp(sequence, previousHash, a), Stamp(sequence + |a|, EndHash(sequence, previousHash, a), b));
  }

  class RolloutRecorder {
    const file: RolloutFile
    var lifecycle: R.Lifecycle
    var writer: R.Writer
    var queue: seq<R.Command>
    var acks: map<nat, R.Ack>

    ghost const start: string
    ghost const firstSequence: nat
    ghost const firstHash: string
    ghost var written: seq<Item>
    ghost var recorded: seq<Item>
    ghost var promised: map<nat, seq<Item>>

    ghost function View(): R.State
      reads this
    {
      R.State(lifecycle, writer, queue, acks, written, recorded, promised)
    }

    /** The file agrees with the protocol; after a failure it may end in a partial row. */
    ghost predicate OnDisk()
      reads this, file
    {
      && start + Written(firstSequence, firstHash, written) <= file.bytes
      && (lifecycle != R.Failed ==>
            && file.bytes == start + Written(firstSequence, firstHash, written)
            && file.sequence == firstSequence + |written|
            && file.previousHash == EndHash(firstSequence, firstHash, written))
    }

    ghost predicate Valid()
      reads this, file
    {
      R.Valid(View()) && OnDisk()
    }

    /** Opens on a file that has just been loaded and repaired. */
    constructor (file: RolloutFile)
      ensures Valid() && R.Initial(View()) && this.file == file && start == file.bytes
      ensures firstSequence == file.sequence && firstHash == file.previousHash && written == []
    {
      this.file := file;
      lifecycle, writer, queue, acks := R.Open, R.NotStarted, [], map[];
      start, firstSequence, firstHash := file.bytes, file.sequence, file.previousHash;
      written, recorded, promised := [], [], map[];
      new;
      assert start + "" == start;
      assert R.Batches([]) == [];
    }

    method StartWriter()
      modifies this`writer
      ensures writer == R.Started(old(writer))
    {
      if writer.NotStarted? {
        writer := R.Idle;
      }
    }

    /** False stands for the error raised when the recorder is not open. */
    method Record(items: seq<Item>) returns (ok: bool)
      requires Valid()
      modifies this`writer, this`queue, this`recorded
      ensures Valid() && View() == R.Step(old(View()), R.Record(items))
      ensures ok <==> old(lifecycle) == R.Open
    {
      R.StepValid(View(), R.Record(items));
      if lifecycle != R.Open {
        return false;
      }
      if items != [] {
        StartWriter();
        queue := queue + [R.Batch(items)];
        recorded := recorded + items;
      }
      return true;
    }

    /** The part of a flush before it waits for its acknowledgement. */
    method Flush(ack: nat) returns (ok: bool)
      requires Valid() && ack !in acks
      modifies this`writer, this`queue, this`acks, this`promised
      ensures Valid() && View() == R.Step(old(View()), R.CallFlush(ack))
      ensures ok <==> old(lifecycle) == R.Open
    {
      ghost var after := R.Step(View(), R.CallFlush(ack));
      R.StepValid(View(), R.CallFlush(ack));
      if lifecycle != R.Open {
        return false;
      }
      StartWriter();
      queue, acks, promised := queue + [R.Flush(ack)], acks[ack := R.Waiting], promised[ack := recorded];
      assert View() == after;
      return true;
    }

    method Shutdown(ack: nat) returns (ok: bool)
      requires Valid() && ack !in acks
      modifies this`lifecycle, this`queue, this`acks
      ensures Valid() && View() == R.Step(old(View()), R.CallShutdown(ack))
      ensures ok <==> old(lifecycle) != R.Failed
    {
      R.StepValid(View(), R.CallShutdown(ack));
      if lifecycle == R.Failed {
        return false;
      }
      if lifecycle == R.Closed {
        return true;
      }
      if writer.NotStarted? {
        lifecycle := R.Closed;
        return true;
      }
      lifecycle, queue, acks := R.Closing, queue + [R.Shutdown(ack)], acks[ack := R.Waiting];
      return true;
    }

    /** The end of a shutdown, once its acknowledgement and the writer are done. */
    method FinishShutdown(ack: nat)
      requires Valid() && lifecycle == R.Closing && writer.Exited?
      requires ack in acks && ack !in promised && acks[ack] == R.Granted
      modifies this`lifecycle
      ensures Valid() && View() == R.Step(old(View()), R.ShutdownReturns(ack)) && lifecycle == R.Closed
    {
      R.StepValid(View(), R.ShutdownReturns(ack));
      lifecycle := R.Closed;
    }

    /** Keeps the first failure and fails every queued acknowledgement. */
    method SetFailure()
      modifies this`lifecycle, this`writer, this`queue, this`acks
      ensures View() == R.SetFailure(old(View()))
    {
      lifecycle, writer := R.Failed, R.Exited;
      acks := RejectQueued(queue, acks);
      queue := [];
    }

    static method RejectQueued(queue: seq<R.Command>, acks: map<nat, R.Ack>) returns (rejected: map<nat, R.Ack>)
      ensures rejected == R.RejectAll(queue, acks)
    {
      rejected := acks;
      var remaining := queue;
      while remaining != []
        invariant R.RejectAll(remaining, rejected) == R.RejectAll(queue, acks)
        decreases |remaining|
      {
        var command := remaining[0];
        remaining := remaining[1..];
        if !command.Batch? && command.ack in rejected && rejected[command.ack] == R.Waiting {
          rejected := rejected[command.ack := R.Rejected];
        }
      }
    }

    /** The writer takes its next command; a batch goes to the writing thread, the others are answered at once. */
    method TakeCommand()
      requires Valid() && writer.Idle? && queue != []
      modifies this`lifecycle, this`writer, this`queue, this`acks
      ensures Valid() && View() == R.Step(old(View()), R.Take)
    {
      R.StepValid(View(), R.Take);
      var command := queue[0];
      queue := queue[1..];
      match command
      case Batch(items) => writer := R.Writing(items);
      case Flush(ack) =>
        if ack in acks && acks[ack] == R.Cancelled {
          SetFailure();
        } else {
          acks := acks[ack := R.Granted];
        }
      case Shutdown(ack) =>
        acks := acks[ack := R.Granted];
        writer := R.Exited;
    }

    /** The batch in hand reaches the file. */
    method FinishWrite()
      requires Valid() && writer.Writing?
      modifies this`writer, this`written, file
      ensures Valid() && View() == R.Step(old(View()), R.WriteDone)
      ensures file.bytes == old(file.bytes) + Written(old(file.sequence), old(file.previousHash), old(writer.items))
    {
      R.StepValid(View(), R.WriteDone);
      WriteBatch(writer.items);
      writer := R.Idle;
    }

    method WriteBatch(items: seq<Item>)
      requires OnDisk() && lifecycle != R.Failed
      modifies this`written, file
      ensures OnDisk() && written == old(written) + items
      ensures file.bytes == old(file.bytes) + Written(old(file.sequence), old(file.previousHash), items)
    {
      ghost var before, now := Written(firstSequence, firstHash, written), Written(file.sequence, file.previousHash, items);
      WrittenAppend(firstSequence, firstHash, written, items);
      StampAppend(firstSequence, firstHash, written, items);
      Regroup(start, before, now);
      file.AppendItems(items);
      written := written + items;
    }

    /** The write fails after any number of bytes; `rows` of its rows are complete by then. */
    method FaultyWrite(bytes: nat, rows: nat)
      requires Valid() && writer.Writing? && rows <= |writer.items|
      requires var all := Written(file.sequence, file.previousHash, writer.items);
               && bytes <= |all|
               && |Written(file.sequence, file.previousHash, writer.items[..rows])| <= bytes
      modifies this, file`bytes
      ensures Valid() && View() == R.Step(old(View()), R.WriteFault(rows))
      ensures file.bytes == old(file.bytes) + Written(old(file.sequence), old(file.previousHash), old(writer.items))[..bytes]
    {
      R.StepValid(View(), R.WriteFault(rows));
      var items := writer.items;
      PartialWrite(file.bytes, firstSequence, firstHash, written, items, rows, bytes, start);
      file.bytes := file.bytes + Rows(Stamp(file.sequence, file.previousHash, items))[..bytes];
      written := written + items[..rows];
      SetFailure();
    }
  }

  /** Complete rows of the faulty batch are on disk behind everything written before. */
  lemma PartialWrite(disk: string, sequence: nat, previousHash: string, written: seq<Item>, items: seq<Item>, rows: nat, bytes: nat, start: string)
    requires disk == start + Written(sequence, previousHash, written) && rows <= |items|
    requires var s, h := sequence + |written|, EndHash(sequence, previousHash, written);
             |Written(s, h, items[..rows])| <= bytes <= |Written(s, h, items)|
    ensures var s, h := sequence + |written|, EndHash(sequence, previousHash, written);
            start + Written(sequence, previousHash, written + items[..rows]) <= disk + Written(s, h, items)[..bytes]
  {
    var s, h := sequence + |written|, EndHash(sequence, previousHash, written);
    WrittenAppend(sequence, previousHash, written, items[..rows]);
    WrittenPrefix(s, h, items, rows);
    PartOf(start, Written(sequence, previousHash, written), Written(s, h, items[..rows]), Written(s, h, items), bytes);
  }

  lemma WrittenPrefix(sequence: nat, previousHash: string, items: seq<Item>, rows: nat)
    requires rows <= |items|
    ensures Written(sequence, previousHash, items[..rows]) <= Written(sequence, previousHash, items)
  {
    WrittenAppend(sequence, previousHash, items[..rows], items[rows..]);
    assert items[..rows] + items[rows..] == items;
  }

  lemma PartOf(start: string, before: string, rows: string, all: string, bytes: nat)
    requires rows <= all && |rows| <= bytes <= |all|
    ensures start + (before + rows) <= (start + before) + all[..bytes]
  {
    Regroup(start, before, rows);
    assert rows == all[..bytes][..|rows|];
  }
}
