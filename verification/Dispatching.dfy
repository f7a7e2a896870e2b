/** The dispatch loop and the moves of a pass are one thing seen twice: what the loop stores under given fates
    is what the pass's moves store under them. */
module Dispatching {
  import opened Base
  import opened Metadata
  import opened Queue
  import opened Repository
  import opened Workers
  import opened Lineage
  import opened Links

  function MoveRun(kind: Kind, p: Pair, moves: seq<Move>): Pair {
    if moves == [] then p else Advance(kind, MoveRun(kind, p, moves[..|moves| - 1]), moves[|moves| - 1])
  }

  function Stores(lease: Lease, fates: seq<Fate>): seq<Move> {
    seq(|fates|, i requires 0 <= i < |fates| => StoreNext(lease, fates[i]))
  }

  /** A pass that begins, tries to store every output, and reports. Once its work has ended its further moves
      change nothing. */
  function DispatchMoves(lease: Lease, job: Job, fates: seq<Fate>): seq<Move> {
    [Begin(lease, job)] + Stores(lease, fates) + [End(lease)]
  }

  predicate FreshIds(down: Node, outputs: seq<Output>) {
    && (forall i, j | 0 <= i < j < |outputs| :: outputs[i].id != outputs[j].id)
    && (forall i | 0 <= i < |outputs| :: outputs[i].id !in down.queue.rows)
  }

  lemma MoveRunAppend(kind: Kind, p: Pair, moves: seq<Move>, m: Move)
    ensures MoveRun(kind, p, moves + [m]) == Advance(kind, MoveRun(kind, p, moves), m)
  {
    assert (moves + [m])[..|moves|] == moves;
  }

  lemma RecordIsNext(kind: Kind, down: Node, output: Output)
    ensures var e := Event.Record(output.id, output.row);
            && RecordOutput(kind, down, output).queue == Next(Target(kind), down.queue, e)
            && Next(Target(kind), down.queue, e).rows.Keys <= down.queue.rows.Keys + {output.id}
  {
  }

  /** A pass under way whose first `n` stores were acknowledged. */
  predicate UnderWay(kind: Kind, p: Pair, lease: Lease, job: Job, outputs: seq<Output>, n: nat, at: Pair) {
    && n <= |outputs|
    && at.up == p.up && lease in at.bridge.progress && at.bridge.progress[lease] == Progress(job, outputs, n)
    && at.down.queue == Exec(Target(kind), p.down.queue, Records(outputs[..n]))
    && (forall id | id in at.down.queue.rows :: id in p.down.queue.rows || exists i :: 0 <= i < n && outputs[i].id == id)
  }

  lemma OneMoreStored(kind: Kind, p: Pair, lease: Lease, job: Job, outputs: seq<Output>, n: nat, at: Pair, fate: Fate)
    requires Working(p.up, lease) && FreshIds(p.down, outputs) && n < |outputs| && UnderWay(kind, p, lease, job, outputs, n, at)
    ensures var after := Advance(kind, at, StoreNext(lease, fate));
            && (fate.Committed? ==> UnderWay(kind, p, lease, job, outputs, n + 1, after))
            && (!fate.Committed? ==>
                  && lease in after.up.items
                  && after.up.items[lease] == Broken(ItemText(lease.id, lease.token, "processing", Lit("storage error")))
                  && after.down.queue == Exec(Target(kind), p.down.queue, Records(outputs[..if fate.Ambiguous? then n + 1 else n])))
  {
    var output := outputs[n];
    assert output.id !in at.down.queue.rows;
    ExecRecords(Target(kind), p.down.queue, outputs, n);
    RecordIsNext(kind, at.down, output);
    hide Next, Exec, RecordOutput, Records;
    var after := Advance(kind, at, StoreNext(lease, fate));
    if fate.Committed? {
      forall id | id in after.down.queue.rows ensures id in p.down.queue.rows || exists i :: 0 <= i < n + 1 && outputs[i].id == id {
        if id == output.id {
          assert outputs[n].id == id;
        }
      }
    }
  }

  lemma {:induction false} AcknowledgedMoves(kind: Kind, p: Pair, lease: Lease, job: Job, outputs: seq<Output>, fates: seq<Fate>, n: nat)
    requires Working(p.up, lease) && lease !in p.bridge.progress && Produce(kind, p.up.queue.rows[lease.id], job) == Ok(outputs)
    requires FreshIds(p.down, outputs) && n <= |outputs| && n <= |fates| && forall i | 0 <= i < n :: fates[i].Committed?
    ensures UnderWay(kind, p, lease, job, outputs, n, MoveRun(kind, p, [Begin(lease, job)] + Stores(lease, fates[..n])))
  {
    hide Exec, Produce, Advance, FreshIds, UnderWay, Working, Stores;
    if n == 0 {
      Began(kind, p, lease, job, outputs);
      NoStores(lease, job, fates);
      MoveRunAppend(kind, p, [], Begin(lease, job));
    } else {
      AcknowledgedMoves(kind, p, lease, job, outputs, fates, n - 1);
      var before := [Begin(lease, job)] + Stores(lease, fates[..n - 1]);
      OneMoreStore(lease, job, fates, n - 1);
      MoveRunAppend(kind, p, before, StoreNext(lease, fates[n - 1]));
      OneMoreStored(kind, p, lease, job, outputs, n - 1, MoveRun(kind, p, before), fates[n - 1]);
    }
  }

  lemma NoStores(lease: Lease, job: Job, fates: seq<Fate>)
    ensures [Begin(lease, job)] + Stores(lease, fates[..0]) == [] + [Begin(lease, job)]
  {
  }

  lemma OneMoreStore(lease: Lease, job: Job, fates: seq<Fate>, n: nat)
    requires n < |fates|
    ensures [Begin(lease, job)] + Stores(lease, fates[..n + 1]) == [Begin(lease, job)] + Stores(lease, fates[..n]) + [StoreNext(lease, fates[n])]
  {
  }

  lemma Began(kind: Kind, p: Pair, lease: Lease, job: Job, outputs: seq<Output>)
    requires Working(p.up, lease) && lease !in p.bridge.progress && Produce(kind, p.up.queue.rows[lease.id], job) == Ok(outputs)
    ensures UnderWay(kind, p, lease, job, outputs, 0, Advance(kind, p, Begin(lease, job)))
  {
    hide Produce;
    assert Records(outputs[..0]) == [];
    ExecNothing(Target(kind), p.down.queue);
  }

  /** Work that computes nothing breaks the pass with its error as the reason, and stores nothing. */
  lemma FailedWorkBreaks(kind: Kind, p: Pair, lease: Lease, job: Job, cause: Text)
    requires Working(p.up, lease) && lease !in p.bridge.progress && Produce(kind, p.up.queue.rows[lease.id], job) == Err(cause)
    ensures var after := Advance(kind, p, Begin(lease, job));
            && after.down == p.down && after.bridge == p.bridge && after.up.queue == p.up.queue
            && after.up.items == p.up.items[lease := Broken(ItemText(lease.id, lease.token, "processing", cause))]
  {
    hide Produce;
  }

  predicate AllOf(moves: seq<Move>, lease: Lease) {
    forall i | 0 <= i < |moves| :: moves[i].lease == lease
  }

  lemma {:induction false} DeadMoves(kind: Kind, p: Pair, lease: Lease, before: seq<Move>, moves: seq<Move>)
    requires AllOf(moves, lease) && !Working(MoveRun(kind, p, before).up, lease)
    ensures MoveRun(kind, p, before + moves) == MoveRun(kind, p, before)
  {
    if moves == [] {
      assert before + moves == before;
    } else {
      var init, last := moves[..|moves| - 1], moves[|moves| - 1];
      DeadMoves(kind, p, lease, before, init);
      assert before + moves == before + init + [last];
      MoveRunAppend(kind, p, before + init, last);
    }
  }

  lemma {:induction false} FirstUnacknowledged(n: nat, fates: seq<Fate>) returns (k: nat)
    requires n <= |fates| && !AllAcknowledged(n, fates)
    ensures k < n && !fates[k].Committed? && forall i | 0 <= i < k :: fates[i].Committed?
  {
    k := 0;
    if fates[0].Committed? {
      assert !AllAcknowledged(n - 1, fates[1..]) by {
        var i :| 0 <= i < n && !fates[i].Committed?;
        assert !fates[1..][i - 1].Committed?;
      }
      var rest := FirstUnacknowledged(n - 1, fates[1..]);
      k := rest + 1;
      forall i | 0 <= i < k ensures fates[i].Committed? {
        assert i > 0 ==> fates[1..][i - 1] == fates[i];
      }
    }
  }

  /** What the dispatch loop leaves when no one else acts in between: its prefix, and a work that returned Ok
      exactly when the loop did. */
  predicate EndsLikeDispatch(kind: Kind, p: Pair, lease: Lease, outputs: seq<Output>, fates: seq<Fate>, after: Pair) {
    && after.down.queue == Exec(Target(kind), p.down.queue, Records(outputs[..StoredCount(|outputs|, fates)]))
    && lease in after.up.items
    && after.up.items[lease] == (if AllAcknowledged(|outputs|, fates) then Worked
                                 else Broken(ItemText(lease.id, lease.token, "processing", Lit("storage error"))))
  }

  lemma AllAcknowledgedMoves(kind: Kind, p: Pair, lease: Lease, job: Job, outputs: seq<Output>, fates: seq<Fate>)
    requires Working(p.up, lease) && lease !in p.bridge.progress && Produce(kind, p.up.queue.rows[lease.id], job) == Ok(outputs)
    requires FreshIds(p.down, outputs) && |fates| == |outputs| && AllAcknowledged(|outputs|, fates)
    ensures EndsLikeDispatch(kind, p, lease, outputs, fates, MoveRun(kind, p, DispatchMoves(lease, job, fates)))
  {
    var stores := [Begin(lease, job)] + Stores(lease, fates);
    assert fates[..|outputs|] == fates && outputs[..|outputs|] == outputs;
    AcknowledgedAreStored(|outputs|, fates);
    hide Exec, Produce, Advance, FreshIds, StoredCount, MoveRun, Records, Stores;
    AcknowledgedMoves(kind, p, lease, job, outputs, fates, |outputs|);
    MoveRunAppend(kind, p, stores, End(lease));
    Ended(kind, MoveRun(kind, p, stores), lease);
  }

  lemma SplitMoves(lease: Lease, job: Job, fates: seq<Fate>, k: nat)
    requires k < |fates|
    ensures var rest := Stores(lease, fates[k + 1..]) + [End(lease)];
            && DispatchMoves(lease, job, fates) == [Begin(lease, job)] + Stores(lease, fates[..k]) + [StoreNext(lease, fates[k])] + rest
            && AllOf(rest, lease)
  {
  }

  lemma UnacknowledgedMoves(kind: Kind, p: Pair, lease: Lease, job: Job, outputs: seq<Output>, fates: seq<Fate>, k: nat)
    requires Working(p.up, lease) && lease !in p.bridge.progress && Produce(kind, p.up.queue.rows[lease.id], job) == Ok(outputs)
    requires FreshIds(p.down, outputs) && |fates| == |outputs|
    requires k < |fates| && !fates[k].Committed? && forall i | 0 <= i < k :: fates[i].Committed?
    ensures EndsLikeDispatch(kind, p, lease, outputs, fates, MoveRun(kind, p, DispatchMoves(lease, job, fates)))
  {
    hide Exec, Produce, Advance, FreshIds, StoredCount, MoveRun, Records, Stores, DispatchMoves, AllOf;
    var before := [Begin(lease, job)] + Stores(lease, fates[..k]);
    var failing, rest := before + [StoreNext(lease, fates[k])], Stores(lease, fates[k + 1..]) + [End(lease)];
    SplitMoves(lease, job, fates, k);
    StoredCountIs(|outputs|, fates, k);
    AcknowledgedMoves(kind, p, lease, job, outputs, fates, k);
    OneMoreStored(kind, p, lease, job, outputs, k, MoveRun(kind, p, before), fates[k]);
    MoveRunAppend(kind, p, before, StoreNext(lease, fates[k]));
    hide UnderWay;
    DeadMoves(kind, p, lease, failing, rest);
  }

  /** The moves store what the dispatch loop stores when no one else acts in between, and the work returns Ok
      exactly when the loop does. */
  lemma MovesAreDispatch(kind: Kind, p: Pair, lease: Lease, job: Job, outputs: seq<Output>, fates: seq<Fate>)
    requires Working(p.up, lease) && lease !in p.bridge.progress && Produce(kind, p.up.queue.rows[lease.id], job) == Ok(outputs)
    requires FreshIds(p.down, outputs) && |fates| == |outputs|
    ensures EndsLikeDispatch(kind, p, lease, outputs, fates, MoveRun(kind, p, DispatchMoves(lease, job, fates)))
  {
    hide Produce, FreshIds, EndsLikeDispatch, MoveRun;
    if AllAcknowledged(|outputs|, fates) {
      AllAcknowledgedMoves(kind, p, lease, job, outputs, fates);
    } else {
      var k := FirstUnacknowledged(|outputs|, fates);
      UnacknowledgedMoves(kind, p, lease, job, outputs, fates, k);
    }
  }

  lemma Ended(kind: Kind, p: Pair, lease: Lease)
    requires Working(p.up, lease) && lease in p.bridge.progress && p.bridge.progress[lease].stored == |p.bridge.progress[lease].outputs|
    ensures var after := Advance(kind, p, End(lease));
            after.down == p.down && lease in after.up.items && after.up.items[lease].Worked?
  {
  }

  /** The loop without others in between, in the same terms. */
  lemma {:induction false} QuietDispatch(kind: Kind, s: State, outputs: seq<Output>, others: seq<seq<Event>>, fates: seq<Fate>)
    requires |outputs| <= |fates| && |outputs| <= |others| && forall i | 0 <= i < |others| :: others[i] == []
    ensures Dispatched(kind, s, outputs, others, StoredCount(|outputs|, fates), Tried(|outputs|, fates))
            == Exec(kind, s, Records(outputs[..StoredCount(|outputs|, fates)]))
  {
    var own := Records(outputs[..StoredCount(|outputs|, fates)]);
    StoredWithinTried(|outputs|, fates);
    QuietInterleaving(others, own, Tried(|outputs|, fates));
    assert own[..|own|] == own;
  }

  lemma {:induction false} StoredWithinTried(n: nat, fates: seq<Fate>)
    ensures StoredCount(n, fates) <= Tried(n, fates)
  {
    if n > 0 && fates != [] {
      StoredWithinTried(n - 1, fates[1..]);
    }
  }

  lemma {:induction false} QuietInterleaving(others: seq<seq<Event>>, own: seq<Event>, n: nat)
    requires n <= |others| && forall i | 0 <= i < |others| :: others[i] == []
    ensures Interleaved(others, own, n) == own[..if n <= |own| then n else |own|]
  {
    if n > 0 {
      QuietInterleaving(others, own, n - 1);
    }
  }
}
