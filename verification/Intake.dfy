/** The broker side of the inbox: receive a delivery, store it, then acknowledge it or hand it back. */
module Intake {
  import opened Base
  import opened Metadata
  import opened Queue
  import opened Leases
  import opened Ledger
  import opened Repository

  /** What the broker hands over. `id` and `correlation` are the optional text properties. */
  datatype Delivery = Delivery(utf8: bool, payload: Text, id: Option<Text>, correlation: Option<Text>, exchange: Text, routingKey: Text)

  /** What has become of a delivery, as the broker sees it. */
  datatype Settlement = Unsettled | Acked | Requeued | Dropped

  /** A delivery the worker took: the id it used, whether the store committed, and the settlement. */
  datatype Handled = Handled(delivery: Delivery, id: Uuid, clock: Time, stored: bool, settlement: Settlement)

  /** What happens at one turn of the loop. A received delivery comes with the id drawn if it has none, the
      clock, what others do to the queue meanwhile, the fate of the storing transaction, whether the
      storing task dies after it, the fate of the acknowledgement, and whether the token is cancelled
      during the backoff. */
  datatype Turn =
    | Cancelled
    | Receive(delivery: Delivery, drawn: Uuid, clock: Time, others: seq<Event>, fate: Fate, dies: bool, settle: Fate, cancelled: bool)
    | Closed
    | Broken(cancelled: bool)

  datatype Failure = Transport | Recording | Acknowledgement

  /** `Going`: the loop waits for its next turn. */
  datatype Exit = Going | Stopped | Ended(error: Failure)

  datatype World = World(queue: State, log: seq<Handled>)

  // ---------- conversions ----------

  function ParseId(text: Option<Text>): Option<Uuid> {
    match text
    case Some(UuidText(id)) => Some(id)
    case _ => None
  }

  function NonEmpty(text: Text): Option<Text> {
    if text == Lit("") then None else Some(text)
  }

  /** The id the message is stored under: its own if it has a well-formed one, else a newly drawn one. */
  function IdOf(delivery: Delivery, drawn: Uuid): Uuid {
    match ParseId(delivery.id)
    case Some(id) => id
    case None => drawn
  }

  function MetaOf(delivery: Delivery, id: Uuid): Meta {
    InboxMeta(Some(id), ParseId(delivery.correlation), NonEmpty(delivery.exchange), NonEmpty(delivery.routingKey))
  }

  /** The inbox has no route column of its own. */
  function InboxRow(delivery: Delivery, id: Uuid, clock: Time): Row {
    NewRow(MetaOf(delivery, id), delivery.payload, Lit(""), clock, clock, clock)
  }

  /** A delivery as it stands in the inbox when it has just arrived: due at once, never attempted, with the
      message's payload and, as metadata, its id, its correlation if that is a UUID, and its exchange and routing
      key unless they are empty. */
  predicate IsArrival(delivery: Delivery, id: Uuid, clock: Time, row: Row) {
    && row.status == Status.Received && row.attempts == 0 && row.token == None && row.reservedAt == None
    && row.scheduledAt == clock && row.receivedAt == clock && row.updatedAt == clock && row.processedAt == None
    && row.lastError == None && row.extra == None && row.payload == delivery.payload
    && row.meta.Some?
    && Decode(Inbox, row.meta.value)
       == Ok(InboxMeta(Some(id),
                       if delivery.correlation.Some? && delivery.correlation.value.UuidText? then Some(delivery.correlation.value.id) else None,
                       if delivery.exchange == Lit("") then None else Some(delivery.exchange),
                       if delivery.routingKey == Lit("") then None else Some(delivery.routingKey)))
  }

  lemma ArrivalRow(delivery: Delivery, id: Uuid, clock: Time)
    ensures IsArrival(delivery, id, clock, InboxRow(delivery, id, clock))
  {
    RoundTripIff(MetaOf(delivery, id));
  }

  /** Storing text adds its row unless its id is taken, and does nothing if the transaction rolls back. */
  lemma ArrivalStores(s: State, turn: Turn)
    requires turn.Receive? && turn.delivery.utf8
    ensures var before := Exec(Inbox, s, turn.others);
            var after := Exec(Inbox, s, StoreEvents(turn));
            var id := if turn.delivery.id.Some? && turn.delivery.id.value.UuidText? then turn.delivery.id.value.id else turn.drawn;
            if turn.fate.RolledBack? || id in before.rows then after == before
            else id in after.rows && after.rows == before.rows[id := after.rows[id]] && IsArrival(turn.delivery, id, turn.clock, after.rows[id])
  {
    var id := IdOf(turn.delivery, turn.drawn);
    ArrivalRow(turn.delivery, id, turn.clock);
    RoundTripIff(MetaOf(turn.delivery, id));
    assert IsRecordable(Inbox, id, InboxRow(turn.delivery, id, turn.clock));
    hide IsArrival, InboxRow, Exec, IsRecordable;
    if turn.fate.RolledBack? {
      assert StoreEvents(turn) == turn.others;
    } else {
      ExecAppendOne(Inbox, s, turn.others, StoreEvent(turn));
    }
  }

  // ---------- the meaning of a turn ----------

  function StoreEvents(turn: Turn): seq<Event>
    requires turn.Receive?
  {
    turn.others + if turn.delivery.utf8 && !turn.fate.RolledBack? then [StoreEvent(turn)] else []
  }

  function StoreEvent(turn: Turn): Event
    requires turn.Receive?
  {
    var id := IdOf(turn.delivery, turn.drawn);
    Event.Record(id, InboxRow(turn.delivery, id, turn.clock))
  }

  /** Text that is not UTF-8 is rejected without requeueing, and that is not retried; a stored delivery is
      acknowledged, one whose storing failed is handed back; a dying task settles nothing. */
  function SettlementOf(turn: Turn): Settlement
    requires turn.Receive?
  {
    if turn.settle.RolledBack? then Unsettled
    else if !turn.delivery.utf8 then Dropped
    else if turn.dies then Unsettled
    else if turn.fate.Committed? then Acked
    else Requeued
  }

  function TurnEffect(w: World, turn: Turn): World {
    match turn
    case Receive(delivery, drawn, clock, _, fate, _, _, _) =>
      World(Exec(Inbox, w.queue, StoreEvents(turn)),
            w.log + [Handled(delivery, IdOf(delivery, drawn), clock, delivery.utf8 && !fate.RolledBack?, SettlementOf(turn))])
    case _ => w
  }

  function TurnExit(turn: Turn): Exit {
    match turn
    case Cancelled => Stopped
    case Closed => Ended(Transport)
    case Broken(cancelled) => if cancelled then Stopped else Ended(Transport)
    case Receive(delivery, _, _, _, fate, dies, settle, cancelled) =>
      if !delivery.utf8 then Going
      else if dies then Ended(Recording)
      else if !settle.Committed? then Ended(Acknowledgement)
      else if fate.Committed? || !cancelled then Going
      else Stopped
  }

  /** The loop: turn after turn until one ends it. */
  function Loop(w: World, turns: seq<Turn>): World
    decreases |turns|
  {
    if turns == [] then w
    else if TurnExit(turns[0]).Going? then Loop(TurnEffect(w, turns[0]), turns[1..])
    else TurnEffect(w, turns[0])
  }

  function LoopExit(turns: seq<Turn>): Exit {
    if turns == [] then Going
    else if TurnExit(turns[0]).Going? then LoopExit(turns[1..])
    else TurnExit(turns[0])
  }

  /** Any delivery that is no text, or one that was stored, or not, and settled in time to go on. */
  predicate GoesOn(turn: Turn) {
    turn.Receive? && (turn.delivery.utf8 ==> !turn.dies && turn.settle.Committed? && (turn.fate.Committed? || !turn.cancelled))
  }

  predicate FirstEnding(turns: seq<Turn>, n: nat) {
    n < |turns| && !GoesOn(turns[n]) && forall i | 0 <= i < n :: GoesOn(turns[i])
  }

  predicate Stops(turn: Turn) {
    || turn.Cancelled? || (turn.Broken? && turn.cancelled)
    || (turn.Receive? && turn.delivery.utf8 && !turn.dies && turn.settle.Committed? && !turn.fate.Committed? && turn.cancelled)
  }

  predicate LosesTransport(turn: Turn) {
    turn.Closed? || (turn.Broken? && !turn.cancelled)
  }

  predicate LosesTask(turn: Turn) {
    turn.Receive? && turn.delivery.utf8 && turn.dies
  }

  predicate LosesSettlement(turn: Turn) {
    turn.Receive? && turn.delivery.utf8 && !turn.dies && !turn.settle.Committed?
  }

  /** The loop goes on while every turn does; otherwise its exit is told by the first turn that does not:
      cancellation, a lost transport, a dead task or a failed settlement, and nothing else. */
  lemma {:induction false} ExitIsFirstEnding(turns: seq<Turn>)
    ensures LoopExit(turns) == Going <==> forall i | 0 <= i < |turns| :: GoesOn(turns[i])
    ensures LoopExit(turns) == Stopped <==> exists n: nat :: FirstEnding(turns, n) && Stops(turns[n])
    ensures LoopExit(turns) == Ended(Transport) <==> exists n: nat :: FirstEnding(turns, n) && LosesTransport(turns[n])
    ensures LoopExit(turns) == Ended(Recording) <==> exists n: nat :: FirstEnding(turns, n) && LosesTask(turns[n])
    ensures LoopExit(turns) == Ended(Acknowledgement) <==> exists n: nat :: FirstEnding(turns, n) && LosesSettlement(turns[n])
  {
    if turns != [] {
      ExitIsFirstEnding(turns[1..]);
      if GoesOn(turns[0]) {
        forall n: nat ensures FirstEnding(turns, n) <==> n > 0 && FirstEnding(turns[1..], n - 1) {
          LaterEnding(turns, n);
        }
        forall n: nat ensures FirstEnding(turns[1..], n) <==> FirstEnding(turns, n + 1) {
          LaterEnding(turns, n + 1);
        }
      } else {
        assert FirstEnding(turns, 0);
        assert forall n: nat :: FirstEnding(turns, n) ==> n == 0;
      }
    }
  }

  lemma LaterEnding(turns: seq<Turn>, n: nat)
    requires turns != [] && GoesOn(turns[0])
    ensures FirstEnding(turns, n) <==> n > 0 && FirstEnding(turns[1..], n - 1)
    ensures n < |turns| && n > 0 ==> turns[1..][n - 1] == turns[n]
  {
    if n > 0 && n < |turns| && FirstEnding(turns[1..], n - 1) {
      forall i | 0 <= i < n ensures GoesOn(turns[i]) {
        assert i > 0 ==> turns[1..][i - 1] == turns[i];
      }
    }
    if n > 0 && FirstEnding(turns, n) {
      forall i | 0 <= i < n - 1 ensures GoesOn(turns[1..][i]) {
        assert turns[1..][i] == turns[i + 1];
      }
    }
  }

  // ---------- the worker ----------

  class WorkerLoop {
    const store: Repository
    var log: seq<Handled>

    function Current(): World
      reads this, store
    {
      World(store.State(), log)
    }

    constructor (store: Repository)
      requires store.kind == Inbox
      ensures this.store == store && log == []
    {
      this.store := store;
      log := [];
    }

    /** The storing task. */
    method StoreDelivery(turn: Turn) returns (r: Result<(), Error>)
      requires turn.Receive? && turn.delivery.utf8 && store.kind == Inbox
      modifies store
      ensures store.State() == Exec(Inbox, old(store.State()), StoreEvents(turn))
      ensures r.Ok? <==> turn.fate.Committed?
      ensures var before := Exec(Inbox, old(store.State()), turn.others);
              var id := if turn.delivery.id.Some? && turn.delivery.id.value.UuidText? then turn.delivery.id.value.id else turn.drawn;
              if turn.fate.RolledBack? || id in before.rows then store.State() == before
              else && id in store.State().rows && store.State().rows == before.rows[id := store.State().rows[id]]
                   && IsArrival(turn.delivery, id, turn.clock, store.State().rows[id])
    {
      var id := IdOf(turn.delivery, turn.drawn);
      var meta := MetaOf(turn.delivery, id);
      ghost var s := store.State();
      ArrivalStores(s, turn);
      hide IsArrival, InboxRow, Exec;
      store.Interfere(turn.others);
      r := store.Record(id, Some(meta), turn.delivery.payload, Lit(""), turn.clock, turn.clock, turn.clock, turn.fate);
      if turn.fate.RolledBack? {
        assert StoreEvents(turn) == turn.others;
      } else {
        assert StoreEvents(turn)[..|turn.others|] == turn.others;
      }
    }

    /** The client's loop: reject malformed deliveries and go on to the first turn that is something else. */
    method Next(turns: seq<Turn>, start: nat) returns (n: nat)
      requires start <= |turns| && store.kind == Inbox
      modifies this`log, store
      ensures start <= n <= |turns|
      ensures forall i | start <= i < n :: turns[i].Receive? && !turns[i].delivery.utf8
      ensures n < |turns| && turns[n].Receive? ==> turns[n].delivery.utf8
      ensures Loop(old(Current()), turns[start..]) == Loop(Current(), turns[n..])
      ensures LoopExit(turns[start..]) == LoopExit(turns[n..])
    {
      n := start;
      while n < |turns| && turns[n].Receive? && !turns[n].delivery.utf8
        invariant start <= n <= |turns|
        invariant forall i | start <= i < n :: turns[i].Receive? && !turns[i].delivery.utf8
        invariant Loop(old(Current()), turns[start..]) == Loop(Current(), turns[n..])
        invariant LoopExit(turns[start..]) == LoopExit(turns[n..])
      {
        var turn := turns[n];
        store.Interfere(turn.others);
        assert StoreEvents(turn) == turn.others;
        log := log + [Handled(turn.delivery, IdOf(turn.delivery, turn.drawn), turn.clock, false,
                              if turn.settle.RolledBack? then Unsettled else Dropped)];
        assert turns[n..][0] == turn && turns[n..][1..] == turns[n + 1..];
        n := n + 1;
      }
    }

    /** Store a delivery, then acknowledge it or hand it back. */
    method Take(turn: Turn) returns (exit: Exit)
      requires turn.Receive? && turn.delivery.utf8 && store.kind == Inbox
      modifies this`log, store
      ensures Current() == TurnEffect(old(Current()), turn) && exit == TurnExit(turn)
      ensures |log| == |old(log)| + 1 && log[..|old(log)|] == old(log)
      ensures log[|old(log)|].delivery == turn.delivery && (log[|old(log)|].stored <==> !turn.fate.RolledBack?)
      ensures !turn.dies && !turn.settle.RolledBack? ==>
                && (log[|old(log)|].settlement == Acked <==> turn.fate.Committed?)
                && (log[|old(log)|].settlement == Requeued <==> !turn.fate.Committed?)
      ensures turn.dies || turn.settle.RolledBack? ==> log[|old(log)|].settlement == Unsettled
      ensures exit == Ended(Recording) <==> turn.dies
      ensures exit == Ended(Acknowledgement) <==> !turn.dies && !turn.settle.Committed?
      ensures exit == Stopped <==> !turn.dies && turn.settle.Committed? && !turn.fate.Committed? && turn.cancelled
      ensures exit == Going <==> !turn.dies && turn.settle.Committed? && (turn.fate.Committed? || !turn.cancelled)
    {
      var id := IdOf(turn.delivery, turn.drawn);
      var stored := StoreDelivery(turn);
      if turn.dies {
        log := log + [Handled(turn.delivery, id, turn.clock, !turn.fate.RolledBack?, Unsettled)];
        return Ended(Recording);
      }
      var settlement := if stored.Ok? then Acked else Requeued;
      log := log + [Handled(turn.delivery, id, turn.clock, !turn.fate.RolledBack?,
                            if turn.settle.RolledBack? then Unsettled else settlement)];
      if !turn.settle.Committed? {
        return Ended(Acknowledgement);
      }
      exit := if stored.Err? && turn.cancelled then Stopped else Going;
    }

    /** Receive, store, settle, until cancelled, closed or failed. */
    method Run(turns: seq<Turn>) returns (exit: Exit)
      requires store.kind == Inbox
      modifies this`log, store
      ensures Current() == Loop(old(Current()), turns)
      ensures exit == LoopExit(turns)
    {
      ghost var w := Current();
      var n := 0;
      assert turns[0..] == turns;
      exit := Going;
      while n < |turns|
        invariant 0 <= n <= |turns| && exit == Going
        invariant Loop(w, turns) == Loop(Current(), turns[n..]) && LoopExit(turns) == LoopExit(turns[n..])
      {
        n := Next(turns, n);
        if n == |turns| {
          break;
        }
        assert turns[n..][0] == turns[n] && turns[n..][1..] == turns[n + 1..];
        match turns[n] {
          case Cancelled =>
            return Stopped;
          case Closed =>
            return Ended(Transport);
          case Broken(cancelled) =>
            return if cancelled then Stopped else Ended(Transport);
          case Receive(_, _, _, _, _, _, _, _) =>
            exit := Take(turns[n]);
            if exit != Going {
              return;
            }
        }
        n := n + 1;
      }
    }
  }

  // ---------- nothing is lost ----------

  /** A delivery the broker lets go of is stored or was no text at all. */
  predicate NotLost(h: Handled, rows: Rows) {
    && (h.settlement.Acked? ==> h.stored)
    && (h.settlement.Dropped? <==> !h.delivery.utf8 && !h.settlement.Unsettled?)
    && (h.stored ==> h.delivery.utf8 && h.id in rows)
  }

  predicate NothingLost(w: World) {
    Inv(w.queue) && forall i | 0 <= i < |w.log| :: NotLost(w.log[i], w.queue.rows)
  }

  /** Storing adds the row unless its id is taken. */
  lemma StoreInserts(s: State, turn: Turn)
    requires Inv(s) && turn.Receive?
    ensures var others := Exec(Inbox, s, turn.others);
            var own := IdOf(turn.delivery, turn.drawn);
            && Inv(others) && Inv(Exec(Inbox, s, StoreEvents(turn)))
            && Exec(Inbox, s, StoreEvents(turn)).rows
               == if turn.delivery.utf8 && !turn.fate.RolledBack? && own !in others.rows
                  then others.rows[own := InboxRow(turn.delivery, own, turn.clock)] else others.rows
  {
    RunKeepsInv(Inbox, s, turn.others);
    RunKeepsInv(Inbox, s, StoreEvents(turn));
    if turn.delivery.utf8 && !turn.fate.RolledBack? {
      var own := IdOf(turn.delivery, turn.drawn);
      assert StoreEvents(turn)[..|turn.others|] == turn.others;
      RoundTripIff(MetaOf(turn.delivery, own));
      assert IsRecordable(Inbox, own, InboxRow(turn.delivery, own, turn.clock));
    } else {
      assert StoreEvents(turn) == turn.others;
    }
  }

  lemma RowsRemain(s: State, es: seq<Event>)
    requires Inv(s)
    ensures s.rows.Keys <= Exec(Inbox, s, es).rows.Keys
  {
    RunKeepsInv(Inbox, s, es);
  }

  lemma TurnLosesNothing(w: World, turn: Turn)
    requires NothingLost(w)
    ensures NothingLost(TurnEffect(w, turn))
  {
    if turn.Receive? {
      hide Exec, Inv, StoreEvents;
      StoreInserts(w.queue, turn);
      RowsRemain(w.queue, turn.others);
      var after := TurnEffect(w, turn);
      forall i | 0 <= i < |after.log| ensures NotLost(after.log[i], after.queue.rows) {
        assert i < |w.log| ==> after.log[i] == w.log[i];
      }
    }
  }

  /** Over every run of the loop: each acknowledged delivery is stored, and each delivery that is text and
      was not stored is still unacknowledged or was handed back. */
  lemma {:induction false} IntakeLosesNothing(w: World, turns: seq<Turn>)
    requires NothingLost(w)
    decreases |turns|
    ensures NothingLost(Loop(w, turns))
    ensures forall i | 0 <= i < |Loop(w, turns).log| ::
              var h := Loop(w, turns).log[i];
              && (h.settlement.Acked? ==> h.id in Loop(w, turns).queue.rows)
              && (h.delivery.utf8 && !h.stored ==> h.settlement.Unsettled? || h.settlement.Requeued?)
  {
    if turns != [] {
      TurnLosesNothing(w, turns[0]);
      if TurnExit(turns[0]).Going? {
        IntakeLosesNothing(TurnEffect(w, turns[0]), turns[1..]);
      }
    }
  }

  /** The entry of one turn, from its fates alone. Text that was stored and settled is acknowledged; text that was
      not is handed back; malformed deliveries are rejected for good; and what did not reach the broker, or was
      never sent because the task died, is unsettled. */
  predicate Logs(turn: Turn, h: Handled)
    requires turn.Receive?
  {
    && h.delivery == turn.delivery && h.clock == turn.clock
    && h.id == (if turn.delivery.id.Some? && turn.delivery.id.value.UuidText? then turn.delivery.id.value.id else turn.drawn)
    && (h.stored <==> turn.delivery.utf8 && !turn.fate.RolledBack?)
    && (h.settlement == Acked <==> turn.delivery.utf8 && !turn.dies && !turn.settle.RolledBack? && turn.fate.Committed?)
    && (h.settlement == Requeued <==> turn.delivery.utf8 && !turn.dies && !turn.settle.RolledBack? && !turn.fate.Committed?)
    && (h.settlement == Dropped <==> !turn.delivery.utf8 && !turn.settle.RolledBack?)
    && (h.settlement == Unsettled <==> turn.settle.RolledBack? || (turn.delivery.utf8 && turn.dies))
  }

  /** A malformed delivery leaves the queue to the others, and so does a store that rolls back. */
  lemma NothingIsStored(w: World, turn: Turn)
    requires turn.Receive? && (!turn.delivery.utf8 || turn.fate.RolledBack?)
    ensures TurnEffect(w, turn).queue == Exec(Inbox, w.queue, turn.others)
  {
    assert StoreEvents(turn) == turn.others;
  }

  /** The loop logs its turns one for one, up to and including the one that ends it. */
  lemma {:induction false} TurnsAreLogged(w: World, turns: seq<Turn>, i: nat)
    requires i < |turns| && turns[i].Receive? && forall j | 0 <= j < i :: GoesOn(turns[j])
    ensures var log := Loop(w, turns).log;
            |w.log| + i < |log| && log[..|w.log|] == w.log && Logs(turns[i], log[|w.log| + i])
    decreases |turns|
  {
    var next := TurnEffect(w, turns[0]);
    LoopExtendsLog(next, turns[1..]);
    if i > 0 {
      assert GoesOn(turns[0]);
      forall j | 0 <= j < i - 1 ensures GoesOn(turns[1..][j]) {
        assert turns[1..][j] == turns[j + 1];
      }
      TurnsAreLogged(next, turns[1..], i - 1);
      assert next.log[..|w.log|] == w.log;
    }
  }

  /** After the turn that ends the loop nothing more is taken. */
  lemma {:induction false} NothingAfterEnding(w: World, turns: seq<Turn>, n: nat)
    requires FirstEnding(turns, n)
    ensures |Loop(w, turns).log| == |w.log| + n + if turns[n].Receive? then 1 else 0
    decreases |turns|
  {
    if n > 0 {
      LaterEnding(turns, n);
      NothingAfterEnding(TurnEffect(w, turns[0]), turns[1..], n - 1);
    }
  }

  lemma {:induction false} LoopExtendsLog(w: World, turns: seq<Turn>)
    ensures |w.log| <= |Loop(w, turns).log| <= |w.log| + |turns| && Loop(w, turns).log[..|w.log|] == w.log
    decreases |turns|
  {
    if turns != [] {
      var next := TurnEffect(w, turns[0]);
      assert next.log[..|w.log|] == w.log;
      if TurnExit(turns[0]).Going? {
        LoopExtendsLog(next, turns[1..]);
        assert Loop(next, turns[1..]).log[..|w.log|] == next.log[..|w.log|];
      }
    }
  }

  // ---------- redeliveries ----------

  /** The first delivery stored under an id. */
  function FirstStored(log: seq<Handled>, id: Uuid): Option<Handled> {
    if log == [] then None
    else
      var earlier := FirstStored(log[..|log| - 1], id);
      var last := log[|log| - 1];
      if earlier.Some? then earlier else if last.stored && last.id == id then Some(last) else None
  }

  /** Nobody else records a message under this id. */
  predicate OnlyReceived(turns: seq<Turn>, id: Uuid) {
    forall i, j | 0 <= i < |turns| && turns[i].Receive? && 0 <= j < |turns[i].others| ::
      turns[i].others[j].Record? ==> turns[i].others[j].id != id
  }

  predicate HoldsFirst(w: World, id: Uuid) {
    match FirstStored(w.log, id)
    case None => id !in w.queue.rows
    case Some(first) => id in w.queue.rows && SameContent(w.queue.rows[id], InboxRow(first.delivery, id, first.clock))
  }

  predicate NoRecord(es: seq<Event>, id: Uuid) {
    forall i | 0 <= i < |es| :: es[i].Record? ==> es[i].id != id
  }

  lemma {:induction false} OthersDoNotStore(s: State, es: seq<Event>, id: Uuid)
    requires Inv(s) && NoRecord(es, id)
    ensures id in Exec(Inbox, s, es).rows <==> id in s.rows
    ensures id in s.rows ==> SameContent(Exec(Inbox, s, es).rows[id], s.rows[id])
  {
    if id in s.rows {
      ContentIsImmutable(Inbox, s, es, id);
    } else if es != [] {
      var init, e := es[..|es| - 1], es[|es| - 1];
      OthersDoNotStore(s, init, id);
      RunKeepsInv(Inbox, s, init);
      if id in Exec(Inbox, s, es).rows {
        RowsAppearOnlyByRecord(Inbox, Exec(Inbox, s, init), e, id);
      }
    }
  }

  lemma TurnKeepsFirst(w: World, turn: Turn, id: Uuid)
    requires Inv(w.queue) && HoldsFirst(w, id) && (turn.Receive? ==> NoRecord(turn.others, id))
    ensures Inv(TurnEffect(w, turn).queue) && HoldsFirst(TurnEffect(w, turn), id)
  {
    hide Exec, Inv, InboxRow, StoreEvents;
    if turn.Receive? {
      StoreInserts(w.queue, turn);
      OthersDoNotStore(w.queue, turn.others, id);
      var after := TurnEffect(w, turn);
      assert after.log[..|after.log| - 1] == w.log;
    }
  }

  /** What the loop and everyone else did to the queue, in order. */
  function LoopEvents(turns: seq<Turn>): seq<Event> {
    if turns == [] then []
    else
      (if turns[0].Receive? then StoreEvents(turns[0]) else [])
      + if TurnExit(turns[0]).Going? then LoopEvents(turns[1..]) else []
  }

  lemma {:induction false} LoopIsRun(w: World, turns: seq<Turn>)
    ensures Loop(w, turns).queue == Exec(Inbox, w.queue, LoopEvents(turns))
    decreases |turns|
  {
    if turns != [] {
      var own := if turns[0].Receive? then StoreEvents(turns[0]) else [];
      ExecNothing(Inbox, w.queue);
      if TurnExit(turns[0]).Going? {
        LoopIsRun(TurnEffect(w, turns[0]), turns[1..]);
        ExecAppend(Inbox, w.queue, own, LoopEvents(turns[1..]));
      } else {
        assert own + [] == own;
      }
    }
  }

  /** However often and in whatever shape a message is delivered again, and whoever else stores under its id,
      its one row keeps the content of the first that was stored. */
  lemma RedeliveryKeepsFirst(w: World, turns: seq<Turn>, id: Uuid)
    requires Inv(w.queue)
    ensures var rows := Loop(w, turns).queue.rows;
            if id in w.queue.rows then id in rows && SameContent(rows[id], w.queue.rows[id])
            else match FirstRecord(Inbox, LoopEvents(turns), id)
                 case None => id !in rows
                 case Some(row) => id in rows && SameContent(rows[id], row)
  {
    LoopIsRun(w, turns);
    if id in w.queue.rows {
      ContentIsImmutable(Inbox, w.queue, LoopEvents(turns), id);
    } else {
      FirstRecordWins(Inbox, w.queue, LoopEvents(turns), id);
    }
  }

  /** Where nobody else uses the id, that is the first delivery the loop stored under it. */
  lemma {:induction false} RedeliveryKeepsFirstDelivery(w: World, turns: seq<Turn>, id: Uuid)
    requires Inv(w.queue) && HoldsFirst(w, id) && OnlyReceived(turns, id)
    decreases |turns|
    ensures Inv(Loop(w, turns).queue) && HoldsFirst(Loop(w, turns), id)
  {
    if turns != [] {
      TurnKeepsFirst(w, turns[0], id);
      if TurnExit(turns[0]).Going? {
        RedeliveryKeepsFirstDelivery(TurnEffect(w, turns[0]), turns[1..], id);
      }
    }
  }

  /** Storing one message twice leaves one row exactly when it came with a well-formed id: without one, every
      delivery draws an id of its own. */
  lemma OneRowIff(s: State, delivery: Delivery, drawn: Uuid, again: Uuid, clock: Time)
    requires delivery.utf8 && drawn != again && drawn !in s.rows && again !in s.rows
    ensures var first, second := IdOf(delivery, drawn), IdOf(delivery, again);
            var once := Next(Inbox, s, Event.Record(first, InboxRow(delivery, first, clock)));
            var twice := Next(Inbox, once, Event.Record(second, InboxRow(delivery, second, clock)));
            && first in once.rows
            && (twice == once <==> ParseId(delivery.id).Some?)
            && (ParseId(delivery.id).None? ==> |twice.rows| == |s.rows| + 2)
  {
    var first, second := IdOf(delivery, drawn), IdOf(delivery, again);
    RoundTripIff(MetaOf(delivery, first));
    RoundTripIff(MetaOf(delivery, second));
    assert IsRecordable(Inbox, first, InboxRow(delivery, first, clock));
    assert IsRecordable(Inbox, second, InboxRow(delivery, second, clock));
    var once := Next(Inbox, s, Event.Record(first, InboxRow(delivery, first, clock)));
    assert ParseId(delivery.id).None? ==> once.rows.Keys == s.rows.Keys + {drawn};
  }
}
