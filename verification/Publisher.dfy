/** The strict AMQP publisher: one cached connection, dropped after any failure, and success only on a
    broker confirmation that routed the message. */
module Publisher {
  import opened Base
  import opened Metadata

  type Connection = nat

  /** What the broker answers; an `Ack` may carry the message back as unroutable. */
  datatype Confirmation = Ack(returned: Option<Text>) | Nack(returned: Option<Text>) | NotRequested

  /** How one awaited step ends within the time limit. */
  datatype Await<T> = Done(value: T) | Fails | TimesOut

  /** How the network behaves during one publish. `reached` says whether the broker got the message when
      the confirmation never arrives. */
  datatype Network = Network(connect: Await<Connection>, channel: Await<()>, select: Await<()>,
                             send: Await<()>, confirm: Await<Confirmation>, reached: bool)

  datatype PublishError = Transport | Timeout | Unroutable | Rejected | Unconfirmed

  /** What the broker receives. */
  datatype Message = Message(payload: Text, meta: Meta)

  function RequireConfirmation(confirmation: Confirmation): Result<(), PublishError> {
    match confirmation
    case Ack(None) => Ok(())
    case Ack(Some(_)) => Err(Unroutable)
    case Nack(_) => Err(Rejected)
    case NotRequested => Err(Unconfirmed)
  }

  function ErrorOf<T>(ended: Await<T>): PublishError {
    if ended.TimesOut? then Timeout else Transport
  }

  /** A usable connection: opened, with a channel, in confirm mode. */
  predicate Connected(network: Network) {
    network.connect.Done? && network.channel.Done? && network.select.Done?
  }

  /** Success needs a connection, a send, and an acknowledgement without a return, each in time. */
  predicate Confirmed(cached: bool, network: Network) {
    && (cached || Connected(network))
    && network.send.Done? && network.confirm == Done(Ack(None))
  }

  /** The broker surely has the message when it is confirmed, and may have it whenever it was sent. */
  predicate Reached(cached: bool, network: Network) {
    (cached || Connected(network)) && (network.send.Done? || network.reached) && (network.confirm.Done? || network.reached)
  }

  /** What the publisher saw of the broker's answer. */
  function Seen(cached: bool, network: Network): Await<Confirmation> {
    if (cached || Connected(network)) && network.send.Done? then network.confirm else Fails
  }

  /** The error is that of the first step that did not succeed. */
  function FirstError(cached: bool, network: Network): PublishError {
    if !cached && !network.connect.Done? then ErrorOf(network.connect)
    else if !cached && !network.channel.Done? then ErrorOf(network.channel)
    else if !cached && !network.select.Done? then ErrorOf(network.select)
    else if !network.send.Done? then ErrorOf(network.send)
    else if !network.confirm.Done? then ErrorOf(network.confirm)
    else
      match network.confirm.value
      case Nack(_) => Rejected
      case NotRequested => Unconfirmed
      case _ => Unroutable
  }

  /** `connects` counts the connections opened so far. */
  class ConfirmedPublisher {
    var connection: Option<Connection>
    var connects: nat

    constructor ()
      ensures connection == None && connects == 0
    {
      connection := None;
      connects := 0;
    }

    /** Open a connection, open a channel on it, put the channel in confirm mode. */
    method Connect(network: Network) returns (r: Result<Connection, PublishError>)
      modifies this`connects
      ensures r.Ok? <==> Connected(network)
      ensures r == if Connected(network) then Ok(network.connect.value) else Err(FirstError(false, network))
      ensures connects == Connects(false, old(connects), network)
    {
      if !network.connect.Done? {
        return Err(ErrorOf(network.connect));
      }
      connects := connects + 1;
      if !network.channel.Done? {
        return Err(ErrorOf(network.channel));
      }
      if !network.select.Done? {
        return Err(ErrorOf(network.select));
      }
      r := Ok(network.connect.value);
    }

    /** The part under the time limit. */
    method Attempt(network: Network) returns (r: Result<(), PublishError>)
      modifies this
      ensures r == if Confirmed(old(connection).Some?, network) then Ok(()) else Err(FirstError(old(connection).Some?, network))
      ensures connects == Connects(old(connection).Some?, old(connects), network)
      ensures connection == if old(connection).None? && Connected(network) then Some(network.connect.value) else old(connection)
    {
      if connection.None? {
        var opening :- Connect(network);
        connection := Some(opening);
      }
      if !network.send.Done? {
        return Err(ErrorOf(network.send));
      }
      if !network.confirm.Done? {
        return Err(ErrorOf(network.confirm));
      }
      r := RequireConfirmation(network.confirm.value);
    }

    /** A connection stays cached exactly when this publish succeeded; a cached one is reused, not reopened. */
    method PublishAsync(network: Network) returns (r: Result<(), PublishError>)
      modifies this
      ensures r == if Confirmed(old(connection).Some?, network) then Ok(()) else Err(FirstError(old(connection).Some?, network))
      ensures connection.Some? <==> r.Ok?
      ensures r.Ok? ==> connection == if old(connection).Some? then old(connection) else Some(network.connect.value)
      ensures connects == Connects(old(connection).Some?, old(connects), network)
      ensures r.Ok? ==> network.send.Done? && network.confirm == Done(Ack(None))
      ensures r.Ok? <==> (old(connection).Some? || (network.connect.Done? && network.channel.Done? && network.select.Done?))
                         && network.send.Done? && network.confirm == Done(Ack(None))
      ensures (old(connection).Some? || (network.connect.Done? && network.channel.Done? && network.select.Done?)) ==>
                && (network.send == Fails ==> r == Err(Transport))
                && (network.send == TimesOut ==> r == Err(Timeout))
                && (network.send.Done? ==>
                      && (network.confirm == Fails ==> r == Err(Transport))
                      && (network.confirm == TimesOut ==> r == Err(Timeout))
                      && (network.confirm.Done? && network.confirm.value.Ack? && network.confirm.value.returned.Some? ==> r == Err(Unroutable))
                      && (network.confirm.Done? && network.confirm.value.Nack? ==> r == Err(Rejected))
                      && (network.confirm == Done(NotRequested) ==> r == Err(Unconfirmed)))
      ensures old(connection).None? ==>
                && (network.connect == Fails ==> r == Err(Transport))
                && (network.connect == TimesOut ==> r == Err(Timeout))
                && (network.connect.Done? && network.channel == Fails ==> r == Err(Transport))
                && (network.connect.Done? && network.channel == TimesOut ==> r == Err(Timeout))
                && (network.connect.Done? && network.channel.Done? && network.select == Fails ==> r == Err(Transport))
                && (network.connect.Done? && network.channel.Done? && network.select == TimesOut ==> r == Err(Timeout))
      ensures connects == old(connects) + if old(connection).None? && network.connect.Done? then 1 else 0
    {
      r := Attempt(network);
      if r.Err? {
        connection := None;
      }
    }
  }

  function Connects(cached: bool, connects: nat, network: Network): nat {
    connects + if !cached && network.connect.Done? then 1 else 0
  }

  // ---------- many publishes ----------

  /** Whether a connection is cached after these publishes. */
  function CachedAfter(cached: bool, networks: seq<Network>): bool {
    if networks == [] then cached
    else Confirmed(CachedAfter(cached, networks[..|networks| - 1]), networks[|networks| - 1])
  }

  function ConnectsAfter(cached: bool, networks: seq<Network>): nat {
    if networks == [] then 0
    else
      var init := networks[..|networks| - 1];
      Connects(CachedAfter(cached, init), ConnectsAfter(cached, init), networks[|networks| - 1])
  }

  function Failures(cached: bool, networks: seq<Network>): nat {
    if networks == [] then 0
    else
      var init := networks[..|networks| - 1];
      Failures(cached, init) + if Confirmed(CachedAfter(cached, init), networks[|networks| - 1]) then 0 else 1
  }

  /** Connections are opened only after failures: never more than one beyond the failed publishes. */
  lemma {:induction false} ConnectionsAreReused(networks: seq<Network>)
    ensures ConnectsAfter(false, networks) <= Failures(false, networks) + if CachedAfter(false, networks) then 1 else 0
  {
    if networks != [] {
      ConnectionsAreReused(networks[..|networks| - 1]);
    }
  }
}
