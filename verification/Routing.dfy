/** The routing table of a mediator (src/modules/routing/services/ProviderRoutingService.ts). */
module Routing {
  import opened Results
  import C = Connections
  import E = Envelopes

  type Verkey = C.Verkey
  type Table = map<Verkey, C.ConnectionRecord>

  datatype Update = Add(recipientKey: Verkey) | Remove(recipientKey: Verkey)
  datatype Error =
    | RouteExists | NoSuchRoute | OtherConnection | MissingTo | NoRecipientKeys | CannotAddress

  function SaveRoute(t: Table, key: Verkey, c: C.ConnectionRecord): Result<Table, Error> {
    if key in t then Err(RouteExists) else Ok(t[key := c])
  }

  function RemoveRoute(t: Table, key: Verkey, c: C.ConnectionRecord): Result<Table, Error> {
    if key !in t then Err(NoSuchRoute)
    else if t[key].id != c.id then Err(OtherConnection)
    else Ok(t - {key})
  }

  function UpdateRoute(t: Table, u: Update, c: C.ConnectionRecord): Result<Table, Error> {
    match u
    case Add(key) => SaveRoute(t, key, c)
    case Remove(key) => RemoveRoute(t, key, c)
  }

  /** The message addressed to the connection that has the route, whatever `to` names. */
  function ForwardTo<P>(t: Table, to: Option<Verkey>, message: E.Wire<P>): Result<E.OutboundMessage<P>, Error> {
    if to.None? then Err(MissingTo)
    else if to.value !in t then Err(NoSuchRoute)
    else if t[to.value].TheirKey().None? then Err(NoRecipientKeys)
    else
      match E.CreateOutboundMessage(t[to.value], E.Forward(to, message))
      case Err(_) => Err(CannotAddress)
      case Ok(m) => Ok(m)
  }

  // ----- the log ----------------------------------------------------------------------------

  datatype LogEntry = LogEntry(update: Update, connection: C.ConnectionRecord)

  /** The table that a log of successful updates leaves, starting from none. */
  function Replay(log: seq<LogEntry>): Table {
    if log == [] then map[]
    else
      var last, t := log[|log| - 1], Replay(log[..|log| - 1]);
      match last.update
      case Add(key) => t[key := last.connection]
      case Remove(key) => t - {key}
  }

  /** Each update in the log succeeded where it stands. */
  ghost predicate Lawful(log: seq<LogEntry>) {
    forall i :: 0 <= i < |log| ==> UpdateRoute(Replay(log[..i]), log[i].update, log[i].connection) == Ok(Replay(log[..i + 1]))
  }

  function Entries(updates: seq<Update>, c: C.ConnectionRecord): seq<LogEntry> {
    seq(|updates|, i requires 0 <= i < |updates| => LogEntry(updates[i], c))
  }

  lemma EntriesGrow(updates: seq<Update>, i: nat, c: C.ConnectionRecord)
    requires i < |updates|
    ensures Entries(updates[..i + 1], c) == Entries(updates[..i], c) + [LogEntry(updates[i], c)]
  {
  }

  lemma LogGrows(log: seq<LogEntry>, e: LogEntry)
    requires Lawful(log) && UpdateRoute(Replay(log), e.update, e.connection).Ok?
    ensures Lawful(log + [e]) && UpdateRoute(Replay(log), e.update, e.connection) == Ok(Replay(log + [e]))
  {
    var log' := log + [e];
    assert log'[..|log|] == log;
    forall i | 0 <= i < |log'|
      ensures UpdateRoute(Replay(log'[..i]), log'[i].update, log'[i].connection) == Ok(Replay(log'[..i + 1]))
    {
      assert log'[..i] == log[..i];
      if i < |log| { assert log'[..i + 1] == log[..i + 1]; } else { assert log'[..i + 1] == log'; }
    }
  }

  ghost predicate RemovedBy(log: seq<LogEntry>, i: nat, j: nat, key: Verkey, id: C.ConnectionId) {
    exists k :: i <= k < j <= |log| && log[k].update == Remove(key) && log[k].connection.id == id
  }

  /** One update leaves a route as it is, or is its own connection's removal of it. */
  lemma OneUpdate(log: seq<LogEntry>, j: nat, key: Verkey)
    requires Lawful(log) && j < |log| && key in Replay(log[..j])
    ensures (key in Replay(log[..j + 1]) && Replay(log[..j + 1])[key] == Replay(log[..j])[key])
            || (log[j].update == Remove(key) && log[j].connection.id == Replay(log[..j])[key].id)
  {
    assert UpdateRoute(Replay(log[..j]), log[j].update, log[j].connection) == Ok(Replay(log[..j + 1]));
    hide Lawful, Replay;
  }

  /** A route belongs to the connection that added it until that connection itself removes it. */
  lemma {:induction false} RouteStays(log: seq<LogEntry>, i: nat, j: nat, key: Verkey)
    requires Lawful(log) && i <= j <= |log| && key in Replay(log[..i])
    ensures (key in Replay(log[..j]) && Replay(log[..j])[key] == Replay(log[..i])[key])
            || RemovedBy(log, i, j, key, Replay(log[..i])[key].id)
  {
    hide Lawful, Replay;
    if i < j {
      RouteStays(log, i, j - 1, key);
      if key in Replay(log[..j - 1]) { OneUpdate(log, j - 1, key); }
    }
  }

  class ProviderRoutingService {
    var routingTable: Table
    ghost var log: seq<LogEntry>

    /** The table is the replay of all updates that succeeded. */
    ghost predicate Valid()
      reads this
    {
      Lawful(log) && routingTable == Replay(log)
    }

    constructor ()
      ensures Valid() && log == []
    {
      routingTable, log := map[], [];
    }

    method FindRecipient(recipientKey: Verkey) returns (result: Result<C.ConnectionRecord, Error>)
      ensures result == if recipientKey in routingTable then Ok(routingTable[recipientKey]) else Err(NoSuchRoute)
    {
      if recipientKey !in routingTable { return Err(NoSuchRoute); }
      return Ok(routingTable[recipientKey]);
    }

    method SaveRoute(recipientKey: Verkey, connection: C.ConnectionRecord) returns (error: Option<Error>)
      requires Valid()
      modifies this
      ensures Valid()
      ensures log == old(log) + if error.None? then [LogEntry(Add(recipientKey), connection)] else []
      ensures error == if recipientKey in old(routingTable) then Some(RouteExists) else None
    {
      if recipientKey in routingTable { return Some(RouteExists); }
      LogGrows(log, LogEntry(Add(recipientKey), connection));
      routingTable := routingTable[recipientKey := connection];
      log := log + [LogEntry(Add(recipientKey), connection)];
      return None;
    }

    method RemoveRoute(recipientKey: Verkey, connection: C.ConnectionRecord) returns (error: Option<Error>)
      requires Valid()
      modifies this
      ensures Valid()
      ensures log == old(log) + if error.None? then [LogEntry(Remove(recipientKey), connection)] else []
      ensures error == if recipientKey !in old(routingTable) then Some(NoSuchRoute)
                       else if old(routingTable)[recipientKey].id != connection.id then Some(OtherConnection) else None
    {
      if recipientKey !in routingTable { return Some(NoSuchRoute); }
      var storedConnection := routingTable[recipientKey];
      if storedConnection.id != connection.id { return Some(OtherConnection); }
      LogGrows(log, LogEntry(Remove(recipientKey), connection));
      routingTable := routingTable - {recipientKey};
      log := log + [LogEntry(Remove(recipientKey), connection)];
      return None;
    }

    /** Applies the updates in order and stops at the first that fails: what came before it stays. */
    method UpdateRoutes(updates: seq<Update>, connection: C.ConnectionRecord) returns (error: Option<Error>, ghost done: nat)
      requires Valid()
      modifies this
      ensures Valid() && done <= |updates| && log == old(log) + Entries(updates[..done], connection)
      ensures error.None? <==> done == |updates|
      ensures error.Some? ==> UpdateRoute(routingTable, updates[done], connection) == Err(error.value)
    {
      assert Entries(updates[..0], connection) == [];
      hide Lawful, Replay, Entries;
      for i := 0 to |updates|
        invariant Valid() && log == old(log) + Entries(updates[..i], connection)
      {
        var e;
        match updates[i] {
          case Add(key) => e := SaveRoute(key, connection);
          case Remove(key) => e := RemoveRoute(key, connection);
        }
        if e.Some? { return e, i; }
        EntriesGrow(updates, i, connection);
      }
      assert updates[..|updates|] == updates;
      return None, |updates|;
    }

    method Forward<P>(to: Option<Verkey>, message: E.Wire<P>) returns (result: Result<E.OutboundMessage<P>, Error>)
      ensures result == ForwardTo(routingTable, to, message)
      ensures result.Err? ==>
                result.error == (if to.None? then MissingTo
                                 else if to.value !in routingTable then NoSuchRoute
                                 else if routingTable[to.value].TheirKey().None? then NoRecipientKeys
                                 else CannotAddress)
      ensures result.Ok? ==>
                && to.Some? && to.value in routingTable && result.value.payload == E.Forward(to, message)
                && result.value.senderVk == routingTable[to.value].verkey
                && routingTable[to.value].theirDidDoc.Some?
                && Some(C.IndyAgentService(result.value.endpoint, result.value.recipientKeys, result.value.routingKeys)) ==
                   C.FirstAgentService(routingTable[to.value].theirDidDoc.value.service)
    {
      if to.None? { return Err(MissingTo); }
      var connection := FindRecipient(to.value);
      if connection.Err? { return Err(connection.error); }
      if connection.value.TheirKey().None? { return Err(NoRecipientKeys); }
      var outbound := E.CreateOutboundMessage(connection.value, E.Forward(to, message));
      if outbound.Err? { return Err(CannotAddress); }
      return Ok(outbound.value);
    }
  }
}
