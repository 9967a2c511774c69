/**
 * The server's client registry with batched change reporting
 * (DataProcessing): a table of tracked connections keyed by socket
 * descriptor, the set of identifiers in use, and two append-only batches,
 * one of status snapshots and one of telemetry records, that the scheduler
 * drains. Sockets are not modelled: what the registry asks the transport to
 * do (send a message, drop a connection) is appended to an outbox.
 */
module Registry {

  import opened Options
  import opened AppEnums
  import opened Text
  import opened Variants
  import Keys

  /** A configuration payload, as the QVariantMap the JSON object converts to. */
  type Config = map<string, Variant>

  /**
   * One tracked connection: ClientState together with the identifier and the
   * peer address the connection's IClient object carries.
   */
  datatype ClientState = ClientState(
    id: string,
    address: string,
    port: nat,
    status: ClientStatus,
    allowSending: bool,
    configuration: Config)

  /** A message from a client after JSON parsing; `Malformed` stands for a parse failure or a non-object. */
  datatype Message =
    | Malformed
    | Parsed(msgType: string, id: string, payload: Config)

  /** An operator's per-client update, routed by descriptor. */
  datatype RouteRequest = RouteRequest(
    descriptor: nat,
    msgType: string,
    id: string,
    allowSending: bool,
    payload: Config)

  /** What the registry asks the transport to do. */
  datatype Outbound =
    | Confirmation(descriptor: nat, id: string)   // registration confirmation carrying the assigned id
    | Command(descriptor: nat, command: string)   // a broadcast command
    | Routed(descriptor: nat, request: RouteRequest)
    | Removed(descriptor: nat)                    // server->removeClient

  /** The status snapshot appended to the client batch (getClientDataMap). */
  function ClientDataMap(d: nat, s: ClientState): Row
  {
    map[
      Keys.ID := Str(s.id),
      Keys.DESCRIPTOR := Int(d),
      Keys.ADDRESS := Str(s.address + ":" + NatToString(s.port)),
      Keys.PORT := Int(s.port),
      Keys.STATUS := Int(Code(s.status)),
      Keys.ALLOW_SENDING := Bool(s.allowSending),
      Keys.CONFIGURATION := Map(s.configuration)]
  }

  /** A snapshot reads back as the record it was taken from. */
  lemma ClientDataMapReadBack(d: nat, s: ClientState)
    ensures ToText(Get(ClientDataMap(d, s), Keys.ID)) == s.id
    ensures ToText(Get(ClientDataMap(d, s), Keys.DESCRIPTOR)) == NatToString(d)
    ensures StatusOfCode(ToInt(Get(ClientDataMap(d, s), Keys.STATUS))) == Some(s.status)
    ensures ToBool(Get(ClientDataMap(d, s), Keys.ALLOW_SENDING)) == s.allowSending
    ensures Get(ClientDataMap(d, s), Keys.CONFIGURATION) == Some(Map(s.configuration))
  {
    CodeOrderAndRoundTrip(s.status, s.status);
  }

  /** A telemetry record appended to the data batch. */
  function DataRecord(timestamp: string, id: string, msgType: string, payload: Config): Row
  {
    map[
      Keys.TIME_STAMP := Str(timestamp),
      Keys.ID := Str(id),
      Keys.TYPE := Str(msgType),
      Keys.PAYLOAD := Map(payload)]
  }

  /** The record a new connection gets: its descriptor in decimal as a temporary id. */
  function Placeholder(d: nat, address: string, port: nat): ClientState
  {
    ClientState(NatToString(d), address, port, AUTHORIZING, false, map[])
  }

  /** The record of a connection after registration. */
  function RegisteredState(s: ClientState, name: string, allow: bool, payload: Config): ClientState
  {
    ClientState(name, s.address, s.port, CONNECTED, allow, payload)
  }

  /** Records that have completed registration at some point. */
  predicate IsRegistered(s: ClientState)
  {
    s.status == CONNECTED || s.status == DISCONNECTED
  }

  /** A disconnected record holding `id`, which a reconnecting client may take over. */
  predicate Reclaimable(clients: map<nat, ClientState>, k: nat, id: string)
  {
    k in clients && clients[k].id == id && clients[k].status == DISCONNECTED
  }

  /**
   * The registry invariant: registered ids are reserved and pairwise
   * distinct; a record still authorizing carries its descriptor as id, and no
   * registered record holds that text; DELETED records are never stored.
   */
  ghost predicate RegistryInv(clients: map<nat, ClientState>, used: set<string>)
  {
    && (forall d :: d in clients ==> clients[d].status != DELETED)
    && (forall d :: d in clients && IsRegistered(clients[d]) ==> clients[d].id in used)
    && (forall d, e :: d in clients && e in clients && d != e && IsRegistered(clients[d]) && IsRegistered(clients[e])
          ==> clients[d].id != clients[e].id)
    && (forall a :: a in clients && clients[a].status == AUTHORIZING ==> clients[a].id == NatToString(a))
    && (forall d, a :: d in clients && a in clients && IsRegistered(clients[d]) && clients[a].status == AUTHORIZING
          ==> clients[d].id != NatToString(a))
  }

  /** Under the invariant every tracked record, authorizing or not, has its own id. */
  lemma UniqueIds(clients: map<nat, ClientState>, used: set<string>, d: nat, e: nat)
    requires RegistryInv(clients, used)
    requires d in clients && e in clients && d != e
    ensures clients[d].id != clients[e].id
  {
    if clients[d].status == AUTHORIZING && clients[e].status == AUTHORIZING {
      NatToStringInjective(d, e);
    }
  }

  /** No record other than `d` has registered under the decimal text of `d`. */
  predicate PlaceholderFree(clients: map<nat, ClientState>, d: nat)
  {
    forall e :: e in clients && e != d && IsRegistered(clients[e]) ==> clients[e].id != NatToString(d)
  }

  /** The requested id is not the temporary id of another connection still authorizing. */
  predicate NotAPlaceholder(clients: map<nat, ClientState>, d: nat, id: string)
  {
    forall a :: a in clients && a != d && clients[a].status == AUTHORIZING ==> id != NatToString(a)
  }

  // ---------------------------------------------------------------------------
  // Collision resolution

  /** The smallest suffix n' >= n whose name is free, given that id_1 .. id_(n-1) are all taken. */
  function FirstFreeSuffix(used: set<string>, id: string, n: nat): (r: nat)
    requires n >= 1
    requires forall m :: 1 <= m < n ==> Suffixed(id, m) in used
    ensures n <= r <= |used| + 1
    ensures Suffixed(id, r) !in used
    ensures forall m :: 1 <= m < r ==> Suffixed(id, m) in used
    decreases |used| + 1 - n
  {
    SuffixesTakenBound(used, id, n - 1);
    if Suffixed(id, n) !in used then n else FirstFreeSuffix(used, id, n + 1)
  }

  /** The id a new (non-takeover) registration receives. */
  function AssignedName(used: set<string>, id: string): (r: string)
    ensures r !in used
    ensures id !in used ==> r == id
    ensures id in used ==> exists n :: 1 <= n <= |used| + 1 && r == Suffixed(id, n)
  {
    if id !in used then id else Suffixed(id, FirstFreeSuffix(used, id, 1))
  }

  /**
   * The suffix loop of registration: starting from the requested id, try
   * id_1, id_2, ... until a name is not in use.
   */
  method ResolveCollision(used: set<string>, id: string) returns (assignedId: string, suffix: nat)
    ensures assignedId !in used
    ensures suffix == 0 <==> id !in used
    ensures suffix == 0 ==> assignedId == id
    ensures suffix > 0 ==> assignedId == Suffixed(id, suffix)
    ensures forall m :: 1 <= m < suffix ==> Suffixed(id, m) in used
    ensures assignedId == AssignedName(used, id)
  {
    assignedId, suffix := id, 0;
    while assignedId in used
      invariant suffix == 0 ==> assignedId == id
      invariant suffix > 0 ==> assignedId == Suffixed(id, suffix) && id in used
      invariant forall m :: 1 <= m < suffix ==> Suffixed(id, m) in used
      invariant suffix <= |used| + 1
      decreases |used| + 1 - suffix
    {
      if suffix > 0 {
        SuffixesTakenBound(used, id, suffix);
      }
      suffix := suffix + 1;
      assignedId := Suffixed(id, suffix);
    }
    if suffix > 0 {
      ghost var f := FirstFreeSuffix(used, id, 1);
      assert f == suffix;
    }
  }

  // ---------------------------------------------------------------------------
  // Purging

  /** The records a purge keeps, while the descriptors in `todo` are still to be visited. */
  ghost function Kept(c0: map<nat, ClientState>, todo: set<nat>): map<nat, ClientState>
  {
    map d | d in c0 && (d in todo || c0[d].status != DISCONNECTED) :: c0[d]
  }

  /** The ids a purge has released once the descriptors in `todo` are all that remain to visit. */
  ghost function Released(c0: map<nat, ClientState>, todo: set<nat>): set<string>
  {
    set d | d in c0 && d !in todo && c0[d].status == DISCONNECTED :: c0[d].id
  }

  /** The DELETED snapshots of the records in `order`, in that order. */
  function DeletedSnapshots(c0: map<nat, ClientState>, order: seq<nat>): (r: seq<Row>)
    requires forall i :: 0 <= i < |order| ==> order[i] in c0
    ensures |r| == |order|
    ensures forall i :: 0 <= i < |order| ==> r[i] == ClientDataMap(order[i], c0[order[i]].(status := DELETED))
  {
    if order == [] then []
    else DeletedSnapshots(c0, order[..|order| - 1]) + [ClientDataMap(order[|order| - 1], c0[order[|order| - 1]].(status := DELETED))]
  }

  /** One removal request per descriptor in `order`. */
  function Removals(order: seq<nat>): (r: seq<Outbound>)
    ensures |r| == |order|
    ensures forall i :: 0 <= i < |order| ==> r[i] == Removed(order[i])
  {
    if order == [] then [] else Removals(order[..|order| - 1]) + [Removed(order[|order| - 1])]
  }

  /** Removing one more record extends both reports by one entry. */
  lemma PurgeRecordsStep(c0: map<nat, ClientState>, order: seq<nat>, d: nat)
    requires d in c0 && forall i :: 0 <= i < |order| ==> order[i] in c0
    ensures DeletedSnapshots(c0, order + [d]) == DeletedSnapshots(c0, order) + [ClientDataMap(d, c0[d].(status := DELETED))]
    ensures Removals(order + [d]) == Removals(order) + [Removed(d)]
  {
    assert (order + [d])[..|order|] == order;
  }

  /** Visiting one more descriptor of a purge. */
  lemma PurgeStep(c0: map<nat, ClientState>, todo: set<nat>, d: nat)
    requires d in todo && todo <= c0.Keys
    ensures c0[d].status == DISCONNECTED ==>
      Kept(c0, todo - {d}) == Kept(c0, todo) - {d} && Released(c0, todo - {d}) == Released(c0, todo) + {c0[d].id}
    ensures c0[d].status != DISCONNECTED ==>
      Kept(c0, todo - {d}) == Kept(c0, todo) && Released(c0, todo - {d}) == Released(c0, todo)
  {
  }

  /** The records left and the ids still reserved after a purge has visited all of c0 but `todo`. */
  ghost predicate PurgeRecords(
    c0: map<nat, ClientState>, u0: set<string>, todo: set<nat>, clients: map<nat, ClientState>, used: set<string>)
  {
    && todo <= c0.Keys
    && clients == Kept(c0, todo)
    && used == u0 - Released(c0, todo)
  }

  /** `order` lists, without repeats, exactly the visited DISCONNECTED descriptors. */
  ghost predicate PurgeOrder(c0: map<nat, ClientState>, todo: set<nat>, order: seq<nat>)
  {
    && (forall i, j :: 0 <= i < j < |order| ==> order[i] != order[j])
    && (forall d :: d in order <==> d in c0 && d !in todo && c0[d].status == DISCONNECTED)
  }

  /** The batch and the outbox have grown by one report per descriptor of `order`. */
  ghost predicate PurgeReports(
    c0: map<nat, ClientState>, b0: seq<Row>, o0: seq<Outbound>, order: seq<nat>, batch: seq<Row>, outbox: seq<Outbound>)
  {
    && (forall i :: 0 <= i < |order| ==> order[i] in c0)
    && batch == b0 + DeletedSnapshots(c0, order)
    && outbox == o0 + Removals(order)
  }

  /** The loop invariant of a purge that started from c0 / u0 / b0 / o0 and has `todo` left to visit. */
  ghost predicate PurgeProgress(
    c0: map<nat, ClientState>, u0: set<string>, b0: seq<Row>, o0: seq<Outbound>,
    todo: set<nat>, order: seq<nat>,
    clients: map<nat, ClientState>, used: set<string>, batch: seq<Row>, outbox: seq<Outbound>)
  {
    && PurgeRecords(c0, u0, todo, clients, used)
    && PurgeOrder(c0, todo, order)
    && PurgeReports(c0, b0, o0, order, batch, outbox)
  }

  /**
   * What registering the connection `d` under `id` does to the records c0,
   * the reserved ids u0, the snapshot batch b0 and the outbox o0, giving
   * c1 / u1 / b1 / o1. An untracked connection changes nothing. Otherwise a
   * DISCONNECTED record `taken` holding `id` is taken over (its id reused,
   * its send permission inherited), or, when there is none, the smallest
   * free name is assigned with sending allowed; either way `confirmed` is
   * the name confirmed to the client.
   */
  ghost predicate Registration(
    c0: map<nat, ClientState>, u0: set<string>, b0: seq<Row>, o0: seq<Outbound>,
    d: nat, id: string, payload: Config, taken: Option<nat>, confirmed: Option<string>,
    c1: map<nat, ClientState>, u1: set<string>, b1: seq<Row>, o1: seq<Outbound>)
  {
    && (d !in c0 ==>
          confirmed == None && taken == None && c1 == c0 && u1 == u0 && b1 == b0 && o1 == o0)
    && (d in c0 ==> confirmed.Some?)
    && (taken.Some? ==> d in c0 && Reclaimable(c0, taken.value, id))
    && (d in c0 && taken.None? ==> forall k :: !Reclaimable(c0, k, id))
    && (d in c0 && taken.Some? ==>
          var k := taken.value;
          var state := RegisteredState(c0[d], id, c0[k].allowSending, payload);
          && confirmed == Some(id)
          && c1 == (c0 - {k})[d := state]
          && u1 == u0 + {id}
          && b1 == b0 + [ClientDataMap(k, c0[k].(status := DELETED)), ClientDataMap(d, state)]
          && o1 == o0 + [Removed(k), Confirmation(d, id)])
    && (d in c0 && taken.None? ==>
          var name := AssignedName(u0, id);
          var state := RegisteredState(c0[d], name, true, payload);
          && confirmed == Some(name)
          && c1 == c0[d := state]
          && u1 == u0 + {name}
          && b1 == b0 + [ClientDataMap(d, state)]
          && o1 == o0 + [Confirmation(d, name)])
  }

  /** A takeover of the DISCONNECTED record k, written as the code performs it, is a registration. */
  lemma RegistrationByTakeover(
    c0: map<nat, ClientState>, u0: set<string>, b0: seq<Row>, o0: seq<Outbound>,
    d: nat, id: string, payload: Config, k: nat,
    c1: map<nat, ClientState>, u1: set<string>, b1: seq<Row>, o1: seq<Outbound>)
    requires d in c0 && Reclaimable(c0, k, id)
    requires c1 == (c0 - {k})[d := RegisteredState(c0[d], id, c0[k].allowSending, payload)]
    requires u1 == (u0 - {c0[k].id}) + {id}
    requires b1 == (b0 + [ClientDataMap(k, c0[k].(status := DELETED))]) + [ClientDataMap(d, c1[d])]
    requires o1 == (o0 + [Removed(k)]) + [Confirmation(d, id)]
    ensures Registration(c0, u0, b0, o0, d, id, payload, Some(k), Some(id), c1, u1, b1, o1)
  {
    assert (b0 + [ClientDataMap(k, c0[k].(status := DELETED))]) + [ClientDataMap(d, c1[d])]
      == b0 + [ClientDataMap(k, c0[k].(status := DELETED)), ClientDataMap(d, c1[d])];
    assert (o0 + [Removed(k)]) + [Confirmation(d, id)] == o0 + [Removed(k), Confirmation(d, id)];
  }

  /** Naming the connection by the suffix rule, when no record can be taken over, is a registration. */
  lemma RegistrationByName(
    c0: map<nat, ClientState>, u0: set<string>, b0: seq<Row>, o0: seq<Outbound>,
    d: nat, id: string, payload: Config,
    c1: map<nat, ClientState>, u1: set<string>, b1: seq<Row>, o1: seq<Outbound>)
    requires d in c0 && forall k :: !Reclaimable(c0, k, id)
    requires c1 == c0[d := RegisteredState(c0[d], AssignedName(u0, id), true, payload)]
    requires u1 == u0 + {AssignedName(u0, id)}
    requires b1 == b0 + [ClientDataMap(d, c1[d])]
    requires o1 == o0 + [Confirmation(d, AssignedName(u0, id))]
    ensures Registration(c0, u0, b0, o0, d, id, payload, None, Some(AssignedName(u0, id)), c1, u1, b1, o1)
  {
  }

  // ---------------------------------------------------------------------------
  // The registry

  class DataProcessing {

    var clients: map<nat, ClientState>
    var usedIds: set<string>
    var clientBatch: seq<Row>
    var dataBatch: seq<Row>
    var outbox: seq<Outbound>

    ghost predicate Inv()
      reads this
    {
      RegistryInv(clients, usedIds)
    }

    constructor ()
      ensures clients == map[] && usedIds == {}
      ensures clientBatch == [] && dataBatch == [] && outbox == []
      ensures Inv()
    {
      clients, usedIds := map[], {};
      clientBatch, dataBatch, outbox := [], [], [];
    }

    /**
     * A new connection: tracked under its descriptor as AUTHORIZING with the
     * descriptor as temporary id, overwriting any record already there.
     */
    method HandleClientConnected(d: nat, address: string, port: nat)
      modifies this
      ensures clients == old(clients)[d := Placeholder(d, address, port)]
      ensures clientBatch == old(clientBatch) + [ClientDataMap(d, Placeholder(d, address, port))]
      ensures usedIds == old(usedIds) && dataBatch == old(dataBatch) && outbox == old(outbox)
      ensures old(Inv()) && PlaceholderFree(old(clients), d) ==> Inv()
    {
      var state := Placeholder(d, address, port);
      clients := clients[d := state];
      clientBatch := clientBatch + [ClientDataMap(d, state)];
    }

    /**
     * removeClient: releases the record's id, reports it once more as
     * DELETED and asks the transport to drop the connection. The callers
     * erase the record.
     */
    method RemoveClient(d: nat, s: ClientState)
      modifies this
      ensures usedIds == old(usedIds) - {s.id}
      ensures clientBatch == old(clientBatch) + [ClientDataMap(d, s.(status := DELETED))]
      ensures outbox == old(outbox) + [Removed(d)]
      ensures clients == old(clients) && dataBatch == old(dataBatch)
    {
      usedIds := usedIds - {s.id};
      clientBatch := clientBatch + [ClientDataMap(d, s.(status := DELETED))];
      outbox := outbox + [Removed(d)];
    }

    /**
     * A closed connection: an untracked descriptor changes nothing; a record
     * still authorizing is removed; any other record becomes DISCONNECTED and
     * is kept for a later takeover.
     */
    method HandleClientDisconnected(d: nat)
      modifies this
      ensures d !in old(clients) ==>
        clients == old(clients) && usedIds == old(usedIds) && clientBatch == old(clientBatch) && outbox == old(outbox)
      ensures d in old(clients) && old(clients)[d].status == AUTHORIZING ==>
        && clients == old(clients) - {d}
        && usedIds == old(usedIds) - {old(clients)[d].id}
        && clientBatch == old(clientBatch) + [ClientDataMap(d, old(clients)[d].(status := DELETED))]
        && outbox == old(outbox) + [Removed(d)]
      ensures d in old(clients) && old(clients)[d].status != AUTHORIZING ==>
        && clients == old(clients)[d := old(clients)[d].(status := DISCONNECTED, allowSending := false)]
        && usedIds == old(usedIds)
        && clientBatch == old(clientBatch) + [ClientDataMap(d, clients[d])]
        && outbox == old(outbox)
      ensures dataBatch == old(dataBatch)
      ensures old(Inv()) ==> Inv()
    {
      if d in clients {
        var state := clients[d];
        if state.status == AUTHORIZING {
          RemoveClient(d, state);
          clients := clients - {d};
        } else {
          clients := clients[d := state.(status := DISCONNECTED, allowSending := false)];
          clientBatch := clientBatch + [ClientDataMap(d, clients[d])];
        }
      }
    }

    /**
     * Registration of the connection `d` under the requested id. A
     * disconnected record holding that id is taken over (its id is reused
     * unsuffixed and its send permission inherited); otherwise the smallest
     * free name among id, id_1, id_2, ... is assignedId with sending allowed.
     * `taken` names the record taken over, if any.
     */
    method RegisterClient(d: nat, id: string, payload: Config) returns (assignedId: Option<string>, ghost taken: Option<nat>)
      modifies this
      ensures dataBatch == old(dataBatch)
      ensures Registration(old(clients), old(usedIds), old(clientBatch), old(outbox), d, id, payload, taken, assignedId,
        clients, usedIds, clientBatch, outbox)
      ensures old(Inv()) && NotAPlaceholder(old(clients), d, id) ==> Inv()
    {
      if d !in clients {
        return None, None;
      }
      var client := clients[d];
      var name := id;
      var allow := true;
      if k :| k in clients && Reclaimable(clients, k, id) {
        var oldState := clients[k];
        RemoveClient(k, oldState);
        clients := clients - {k};
        allow := oldState.allowSending;
        taken := Some(k);
      } else {
        var suffix;
        name, suffix := ResolveCollision(usedIds, id);
        taken := None;
      }
      clients := clients[d := RegisteredState(client, name, allow, payload)];
      usedIds := usedIds + {name};
      clientBatch := clientBatch + [ClientDataMap(d, clients[d])];
      outbox := outbox + [Confirmation(d, name)];
      assignedId := Some(name);
      assert dataBatch == old(dataBatch);
      if taken.Some? {
        RegistrationByTakeover(old(clients), old(usedIds), old(clientBatch), old(outbox), d, id, payload, taken.value,
          clients, usedIds, clientBatch, outbox);
      } else {
        RegistrationByName(old(clients), old(usedIds), old(clientBatch), old(outbox), d, id, payload,
          clients, usedIds, clientBatch, outbox);
      }
      assert old(Inv()) && NotAPlaceholder(old(clients), d, id) ==> Inv() by {
        RegisterKeepsInv(old(clients), old(usedIds), d, id, payload, taken, clients, usedIds);
      }
    }

    /**
     * removeDisconnectedClients: erases exactly the DISCONNECTED records,
     * releasing each one's id and reporting each once as DELETED, in the
     * (hash) order `order`; returns how many were removed.
     */
    method RemoveDisconnectedClients() returns (count: nat, ghost order: seq<nat>)
      modifies this
      ensures clients == Kept(old(clients), {})
      ensures forall i, j :: 0 <= i < j < |order| ==> order[i] != order[j]
      ensures forall d :: d in order <==> d in old(clients) && old(clients)[d].status == DISCONNECTED
      ensures count == |order|
      ensures usedIds == old(usedIds) - Released(old(clients), {})
      ensures clientBatch == old(clientBatch) + DeletedSnapshots(old(clients), order)
      ensures outbox == old(outbox) + Removals(order)
      ensures dataBatch == old(dataBatch)
      ensures old(Inv()) ==> Inv()
    {
      ghost var c0, u0, b0, o0 := clients, usedIds, clientBatch, outbox;
      var todo := clients.Keys;
      order := [];
      count := 0;
      while todo != {}
        invariant PurgeProgress(c0, u0, b0, o0, todo, order, clients, usedIds, clientBatch, outbox)
        invariant count == |order|
        invariant dataBatch == old(dataBatch)
        decreases todo
      {
        var d :| d in todo;
        if clients[d].status == DISCONNECTED {
          PurgeRemoves(c0, u0, b0, o0, todo, d, order, clients, usedIds, clientBatch, outbox);
          RemoveClient(d, clients[d]);
          clients := clients - {d};
          order := order + [d];
          count := count + 1;
        } else {
          PurgeSkips(c0, u0, b0, o0, todo, d, order, clients, usedIds, clientBatch, outbox);
        }
        todo := todo - {d};
      }
      assert todo == {};
      if RegistryInv(c0, u0) {
        PurgeKeepsInv(c0, u0);
      }
    }

    /** clearClients: forgets every record and every reserved id; reports nothing. */
    method ClearClients()
      modifies this
      ensures clients == map[] && usedIds == {}
      ensures clientBatch == old(clientBatch) && dataBatch == old(dataBatch) && outbox == old(outbox)
      ensures Inv()
    {
      clients := map[];
      usedIds := {};
    }

    /** Hands over every snapshot recorded since the last take, leaving the batch empty. */
    method TakeClientUpdatesBatch() returns (batch: seq<Row>)
      modifies this`clientBatch
      ensures batch == old(clientBatch) && clientBatch == []
    {
      batch := clientBatch;
      clientBatch := [];
    }

    /** Hands over every telemetry record since the last take, leaving the batch empty. */
    method TakeDataBatch() returns (batch: seq<Row>)
      modifies this`dataBatch
      ensures batch == old(dataBatch) && dataBatch == []
    {
      batch := dataBatch;
      dataBatch := [];
    }

    /**
     * Dispatch of a parsed message from the connection `d`: a registration
     * registers; any other type from a tracked connection is recorded as
     * telemetry (stamped `now`), a configuration also replacing the record's
     * configuration; a malformed message or an untracked sender changes nothing.
     */
    method ParseJsonData(d: nat, msg: Message, now: string) returns (ghost assignedId: Option<string>, ghost taken: Option<nat>)
      modifies this
      ensures msg.Malformed? || (msg.msgType != Keys.REGISTRATION && d !in old(clients)) ==>
        clients == old(clients) && usedIds == old(usedIds) && clientBatch == old(clientBatch)
        && dataBatch == old(dataBatch) && outbox == old(outbox)
      ensures msg.Parsed? && msg.msgType == Keys.REGISTRATION ==>
        && dataBatch == old(dataBatch)
        && Registration(old(clients), old(usedIds), old(clientBatch), old(outbox), d, msg.id, msg.payload, taken, assignedId,
             clients, usedIds, clientBatch, outbox)
      ensures msg.Parsed? && msg.msgType != Keys.REGISTRATION && d in old(clients) ==>
        && usedIds == old(usedIds) && outbox == old(outbox)
        && dataBatch == old(dataBatch) + [DataRecord(now, old(clients)[d].id, msg.msgType, msg.payload)]
        && (msg.msgType == Keys.CONFIGURATION ==>
              && clients == old(clients)[d := old(clients)[d].(configuration := msg.payload)]
              && clientBatch == old(clientBatch) + [ClientDataMap(d, clients[d])])
        && (msg.msgType != Keys.CONFIGURATION ==> clients == old(clients) && clientBatch == old(clientBatch))
      ensures old(Inv()) && (msg.Parsed? && msg.msgType == Keys.REGISTRATION ==> NotAPlaceholder(old(clients), d, msg.id)) ==> Inv()
    {
      assignedId, taken := None, None;
      match msg
      case Malformed =>
      case Parsed(msgType, id, payload) =>
        if msgType == Keys.REGISTRATION {
          var name;
          name, taken := RegisterClient(d, id, payload);
          assignedId := name;
        } else if d in clients {
          if msgType == Keys.CONFIGURATION {
            clients := clients[d := clients[d].(configuration := payload)];
            clientBatch := clientBatch + [ClientDataMap(d, clients[d])];
          }
          dataBatch := dataBatch + [DataRecord(now, clients[d].id, msgType, payload)];
        }
    }

    /**
     * routeDataToClient: for a tracked descriptor, a configuration request
     * sets the send permission and the configuration and is reported; every
     * request to a tracked descriptor is forwarded to it. Otherwise nothing.
     */
    method RouteDataToClient(req: RouteRequest)
      modifies this
      ensures req.descriptor !in old(clients) ==>
        clients == old(clients) && clientBatch == old(clientBatch) && outbox == old(outbox)
      ensures req.descriptor in old(clients) ==>
        var d := req.descriptor;
        && outbox == old(outbox) + [Routed(d, req)]
        && (req.msgType == Keys.CONFIGURATION ==>
              && clients == old(clients)[d := old(clients)[d].(allowSending := req.allowSending, configuration := req.payload)]
              && clientBatch == old(clientBatch) + [ClientDataMap(d, clients[d])])
        && (req.msgType != Keys.CONFIGURATION ==> clients == old(clients) && clientBatch == old(clientBatch))
      ensures usedIds == old(usedIds) && dataBatch == old(dataBatch)
      ensures old(Inv()) ==> Inv()
    {
      var d := req.descriptor;
      if d in clients {
        if req.msgType == Keys.CONFIGURATION {
          clients := clients[d := clients[d].(allowSending := req.allowSending, configuration := req.payload)];
          clientBatch := clientBatch + [ClientDataMap(d, clients[d])];
        }
        outbox := outbox + [Routed(d, req)];
      }
    }

    /**
     * sendDataToAll: the command goes to every record that allows sending
     * and whose connection the transport reports as open (`connected`), once
     * each, in the (hash) order `order`; returns the number of recipients.
     */
    method SendDataToAll(command: string, connected: set<nat>) returns (count: nat, ghost order: seq<nat>)
      modifies this`outbox
      ensures forall i, j :: 0 <= i < j < |order| ==> order[i] != order[j]
      ensures forall d :: d in order <==> d in clients && clients[d].allowSending && d in connected
      ensures count == |order|
      ensures |outbox| == |old(outbox)| + count && outbox[..|old(outbox)|] == old(outbox)
      ensures forall i :: 0 <= i < |order| ==> outbox[|old(outbox)| + i] == Command(order[i], command)
    {
      var todo := clients.Keys;
      order := [];
      count := 0;
      while todo != {}
        invariant todo <= clients.Keys
        invariant forall i, j :: 0 <= i < j < |order| ==> order[i] != order[j]
        invariant forall d :: d in order <==> d in clients && d !in todo && clients[d].allowSending && d in connected
        invariant count == |order|
        invariant |outbox| == |old(outbox)| + count && outbox[..|old(outbox)|] == old(outbox)
        invariant forall i :: 0 <= i < |order| ==> outbox[|old(outbox)| + i] == Command(order[i], command)
        decreases todo
      {
        var d :| d in todo;
        if clients[d].allowSending && d in connected {
          outbox := outbox + [Command(d, command)];
          order := order + [d];
          count := count + 1;
        }
        todo := todo - {d};
      }
    }
  }

  /** Taking over a DISCONNECTED record keeps the invariant when the id is not another connection's temporary id. */
  lemma TakeoverKeepsInv(
    c0: map<nat, ClientState>, u0: set<string>, d: nat, id: string, payload: Config, k: nat,
    c1: map<nat, ClientState>, u1: set<string>)
    requires RegistryInv(c0, u0) && NotAPlaceholder(c0, d, id)
    requires d in c0 && Reclaimable(c0, k, id)
    requires c1 == (c0 - {k})[d := RegisteredState(c0[d], id, c0[k].allowSending, payload)] && u1 == u0 + {id}
    ensures RegistryInv(c1, u1)
  {
    forall a | a in c1 && c1[a].status == AUTHORIZING
      ensures id != NatToString(a)
    {
      assert a != d;
    }
  }

  /** Registering under AssignedName keeps the invariant when the id is not another connection's temporary id. */
  lemma NamedKeepsInv(
    c0: map<nat, ClientState>, u0: set<string>, d: nat, id: string, payload: Config,
    c1: map<nat, ClientState>, u1: set<string>)
    requires RegistryInv(c0, u0) && NotAPlaceholder(c0, d, id) && d in c0
    requires c1 == c0[d := RegisteredState(c0[d], AssignedName(u0, id), true, payload)] && u1 == u0 + {AssignedName(u0, id)}
    ensures RegistryInv(c1, u1)
  {
    var name := AssignedName(u0, id);
    forall a | a in c1 && c1[a].status == AUTHORIZING
      ensures name != NatToString(a)
    {
      if id in u0 {
        var n :| 1 <= n <= |u0| + 1 && name == Suffixed(id, n);
        SuffixedIsNotNumber(id, n, a);
      }
    }
  }

  /** Registration keeps the invariant when the requested id is not another connection's temporary id. */
  lemma RegisterKeepsInv(
    c0: map<nat, ClientState>, u0: set<string>, d: nat, id: string, payload: Config, taken: Option<nat>,
    c1: map<nat, ClientState>, u1: set<string>)
    requires d in c0
    requires taken.Some? ==> Reclaimable(c0, taken.value, id)
    requires taken.Some? ==>
      c1 == (c0 - {taken.value})[d := RegisteredState(c0[d], id, c0[taken.value].allowSending, payload)]
      && u1 == u0 + {id}
    requires taken.None? ==>
      c1 == c0[d := RegisteredState(c0[d], AssignedName(u0, id), true, payload)]
      && u1 == u0 + {AssignedName(u0, id)}
    ensures RegistryInv(c0, u0) && NotAPlaceholder(c0, d, id) ==> RegistryInv(c1, u1)
  {
    if RegistryInv(c0, u0) && NotAPlaceholder(c0, d, id) {
      if taken.Some? {
        TakeoverKeepsInv(c0, u0, d, id, payload, taken.value, c1, u1);
      } else {
        NamedKeepsInv(c0, u0, d, id, payload, c1, u1);
      }
    }
  }

  /**
   * A CONNECTED record that registers again under its own id finds no
   * record to take over and, since its id stays reserved, receives a
   * suffixed name.
   */
  lemma ReRegistrationSuffixed(c: map<nat, ClientState>, u: set<string>, d: nat)
    requires RegistryInv(c, u)
    requires d in c && c[d].status == CONNECTED
    ensures c[d].id in u
    ensures forall k :: !Reclaimable(c, k, c[d].id)
    ensures AssignedName(u, c[d].id) != c[d].id
  {
    forall k | k in c && k != d
      ensures !Reclaimable(c, k, c[d].id)
    {
      UniqueIds(c, u, k, d);
    }
  }

  /**
   * A registered client that disconnects and then registers again under its
   * id from a new connection takes over its old record, and so inherits the
   * send permission that the disconnect switched off.
   */
  lemma ReconnectInheritsSendingOff(
    c: map<nat, ClientState>, u: set<string>, e: nat, d: nat, payload: Config,
    b0: seq<Row>, o0: seq<Outbound>, taken: Option<nat>, confirmed: Option<string>,
    c1: map<nat, ClientState>, u1: set<string>, b1: seq<Row>, o1: seq<Outbound>)
    requires RegistryInv(c, u)
    requires e in c && c[e].status == CONNECTED && d in c && d != e
    requires Registration(c[e := c[e].(status := DISCONNECTED, allowSending := false)], u, b0, o0,
      d, c[e].id, payload, taken, confirmed, c1, u1, b1, o1)
    ensures taken == Some(e) && confirmed == Some(c[e].id)
    ensures d in c1 && c1[d].status == CONNECTED && !c1[d].allowSending
  {
    var c0 := c[e := c[e].(status := DISCONNECTED, allowSending := false)];
    assert Reclaimable(c0, e, c[e].id);
    if taken.Some? && taken.value != e {
      UniqueIds(c, u, taken.value, e);
    }
  }

  /**
   * A connection whose descriptor's decimal text is the id of a registered
   * record, once it disconnects while still authorizing, releases that id:
   * the state it leaves behind has a registered id outside the reserved set.
   */
  lemma PlaceholderReleaseBreaksInv(c: map<nat, ClientState>, u: set<string>, a: nat, e: nat, address: string, port: nat)
    requires RegistryInv(c, u)
    requires e in c && e != a && IsRegistered(c[e]) && c[e].id == NatToString(a)
    ensures !PlaceholderFree(c, a)
    ensures (c[a := Placeholder(a, address, port)] - {a}).Keys == c.Keys - {a}
    ensures !RegistryInv(c[a := Placeholder(a, address, port)] - {a}, u - {Placeholder(a, address, port).id})
  {
    var c1 := c[a := Placeholder(a, address, port)] - {a};
    assert e in c1 && c1[e] == c[e];
  }

  /** Purging disconnected records keeps the invariant. */
  lemma PurgeKeepsInv(c0: map<nat, ClientState>, u0: set<string>)
    requires RegistryInv(c0, u0)
    ensures RegistryInv(Kept(c0, {}), u0 - Released(c0, {}))
  {
  }

  /** Appending a newly visited DISCONNECTED descriptor keeps the removal order exact and free of repeats. */
  lemma PurgeOrderStep(c0: map<nat, ClientState>, todo: set<nat>, order: seq<nat>, d: nat)
    requires d in todo && d in c0 && c0[d].status == DISCONNECTED && PurgeOrder(c0, todo, order)
    ensures PurgeOrder(c0, todo - {d}, order + [d])
  {
    assert d !in order;
  }

  /** Removing a DISCONNECTED record drops it from the kept records and releases its id. */
  lemma PurgeRecordsRemove(
    c0: map<nat, ClientState>, u0: set<string>, todo: set<nat>, d: nat, clients: map<nat, ClientState>, used: set<string>)
    requires d in todo && PurgeRecords(c0, u0, todo, clients, used)
    requires d in clients && clients[d].status == DISCONNECTED
    ensures PurgeRecords(c0, u0, todo - {d}, clients - {d}, used - {clients[d].id})
  {
    assert clients[d] == c0[d];
    PurgeStep(c0, todo, d);
  }

  /** Reporting one more removed record extends both reports by its entry. */
  lemma PurgeReportsStep(
    c0: map<nat, ClientState>, b0: seq<Row>, o0: seq<Outbound>, order: seq<nat>, d: nat, batch: seq<Row>, outbox: seq<Outbound>)
    requires d in c0 && PurgeReports(c0, b0, o0, order, batch, outbox)
    ensures PurgeReports(c0, b0, o0, order + [d], batch + [ClientDataMap(d, c0[d].(status := DELETED))], outbox + [Removed(d)])
  {
    PurgeRecordsStep(c0, order, d);
  }

  /** A visit that removes a DISCONNECTED record keeps the purge loop's invariant. */
  lemma PurgeRemoves(
    c0: map<nat, ClientState>, u0: set<string>, b0: seq<Row>, o0: seq<Outbound>, todo: set<nat>, d: nat,
    order: seq<nat>, clients: map<nat, ClientState>, used: set<string>, batch: seq<Row>, outbox: seq<Outbound>)
    requires d in todo && PurgeProgress(c0, u0, b0, o0, todo, order, clients, used, batch, outbox)
    requires d in clients && clients[d].status == DISCONNECTED
    ensures PurgeProgress(c0, u0, b0, o0, todo - {d}, order + [d], clients - {d}, used - {clients[d].id},
      batch + [ClientDataMap(d, clients[d].(status := DELETED))], outbox + [Removed(d)])
  {
    assert clients[d] == c0[d];
    PurgeRecordsRemove(c0, u0, todo, d, clients, used);
    PurgeOrderStep(c0, todo, order, d);
    PurgeReportsStep(c0, b0, o0, order, d, batch, outbox);
  }

  /** A visit that passes over a record that is not DISCONNECTED keeps the purge loop's invariant. */
  lemma PurgeSkips(
    c0: map<nat, ClientState>, u0: set<string>, b0: seq<Row>, o0: seq<Outbound>, todo: set<nat>, d: nat,
    order: seq<nat>, clients: map<nat, ClientState>, used: set<string>, batch: seq<Row>, outbox: seq<Outbound>)
    requires d in todo && PurgeProgress(c0, u0, b0, o0, todo, order, clients, used, batch, outbox)
    requires d in clients && clients[d].status != DISCONNECTED
    ensures PurgeProgress(c0, u0, b0, o0, todo - {d}, order, clients, used, batch, outbox)
  {
    assert clients[d] == c0[d];
    PurgeStep(c0, todo, d);
  }
}
