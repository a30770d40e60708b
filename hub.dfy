/**
  The hub's client registry. Clients call Register and DeRegister on the hub;
  the transport calls OnDisconnected when a session ends. The registry maps
  each session (connection id) to the record the session registered with,
  each registered session joins the group named after its client, and every
  change is announced to the administrative group.

  `Registry` is a snapshot of everything these operations change; the
  functions RegisterEffect, DeRegisterEffect and DisconnectEffect say what
  each operation does to a snapshot, the lemmas below them state what the
  operations promise, and the class ManagedHub performs the operations in
  place and is proved against the three functions.
 */
module Hub {
  import opened Wrappers

  type ConnectionId = string

  /** The name of the administrative group, spelled as the hub spells it. */
  const ManagementGroupName: string := "ManamgementGroup"

  /** A registered session: the name and protocol version it registered with. */
  datatype Client = Client(clientName: string, version: int, connectionId: ConnectionId)

  /** Session `connectionId` belongs to the broadcast group `group`. */
  datatype Membership = Membership(connectionId: ConnectionId, group: string)

  /** The notifications broadcast to the administrative group. */
  datatype Notification = ClientConnected(name: string) | ClientDisconnected(name: string)

  /** The exception Register throws for the reserved name. */
  datatype HubError = InvalidClientName(clientName: string)

  /** The registry dictionary, the group memberships, and the notifications sent so far. */
  datatype Registry = Registry(clients: map<ConnectionId, Client>, groups: set<Membership>, outbox: seq<Notification>)

  /** What an operation returns to its caller, and the registry it leaves. */
  datatype Step<+T> = Step(reply: T, after: Registry)

  /**
    Every record is filed under its own connection id, never carries the
    reserved name, and its session is in the group named after it.
   */
  ghost predicate Consistent(reg: Registry)
  {
    forall id | id in reg.clients ::
      && reg.clients[id].connectionId == id
      && reg.clients[id].clientName != ManagementGroupName
      && Membership(id, reg.clients[id].clientName) in reg.groups
  }

  /**
    The registry outside session `caller` is the same in `a` and `b`: the
    same records under every other id and the same memberships of every other
    session.
   */
  ghost predicate SameOutside(a: Registry, b: Registry, caller: ConnectionId)
  {
    && (forall id | id != caller :: id in a.clients <==> id in b.clients)
    && (forall id | id != caller && id in a.clients :: a.clients[id] == b.clients[id])
    && (forall m: Membership | m.connectionId != caller :: m in a.groups <==> m in b.groups)
  }

  // ---------------------------------------------------------------------------
  // Names
  // ---------------------------------------------------------------------------

  /** Index of the first `c` in `s`, or -1 when there is none. */
  function IndexOf(s: string, c: char): (i: int)
    ensures -1 <= i < |s|
    ensures i >= 0 ==> s[i] == c
    ensures i >= 0 ==> forall j :: 0 <= j < i ==> s[j] != c
    ensures i < 0 <==> c !in s
  {
    if |s| == 0 then -1
    else if s[0] == c then 0
    else
      var k := IndexOf(s[1..], c);
      if k < 0 then -1 else k + 1
  }

  /**
    The name DeRegister works with: the part before the first underscore when
    that underscore is not the first character, otherwise the whole name.
   */
  function TranslateClientName(clientName: string): (root: string)
    ensures root <= clientName
    ensures root == clientName <==> '_' !in clientName || clientName[0] == '_'
    ensures root != clientName ==> 0 < |root| && clientName[|root|] == '_' && '_' !in root
  {
    var found := IndexOf(clientName, '_');
    if found > 0 then clientName[..found] else clientName
  }

  /** Translating a translated name changes nothing. */
  lemma TranslateIdempotent(clientName: string)
    ensures TranslateClientName(TranslateClientName(clientName)) == TranslateClientName(clientName)
  {
  }

  /** A name of the form root + "_" + suffix, with a non-empty root free of underscores, translates to root. */
  lemma SuffixedNameTranslatesToRoot(root: string, suffix: string)
    requires |root| > 0 && '_' !in root
    ensures TranslateClientName(root + "_" + suffix) == root
  {
    var name := root + "_" + suffix;
    assert name[|root|] == '_';
    assert forall j :: 0 <= j < |root| ==> name[j] == root[j];
    assert name[..|root|] == root;
  }

  // ---------------------------------------------------------------------------
  // Lookups
  // ---------------------------------------------------------------------------

  /** The record of session `caller`, if it registered. */
  function Lookup(reg: Registry, caller: ConnectionId): (r: Option<Client>)
    ensures r.None? <==> caller !in reg.clients
    ensures r.Some? ==> r.value == reg.clients[caller]
  {
    if caller in reg.clients then Some(reg.clients[caller]) else None
  }

  predicate Matches(c: Client, clientName: string, minVersion: int)
  {
    c.clientName == clientName && c.version >= minVersion
  }

  /** The first of `entries` with the given name and at least the given version. */
  function FirstMatch(entries: seq<Client>, clientName: string, minVersion: int): (r: Option<Client>)
    ensures r.None? <==> forall i :: 0 <= i < |entries| ==> !Matches(entries[i], clientName, minVersion)
    ensures r.Some? ==> exists k :: 0 <= k < |entries| && entries[k] == r.value
                                    && forall i :: 0 <= i < k ==> !Matches(entries[i], clientName, minVersion)
    ensures r.Some? ==> Matches(r.value, clientName, minVersion)
  {
    if |entries| == 0 then None
    else if Matches(entries[0], clientName, minVersion) then Some(entries[0])
    else
      var r := FirstMatch(entries[1..], clientName, minVersion);
      assert r.Some? ==> exists k :: 0 <= k < |entries| - 1 && entries[1..][k] == r.value
                                     && forall i :: 0 <= i < k ==> !Matches(entries[1..][i], clientName, minVersion);
      r
  }

  /** The records of `clients` in the enumeration order `order` (ids not in the map are skipped). */
  function InOrder(clients: map<ConnectionId, Client>, order: seq<ConnectionId>): (entries: seq<Client>)
    ensures forall i :: 0 <= i < |entries| ==> entries[i] in clients.Values
    ensures forall id :: id in order && id in clients ==> clients[id] in entries
  {
    if |order| == 0 then []
    else
      var rest := InOrder(clients, order[1..]);
      assert forall id :: id in order[1..] && id in clients ==> clients[id] in rest;
      if order[0] in clients then [clients[order[0]]] + rest else rest
  }

  /**
    Enumerating the ids of `a` and then those of `b` yields the records of `a`
    followed by those of `b`: the entries keep the order of `order`.
   */
  lemma {:induction false} InOrderConcat(clients: map<ConnectionId, Client>, a: seq<ConnectionId>, b: seq<ConnectionId>)
    ensures InOrder(clients, a + b) == InOrder(clients, a) + InOrder(clients, b)
  {
    if |a| == 0 {
      assert a + b == b;
    } else {
      assert (a + b)[0] == a[0];
      assert (a + b)[1..] == a[1..] + b;
      InOrderConcat(clients, a[1..], b);
    }
  }

  /** A single id yields its record when it has one, and nothing otherwise. */
  lemma InOrderSingle(clients: map<ConnectionId, Client>, id: ConnectionId)
    ensures InOrder(clients, [id]) == if id in clients then [clients[id]] else []
  {
    assert [id][1..] == [];
  }

  // ---------------------------------------------------------------------------
  // The operations, on snapshots
  // ---------------------------------------------------------------------------

  /** Register(clientName, version) called on session `caller`. */
  function RegisterEffect(reg: Registry, caller: ConnectionId, clientName: string, version: int)
    : (s: Step<Result<ConnectionId, HubError>>)
    ensures s.reply.Failure? <==> clientName == ManagementGroupName
    ensures s.reply.Success? ==> s.reply.value == caller && caller in s.after.clients
    ensures s.after.clients.Keys == if s.reply.Success? then reg.clients.Keys + {caller} else reg.clients.Keys
    ensures caller in reg.clients ==> s.after == reg
  {
    if clientName == ManagementGroupName then Step(Failure(InvalidClientName(clientName)), reg)
    else if caller in reg.clients then Step(Success(caller), reg)
    else Step(Success(caller), Registry(reg.clients[caller := Client(clientName, version, caller)],
                                       reg.groups + {Membership(caller, clientName)},
                                       reg.outbox + [ClientConnected(clientName)]))
  }

  /** DeRegister(clientName) called on session `caller`. */
  function DeRegisterEffect(reg: Registry, caller: ConnectionId, clientName: string): (s: Step<ConnectionId>)
    ensures s.reply == caller && caller !in s.after.clients
    ensures s.after.outbox == reg.outbox + [ClientDisconnected(TranslateClientName(clientName))]
  {
    var name := TranslateClientName(clientName);
    Step(caller, Registry(reg.clients - {caller},
                          reg.groups - {Membership(caller, name)},
                          reg.outbox + [ClientDisconnected(name)]))
  }

  /**
    OnDisconnected for session `caller`: the group is left under the caller's
    id, the record is removed under the id stored in it, and the notification
    carries the registered name.
   */
  function DisconnectEffect(reg: Registry, caller: ConnectionId): (after: Registry)
    ensures caller !in reg.clients ==> after == reg
    ensures caller in reg.clients ==>
              reg.clients[caller].connectionId !in after.clients
              && after.outbox == reg.outbox + [ClientDisconnected(reg.clients[caller].clientName)]
  {
    match Lookup(reg, caller)
    case None => reg
    case Some(client) =>
      Registry(reg.clients - {client.connectionId},
               reg.groups - {Membership(caller, client.clientName)},
               reg.outbox + [ClientDisconnected(client.clientName)])
  }

  // ---------------------------------------------------------------------------
  // What the operations promise
  // ---------------------------------------------------------------------------

  /** The reserved name is refused and nothing changes. */
  lemma RegisterRejectsReservedName(reg: Registry, caller: ConnectionId, version: int)
    ensures RegisterEffect(reg, caller, ManagementGroupName, version).reply.Failure?
    ensures RegisterEffect(reg, caller, ManagementGroupName, version).after == reg
  {
  }

  /**
    A session that is not registered yet gains exactly one record, joins the
    group of its name, and exactly one ClientConnected is sent.
   */
  lemma RegisterNewSession(reg: Registry, caller: ConnectionId, clientName: string, version: int)
    requires clientName != ManagementGroupName && caller !in reg.clients
    ensures var s := RegisterEffect(reg, caller, clientName, version);
      && s.reply == Success(caller)
      && s.after.clients.Keys == reg.clients.Keys + {caller}
      && |s.after.clients| == |reg.clients| + 1
      && s.after.clients[caller] == Client(clientName, version, caller)
      && s.after.groups == reg.groups + {Membership(caller, clientName)}
      && s.after.outbox == reg.outbox + [ClientConnected(clientName)]
      && SameOutside(reg, s.after, caller)
  {
  }

  /**
    Registration is idempotent per session: once a session is registered a
    further Register, under any name and version, returns the same id and
    changes nothing.
   */
  lemma RegisterIdempotent(reg: Registry, caller: ConnectionId, clientName: string, version: int,
                           otherName: string, otherVersion: int)
    requires otherName != ManagementGroupName
    ensures var once := RegisterEffect(reg, caller, clientName, version);
      once.reply.Success? ==>
        RegisterEffect(once.after, caller, otherName, otherVersion) == Step(Success(caller), once.after)
  {
  }

  /**
    DeRegister always sends exactly one ClientDisconnected with the translated
    name, whether or not the session was registered; it removes the caller's
    record and the caller's membership of the translated name's group only.
   */
  lemma DeRegisterEffects(reg: Registry, caller: ConnectionId, clientName: string)
    ensures var s := DeRegisterEffect(reg, caller, clientName);
      && s.reply == caller
      && s.after.outbox == reg.outbox + [ClientDisconnected(TranslateClientName(clientName))]
      && caller !in s.after.clients
      && s.after.clients == reg.clients - {caller}
      && (forall g :: Membership(caller, g) in s.after.groups <==>
                      Membership(caller, g) in reg.groups && g != TranslateClientName(clientName))
      && SameOutside(reg, s.after, caller)
  {
  }

  /**
    OnDisconnected of a registered session removes its record, takes it out of
    the group of the name it registered with, and sends ClientDisconnected
    with that name; for a session that never registered it does nothing.
   */
  lemma DisconnectEffects(reg: Registry, caller: ConnectionId)
    requires Consistent(reg)
    ensures var after := DisconnectEffect(reg, caller);
      && (caller in reg.clients ==>
            var name := reg.clients[caller].clientName;
            && after.clients == reg.clients - {caller}
            && after.groups == reg.groups - {Membership(caller, name)}
            && after.outbox == reg.outbox + [ClientDisconnected(name)])
      && (caller !in reg.clients ==> after == reg)
      && SameOutside(reg, after, caller)
  {
  }

  /** Every operation keeps the registry consistent. */
  lemma EffectsPreserveConsistency(reg: Registry, caller: ConnectionId, clientName: string, version: int)
    requires Consistent(reg)
    ensures Consistent(RegisterEffect(reg, caller, clientName, version).after)
    ensures Consistent(DeRegisterEffect(reg, caller, clientName).after)
    ensures Consistent(DisconnectEffect(reg, caller))
  {
    DeRegisterPreservesConsistency(reg, caller, clientName);
  }

  lemma DeRegisterPreservesConsistency(reg: Registry, caller: ConnectionId, clientName: string)
    requires Consistent(reg)
    ensures Consistent(DeRegisterEffect(reg, caller, clientName).after)
  {
    var r := DeRegisterEffect(reg, caller, clientName).after;
    forall id | id in r.clients
      ensures Membership(id, r.clients[id].clientName) in r.groups
    {
      assert id != caller;
    }
  }

  /**
    Whichever removal comes first, a second one finds no record: OnDisconnected
    then changes nothing at all, and DeRegister changes no record (it still
    sends its notification).
   */
  lemma SecondRemovalIsNoOp(reg: Registry, caller: ConnectionId, firstName: string, secondName: string)
    requires Consistent(reg)
    ensures var viaDeRegister := DeRegisterEffect(reg, caller, firstName).after;
      && DisconnectEffect(viaDeRegister, caller) == viaDeRegister
      && DeRegisterEffect(viaDeRegister, caller, secondName).after.clients == viaDeRegister.clients
    ensures var viaDisconnect := DisconnectEffect(reg, caller);
      && DisconnectEffect(viaDisconnect, caller) == viaDisconnect
      && DeRegisterEffect(viaDisconnect, caller, secondName).after.clients == viaDisconnect.clients
  {
    DisconnectEffects(reg, caller);
  }

  /**
    OnDisconnected undoes Register: the records and the memberships are as
    before, and the administrative group saw the same name connect and
    disconnect.
   */
  lemma DisconnectUndoesRegister(reg: Registry, caller: ConnectionId, clientName: string, version: int)
    requires Consistent(reg)
    requires clientName != ManagementGroupName && caller !in reg.clients
    requires Membership(caller, clientName) !in reg.groups
    ensures var registered := RegisterEffect(reg, caller, clientName, version).after;
      var after := DisconnectEffect(registered, caller);
      && after.clients == reg.clients
      && after.groups == reg.groups
      && after.outbox == reg.outbox + [ClientConnected(clientName), ClientDisconnected(clientName)]
  {
    var registered := RegisterEffect(reg, caller, clientName, version).after;
    assert registered.clients - {caller} == reg.clients;
    assert registered.groups - {Membership(caller, clientName)} == reg.groups;
  }

  /**
    DeRegister under the registered name undoes Register as OnDisconnected
    does, provided TranslateClientName leaves the name unchanged (it has no
    `_`, or it starts with `_`).
   */
  lemma DeRegisterUndoesRegister(reg: Registry, caller: ConnectionId, clientName: string, version: int)
    requires clientName != ManagementGroupName && caller !in reg.clients
    requires Membership(caller, clientName) !in reg.groups
    requires TranslateClientName(clientName) == clientName
    ensures var registered := RegisterEffect(reg, caller, clientName, version).after;
      var after := DeRegisterEffect(registered, caller, clientName).after;
      && after.clients == reg.clients
      && after.groups == reg.groups
      && after.outbox == reg.outbox + [ClientConnected(clientName), ClientDisconnected(clientName)]
  {
    var registered := RegisterEffect(reg, caller, clientName, version).after;
    assert registered.clients - {caller} == reg.clients;
    assert registered.groups - {Membership(caller, clientName)} == reg.groups;
  }

  /**
    A session registered as "root_suffix" that deregisters with the same name
    loses its record but stays in group "root_suffix", and the administrative
    group hears "root_suffix" connect and "root" disconnect.
   */
  lemma DeRegisterSuffixedNameKeepsGroup(reg: Registry, caller: ConnectionId, clientName: string, version: int)
    requires clientName != ManagementGroupName && caller !in reg.clients
    requires TranslateClientName(clientName) != clientName
    ensures var registered := RegisterEffect(reg, caller, clientName, version).after;
      var after := DeRegisterEffect(registered, caller, clientName).after;
      && caller !in after.clients
      && Membership(caller, clientName) in after.groups
      && after.outbox == reg.outbox + [ClientConnected(clientName), ClientDisconnected(TranslateClientName(clientName))]
      && TranslateClientName(clientName) != clientName
  {
  }

  // ---------------------------------------------------------------------------
  // The hub, updated in place
  // ---------------------------------------------------------------------------

  /**
    The hub's shared state: the registry dictionary (static in the hub, so one
    per hub process), the group memberships the hub has requested, and the
    notifications sent to the administrative group. Each method receives the
    connection id of the session that called it.
   */
  class ManagedHub {
    var registeredClients: map<ConnectionId, Client>
    var groups: set<Membership>
    var outbox: seq<Notification>

    function State(): Registry
      reads this
    {
      Registry(registeredClients, groups, outbox)
    }

    ghost predicate Valid()
      reads this
    {
      Consistent(State())
    }

    constructor ()
      ensures Valid()
      ensures registeredClients == map[] && groups == {} && outbox == []
    {
      registeredClients, groups, outbox := map[], {}, [];
    }

    /** Register(clientName): registration with protocol version 0. */
    method Register(caller: ConnectionId, clientName: string) returns (r: Result<ConnectionId, HubError>)
      requires Valid()
      modifies this
      ensures Valid()
      ensures Step(r, State()) == RegisterEffect(old(State()), caller, clientName, 0)
    {
      r := RegisterVersioned(caller, clientName, 0);
    }

    /** Register(clientName, version). */
    method RegisterVersioned(caller: ConnectionId, clientName: string, version: int)
      returns (r: Result<ConnectionId, HubError>)
      requires Valid()
      modifies this
      ensures Valid()
      ensures Step(r, State()) == RegisterEffect(old(State()), caller, clientName, version)
    {
      EffectsPreserveConsistency(State(), caller, clientName, version);
      if clientName == ManagementGroupName {
        return Failure(InvalidClientName(clientName));
      }
      var client := Client(clientName, version, caller);
      if caller !in registeredClients {
        registeredClients := registeredClients[caller := client];
        groups := groups + {Membership(caller, clientName)};
        outbox := outbox + [ClientConnected(clientName)];
      }
      r := Success(caller);
    }

    /** DeRegister(clientName). */
    method DeRegister(caller: ConnectionId, clientName: string) returns (r: ConnectionId)
      requires Valid()
      modifies this
      ensures Valid()
      ensures Step(r, State()) == DeRegisterEffect(old(State()), caller, clientName)
    {
      DeRegisterPreservesConsistency(State(), caller, clientName);
      ghost var expected := DeRegisterEffect(State(), caller, clientName).after;
      var name := TranslateClientName(clientName);
      if caller in registeredClients {
        registeredClients := registeredClients - {caller};
      }
      assert registeredClients == expected.clients;
      outbox := outbox + [ClientDisconnected(name)];
      groups := groups - {Membership(caller, name)};
      r := caller;
      assert State() == expected;
    }

    /** OnDisconnected: the transport reports that session `caller` ended. */
    method OnDisconnected(caller: ConnectionId)
      requires Valid()
      modifies this
      ensures Valid()
      ensures State() == DisconnectEffect(old(State()), caller)
    {
      EffectsPreserveConsistency(State(), caller, "", 0);
      var client := GetRegisteredClientFromConnectionId(caller);
      if client.Some? {
        groups := groups - {Membership(caller, client.value.clientName)};
        var removed := registeredClients[client.value.connectionId];
        registeredClients := registeredClients - {client.value.connectionId};
        outbox := outbox + [ClientDisconnected(removed.clientName)];
      }
    }

    /** The record of session `caller`, or None when it has not registered. */
    function GetRegisteredClientFromConnectionId(caller: ConnectionId): (r: Option<Client>)
      reads this
      requires Valid()
      ensures r.None? <==> caller !in registeredClients
      ensures r.Some? ==> r.value == registeredClients[caller]
      ensures r.Some? ==> r.value.connectionId == caller && r.value.clientName != ManagementGroupName
      ensures r.Some? ==> Membership(caller, r.value.clientName) in groups
    {
      Lookup(State(), caller)
    }

    /**
      The first record, in the dictionary's enumeration order `order`, with
      the given name and at least the given version; None when there is none.
     */
    function GetRegisteredClientFromClientName(clientName: string, version: int, order: seq<ConnectionId>)
      : (r: Option<Client>)
      reads this
      requires forall id | id in registeredClients :: id in order
      ensures r.Some? ==> r.value in registeredClients.Values && Matches(r.value, clientName, version)
      ensures r.None? <==> forall id | id in registeredClients :: !Matches(registeredClients[id], clientName, version)
    {
      var entries := InOrder(registeredClients, order);
      var r := FirstMatch(entries, clientName, version);
      assert r.None? ==> forall id | id in registeredClients :: registeredClients[id] in entries;
      r
    }
  }
}
