/** The daemon as a transition system: connections come and go, ports are registered and
    unregistered, and messages are routed, by any number of clients in any order. */
module BrokerModel {
  import opened Basics
  import opened Certificates
  import opened Paths
  import opened RegistryModel
  import opened ServiceIds

  /** The arguments of an `onMessage` signal. */
  datatype Signal = Signal(data: VariantMap, app: string, port: string, trusted: bool)

  /** A signal that was emitted, with the owner's app id and validity at that moment and
      the service it was forwarded for, if any. */
  datatype Emission =
    Emission(target: Service, ownerApp: string, ownerValid: bool, via: Option<Service>, signal: Signal)

  /** `peers` is the server's `dbus_managers` table.  The registry is a singleton with
      `refs` references; with none it does not exist and reads as EMPTY.  The allocator is
      static.  `log` is everything emitted so far. */
  datatype Broker = Broker(
    peers: map<Conn, Peer>,
    registry: Registry,
    refs: nat,
    ids: Allocator,
    log: seq<Emission>)

  const START := Broker(map[], EMPTY, 0, FIRST, [])

  // ----- The life cycle of a connection

  /** `msgport_manager_new`: the first reference creates the registry. */
  function AcquireRegistry(b: Broker): Broker {
    if b.refs == 0 then b.(refs := 1, registry := EMPTY) else b.(refs := b.refs + 1)
  }

  /** Dropping the last reference disposes the registry and whatever it still holds. */
  function ReleaseRegistry(b: Broker): Broker {
    if b.refs <= 1 then b.(refs := 0, registry := EMPTY) else b.(refs := b.refs - 1)
  }

  /** `_dbus_manager_dispose`. */
  function DisposeManager(b: Broker, c: Conn): Broker {
    ReleaseRegistry(b.(registry := UnregisterAll(b.registry, c)))
  }

  /** A new connection; if its manager object cannot be exported it is disposed at once. */
  function Connect(b: Broker, c: Conn, appId: string, valid: bool, exported: bool): Broker {
    if exported
    then AcquireRegistry(b).(peers := b.peers[c := NewPeer(appId, valid)])
    else DisposeManager(AcquireRegistry(b), c)
  }

  /** `_on_connection_closed`. */
  function Close(b: Broker, c: Conn): Broker {
    if c !in b.peers then b else DisposeManager(b.(peers := b.peers - {c}), c)
  }

  // ----- Requests

  /** `_dbus_manager_handle_register_service`: answers with the object path. */
  function RegisterPort(b: Broker, c: Conn, name: string, trusted: bool, exported: bool)
    : (Broker, Result<string>)
  {
    var (r, a, made) := Register(b.registry, b.ids, c, name, trusted, exported);
    (b.(registry := r, ids := a), if made.Ok? then Ok(PathOf(made.value.id)) else Err(made.error))
  }

  /** `g_hash_table_find` by app id: any manager with that app id, or none if there is none. */
  ghost predicate FindsManager(b: Broker, app: string, pick: Option<Conn>) {
    if pick.Some? then pick.value in b.peers && b.peers[pick.value].appId == app
    else forall c | c in b.peers :: b.peers[c].appId != app
  }

  /** `_dbus_manager_handle_check_for_remote_service`, once the manager has been found. */
  function Check(b: Broker, name: string, trusted: bool, pick: Option<Conn>): Result<Id> {
    if pick.None? then Err(NotFound)
    else
      var s := GetService(b.registry, pick.value, name, trusted);
      if s.Ok? then Ok(s.value.id) else Err(s.error)
  }

  /** `msgport_dbus_service_send_message`: the trust gate, then the signal. */
  function Deliver(b: Broker, target: Service, via: Option<Service>, sig: Signal, cmp: Compare)
    : (Broker, Result<()>)
  {
    if target.owner !in b.peers then (b, Err(Unknown))  // a dangling owner: see BrokerSafety.Inv
    else
      var owner := b.peers[target.owner];
      var (owner', pass) := if target.trusted then Validate(owner, sig.app, cmp) else (owner, true);
      var b' := b.(peers := b.peers[target.owner := owner']);
      if pass
      then (b'.(log := b.log + [Emission(target, owner.appId, owner.valid, via, sig)]), Ok(()))
      else (b', Err(CertificateMismatch))
  }

  /** `_dbus_manager_handle_send_message`: a one-way message names no port. */
  function SendById(b: Broker, c: Conn, id: Id, data: VariantMap, cmp: Compare): (Broker, Result<()>)
    requires c in b.peers
  {
    var target := GetById(b.registry, id);
    if target.Err? then (b, Err(target.error))
    else Deliver(b, target.value, None, Signal(data, b.peers[c].appId, "", false), cmp)
  }

  /** `_dbus_service_handle_send_message`, called on the port object `port` of connection `c`;
      a port that is not there, or is another connection's, cannot be called. */
  function SendFromPort(b: Broker, c: Conn, port: Id, id: Id, data: VariantMap, cmp: Compare)
    : (Broker, Result<()>)
    requires c in b.peers
  {
    if port !in b.registry.cache || b.registry.cache[port].owner != c then (b, Err(Unknown))
    else
      var p := b.registry.cache[port];
      var target := GetById(b.registry, id);
      if target.Err? then (b, Err(target.error))
      else Deliver(b, target.value, Some(p), Signal(data, b.peers[c].appId, p.name, p.trusted), cmp)
  }

  // ----- Steps and runs

  datatype Event =
    | Connected(c: Conn, appId: string, valid: bool, exported: bool)
    | Closed(c: Conn)
    | Registered(c: Conn, name: string, trusted: bool, exported: bool)
    | Checked(c: Conn, app: string, name: string, trusted: bool)
    | Sent(c: Conn, id: Id, data: VariantMap, fails: bool)
    | SentFrom(c: Conn, port: Id, id: Id, data: VariantMap, fails: bool)
    | UnregisteredOne(intId: CInt)

  /** What comparing the certificates of the owner of `id` and of `app` says. */
  function CompareFor(w: World, b: Broker, id: Id, app: string, fails: bool): Compare {
    if id in b.registry.cache && b.registry.cache[id].owner in b.peers
    then CompareCerts(w, b.peers[b.registry.cache[id].owner].appId, app, fails)
    else Failed
  }

  /** One step; a request on a connection that is not open, or a second connection under a
      token still in use, cannot happen and changes nothing. */
  function Step(w: World, b: Broker, e: Event): Broker {
    match e
    case Connected(c, appId, valid, exported) =>
      if c in b.peers then b else Connect(b, c, appId, valid, exported)
    case Closed(c) => Close(b, c)
    case Registered(c, name, trusted, exported) =>
      if c in b.peers then RegisterPort(b, c, name, trusted, exported).0 else b
    case Checked(_, _, _, _) => b
    case Sent(c, id, data, fails) =>
      if c in b.peers
      then SendById(b, c, id, data, CompareFor(w, b, id, b.peers[c].appId, fails)).0 else b
    case SentFrom(c, port, id, data, fails) =>
      if c in b.peers
      then SendFromPort(b, c, port, id, data, CompareFor(w, b, id, b.peers[c].appId, fails)).0 else b
    case UnregisteredOne(id) => b.(registry := UnregisterOne(b.registry, id).0)
  }

  function Run(w: World, b: Broker, es: seq<Event>): Broker
    decreases |es|
  {
    if es == [] then b else Run(w, Step(w, b, es[0]), es[1..])
  }

  /** The step makes a new service. */
  predicate Creates(b: Broker, e: Event) {
    && e.Registered? && e.c in b.peers && e.name != "" && e.exported
    && FindPort(Owned(b.registry, e.c), e.name, e.trusted).None?
  }

  /** A new service does not take the id of a live one. */
  predicate NoLiveClash(b: Broker, e: Event) {
    Creates(b, e) ==> Candidate(b.ids) !in b.registry.cache
  }

  /** A new service does not take an id that any service ever had. */
  ghost predicate FreshId(b: Broker, e: Event) {
    Creates(b, e) ==> !Issued(b.ids, Candidate(b.ids))
  }

  ghost predicate ClashFreeRun(w: World, b: Broker, es: seq<Event>)
    decreases |es|
  {
    es == [] || (NoLiveClash(b, es[0]) && ClashFreeRun(w, Step(w, b, es[0]), es[1..]))
  }

  ghost predicate FreshRun(w: World, b: Broker, es: seq<Event>)
    decreases |es|
  {
    es == [] || (FreshId(b, es[0]) && FreshRun(w, Step(w, b, es[0]), es[1..]))
  }
}
