/** Clients and daemon together.  Each open connection has a client library at its other
    end; its calls are taken apart into the request, which the daemon serves, and what the
    library does with the reply, so that other clients' steps may fall in between. */
module SystemModel {
  import opened Basics
  import opened BrokerModel
  import opened BrokerSafety
  import opened Certificates
  import opened ClientModel
  import opened Paths
  import opened RegistryModel
  import opened Routing
  import opened ServiceIds
  import opened StaleIds

  /** A registration the daemon has accepted and the library has not cached yet. */
  datatype Pending = Pending(path: string, name: string, trusted: bool, handler: Handler)

  datatype System = System(broker: Broker, clients: map<Conn, Client>, pending: map<Conn, Pending>)

  const BOOT := System(START, map[], map[])

  /** `Daemon` is any daemon step that is wired to a request or a signal.  The other events
      are a library's: it asks for a port, creates the proxy for an accepted one (which may
      fail), or asks to unregister, which the daemon's handler never answers. */
  datatype SysEvent =
    | Daemon(e: Event)
    | AskRegister(c: Conn, name: string, trusted: bool, handler: Handler, exported: bool)
    | FinishRegister(c: Conn, proxyMade: bool)
    | AskUnregister(c: Conn, id: int)

  /** What a new proxy for `path` on connection `c` reads: the properties of the service
      exported there. */
  function PropertiesAt(b: Broker, c: Conn, path: string, handler: Handler): Option<ClientService> {
    var id := if path == "" then -1 else Value(path[1..]);
    if 0 <= id < ID_LIMIT && id in b.registry.cache && b.registry.cache[id].owner == c && path == PathOf(id)
    then Some(Mirror(b.registry.cache[id], handler))
    else None
  }

  function Mirror(s: Service, handler: Handler): ClientService {
    ClientService(s.id, s.name, s.trusted, handler)
  }

  /** The cached port a library finds; which one, if several fit, is not known. */
  ghost function CachedPort(cl: Client, name: string, trusted: bool): (pick: Option<string>)
    ensures FindsCached(cl, name, trusted, pick)
  {
    if p :| p in cl.services && IsLocalPort(cl.services[p].service, name, trusted) then Some(p) else None
  }

  ghost predicate Idle(s: System, c: Conn) {
    c in s.broker.peers && c in s.clients && c !in s.pending
  }

  /** The daemon step an event amounts to, if any. */
  ghost function DaemonPart(s: System, ev: SysEvent): Option<Event> {
    match ev
    case Daemon(e) => if e.UnregisteredOne? then None else Some(e)
    case AskRegister(c, name, trusted, _, exported) =>
      if Idle(s, c) && CachedPort(s.clients[c], name, trusted).None?
      then Some(Registered(c, name, trusted, exported)) else None
    case FinishRegister(_, _) => None
    case AskUnregister(_, _) => None
  }

  ghost function NextBroker(w: World, s: System, ev: SysEvent): Broker {
    var e := DaemonPart(s, ev);
    if e.Some? then Step(w, s.broker, e.value) else s.broker
  }

  ghost function SysStep(w: World, s: System, ev: SysEvent): System {
    var b := NextBroker(w, s, ev);
    match ev
    case Daemon(Connected(c, _, _, _)) =>
      if c in s.broker.peers then s else System(b, s.clients[c := NEW_CLIENT], s.pending - {c})
    case Daemon(_) => s.(broker := b)
    case AskRegister(c, name, trusted, handler, exported) =>
      if !Idle(s, c) then s
      else
        var pick := CachedPort(s.clients[c], name, trusted);
        var reply := RegisterPort(s.broker, c, name, trusted, exported).1;
        if pick.Some? || reply.Err? then
          var cl := RegisterLocal(s.clients[c], name, trusted, handler, pick, reply, None).0;
          System(b, s.clients[c := cl], s.pending)
        else System(b, s.clients, s.pending[c := Pending(reply.value, name, trusted, handler)])
    case FinishRegister(c, proxyMade) =>
      if !(c in s.broker.peers && c in s.clients && c in s.pending) then s
      else
        var p := s.pending[c];
        var proxy := if proxyMade then PropertiesAt(s.broker, c, p.path, p.handler) else None;
        var cl := RegisterLocal(s.clients[c], p.name, p.trusted, p.handler, None, Ok(p.path), proxy).0;
        System(s.broker, s.clients[c := cl], s.pending - {c})
    case AskUnregister(c, id) =>
      if !Idle(s, c) then s
      else s.(clients := s.clients[c := UnregisterLocal(s.clients[c], id, false).0])
  }

  ghost function SysRun(w: World, s: System, evs: seq<SysEvent>): System
    decreases |evs|
  {
    if evs == [] then s else SysRun(w, SysStep(w, s, evs[0]), evs[1..])
  }

  ghost predicate SysFresh(w: World, s: System, evs: seq<SysEvent>)
    decreases |evs|
  {
    if evs == [] then true
    else
      && (DaemonPart(s, evs[0]).Some? ==> FreshId(s.broker, DaemonPart(s, evs[0]).value))
      && SysFresh(w, SysStep(w, s, evs[0]), evs[1..])
  }

  /** No new id of the run is that of a live service. */
  ghost predicate SysClashFree(w: World, s: System, evs: seq<SysEvent>)
    decreases |evs|
  {
    evs == [] || (PartClashFree(s, evs[0]) && SysClashFree(w, SysStep(w, s, evs[0]), evs[1..]))
  }

  ghost predicate PartClashFree(s: System, ev: SysEvent) {
    DaemonPart(s, ev).Some? ==> NoLiveClash(s.broker, DaemonPart(s, ev).value)
  }

  // ----- Coherence

  /** `path` names a live service of connection `c` with these properties. */
  predicate Exported(b: Broker, c: Conn, path: string, id: Id, name: string, trusted: bool) {
    && id in b.registry.cache && b.registry.cache[id].owner == c
    && path == PathOf(id) && IsPort(b.registry.cache[id], name, trusted)
  }

  /** Everything the client caches is a live service of its connection, as it is. */
  ghost predicate Mirrors(b: Broker, c: Conn, cl: Client) {
    && TablesInverse(cl)
    && forall p | p in cl.services ::
         Exported(b, c, p, cl.services[p].service.id, cl.services[p].service.name, cl.services[p].service.trusted)
  }

  /** An accepted registration names a live service that is not cached yet, so caching it
      replaces no key that the other table borrows. */
  ghost predicate PendingSound(b: Broker, c: Conn, cl: Client, p: Pending) {
    p.path !in cl.services && exists id: Id :: Exported(b, c, p.path, id, p.name, p.trusted)
  }

  ghost predicate CoherentAt(s: System, c: Conn) {
    && c in s.clients && Mirrors(s.broker, c, s.clients[c])
    && (c in s.pending ==> PendingSound(s.broker, c, s.clients[c], s.pending[c]))
  }

  ghost predicate Coherent(s: System) {
    && Inv(s.broker)
    && forall c | c in s.broker.peers :: CoherentAt(s, c)
  }

  // ----- Coherence is kept

  lemma StepPeers(w: World, b: Broker, e: Event)
    requires Inv(b) && NoLiveClash(b, e)
    ensures forall c | c in Step(w, b, e).peers && c !in b.peers :: e.Connected? && e.c == c
    ensures forall c | c in Step(w, b, e).peers && c in b.peers :: e != Closed(c)
  {
    hide IndexAgreement, Connect, UnregisterAll, RegisterPort, UnregisterOne, SendById, SendFromPort;
    match e
    case Connected(c, appId, valid, exported) =>
      if c !in b.peers { ConnectKeeps(b, c, appId, valid, exported); }
    case Closed(c) =>
      if c in b.peers { CloseKeeps(b, c); }
    case Registered(c, name, trusted, exported) =>
      if c in b.peers { RegisterKeepsIff(b, c, name, trusted, exported); }
    case Checked(_, _, _, _) =>
    case Sent(c, id, data, fails) => SendKeeps(w, b, e);
    case SentFrom(c, port, id, data, fails) => SendKeeps(w, b, e);
    case UnregisteredOne(id) =>
  }

  lemma ExportedStays(w: World, b: Broker, e: Event, c: Conn, path: string, id: Id, name: string, trusted: bool)
    requires Inv(b) && NoLiveClash(b, e) && Exported(b, c, path, id, name, trusted)
    requires e != Closed(c) && !e.UnregisteredOne?
    ensures Exported(Step(w, b, e), c, path, id, name, trusted)
  {
    StepLifetime(w, b, e, b.registry.cache[id]);
  }

  /** No daemon step disturbs the mirror of a connection that stays open. */
  lemma StepKeepsMirrors(w: World, b: Broker, e: Event, c: Conn, cl: Client)
    requires Inv(b) && NoLiveClash(b, e) && e != Closed(c) && !e.UnregisteredOne?
    ensures Mirrors(b, c, cl) ==> Mirrors(Step(w, b, e), c, cl)
    ensures forall p | PendingSound(b, c, cl, p) :: PendingSound(Step(w, b, e), c, cl, p)
  {
    hide Step, Inv, Exported, TablesInverse;
    if Mirrors(b, c, cl) {
      forall p | p in cl.services
        ensures var t := cl.services[p].service; Exported(Step(w, b, e), c, p, t.id, t.name, t.trusted)
      {
        var t := cl.services[p].service;
        ExportedStays(w, b, e, c, p, t.id, t.name, t.trusted);
      }
    }
    forall p | PendingSound(b, c, cl, p) ensures PendingSound(Step(w, b, e), c, cl, p) {
      var id: Id :| Exported(b, c, p.path, id, p.name, p.trusted);
      ExportedStays(w, b, e, c, p.path, id, p.name, p.trusted);
    }
  }

  /** The daemon answers a registration with the path of a live service that fits, unless
      the name is empty or a new service cannot be exported; asking for a port that exists
      changes nothing. */
  lemma RegisterAnswers(b: Broker, c: Conn, name: string, trusted: bool, exported: bool)
    requires Inv(b) && c in b.peers && NoLiveClash(b, Registered(c, name, trusted, exported))
    ensures var (b', reply) := RegisterPort(b, c, name, trusted, exported);
            && (reply.Ok? ==> exists id: Id :: Exported(b', c, reply.value, id, name, trusted))
            && (reply.Ok? <==> HasPort(b, c, name, trusted) || (name != "" && exported))
            && (reply.Err? ==> reply.error == if name == "" then InvalidParams else ExportFailed)
            && (HasPort(b, c, name, trusted) || name == "" ==> b' == b)
  {
    WalkFindsLive(b, c, name, trusted);
    hide IndexAgreement, Lawful;
    var (b', reply) := RegisterPort(b, c, name, trusted, exported);
    if reply.Ok? {
      var found := FindPort(Owned(b.registry, c), name, trusted);
      var id := if found.Some? then found.value.id else Candidate(b.ids);
      assert Exported(b', c, reply.value, id, name, trusted);
    }
  }

  /** What an application sees of a registration, once the library has its proxy or has
      failed to make one. */
  lemma RegisterOutcome(namesKnown: bool, b: Broker, c: Conn, cl: Client, name: string, trusted: bool,
                        handler: Handler, pick: Option<string>, exported: bool, proxy: Option<ClientService>)
    requires Inv(b) && c in b.peers && NoLiveClash(b, Registered(c, name, trusted, exported))
    requires FindsCached(cl, name, trusted, pick)
    ensures var reply := Arrive(namesKnown, RegisterPort(b, c, name, trusted, exported).1);
            RegisterLocal(cl, name, trusted, handler, pick, reply, proxy).1 ==
            if pick.Some? then NONE
            else if name == "" then Reported(namesKnown, INVALID_PARAMETER)
            else if !HasPort(b, c, name, trusted) && !exported then IO_ERROR
            else if proxy.None? then OUT_OF_MEMORY
            else NONE
  {
    RegisterAnswers(b, c, name, trusted, exported);
    WalkFindsLive(b, c, name, trusted);
    hide Inv, RegisterPort, HasPort, SetHandler, CacheService;
  }

  /** A path the daemon answers to a library that has no fitting port cached is not cached. */
  lemma ReplyIsNotCached(b: Broker, c: Conn, cl: Client, path: string, id: Id, name: string, trusted: bool)
    requires Mirrors(b, c, cl) && FindsCached(cl, name, trusted, None)
    requires Exported(b, c, path, id, name, trusted)
    ensures path !in cl.services
  {
    if path in cl.services { PathInjective(id, cl.services[path].service.id); }
  }

  lemma ProxyReadsExported(b: Broker, c: Conn, path: string, id: Id, name: string, trusted: bool, handler: Handler)
    requires Inv(b) && Exported(b, c, path, id, name, trusted)
    ensures PropertiesAt(b, c, path, handler) == Some(ClientService(id, name, trusted, handler))
  {
    ValueOfDecimal(id);
    assert path[1..] == Decimal(id);
  }

  lemma CacheKeepsMirror(b: Broker, c: Conn, cl: Client, path: string, s: ClientService)
    requires Mirrors(b, c, cl) && Exported(b, c, path, s.id, s.name, s.trusted) && path !in cl.services
    ensures var (q, key) := NewString(cl, path); Mirrors(b, c, CacheService(q, key, s))
  {
    CacheKeepsTablesIff(cl, path, s);
    hide TablesInverse;
  }

  lemma FinishKeepsMirror(b: Broker, c: Conn, cl: Client, p: Pending, proxyMade: bool)
    requires Inv(b) && Mirrors(b, c, cl) && PendingSound(b, c, cl, p)
    ensures var proxy := if proxyMade then PropertiesAt(b, c, p.path, p.handler) else None;
            Mirrors(b, c, RegisterLocal(cl, p.name, p.trusted, p.handler, None, Ok(p.path), proxy).0)
  {
    hide Inv, Exported, PropertiesAt, CacheService, PathOf, FindsCached, TablesInverse;
    var id: Id :| Exported(b, c, p.path, id, p.name, p.trusted);
    if proxyMade {
      hide Mirrors;
      ProxyReadsExported(b, c, p.path, id, p.name, p.trusted, p.handler);
      CacheKeepsMirror(b, c, cl, p.path, ClientService(id, p.name, p.trusted, p.handler));
    } else {
      FreeNewString(cl, p.path);
    }
  }

  lemma SetHandlerKeepsMirror(b: Broker, c: Conn, cl: Client, path: string, handler: Handler)
    requires Mirrors(b, c, cl) && path in cl.services
    ensures Mirrors(b, c, SetHandler(cl, path, handler))
  {
    SetHandlerKeepsTables(cl, path, handler);
    hide TablesInverse;
    hide Exported;
    var q := SetHandler(cl, path, handler);
    forall p | p in q.services
      ensures q.services[p].service == cl.services[p].service.(handler := q.services[p].service.handler) {}
  }

  /** The daemon's part of an event keeps every connection coherent that stays open. */
  lemma DaemonPartKeeps(w: World, s: System, ev: SysEvent)
    requires Coherent(s)
    requires PartClashFree(s, ev)
    ensures var b := NextBroker(w, s, ev);
            && Inv(b)
            && (forall c | c in b.peers && c in s.broker.peers :: CoherentAt(s.(broker := b), c))
            && (forall c | c in b.peers && c !in s.broker.peers :: ev.Daemon? && ev.e.Connected? && ev.e.c == c)
  {
    hide Inv, Mirrors, PendingSound, Step, NoLiveClash;
    if DaemonPart(s, ev).Some? {
      var b, e := s.broker, DaemonPart(s, ev).value;
      StepKeepsIff(w, b, e);
      StepPeers(w, b, e);
      forall c | c in Step(w, b, e).peers && c in b.peers ensures CoherentAt(s.(broker := Step(w, b, e)), c) {
        StepKeepsMirrors(w, b, e, c, s.clients[c]);
      }
    }
  }

  lemma AcceptedIsSound(b: Broker, c: Conn, cl: Client, name: string, trusted: bool, handler: Handler, exported: bool)
    requires Inv(b) && c in b.peers && NoLiveClash(b, Registered(c, name, trusted, exported))
    requires Mirrors(RegisterPort(b, c, name, trusted, exported).0, c, cl)
    requires FindsCached(cl, name, trusted, None)
    ensures var (b', reply) := RegisterPort(b, c, name, trusted, exported);
            reply.Ok? ==> PendingSound(b', c, cl, Pending(reply.value, name, trusted, handler))
  {
    hide Inv, Mirrors, RegisterPort, Exported, FindsCached;
    var (b', reply) := RegisterPort(b, c, name, trusted, exported);
    RegisterAnswers(b, c, name, trusted, exported);
    if reply.Ok? {
      var id: Id :| Exported(b', c, reply.value, id, name, trusted);
      ReplyIsNotCached(b', c, cl, reply.value, id, name, trusted);
    }
  }

  /** A library that has the port cached only changes its handler. */
  lemma AskCachedStep(w: World, s: System, ev: SysEvent)
    requires ev.AskRegister? && Idle(s, ev.c)
    requires CachedPort(s.clients[ev.c], ev.name, ev.trusted).Some?
    ensures var path := CachedPort(s.clients[ev.c], ev.name, ev.trusted).value;
            && path in s.clients[ev.c].services
            && SysStep(w, s, ev) == s.(clients := s.clients[ev.c := SetHandler(s.clients[ev.c], path, ev.handler)])
  {
    hide SetHandler, RegisterPort, Step;
  }

  lemma AskCachedKeeps(w: World, s: System, ev: SysEvent)
    requires ev.AskRegister? && CoherentAt(s, ev.c) && Idle(s, ev.c)
    requires CachedPort(s.clients[ev.c], ev.name, ev.trusted).Some?
    ensures CoherentAt(SysStep(w, s, ev), ev.c)
  {
    AskCachedStep(w, s, ev);
    hide SysStep, Mirrors, SetHandler, CachedPort, FindsCached;
    var cl := s.clients[ev.c];
    SetHandlerKeepsMirror(s.broker, ev.c, cl, CachedPort(cl, ev.name, ev.trusted).value, ev.handler);
  }

  /** A library that has not asks the daemon, and waits with the path it is answered. */
  lemma AskDaemonStep(w: World, s: System, ev: SysEvent)
    requires ev.AskRegister? && Idle(s, ev.c)
    requires CachedPort(s.clients[ev.c], ev.name, ev.trusted).None?
    ensures var s', c := SysStep(w, s, ev), ev.c;
            var (b, reply) := RegisterPort(s.broker, c, ev.name, ev.trusted, ev.exported);
            && s'.broker == b && c in s'.clients && s'.clients[c] == s.clients[c]
            && (reply.Err? ==> c !in s'.pending)
            && (reply.Ok? ==> c in s'.pending
                              && s'.pending[c] == Pending(reply.value, ev.name, ev.trusted, ev.handler))
  {
    hide RegisterPort, CachedPort, SetHandler;
  }

  lemma AskDaemonKeeps(w: World, s: System, ev: SysEvent)
    requires ev.AskRegister? && Coherent(s) && Idle(s, ev.c)
    requires CachedPort(s.clients[ev.c], ev.name, ev.trusted).None?
    requires NoLiveClash(s.broker, Registered(ev.c, ev.name, ev.trusted, ev.exported))
    ensures CoherentAt(SysStep(w, s, ev), ev.c)
  {
    var AskRegister(c, name, trusted, handler, exported) := ev;
    hide Inv, Mirrors, PendingSound, RegisterPort, NoLiveClash, CachedPort, SysStep, Step, NextBroker;
    assert PartClashFree(s, ev);
    DaemonPartKeeps(w, s, ev);
    hide DaemonPart, PartClashFree;
    AskDaemonStep(w, s, ev);
    BrokerOfStep(w, s, ev);
    assert CoherentAt(s, c) && CoherentAt(s.(broker := NextBroker(w, s, ev)), c);
    hide Coherent, FindsCached;
    AcceptedIsSound(s.broker, c, s.clients[c], name, trusted, handler, exported);
  }

  lemma MirrorHasInverseTables(b: Broker, c: Conn, cl: Client)
    requires Mirrors(b, c, cl)
    ensures TablesInverse(cl)
  {}

  lemma BrokerOfStep(w: World, s: System, ev: SysEvent)
    ensures SysStep(w, s, ev).broker == NextBroker(w, s, ev)
  {
    hide CachedPort, RegisterLocal, SetHandler, UnregisterLocal, PropertiesAt;
  }

  lemma OtherStepKeeps(w: World, s: System, ev: SysEvent, c: Conn)
    requires Coherent(s) && c in s.broker.peers && !ev.Daemon? && ev.c == c && !ev.AskRegister?
    ensures CoherentAt(SysStep(w, s, ev), c)
  {
    hide Inv, Mirrors, PendingSound, RegisterLocal, SetHandler, UnregisterLocal, PropertiesAt;
    if ev.FinishRegister? && c in s.pending {
      FinishKeepsMirror(s.broker, c, s.clients[c], s.pending[c], ev.proxyMade);
    } else if ev.AskUnregister? {
      MirrorHasInverseTables(s.broker, c, s.clients[c]);
      UnregisterKeepsTables(s.clients[c], ev.id, false);
    }
  }

  /** An event that is not of `c`'s own library leaves its tables as they are. */
  lemma ForeignStepSame(w: World, s: System, ev: SysEvent, c: Conn)
    requires c in s.broker.peers && c in s.clients
    requires ev.Daemon? || ev.c != c || (ev.AskRegister? && !Idle(s, c))
    ensures var s' := SysStep(w, s, ev);
            && c in s'.clients && s'.clients[c] == s.clients[c]
            && (c in s'.pending <==> c in s.pending)
            && (c in s.pending ==> s'.pending[c] == s.pending[c])
  {
    hide CachedPort, NextBroker, RegisterPort, RegisterLocal, SetHandler, UnregisterLocal, PropertiesAt;
  }

  lemma ForeignStepKeeps(w: World, s: System, ev: SysEvent, c: Conn)
    requires Coherent(s) && c in s.broker.peers && c in NextBroker(w, s, ev).peers
    requires PartClashFree(s, ev)
    requires ev.Daemon? || ev.c != c || (ev.AskRegister? && !Idle(s, c))
    ensures CoherentAt(SysStep(w, s, ev), c)
  {
    DaemonPartKeeps(w, s, ev);
    assert CoherentAt(s.(broker := NextBroker(w, s, ev)), c);
    BrokerOfStep(w, s, ev);
    hide Coherent, Mirrors, PendingSound, SysStep, NextBroker, NoLiveClash;
    ForeignStepSame(w, s, ev, c);
  }

  lemma SysStepAt(w: World, s: System, ev: SysEvent, c: Conn)
    requires Coherent(s) && c in NextBroker(w, s, ev).peers
    requires PartClashFree(s, ev)
    ensures CoherentAt(SysStep(w, s, ev), c)
  {
    DaemonPartKeeps(w, s, ev);
    hide Coherent, Mirrors, PendingSound, Step, NoLiveClash, CachedPort;
    if c !in s.broker.peers {
      NewClientIsCoherent(NextBroker(w, s, ev), c);
      return;
    }
    hide SysStep, NextBroker;
    if ev.AskRegister? && ev.c == c && Idle(s, c) {
      if CachedPort(s.clients[c], ev.name, ev.trusted).Some? {
        AskCachedKeeps(w, s, ev);
      } else {
        AskDaemonKeeps(w, s, ev);
      }
    } else if !ev.Daemon? && !ev.AskRegister? && ev.c == c {
      OtherStepKeeps(w, s, ev, c);
    } else {
      ForeignStepKeeps(w, s, ev, c);
    }
  }

  /** Whatever client does whatever, each library's cache keeps matching the daemon: every
      cached port is a live service of that connection with the same id, path, name and
      trust flag, and the two client tables stay inverse to each other. */
  lemma SysStepCoherent(w: World, s: System, ev: SysEvent)
    requires Coherent(s)
    requires PartClashFree(s, ev)
    ensures Coherent(SysStep(w, s, ev))
  {
    DaemonPartKeeps(w, s, ev);
    BrokerOfStep(w, s, ev);
    forall c | c in NextBroker(w, s, ev).peers ensures CoherentAt(SysStep(w, s, ev), c) {
      SysStepAt(w, s, ev, c);
    }
    hide SysStep, CoherentAt, NextBroker, Inv;
  }

  lemma NewClientIsCoherent(b: Broker, c: Conn)
    ensures Mirrors(b, c, NEW_CLIENT)
  {}

  /** Every library agrees with the daemon in every state of the run. */
  ghost predicate CoherentThroughout(w: World, s: System, evs: seq<SysEvent>)
    decreases |evs|
  {
    Coherent(s) && (evs == [] || CoherentThroughout(w, SysStep(w, s, evs[0]), evs[1..]))
  }

  lemma CoherentStepIsClashFree(w: World, s: System, ev: SysEvent)
    requires Coherent(s) && Inv(SysStep(w, s, ev).broker)
    ensures PartClashFree(s, ev)
  {
    BrokerOfStep(w, s, ev);
    if DaemonPart(s, ev).Some? { StepKeepsIff(w, s.broker, DaemonPart(s, ev).value); }
    hide SysStep, Step, Inv, CoherentAt, NoLiveClash, DaemonPart;
  }

  /** In every state of a run the daemon is sound and all libraries agree with it, exactly if
      no new id of the run clashes with a live one. */
  lemma {:induction false} SysRunCoherentIff(w: World, s: System, evs: seq<SysEvent>)
    requires Coherent(s)
    ensures CoherentThroughout(w, s, evs) <==> SysClashFree(w, s, evs)
    decreases |evs|
  {
    if evs != [] {
      var s' := SysStep(w, s, evs[0]);
      if Coherent(s') { CoherentStepIsClashFree(w, s, evs[0]); }
      hide SysStep, Coherent, PartClashFree;
      if PartClashFree(s, evs[0]) {
        SysStepCoherent(w, s, evs[0]);
        SysRunCoherentIff(w, s', evs[1..]);
      }
    }
  }

  /** The last state of such a run. */
  lemma {:induction false} SysRunCoherent(w: World, s: System, evs: seq<SysEvent>)
    requires Coherent(s) && SysClashFree(w, s, evs)
    ensures Coherent(SysRun(w, s, evs))
    decreases |evs|
  {
    if evs != [] {
      SysStepCoherent(w, s, evs[0]);
      SysRunCoherent(w, SysStep(w, s, evs[0]), evs[1..]);
    }
  }

  // ----- What a clash does to the libraries

  /** The library of `c` has `path` cached, or an accepted registration waiting under it. */
  predicate Knows(s: System, c: Conn, path: string) {
    c in s.clients && (path in s.clients[c].services || (c in s.pending && s.pending[c].path == path))
  }

  /** A new service takes from the others exactly the one that has its id. */
  lemma NewServiceHides(w: World, b: Broker, e: Event, c: Conn, path: string, id: Id, name: string, trusted: bool)
    requires Inv(b) && Creates(b, e) && Exported(b, c, path, id, name, trusted)
    ensures Exported(Step(w, b, e), c, path, id, name, trusted) <==> id != Candidate(b.ids)
  {
    assert Live(b, b.registry.cache[id]) by { assert Recorded(b, b.registry.cache[id]); }
    WalkFindsLive(b, c, name, trusted);
    hide IndexAgreement, Lawful;
  }

  lemma MirrorsAfterNew(w: World, b: Broker, e: Event, c: Conn, cl: Client)
    requires Inv(b) && Creates(b, e) && Mirrors(b, c, cl)
    ensures Mirrors(Step(w, b, e), c, cl) <==> PathOf(Candidate(b.ids)) !in cl.services
  {
    hide Step, Inv, Exported, TablesInverse, Creates;
    forall p | p in cl.services
      ensures var t := cl.services[p].service;
              Exported(Step(w, b, e), c, p, t.id, t.name, t.trusted) <==> p != PathOf(Candidate(b.ids))
    {
      var t := cl.services[p].service;
      NewServiceHides(w, b, e, c, p, t.id, t.name, t.trusted);
      PathOfExported(b, c, p, t.id, t.name, t.trusted);
      PathInjective(t.id, Candidate(b.ids));
    }
  }

  lemma PathOfExported(b: Broker, c: Conn, path: string, id: Id, name: string, trusted: bool)
    requires Exported(b, c, path, id, name, trusted)
    ensures path == PathOf(id)
  {}

  lemma PendingAfterNew(w: World, b: Broker, e: Event, c: Conn, cl: Client, p: Pending)
    requires Inv(b) && Creates(b, e) && PendingSound(b, c, cl, p)
    ensures PendingSound(Step(w, b, e), c, cl, p) <==> p.path != PathOf(Candidate(b.ids))
  {
    var b' := Step(w, b, e);
    var id: Id :| Exported(b, c, p.path, id, p.name, p.trusted);
    hide Step, Inv, Exported, Creates, PathOf;
    NewServiceHides(w, b, e, c, p.path, id, p.name, p.trusted);
    PathOfExported(b, c, p.path, id, p.name, p.trusted);
    PathInjective(id, Candidate(b.ids));
    if other: Id :| Exported(b', c, p.path, other, p.name, p.trusted) {
      PathOfExported(b', c, p.path, other, p.name, p.trusted);
      PathInjective(id, other);
    }
  }

  lemma NewServiceAnswers(w: World, b: Broker, e: Event)
    requires Creates(b, e)
    ensures var path := PathOf(Candidate(b.ids));
            && RegisterPort(b, e.c, e.name, e.trusted, e.exported) == (Step(w, b, e), Ok(path))
            && Exported(Step(w, b, e), e.c, path, Candidate(b.ids), e.name, e.trusted)
  {}

  /** A registration that makes a service leaves a library in agreement exactly if it does
      not know the new path already. */
  lemma NewServiceDisturbsIff(w: World, s: System, ev: SysEvent, c: Conn)
    requires Coherent(s) && c in s.broker.peers
    requires DaemonPart(s, ev).Some? && Creates(s.broker, DaemonPart(s, ev).value)
    ensures CoherentAt(SysStep(w, s, ev), c) <==> !Knows(s, c, PathOf(Candidate(s.broker.ids)))
  {
    var b, e := s.broker, DaemonPart(s, ev).value;
    assert CoherentAt(s, c);
    BrokerOfStep(w, s, ev);
    MirrorsAfterNew(w, b, e, c, s.clients[c]);
    if c in s.pending { PendingAfterNew(w, b, e, c, s.clients[c], s.pending[c]); }
    hide Inv, Mirrors, Step, SysStep, PathOf, Coherent;
    if ev.AskRegister? && ev.c == c && Idle(s, c) {
      AskDaemonStep(w, s, ev);
      NewServiceAnswers(w, b, e);
      hide RegisterPort, Exported;
    } else {
      hide PendingSound;
      ForeignStepSame(w, s, ev, c);
    }
  }

  /** Whatever the event, every library of an open connection agrees with the daemon after it,
      exactly if it makes no service whose path such a library knows already. */
  lemma LibrariesAgreeIff(w: World, s: System, ev: SysEvent)
    requires Coherent(s)
    ensures var s', e, path := SysStep(w, s, ev), DaemonPart(s, ev), PathOf(Candidate(s.broker.ids));
            (forall c | c in s'.broker.peers :: CoherentAt(s', c)) <==>
            (e.Some? && Creates(s.broker, e.value) ==> forall c | c in s.broker.peers :: !Knows(s, c, path))
  {
    var s' := SysStep(w, s, ev);
    hide Inv, SysStep, CoherentAt, Knows, PathOf;
    if DaemonPart(s, ev).Some? && Creates(s.broker, DaemonPart(s, ev).value) {
      BrokerOfStep(w, s, ev);
      CreatingKeepsPeers(w, s.broker, DaemonPart(s, ev).value);
      hide Coherent, Creates, Step, DaemonPart;
      forall c | c in s.broker.peers
        ensures CoherentAt(s', c) <==> !Knows(s, c, PathOf(Candidate(s.broker.ids)))
      {
        NewServiceDisturbsIff(w, s, ev, c);
      }
    } else {
      SysStepCoherent(w, s, ev);
    }
  }

  lemma CreatingKeepsPeers(w: World, b: Broker, e: Event)
    requires Creates(b, e)
    ensures Step(w, b, e).peers == b.peers
  {}
  // ----- What single events do

  /** The open connection `c` has a port cached under `path`. */
  ghost predicate Caches(s: System, c: Conn, path: string) {
    c in s.broker.peers && c in s.clients && path in s.clients[c].services
  }

  function CachedAt(s: System, c: Conn, path: string): ClientService
    requires c in s.clients && path in s.clients[c].services
  {
    s.clients[c].services[path].service
  }

  /** A daemon event is a step of the daemon, and the requests of the libraries are the ones
      their calls make: a registration asks the daemon only for a port that is not cached. */
  lemma BrokerOfEvent(w: World, s: System, ev: SysEvent)
    ensures ev.Daemon? && !ev.e.UnregisteredOne? ==> SysStep(w, s, ev).broker == Step(w, s.broker, ev.e)
    ensures ev.AskRegister? && Idle(s, ev.c)
              && (forall p | p in s.clients[ev.c].services ::
                    !IsLocalPort(s.clients[ev.c].services[p].service, ev.name, ev.trusted)) ==>
              SysStep(w, s, ev).broker == Step(w, s.broker, Registered(ev.c, ev.name, ev.trusted, ev.exported))
    ensures ev.AskRegister? && Idle(s, ev.c)
              && (exists p :: p in s.clients[ev.c].services
                              && IsLocalPort(s.clients[ev.c].services[p].service, ev.name, ev.trusted)) ==>
              SysStep(w, s, ev).broker == s.broker
    ensures ev.FinishRegister? || ev.AskUnregister? ==> SysStep(w, s, ev).broker == s.broker
  {
    BrokerOfStep(w, s, ev);
    hide SysStep, Step;
  }

  /** When a connection closes, its ports are gone from the daemon, and nothing changes for
      any other connection or library. */
  lemma CloseReachesDaemon(w: World, s: System, c: Conn)
    requires Coherent(s) && c in s.broker.peers
    ensures var s' := SysStep(w, s, Daemon(Closed(c)));
            && s'.broker.peers == s.broker.peers - {c} && s'.broker.log == s.broker.log
            && (forall t :: Live(s'.broker, t) <==> Live(s.broker, t) && t.owner != c)
            && s'.clients == s.clients && s'.pending == s.pending
  {
    ClosedStep(w, s.broker, c);
    DaemonStepOnly(w, s, Closed(c));
    hide SysStep, Step, Inv, Coherent, CoherentAt, Live;
  }

  lemma DaemonStepOnly(w: World, s: System, e: Event)
    requires !e.Connected? && !e.UnregisteredOne?
    ensures SysStep(w, s, Daemon(e)) == s.(broker := Step(w, s.broker, e))
  {
    hide Step;
  }

  /** Finishing an accepted registration caches the port exactly if the proxy could be made,
      with the id, name and trust flag of the daemon's service and the handler given when it
      was asked for; the id then resolves to the port.  Either way nothing waits any more, and
      no other port or library is touched. */
  lemma FinishCachesIff(w: World, s: System, c: Conn, proxyMade: bool)
    requires Coherent(s) && c in s.broker.peers && c in s.pending
    ensures var s', p := SysStep(w, s, FinishRegister(c, proxyMade)), s.pending[c];
            && s'.broker == s.broker && s'.pending == s.pending - {c}
            && (Caches(s', c, p.path) <==> proxyMade)
            && (proxyMade ==>
                  var cs := CachedAt(s', c, p.path);
                  && p.path == PathOf(cs.id) && Exported(s.broker, c, p.path, cs.id, p.name, p.trusted)
                  && cs == ClientService(cs.id, p.name, p.trusted, p.handler)
                  && GetLocal(s'.clients[c], ToInt(cs.id)).1 == Some(p.path))
            && c in s'.clients && SameElsewhere(s.clients[c].services, s'.clients[c].services, p.path)
            && s'.clients == s.clients[c := s'.clients[c]]
  {
    assert CoherentAt(s, c);
    hide Coherent;
    FinishStep(w, s, c, proxyMade);
    PendingPort(s.broker, c, s.clients[c], s.pending[c]);
    MirrorHasInverseTables(s.broker, c, s.clients[c]);
    hide SysStep, Mirrors, PendingSound, Exported, PropertiesAt, PathOf, TablesInverse, FinishedClient, SameElsewhere,
         GetLocal, CoherentAt;
    var cl, p := s.clients[c], s.pending[c];
    var cs := PropertiesAt(s.broker, c, p.path, p.handler);
    FinishGivesPort(cl, p, cs.value);
    var s' := SysStep(w, s, FinishRegister(c, proxyMade));
    if proxyMade {
      assert s'.clients[c] == FinishedClient(cl, p, Some(cs.value));
    } else {
      assert s'.clients[c] == FinishedClient(cl, p, None);
    }
  }

  /** What finishing makes of the library's tables. */
  function FinishedClient(cl: Client, p: Pending, proxy: Option<ClientService>): Client {
    RegisterLocal(cl, p.name, p.trusted, p.handler, None, Ok(p.path), proxy).0
  }

  lemma FinishGivesPort(cl: Client, p: Pending, cs: ClientService)
    requires TablesInverse(cl) && p.path == PathOf(cs.id) && p.path !in cl.services && cs.handler == p.handler
    ensures FinishedClient(cl, p, None).services == cl.services
    ensures SameElsewhere(cl.services, cl.services, p.path)
    ensures var q := FinishedClient(cl, p, Some(cs));
            && p.path in q.services && q.services[p.path].service == cs
            && GetLocal(q, ToInt(cs.id)).1 == Some(p.path)
            && SameElsewhere(cl.services, q.services, p.path)
  {
    CacheGivesPort(cl, cs);
    CachedService(NewString(cl, p.path).0, NewString(cl, p.path).1, cs);
    hide TablesInverse, PathOf, CacheService, GetLocal;
  }

  lemma FinishStep(w: World, s: System, c: Conn, proxyMade: bool)
    requires c in s.broker.peers && c in s.clients && c in s.pending
    ensures var s', cl, p := SysStep(w, s, FinishRegister(c, proxyMade)), s.clients[c], s.pending[c];
            var proxy := if proxyMade then PropertiesAt(s.broker, c, p.path, p.handler) else None;
            && s'.broker == s.broker && s'.pending == s.pending - {c}
            && s'.clients == s.clients[c := FinishedClient(cl, p, proxy)]
  {
    hide PropertiesAt, RegisterLocal;
  }

  lemma PendingPort(b: Broker, c: Conn, cl: Client, p: Pending)
    requires Inv(b) && PendingSound(b, c, cl, p)
    ensures var cs := PropertiesAt(b, c, p.path, p.handler);
            && cs.Some? && p.path == PathOf(cs.value.id) && p.path !in cl.services
            && Exported(b, c, p.path, cs.value.id, p.name, p.trusted)
            && cs.value == ClientService(cs.value.id, p.name, p.trusted, p.handler)
  {
    hide Inv, Exported, PropertiesAt, PathOf;
    var id: Id :| Exported(b, c, p.path, id, p.name, p.trusted);
    ProxyReadsExported(b, c, p.path, id, p.name, p.trusted, p.handler);
    PathOfExported(b, c, p.path, id, p.name, p.trusted);
  }

  /** The library of `c` is in the middle of a call: none of the events is its own, and its
      connection stays open. */
  ghost predicate OthersOnly(evs: seq<SysEvent>, c: Conn) {
    forall ev | ev in evs :: IsOthers(ev, c)
  }

  predicate IsOthers(ev: SysEvent, c: Conn) {
    if ev.Daemon? then ev.e != Closed(c) else ev.c != c
  }

  lemma PendingStep(w: World, s: System, ev: SysEvent, c: Conn)
    requires Coherent(s) && PartClashFree(s, ev) && c in s.broker.peers && c in s.pending
    requires IsOthers(ev, c)
    ensures var s' := SysStep(w, s, ev);
            c in s'.broker.peers && c in s'.pending && s'.pending[c] == s.pending[c]
            && c in s.clients && c in s'.clients && s'.clients[c] == s.clients[c]
  {
    assert CoherentAt(s, c);
    assert c in s.clients;
    hide Inv, Coherent, CoherentAt, Step, PartClashFree;
    ForeignStepSame(w, s, ev, c);
    hide SysStep, DaemonPart;
    BrokerOfStep(w, s, ev);
    PartIsOthers(s, ev, c);
    CoherentBroker(s);
    if DaemonPart(s, ev).Some? { StaysOpen(w, s.broker, DaemonPart(s, ev).value, c); }
  }

  lemma CoherentBroker(s: System)
    requires Coherent(s)
    ensures Inv(s.broker)
  {
    hide Inv, CoherentAt;
  }

  lemma PartIsOthers(s: System, ev: SysEvent, c: Conn)
    requires IsOthers(ev, c)
    ensures DaemonPart(s, ev) != Some(Closed(c))
  {
  }

  lemma {:induction false} PendingWaits(w: World, s: System, evs: seq<SysEvent>, c: Conn)
    requires Coherent(s) && SysClashFree(w, s, evs) && OthersOnly(evs, c)
    requires c in s.broker.peers && c in s.clients && c in s.pending
    ensures var s' := SysRun(w, s, evs);
            c in s'.broker.peers && c in s'.pending && s'.pending[c] == s.pending[c]
            && c in s'.clients && s'.clients[c] == s.clients[c]
    decreases |evs|
  {
    hide Coherent, SysStep, PartClashFree, IsOthers;
    if evs != [] {
      assert IsOthers(evs[0], c) && OthersOnly(evs[1..], c);
      PendingStep(w, s, evs[0], c);
      SysStepCoherent(w, s, evs[0]);
      hide OthersOnly;
      PendingWaits(w, SysStep(w, s, evs[0]), evs[1..], c);
    }
  }

  /** Registering a port, from the application's call to its return, with any events of other
      clients while the daemon and the library work on it: the library ends up with exactly
      one more port, which is live in the daemon, has the name, trust flag and handler asked
      for, and an id that resolves to it. */
  lemma RegistrationCompletes(w: World, s: System, evs: seq<SysEvent>, c: Conn, name: string, trusted: bool,
                              handler: Handler, exported: bool)
    requires Coherent(s) && Idle(s, c) && name != ""
    requires forall p | p in s.clients[c].services :: !IsLocalPort(s.clients[c].services[p].service, name, trusted)
    requires HasPort(s.broker, c, name, trusted) || exported
    requires var ask := AskRegister(c, name, trusted, handler, exported);
             PartClashFree(s, ask) && SysClashFree(w, SysStep(w, s, ask), evs) && OthersOnly(evs, c)
    ensures var s1 := SysStep(w, s, AskRegister(c, name, trusted, handler, exported));
            var s2 := SysStep(w, SysRun(w, s1, evs), FinishRegister(c, true));
            && Coherent(s2) && Idle(s2, c)
            && exists id: Id ::
                 && Exported(s2.broker, c, PathOf(id), id, name, trusted)
                 && Caches(s2, c, PathOf(id)) && PathOf(id) !in s.clients[c].services
                 && CachedAt(s2, c, PathOf(id)) == ClientService(id, name, trusted, handler)
                 && SameElsewhere(s.clients[c].services, s2.clients[c].services, PathOf(id))
                 && GetLocal(s2.clients[c], ToInt(id)).1 == Some(PathOf(id))
  {
    var ask := AskRegister(c, name, trusted, handler, exported);
    var s1 := SysStep(w, s, ask);
    hide Inv, Step, SysRun, SysClashFree, HasPort, Exported, PathOf, RegisterPort, Mirrors, GetLocal;
    assert CachedPort(s.clients[c], name, trusted).None?;
    AskDaemonStep(w, s, ask);
    RegisterAnswers(s.broker, c, name, trusted, exported);
    SysStepCoherent(w, s, ask);
    RegisteredStaysOpen(s.broker, c, name, trusted, exported);
    hide SysStep, CachedPort;
    PendingWaits(w, s1, evs, c);
    SysRunCoherent(w, s1, evs);
    var s' := SysRun(w, s1, evs);
    assert CoherentAt(s1, c);
    FinishCachesIff(w, s', c, true);
    FinishIsClashFree(s', c);
    SysStepCoherent(w, s', FinishRegister(c, true));
    hide Coherent;
    var id := CachedAt(SysStep(w, s', FinishRegister(c, true)), c, s'.pending[c].path).id;
    assert s1.pending[c].path == PathOf(id);
  }

  lemma RegisteredStaysOpen(b: Broker, c: Conn, name: string, trusted: bool, exported: bool)
    ensures RegisterPort(b, c, name, trusted, exported).0.peers == b.peers
  {}

  lemma FinishIsClashFree(s: System, c: Conn)
    ensures PartClashFree(s, FinishRegister(c, true))
  {}

  lemma StaysOpen(w: World, b: Broker, e: Event, c: Conn)
    requires Inv(b) && c in b.peers && e != Closed(c)
    ensures c in Step(w, b, e).peers
  {
    hide IndexAgreement, RegisterPort, UnregisterOne, SendById, SendFromPort;
    match e
    case Connected(d, appId, valid, exported) =>
      if d !in b.peers { ConnectKeeps(b, d, appId, valid, exported); }
    case Closed(d) =>
      if d in b.peers { CloseKeeps(b, d); }
    case Registered(d, name, trusted, exported) =>
      if d in b.peers { RegisterKeepsIff(b, d, name, trusted, exported); }
    case Checked(_, _, _, _) =>
    case Sent(d, id, data, fails) => SendKeeps(w, b, e);
    case SentFrom(d, port, id, data, fails) => SendKeeps(w, b, e);
    case UnregisteredOne(id) =>
  }

  // ----- What the daemon sees of a run

  ghost function DaemonEvents(w: World, s: System, evs: seq<SysEvent>): seq<Event>
    decreases |evs|
  {
    if evs == [] then []
    else
      var e := DaemonPart(s, evs[0]);
      (if e.Some? then [e.value] else []) + DaemonEvents(w, SysStep(w, s, evs[0]), evs[1..])
  }

  /** The daemon's side of a run is a run of the daemon; its ids are fresh, or free of
      clashes, exactly if those of the run are, and it closes a connection only if the run does. */
  lemma {:induction false} BrokerOfRun(w: World, s: System, evs: seq<SysEvent>)
    ensures var es := DaemonEvents(w, s, evs);
            && SysRun(w, s, evs).broker == Run(w, s.broker, es)
            && (SysFresh(w, s, evs) <==> FreshRun(w, s.broker, es))
            && (SysClashFree(w, s, evs) <==> ClashFreeRun(w, s.broker, es))
            && (forall e | e in es :: !e.UnregisteredOne? && (e.Closed? ==> Daemon(e) in evs))
    decreases |evs|
  {
    if evs != [] {
      var s', es' := SysStep(w, s, evs[0]), DaemonEvents(w, SysStep(w, s, evs[0]), evs[1..]);
      BrokerOfRun(w, s', evs[1..]);
      BrokerOfStep(w, s, evs[0]);
      assert evs == [evs[0]] + evs[1..];
      hide SysStep, Step, FreshId, NoLiveClash;
      if DaemonPart(s, evs[0]).Some? {
        var e := DaemonPart(s, evs[0]).value;
        assert ([e] + es')[1..] == es';
      } else {
        assert [] + es' == es';
      }
    }
  }

  /** Fresh ids clash with none; and no id of such a run misroutes. */
  lemma SysFreshRunKeeps(w: World, s: System, evs: seq<SysEvent>)
    requires Coherent(s) && NoMisroute(s.broker) && SysFresh(w, s, evs)
    ensures SysClashFree(w, s, evs)
    ensures Coherent(SysRun(w, s, evs)) && NoMisroute(SysRun(w, s, evs).broker)
  {
    hide SysRun, SysFresh, SysClashFree, Run, Inv, NoMisroute, CoherentAt, DaemonEvents;
    BrokerOfRun(w, s, evs);
    FreshRunKeeps(w, s.broker, DaemonEvents(w, s, evs));
    SysRunCoherent(w, s, evs);
  }

  /** Exports that never fail and fewer than 2^32 services make every id of a run fresh. */
  lemma {:induction false} FaultFreeSystemIsFresh(w: World, s: System, evs: seq<SysEvent>)
    requires Lawful(s.broker.ids)
    requires SysRun(w, s, evs).broker.ids.failed == 0 && |SysRun(w, s, evs).broker.ids.created| < ID_LIMIT
    ensures SysFresh(w, s, evs)
    ensures s.broker.ids.failed == 0 && |s.broker.ids.created| <= |SysRun(w, s, evs).broker.ids.created|
    decreases |evs|
  {
    if evs != [] {
      BrokerOfStep(w, s, evs[0]);
      if DaemonPart(s, evs[0]).Some? { StepHistory(w, s.broker, DaemonPart(s, evs[0]).value); }
      hide SysStep, DaemonPart, Step, Lawful;
      FaultFreeSystemIsFresh(w, SysStep(w, s, evs[0]), evs[1..]);
      FaultFreeIdsAreFresh(s.broker.ids);
    }
  }

  /** So, from the start and whatever the clients do, all libraries agree with the daemon. */
  lemma FaultFreeSystemIsCoherent(w: World, evs: seq<SysEvent>)
    requires SysRun(w, BOOT, evs).broker.ids.failed == 0 && |SysRun(w, BOOT, evs).broker.ids.created| < ID_LIMIT
    ensures Coherent(SysRun(w, BOOT, evs)) && NoMisroute(SysRun(w, BOOT, evs).broker)
  {
    hide Coherent, SysRun, SysFresh;
    BootIsCoherent();
    FaultFreeSystemIsFresh(w, BOOT, evs);
    SysFreshRunKeeps(w, BOOT, evs);
  }

  lemma BootIsCoherent()
    ensures Coherent(BOOT) && NoMisroute(BOOT.broker)
  {}

  // ----- A registration that failed half-way

  lemma SysStepKeepsExported(w: World, s: System, ev: SysEvent, c: Conn, path: string,
                             id: Id, name: string, trusted: bool)
    requires Inv(s.broker) && ev != Daemon(Closed(c))
    requires PartClashFree(s, ev)
    requires Exported(s.broker, c, path, id, name, trusted)
    ensures Exported(SysStep(w, s, ev).broker, c, path, id, name, trusted)
  {
    BrokerOfStep(w, s, ev);
    hide SysStep, Exported, Step, NoLiveClash, Inv;
    if DaemonPart(s, ev).Some? {
      var e := DaemonPart(s, ev).value;
      ExportedStays(w, s.broker, e, c, path, id, name, trusted);
    }
  }

  lemma {:induction false} SysRunKeepsExported(w: World, s: System, evs: seq<SysEvent>, c: Conn, path: string,
                                               id: Id, name: string, trusted: bool)
    requires Coherent(s) && SysClashFree(w, s, evs) && Daemon(Closed(c)) !in evs
    requires Exported(s.broker, c, path, id, name, trusted)
    ensures Exported(SysRun(w, s, evs).broker, c, path, id, name, trusted)
    decreases |evs|
  {
    hide SysStep, Exported, Inv, CoherentAt, DaemonPart, NoLiveClash;
    if evs != [] {
      assert evs == [evs[0]] + evs[1..];
      SysStepCoherent(w, s, evs[0]);
      SysStepKeepsExported(w, s, evs[0], c, path, id, name, trusted);
      SysRunKeepsExported(w, SysStep(w, s, evs[0]), evs[1..], c, path, id, name, trusted);
    }
  }

  lemma ExportedIsReturned(b: Broker, c: Conn, path: string, id: Id, name: string, trusted: bool, exported: bool)
    requires Inv(b) && Exported(b, c, path, id, name, trusted)
    ensures c in b.peers && RegisterPort(b, c, name, trusted, exported) == (b, Ok(path))
  {
    assert Live(b, b.registry.cache[id]);
    WalkFindsLive(b, c, name, trusted);
    hide IndexAgreement, Lawful;
  }

  /** The daemon has accepted a registration of `c`; the library may then fail to make the
      proxy, and anything may happen as long as `c` stays open.  Asking again gets the very
      same path, and so the same id, and makes no second service. */
  lemma RetryGetsSamePath(w: World, s: System, evs: seq<SysEvent>, c: Conn, exported: bool)
    requires Coherent(s) && SysClashFree(w, s, evs) && Daemon(Closed(c)) !in evs
    requires c in s.broker.peers && c in s.pending
    ensures var p := s.pending[c];
            var b := SysRun(w, s, evs).broker;
            c in b.peers && RegisterPort(b, c, p.name, p.trusted, exported) == (b, Ok(p.path))
  {
    var p := s.pending[c];
    assert PendingSound(s.broker, c, s.clients[c], p);
    var id: Id :| Exported(s.broker, c, p.path, id, p.name, p.trusted);
    SysRunKeepsExported(w, s, evs, c, p.path, id, p.name, p.trusted);
    SysRunCoherent(w, s, evs);
    hide SysRun, SysClashFree, Inv, CoherentAt, RegisterPort, Exported;
    ExportedIsReturned(SysRun(w, s, evs).broker, c, p.path, id, p.name, p.trusted, exported);
  }
}
