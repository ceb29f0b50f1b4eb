/** What every step of the daemon keeps, and which services outlive a run. */
module BrokerSafety {
  import opened Basics
  import opened BrokerModel
  import opened Certificates
  import opened RegistryModel
  import opened ServiceIds

  ghost predicate Recorded(b: Broker, s: Service) {
    s.serial < |b.ids.created| && b.ids.created[s.serial] == s
  }

  predicate Live(b: Broker, s: Service) {
    s.id in b.registry.cache && b.registry.cache[s.id] == s
  }

  /** No service outlives its owner: owners are managers of open connections. */
  ghost predicate NoDanglingOwner(b: Broker) {
    forall id | id in b.registry.cache :: b.registry.cache[id].owner in b.peers
  }

  ghost predicate Inv(b: Broker) {
    && IndexAgreement(b.registry)
    && NoDanglingOwner(b)
    && (forall id | id in b.registry.cache :: Recorded(b, b.registry.cache[id]))
    && b.refs == |b.peers|
    && Lawful(b.ids)
  }

  // ----- Connections

  lemma NoPeersNoServices(b: Broker)
    requires Inv(b)
    ensures |b.peers| == 0 ==> b.registry.cache == map[]
    ensures forall c | c !in b.peers :: Owned(b.registry, c) == []
  {
    if |b.peers| == 0 { assert b.peers == map[]; }
    forall c ensures Owned(b.registry, c) != [] ==> c in b.peers {
      if Owned(b.registry, c) != [] { assert Filed(b.registry, c, Owned(b.registry, c)[0]); }
    }
  }

  /** Opening a connection touches no service; failing to open one changes nothing at all. */
  lemma ConnectKeeps(b: Broker, c: Conn, appId: string, valid: bool, exported: bool)
    requires Inv(b) && c !in b.peers
    ensures var b' := Connect(b, c, appId, valid, exported);
            && Inv(b') && b'.registry.cache == b.registry.cache
            && b'.ids == b.ids && b'.log == b.log
            && (forall o :: Owned(b'.registry, o) == Owned(b.registry, o))
            && b'.refs == b.refs + (if exported then 1 else 0)
            && b'.peers == if exported then b.peers[c := NewPeer(appId, valid)] else b.peers
  {
    NoPeersNoServices(b);
  }

  /** Closing a connection removes its services and no other; the registry goes with the last
      connection, and then it has no service left to destroy. */
  lemma CloseKeeps(b: Broker, c: Conn)
    requires Inv(b) && c in b.peers
    ensures var b' := Close(b, c);
            && Inv(b') && b'.ids == b.ids && b'.log == b.log && b'.peers == b.peers - {c}
            && (forall id :: id in b'.registry.cache <==> id in b.registry.cache && b.registry.cache[id].owner != c)
            && (forall id | id in b'.registry.cache :: b'.registry.cache[id] == b.registry.cache[id])
            && Owned(b'.registry, c) == []
            && (forall p | p != c :: Owned(b'.registry, p) == Owned(b.registry, p))
    ensures b.refs == 1 ==> var r := UnregisterAll(b.registry, c);
                            r.cache == map[] && forall p :: Owned(r, p) == []
  {
    UnregisterAllAgrees(b.registry, c);
    var r := UnregisterAll(b.registry, c);
    var mid := b.(peers := b.peers - {c}, registry := r, refs := b.refs - 1);
    assert |b.peers| == |b.peers - {c}| + 1 by { assert b.peers == (b.peers - {c})[c := b.peers[c]]; }
    assert Inv(mid);
    NoPeersNoServices(mid);
    if b.refs == 1 { assert mid.peers == map[]; }
  }

  // ----- Requests

  /** A registration answers with the path of the one live service that fits, made now or
      before; only a new id that clashes with a live one breaks the invariant. */
  lemma RegisterKeepsIff(b: Broker, c: Conn, name: string, trusted: bool, exported: bool)
    requires Inv(b) && c in b.peers
    ensures var e := Registered(c, name, trusted, exported);
            var b' := RegisterPort(b, c, name, trusted, exported).0;
            && (Inv(b') <==> NoLiveClash(b, e))
            && (IndexAgreement(b'.registry) <==> NoLiveClash(b, e))
            && b'.peers == b.peers && b'.log == b.log && b'.refs == b.refs
            && (Creates(b, e) ==>
                  var s := Service(|b.ids.created|, Candidate(b.ids), c, name, trusted);
                  && b'.registry == Insert(b.registry, s)
                  && b'.ids.created == b.ids.created + [s] && b'.ids.failed == b.ids.failed)
            && (!Creates(b, e) ==> b'.registry == b.registry && b'.ids.created == b.ids.created)
  {
    NewServiceLawful(b.ids, c, name, trusted, exported);
    var e := Registered(c, name, trusted, exported);
    if Creates(b, e) {
      var s := Service(|b.ids.created|, Candidate(b.ids), c, name, trusted);
      InsertAgreesIff(b.registry, s);
      hide IndexAgreement;
    }
  }

  /** A message changes no index and no id: at most the certificate memo of the receiving
      owner and the log. */
  lemma DeliverKeeps(b: Broker, target: Service, via: Option<Service>, sig: Signal, cmp: Compare)
    requires Inv(b)
    ensures var b' := Deliver(b, target, via, sig, cmp).0;
            && Inv(b') && b'.registry == b.registry && b'.ids == b.ids
            && b'.peers.Keys == b.peers.Keys
            && forall c | c in b.peers :: b'.peers[c].appId == b.peers[c].appId && b'.peers[c].valid == b.peers[c].valid
  {
    hide IndexAgreement;
    assert Deliver(b, target, via, sig, cmp).0.peers.Keys == b.peers.Keys;
  }

  /** Every step keeps the invariant, except exactly the registration whose new id is that
      of a live service, which leaves the two indexes in disagreement. */
  lemma StepKeepsIff(w: World, b: Broker, e: Event)
    requires Inv(b)
    ensures Inv(Step(w, b, e)) <==> NoLiveClash(b, e)
    ensures IndexAgreement(Step(w, b, e).registry) <==> NoLiveClash(b, e)
  {
    hide IndexAgreement, Lawful, Connect, DisposeManager, RegisterPort, UnregisterOne, SendById, SendFromPort;
    hide Candidate, FindPort;
    match e
    case Connected(c, appId, valid, exported) =>
      if c !in b.peers { ConnectKeeps(b, c, appId, valid, exported); }
    case Closed(c) =>
      if c in b.peers { CloseKeeps(b, c); }
    case Registered(c, name, trusted, exported) =>
      if c in b.peers { RegisterKeepsIff(b, c, name, trusted, exported); }
    case Checked(_, _, _, _) =>
    case Sent(c, id, data, fails) => SendKeeps(w, b, e);
    case SentFrom(c, port, id, data, fails) => SendKeeps(w, b, e);
    case UnregisteredOne(id) => UnregisterOneAgrees(b.registry, id);
  }

  lemma SendKeeps(w: World, b: Broker, e: Event)
    requires Inv(b) && (e.Sent? || e.SentFrom?)
    ensures var b' := Step(w, b, e);
            && Inv(b') && b'.registry == b.registry && b'.ids == b.ids
            && b'.peers.Keys == b.peers.Keys
            && forall c | c in b.peers :: b'.peers[c].appId == b.peers[c].appId && b'.peers[c].valid == b.peers[c].valid
  {
    hide IndexAgreement, Lawful, Deliver, CompareFor;
    if e.c in b.peers {
      var target := GetById(b.registry, e.id);
      var cmp := CompareFor(w, b, e.id, b.peers[e.c].appId, e.fails);
      if target.Ok? && e.Sent? {
        DeliverKeeps(b, target.value, None, Signal(e.data, b.peers[e.c].appId, "", false), cmp);
      }
      if target.Ok? && e.SentFrom? && e.port in b.registry.cache {
        var p := b.registry.cache[e.port];
        DeliverKeeps(b, target.value, Some(p), Signal(e.data, b.peers[e.c].appId, p.name, p.trusted), cmp);
      }
    }
  }

  // ----- What single steps do

  /** A connection that is opened is there exactly if its manager could be exported, with
      its identity and an empty memo; an application that is not known has no certificate. */
  lemma ConnectedStep(w: World, b: Broker, c: Conn, appId: string, valid: bool, exported: bool)
    requires Inv(b) && c !in b.peers
    ensures var b' := Step(w, b, Connected(c, appId, valid, exported));
            && (c in b'.peers <==> exported)
            && (exported ==> b'.peers[c] == Peer(appId, valid, !valid, map[]))
            && b'.peers - {c} == b.peers && Owned(b'.registry, c) == []
            && b'.registry.cache == b.registry.cache && b'.ids == b.ids && b'.log == b.log
  {
    ConnectKeeps(b, c, appId, valid, exported);
    NoPeersNoServices(b);
    hide Inv, Connect;
  }

  /** A connection that is closed is gone, with all of its ports and nothing else. */
  lemma ClosedStep(w: World, b: Broker, c: Conn)
    requires Inv(b) && c in b.peers
    ensures var b' := Step(w, b, Closed(c));
            && b'.peers == b.peers - {c} && b'.log == b.log && b'.ids == b.ids
            && (forall s :: Live(b', s) <==> Live(b, s) && s.owner != c)
  {
    CloseKeeps(b, c);
    hide Close;
  }

  /** A registration that makes a service makes it live, at the end of its owner's list; any
      other leaves the registry as it is.  Exactly a failed export is counted as one. */
  lemma RegisteredStep(w: World, b: Broker, e: Event)
    requires Inv(b) && e.Registered? && e.c in b.peers
    ensures var b', s := Step(w, b, e), Service(|b.ids.created|, Candidate(b.ids), e.c, e.name, e.trusted);
            && b'.peers == b.peers && b'.log == b.log
            && (Creates(b, e) ==>
                  && Live(b', s) && Owned(b'.registry, e.c) == Owned(b.registry, e.c) + [s]
                  && (forall t | Live(b, t) && t.id != s.id :: Live(b', t)))
            && (!Creates(b, e) ==> b'.registry == b.registry)
            && b'.ids.created == b.ids.created + (if Creates(b, e) then [s] else [])
            && var tried := e.name != "" && FindPort(Owned(b.registry, e.c), e.name, e.trusted).None?;
               b'.ids.failed == b.ids.failed + (if tried && !e.exported then 1 else 0)
  {
    RegisterKeepsIff(b, e.c, e.name, e.trusted, e.exported);
    NewServiceLawful(b.ids, e.c, e.name, e.trusted, e.exported);
    hide IndexAgreement, Lawful;
  }

  /** The events that reach the manager or the ports of connection `c`. */
  predicate Concerns(b: Broker, e: Event, c: Conn) {
    match e
    case Connected(d, _, _, _) => false
    case Closed(d) => d == c
    case Registered(d, _, _, _) => d == c
    case Checked(_, _, _, _) => false
    case Sent(_, id, _, _) => id in b.registry.cache && b.registry.cache[id].owner == c
    case SentFrom(_, _, id, _, _) => id in b.registry.cache && b.registry.cache[id].owner == c
    case UnregisteredOne(id) => Cached(b.registry, id) && b.registry.cache[id].owner == c
  }

  /** No event of any client touches the manager, the memo or the ports of a connection it
      does not concern. */
  lemma StepIsolates(w: World, b: Broker, e: Event, c: Conn)
    requires Inv(b) && c in b.peers && !Concerns(b, e, c)
    ensures var b' := Step(w, b, e);
            c in b'.peers && b'.peers[c] == b.peers[c] && Owned(b'.registry, c) == Owned(b.registry, c)
  {
    hide IndexAgreement, Lawful, Connect, DisposeManager, RegisterPort, UnregisterOne, Validate;
    match e
    case Connected(d, appId, valid, exported) =>
      if d !in b.peers { ConnectKeeps(b, d, appId, valid, exported); }
    case Closed(d) =>
      if d in b.peers { CloseKeeps(b, d); }
    case Registered(d, name, trusted, exported) =>
      if d in b.peers { RegisterKeepsIff(b, d, name, trusted, exported); }
    case Checked(_, _, _, _) =>
    case Sent(d, id, data, fails) =>
    case SentFrom(d, port, id, data, fails) =>
    case UnregisteredOne(id) => UnregisterOneAgrees(b.registry, id);
  }

  /** The invariant holds in every state of a run. */
  ghost predicate InvThroughout(w: World, b: Broker, es: seq<Event>)
    decreases |es|
  {
    Inv(b) && (es == [] || InvThroughout(w, Step(w, b, es[0]), es[1..]))
  }

  /** Every state of a run is sound exactly if no new id of the run clashes with a live one. */
  lemma {:induction false} RunKeepsIff(w: World, b: Broker, es: seq<Event>)
    requires Inv(b)
    ensures InvThroughout(w, b, es) <==> ClashFreeRun(w, b, es)
    decreases |es|
  {
    if es != [] {
      StepKeepsIff(w, b, es[0]);
      hide Inv, Step, NoLiveClash;
      if Inv(Step(w, b, es[0])) { RunKeepsIff(w, Step(w, b, es[0]), es[1..]); }
    }
  }

  /** A run in which no new id clashes with a live one ends in a sound state. */
  lemma {:induction false} RunKeeps(w: World, b: Broker, es: seq<Event>)
    requires Inv(b) && ClashFreeRun(w, b, es)
    ensures Inv(Run(w, b, es))
    decreases |es|
  {
    if es != [] {
      StepKeepsIff(w, b, es[0]);
      RunKeeps(w, Step(w, b, es[0]), es[1..]);
    }
  }

  // ----- Life times

  /** The two events that end a service. */
  predicate Ends(e: Event, s: Service) {
    e == Closed(s.owner) || (e.UnregisteredOne? && e.intId == s.id)
  }

  /** A service that was ever made is live after a step exactly if it was live before and the
      step does not end it; meanwhile its owner's identity stays what it was. */
  lemma StepLifetime(w: World, b: Broker, e: Event, s: Service)
    requires Inv(b) && NoLiveClash(b, e) && Recorded(b, s)
    ensures var b' := Step(w, b, e);
            && Recorded(b', s)
            && (Live(b', s) <==> Live(b, s) && !Ends(e, s))
            && (Live(b', s) ==> s.owner in b.peers && s.owner in b'.peers
                                && b'.peers[s.owner].appId == b.peers[s.owner].appId)
  {
    hide IndexAgreement, Lawful, Connect, DisposeManager, RegisterPort, UnregisterOne, SendById, SendFromPort;
    hide Candidate, FindPort;
    match e
    case Connected(c, appId, valid, exported) =>
      if c !in b.peers { ConnectKeeps(b, c, appId, valid, exported); }
    case Closed(c) =>
      if c in b.peers { CloseKeeps(b, c); }
    case Registered(c, name, trusted, exported) =>
      if c in b.peers { RegisterKeepsIff(b, c, name, trusted, exported); }
    case Checked(_, _, _, _) =>
    case Sent(c, id, data, fails) => SendKeeps(w, b, e);
    case SentFrom(c, port, id, data, fails) => SendKeeps(w, b, e);
    case UnregisteredOne(id) => UnregisterOneAgrees(b.registry, id);
  }

  /** Over a run: a service is live at the end exactly if it was live at the start and no
      event of the run ended it. */
  lemma {:induction false} RunLifetime(w: World, b: Broker, es: seq<Event>, s: Service)
    requires Inv(b) && ClashFreeRun(w, b, es) && Recorded(b, s)
    ensures var b' := Run(w, b, es);
            && Recorded(b', s)
            && (Live(b', s) <==> Live(b, s) && forall e | e in es :: !Ends(e, s))
            && (Live(b', s) ==> s.owner in b.peers && s.owner in b'.peers
                                && b'.peers[s.owner].appId == b.peers[s.owner].appId)
    decreases |es|
  {
    if es != [] {
      assert es == [es[0]] + es[1..];
      StepKeepsIff(w, b, es[0]);
      StepLifetime(w, b, es[0], s);
      RunLifetime(w, Step(w, b, es[0]), es[1..], s);
    }
  }
}
