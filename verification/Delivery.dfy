/** From an emitted signal to the application's callback: the mirror that receives it, and
    the handler it calls. */
module Delivery {
  import opened Basics
  import opened BrokerModel
  import opened BrokerSafety
  import Bundles
  import opened Certificates
  import opened ClientModel
  import opened Conversations
  import opened Paths
  import opened RegistryModel
  import opened Routing
  import opened StaleIds
  import opened SystemModel

  /** A library caches at most one service for a name and trust flag. */
  lemma CachedIsUnique(b: Broker, c: Conn, cl: Client, p: string, q: string)
    requires Inv(b) && Mirrors(b, c, cl) && p in cl.services && q in cl.services
    requires IsLocalPort(cl.services[p].service, cl.services[q].service.name, cl.services[q].service.trusted)
    ensures p == q
  {
    var s, t := cl.services[p].service, cl.services[q].service;
    WalkFindsLive(b, c, t.name, t.trusted);
    hide Inv, TablesInverse;
    assert Exported(b, c, p, s.id, s.name, s.trusted) && Exported(b, c, q, t.id, t.name, t.trusted);
    CachedIdIsKey(b, s.id);
    CachedIdIsKey(b, t.id);
  }

  lemma CachedIdIsKey(b: Broker, id: Id)
    requires Inv(b) && id in b.registry.cache
    ensures b.registry.cache[id].id == id && Live(b, b.registry.cache[id])
  {}

  /** The event gives the cached port `cs` of `c` a new handler. */
  ghost predicate SetsHandler(s: System, ev: SysEvent, c: Conn, cs: ClientService) {
    ev.AskRegister? && ev.c == c && Idle(s, c) && IsLocalPort(cs, ev.name, ev.trusted)
  }

  ghost function StepService(s: System, ev: SysEvent, c: Conn, cs: ClientService): ClientService {
    if SetsHandler(s, ev, c, cs) then cs.(handler := ev.handler) else cs
  }

  /** The handler of `cs` after a run: the one registered last. */
  ghost function LastHandler(w: World, s: System, evs: seq<SysEvent>, c: Conn, cs: ClientService): Handler
    decreases |evs|
  {
    if evs == [] then cs.handler
    else
      LastHandler(w, SysStep(w, s, evs[0]), evs[1..], c, StepService(s, evs[0], c, cs))
  }

  lemma AskHandler(w: World, s: System, ev: SysEvent, path: string)
    requires Inv(s.broker) && ev.AskRegister? && Idle(s, ev.c) && CoherentAt(s, ev.c) && Caches(s, ev.c, path)
    ensures var s' := SysStep(w, s, ev);
            && ev.c in s'.clients && path in s'.clients[ev.c].services
            && CachedAt(s', ev.c, path) == StepService(s, ev, ev.c, CachedAt(s, ev.c, path))
  {
    hide SysStep, Inv, Mirrors, PendingSound, CachedPort;
    var cl := s.clients[ev.c];
    var cs, pick := CachedAt(s, ev.c, path), CachedPort(cl, ev.name, ev.trusted);
    if pick.Some? {
      AskCachedStep(w, s, ev);
      if IsLocalPort(cs, ev.name, ev.trusted) { CachedIsUnique(s.broker, ev.c, cl, path, pick.value); }
    } else {
      AskDaemonStep(w, s, ev);
    }
  }

  lemma FinishHandler(w: World, s: System, ev: SysEvent, path: string)
    requires ev.FinishRegister? && CoherentAt(s, ev.c) && Caches(s, ev.c, path)
    ensures var s' := SysStep(w, s, ev);
            && ev.c in s'.clients && path in s'.clients[ev.c].services
            && CachedAt(s', ev.c, path) == CachedAt(s, ev.c, path)
  {
    hide Mirrors, PropertiesAt, Exported;
  }

  lemma UnregisterHandler(w: World, s: System, ev: SysEvent, path: string)
    requires ev.AskUnregister? && CoherentAt(s, ev.c) && Caches(s, ev.c, path)
    ensures var s' := SysStep(w, s, ev);
            && ev.c in s'.clients && path in s'.clients[ev.c].services
            && CachedAt(s', ev.c, path) == CachedAt(s, ev.c, path)
  {
    UnregisterKeepsTables(s.clients[ev.c], ev.id, false);
    hide TablesInverse, Exported, UnregisterLocal;
  }

  lemma StepStaysOpen(w: World, s: System, ev: SysEvent, c: Conn)
    requires Inv(s.broker) && c in s.broker.peers && ev != Daemon(Closed(c))
    ensures c in SysStep(w, s, ev).broker.peers
  {
    BrokerOfStep(w, s, ev);
    hide SysStep, Step, Inv;
    if DaemonPart(s, ev).Some? { StaysOpen(w, s.broker, DaemonPart(s, ev).value, c); }
  }

  /** A library's cached port, once there, changes only in its handler, and only when the
      application registers that port again. */
  lemma StepHandler(w: World, s: System, ev: SysEvent, c: Conn, path: string)
    requires Coherent(s) && Caches(s, c, path) && ev != Daemon(Closed(c))
    ensures var s' := SysStep(w, s, ev);
            Caches(s', c, path) && CachedAt(s', c, path) == StepService(s, ev, c, CachedAt(s, c, path))
  {
    StepStaysOpen(w, s, ev, c);
    assert CoherentAt(s, c);
    if ev.Daemon? || ev.c != c || (ev.AskRegister? && !Idle(s, c)) {
      ForeignStepSame(w, s, ev, c);
    } else if ev.AskRegister? {
      AskHandler(w, s, ev, path);
    } else if ev.FinishRegister? {
      FinishHandler(w, s, ev, path);
    } else {
      UnregisterHandler(w, s, ev, path);
    }
    hide SysStep, Coherent, CoherentAt;
  }

  /** Over a run in which the connection stays open, the handler of a cached port is the one
      its application registered last, and nothing else about the port changes. */
  lemma {:induction false} RunHandler(w: World, s: System, evs: seq<SysEvent>, c: Conn, path: string)
    requires Coherent(s) && SysClashFree(w, s, evs) && Daemon(Closed(c)) !in evs && Caches(s, c, path)
    ensures var cs, s' := CachedAt(s, c, path), SysRun(w, s, evs);
            Caches(s', c, path) && CachedAt(s', c, path) == cs.(handler := LastHandler(w, s, evs, c, cs))
    decreases |evs|
  {
    hide SysStep, Coherent, StepService, CachedAt, DaemonPart, PartClashFree;
    if evs != [] {
      assert evs == [evs[0]] + evs[1..];
      StepHandler(w, s, evs[0], c, path);
      SysStepCoherent(w, s, evs[0]);
      StepServiceSame(s, evs[0], c, CachedAt(s, c, path));
      hide Caches;
      RunHandler(w, SysStep(w, s, evs[0]), evs[1..], c, path);
    }
  }

  lemma StepServiceSame(s: System, ev: SysEvent, c: Conn, cs: ClientService)
    ensures StepService(s, ev, c, cs).(handler := cs.handler) == cs
  {}

  /** The callback of the application that owns `t`, when its library gets the signal `sig`
      in the state `s`. */
  ghost predicate CalledBack(s: System, t: Service, sig: Signal, call: Callback) {
    var path := PathOf(t.id);
    && Caches(s, t.owner, path)
    && call == Received(CachedAt(s, t.owner, path), sig)
    && call.id == ToInt(t.id) && GetLocal(s.clients[t.owner], call.id).1 == Some(path)
    && IsLocalPort(CachedAt(s, t.owner, path), t.name, t.trusted)
  }

  /** A signal for a live port arrives at the library that cached the port, whatever happened
      since: the callback gets the signal's arguments, empty ones as NULL, and the id that
      resolves to that port; and the handler called is the one registered last. */
  lemma SignalReachesLastHandler(w: World, s: System, evs: seq<SysEvent>, e: Emission)
    requires Coherent(s) && SysClashFree(w, s, evs) && Daemon(Closed(e.target.owner)) !in evs
    requires Live(s.broker, e.target) && Caches(s, e.target.owner, PathOf(e.target.id))
    ensures var t, sig := e.target, e.signal;
            CalledBack(SysRun(w, s, evs), t, sig,
              Callback(ToInt(t.id), NullIfEmpty(sig.app), NullIfEmpty(sig.port), sig.trusted, sig.data,
                       LastHandler(w, s, evs, t.owner, CachedAt(s, t.owner, PathOf(t.id)))))
  {
    var c, path := e.target.owner, PathOf(e.target.id);
    hide SysRun, SysClashFree, LastHandler, PathOf, Live, Coherent, GetLocal;
    RunHandler(w, s, evs, c, path);
    SysRunCoherent(w, s, evs);
    CachedMirrors(s, c, path, e.target);
    CachedIdResolves(SysRun(w, s, evs), c, path);
  }

  lemma CachedIdResolves(s: System, c: Conn, path: string)
    requires Coherent(s) && Caches(s, c, path)
    ensures GetLocal(s.clients[c], ToInt(CachedAt(s, c, path).id)).1 == Some(path)
  {
    assert CoherentAt(s, c);
    hide Coherent;
    IdOfCached(s.clients[c], path);
    hide TablesInverse;
  }

  lemma CachedMirrors(s: System, c: Conn, path: string, t: Service)
    requires Coherent(s) && Caches(s, c, path) && Live(s.broker, t) && path == PathOf(t.id)
    ensures var cs := CachedAt(s, c, path); cs.id == t.id && IsLocalPort(cs, t.name, t.trusted)
  {
    assert CoherentAt(s, c);
    hide Coherent, TablesInverse;
    var cs := CachedAt(s, c, path);
    assert Exported(s.broker, c, path, cs.id, cs.name, cs.trusted);
    PathInjective(cs.id, t.id);
  }

  // ----- From one application to another

  /** The bundle an application's callback is given. */
  function BundleOf(call: Callback): Bundles.Bundle {
    Bundles.AddAll([], call.data)
  }

  /** Whatever bundle the call's data was made from, its strings are what the callback gets,
      in order. */
  ghost predicate CarriesBundle(call: Callback) {
    forall sent | Bundles.DistinctKeys(sent) && Bundles.Wire(sent) == call.data ::
      BundleOf(call) == Bundles.Strings(sent)
  }

  lemma BundlesArrive()
    ensures forall call: Callback :: CarriesBundle(call)
  {
    forall call: Callback, sent | Bundles.DistinctKeys(sent) && Bundles.Wire(sent) == call.data
      ensures BundleOf(call) == Bundles.Strings(sent)
    {
      Bundles.RoundTrip(sent);
    }
  }

  /** A plain send, whose look-up and message are separate requests, with any events of any
      client before, between and after.  If the sending application is told NONE, the port
      has an id other than 0, and the library of its owner has it cached, then the owner's
      callback is called on that very port: with the data, the sender's app id (NULL if it
      is empty), no port to reply to, and the handler registered last.
      If the data was made from a bundle, its strings are what arrives. */
  lemma PlainSendReachesCallback(namesKnown: bool, w: World, s: System, evs: seq<SysEvent>, evs': seq<SysEvent>,
                                 c: Conn, app: string, name: string, trusted: bool, pick: Option<Conn>,
                                 data: VariantMap, fails: bool)
    requires Coherent(s) && NoMisroute(s.broker) && SysFresh(w, s, evs)
    requires FindsManager(s.broker, app, pick) && c in SysRun(w, s, evs).broker.peers
    requires var check, b1 := Check(s.broker, name, trusted, pick), SysRun(w, s, evs).broker;
             && PlainSend(namesKnown, w, s.broker, b1, c, name, trusted, pick, data, fails).1 == NONE
             && check != Ok(0)
             && (check.Ok? ==>
                   var s2 := SysStep(w, SysRun(w, s, evs), Daemon(Sent(c, check.value, data, fails)));
                   SysClashFree(w, s2, evs'))
    ensures var check, s1 := Check(s.broker, name, trusted, pick), SysRun(w, s, evs);
            && check.Ok? && check.value in s.broker.registry.cache
            && var t := s.broker.registry.cache[check.value];
               var s2 := SysStep(w, s1, Daemon(Sent(c, check.value, data, fails)));
               && IsPort(t, name, trusted) && t.owner in s1.broker.peers && s1.broker.peers[t.owner].appId == app
               && s2.broker == PlainSend(namesKnown, w, s.broker, s1.broker, c, name, trusted, pick, data, fails).0
               && |s2.broker.log| == |s1.broker.log| + 1
               && (Caches(s2, t.owner, PathOf(t.id)) && Daemon(Closed(t.owner)) !in evs' ==>
                     var handler := LastHandler(w, s2, evs', t.owner, CachedAt(s2, t.owner, PathOf(t.id)));
                     var call := Callback(ToInt(t.id), NullIfEmpty(s1.broker.peers[c].appId), None, false, data,
                                          handler);
                     CalledBack(SysRun(w, s2, evs'), t, s2.broker.log[|s1.broker.log|].signal, call)
                     && CarriesBundle(call))
  {
    var b, s1 := s.broker, SysRun(w, s, evs);
    var check := Check(b, name, trusted, pick);
    hide Coherent, SysStep, SysRun, SysFresh, SysClashFree, Run, FreshRun, Check, PlainSend, LastHandler, CalledBack,
         CarriesBundle, Caches, CachedAt, DaemonEvents, FindsManager, GetLocal, PathOf;
    BrokerOfRun(w, s, evs);
    SysFreshRunKeeps(w, s, evs);
    CoherentBroker(s);
    PlainSendDelivers(namesKnown, w, b, DaemonEvents(w, s, evs), c, app, name, trusted, pick, data, fails);
    StaleIdSafety(w, b, DaemonEvents(w, s, evs), app, name, trusted, pick);
    hide Inv, NoMisroute, Step;
    var t := b.registry.cache[check.value];
    var sent := Sent(c, check.value, data, fails);
    SendStep(w, s1, sent);
    PlainSendIsStep(namesKnown, w, b, s1, c, name, trusted, pick, data, fails);
    var s2 := SysStep(w, s1, Daemon(sent));
    if Caches(s2, t.owner, PathOf(t.id)) && Daemon(Closed(t.owner)) !in evs' {
      SignalReachesLastHandler(w, s2, evs', s2.broker.log[|s1.broker.log|]);
      BundlesArrive();
    }
  }

  lemma PlainSendIsStep(namesKnown: bool, w: World, b: Broker, s1: System, c: Conn, name: string, trusted: bool,
                        pick: Option<Conn>, data: VariantMap, fails: bool)
    requires c in s1.broker.peers && Check(b, name, trusted, pick).Ok? && Check(b, name, trusted, pick).value != 0
    ensures var sent := Sent(c, Check(b, name, trusted, pick).value, data, fails);
            Step(w, s1.broker, sent) == PlainSend(namesKnown, w, b, s1.broker, c, name, trusted, pick, data, fails).0
  {
    hide Check, SendById, CompareFor;
  }

  /** Serving a send is a step of the system, which stays coherent. */
  lemma SendStep(w: World, s: System, e: Event)
    requires Coherent(s) && (e.Sent? || e.SentFrom?)
    ensures var s' := SysStep(w, s, Daemon(e));
            Coherent(s') && s' == s.(broker := Step(w, s.broker, e)) && s'.broker.registry == s.broker.registry
  {
    hide Step, Inv, CoherentAt;
    assert PartClashFree(s, Daemon(e));
    SysStepCoherent(w, s, Daemon(e));
    SendKeeps(w, s.broker, e);
    hide Coherent;
  }

  lemma BidirectionalSendIsStep(namesKnown: bool, w: World, b: Broker, cl: Client, c: Conn, id: int,
                                check: Result<Id>, data: VariantMap, fails: bool)
    requires c in b.peers && check.Ok? && id > 0
    requires id in cl.localServices && cl.localServices[id].text in cl.services
    ensures var port := cl.services[cl.localServices[id].text].service.id;
            Step(w, b, SentFrom(c, port, check.value, data, fails)) ==
            BidirectionalSend(namesKnown, w, b, cl, c, id, check, data, fails).0
  {
    hide SendFromPort, CompareFor;
  }

  lemma BidirectionalSendEmits(namesKnown: bool, w: World, s: System, evs: seq<SysEvent>, c: Conn, id: int,
                               app: string, name: string, trusted: bool, pick: Option<Conn>, data: VariantMap,
                               fails: bool)
    requires Coherent(s) && NoMisroute(s.broker) && SysFresh(w, s, evs)
    requires c in s.broker.peers && Daemon(Closed(c)) !in evs
    requires FindsManager(s.broker, app, pick) && c in SysRun(w, s, evs).broker.peers
    requires var check, b1 := Check(s.broker, name, trusted, pick), SysRun(w, s, evs).broker;
             BidirectionalSend(namesKnown, w, b1, s.clients[c], c, id, Arrive(namesKnown, check), data, fails).1 == NONE
    ensures var check, s1, cl := Check(s.broker, name, trusted, pick), SysRun(w, s, evs), s.clients[c];
            && id in cl.localServices && cl.localServices[id].text in cl.services
            && check.Ok? && check.value in s.broker.registry.cache
            && var t, p := s.broker.registry.cache[check.value], cl.services[cl.localServices[id].text].service;
               var s2 := SysStep(w, s1, Daemon(SentFrom(c, p.id, check.value, data, fails)));
               && Coherent(s2) && Live(s2.broker, t)
               && IsPort(t, name, trusted) && t.owner in s1.broker.peers && s1.broker.peers[t.owner].appId == app
               && s2.broker == BidirectionalSend(namesKnown, w, s1.broker, cl, c, id, check, data, fails).0
               && |s2.broker.log| == |s1.broker.log| + 1
               && var e := s2.broker.log[|s1.broker.log|];
                  e.target == t && e.signal == Signal(data, s1.broker.peers[c].appId, p.name, p.trusted)
  {
    var b, s1, cl := s.broker, SysRun(w, s, evs), s.clients[c];
    var check := Check(b, name, trusted, pick);
    assert CoherentAt(s, c);
    hide Coherent, SysStep, SysRun, SysFresh, SysClashFree, Run, FreshRun, Check, BidirectionalSend,
         DaemonEvents, FindsManager, GetLocal, PathOf, Mirrors, PendingSound;
    BrokerOfRun(w, s, evs);
    SysFreshRunKeeps(w, s, evs);
    CoherentBroker(s);
    CoherentBroker(s1);
    BidirectionalSendDelivers(namesKnown, w, b, DaemonEvents(w, s, evs), cl, c, id, app, name, trusted, pick, data,
                              fails);
    StaleIdSafety(w, b, DaemonEvents(w, s, evs), app, name, trusted, pick);
    hide Inv, NoMisroute, Step;
    var p := cl.services[cl.localServices[id].text].service;
    SendStep(w, s1, SentFrom(c, p.id, check.value, data, fails));
    BidirectionalSendIsStep(namesKnown, w, s1.broker, cl, c, id, check, data, fails);
  }

  /** The same for a bidirectional send of the port behind `id`: if the caller is told NONE,
      the remote callback is given the sender's app id and the name and trust flag of that
      port. */
  lemma BidirectionalSendReachesCallback(namesKnown: bool, w: World, s: System, evs: seq<SysEvent>,
                                         evs': seq<SysEvent>, c: Conn, id: int, app: string, name: string,
                                         trusted: bool, pick: Option<Conn>, data: VariantMap, fails: bool)
    requires Coherent(s) && NoMisroute(s.broker) && SysFresh(w, s, evs)
    requires c in s.broker.peers && Daemon(Closed(c)) !in evs
    requires FindsManager(s.broker, app, pick) && c in SysRun(w, s, evs).broker.peers
    requires var check, b1, cl := Check(s.broker, name, trusted, pick), SysRun(w, s, evs).broker, s.clients[c];
             && BidirectionalSend(namesKnown, w, b1, cl, c, id, Arrive(namesKnown, check), data, fails).1 == NONE
             && (check.Ok? && id in cl.localServices && cl.localServices[id].text in cl.services ==>
                   var port := cl.services[cl.localServices[id].text].service.id;
                   var s2 := SysStep(w, SysRun(w, s, evs), Daemon(SentFrom(c, port, check.value, data, fails)));
                   SysClashFree(w, s2, evs'))
    ensures var check, s1, cl := Check(s.broker, name, trusted, pick), SysRun(w, s, evs), s.clients[c];
            && id in cl.localServices && cl.localServices[id].text in cl.services
            && check.Ok? && check.value in s.broker.registry.cache
            && var t, p := s.broker.registry.cache[check.value], cl.services[cl.localServices[id].text].service;
               var s2 := SysStep(w, s1, Daemon(SentFrom(c, p.id, check.value, data, fails)));
               && IsPort(t, name, trusted) && t.owner in s1.broker.peers && s1.broker.peers[t.owner].appId == app
               && s2.broker == BidirectionalSend(namesKnown, w, s1.broker, cl, c, id, check, data, fails).0
               && |s2.broker.log| == |s1.broker.log| + 1
               && (Caches(s2, t.owner, PathOf(t.id)) && Daemon(Closed(t.owner)) !in evs' ==>
                     var handler := LastHandler(w, s2, evs', t.owner, CachedAt(s2, t.owner, PathOf(t.id)));
                     var call := Callback(ToInt(t.id), NullIfEmpty(s1.broker.peers[c].appId), NullIfEmpty(p.name),
                                          p.trusted, data, handler);
                     CalledBack(SysRun(w, s2, evs'), t, s2.broker.log[|s1.broker.log|].signal, call)
                     && CarriesBundle(call))
  {
    assert CoherentAt(s, c);
    hide Coherent, SysStep, SysRun, SysFresh, SysClashFree, Check, BidirectionalSend, LastHandler, CalledBack,
         CarriesBundle, Caches, CachedAt, FindsManager, GetLocal, PathOf, Arrive, Mirrors, PendingSound;
    BidirectionalSendEmits(namesKnown, w, s, evs, c, id, app, name, trusted, pick, data, fails);
    var s1, cl, check := SysRun(w, s, evs), s.clients[c], Check(s.broker, name, trusted, pick);
    var t, p := s.broker.registry.cache[check.value], cl.services[cl.localServices[id].text].service;
    var s2 := SysStep(w, s1, Daemon(SentFrom(c, p.id, check.value, data, fails)));
    if Caches(s2, t.owner, PathOf(t.id)) && Daemon(Closed(t.owner)) !in evs' {
      SignalReachesLastHandler(w, s2, evs', s2.broker.log[|s1.broker.log|]);
      BundlesArrive();
    }
  }
}
