/** Ids are handles that clients keep between two requests.  When is it safe to use one? */
module StaleIds {
  import opened Basics
  import opened BrokerModel
  import opened BrokerSafety
  import opened Certificates
  import opened RegistryModel
  import opened ServiceIds

  /** The id of any service ever made leads to that very service or to none. */
  ghost predicate NoMisroute(b: Broker) {
    forall k | 0 <= k < |b.ids.created| ::
      var s := b.ids.created[k]; s.id in b.registry.cache ==> b.registry.cache[s.id] == s
  }

  /** A step keeps every id ever handed out safe to use exactly if it does not make a
      service under an id that was issued before. */
  lemma StepMisroutesIff(w: World, b: Broker, e: Event)
    requires Inv(b) && NoMisroute(b)
    ensures FreshId(b, e) ==> NoLiveClash(b, e)
    ensures NoMisroute(Step(w, b, e)) <==> FreshId(b, e)
  {
    var b' := Step(w, b, e);
    hide IndexAgreement, Connect, UnregisterAll, RegisterPort, UnregisterOne, SendById, SendFromPort, Lawful;
    match e
    case Connected(c, appId, valid, exported) =>
      if c !in b.peers { ConnectKeeps(b, c, appId, valid, exported); }
    case Closed(c) =>
      if c in b.peers { CloseKeeps(b, c); }
    case Registered(c, name, trusted, exported) =>
      if c in b.peers {
        RegisterKeepsIff(b, c, name, trusted, exported);
        if Creates(b, e) { CreationMisroutesIff(b, b', Service(|b.ids.created|, Candidate(b.ids), c, name, trusted)); }
      }
    case Checked(_, _, _, _) =>
    case Sent(c, id, data, fails) => SendKeeps(w, b, e);
    case SentFrom(c, port, id, data, fails) => SendKeeps(w, b, e);
    case UnregisteredOne(id) => UnregisterOneAgrees(b.registry, id);
  }

  lemma CreationMisroutesIff(b: Broker, b': Broker, s: Service)
    requires Inv(b) && NoMisroute(b)
    requires s.id == Candidate(b.ids) && s.serial == |b.ids.created|
    requires b'.registry == Insert(b.registry, s) && b'.ids.created == b.ids.created + [s]
    ensures NoMisroute(b') <==> !Issued(b.ids, s.id)
    ensures !Issued(b.ids, s.id) ==> s.id !in b.registry.cache
  {
    if Issued(b.ids, s.id) {
      var k :| 0 <= k < |b.ids.created| && b.ids.created[k].id == s.id;
      assert b'.ids.created[k] == b.ids.created[k];
    }
  }

  /** Ids stay safe in every state of a run. */
  ghost predicate SafeThroughout(w: World, b: Broker, es: seq<Event>)
    decreases |es|
  {
    NoMisroute(b) && (es == [] || SafeThroughout(w, Step(w, b, es[0]), es[1..]))
  }

  /** Over a run, whatever the clients do, registry rebirths included: every id ever handed
      out stays safe to use exactly if none is issued twice. */
  lemma {:induction false} RunMisroutesIff(w: World, b: Broker, es: seq<Event>)
    requires Inv(b) && NoMisroute(b)
    ensures SafeThroughout(w, b, es) <==> FreshRun(w, b, es)
    decreases |es|
  {
    if es != [] {
      StepKeepsIff(w, b, es[0]);
      StepMisroutesIff(w, b, es[0]);
      hide Inv, NoMisroute, Step, NoLiveClash, FreshId;
      if NoMisroute(Step(w, b, es[0])) { RunMisroutesIff(w, Step(w, b, es[0]), es[1..]); }
    }
  }

  lemma {:induction false} FreshRunKeeps(w: World, b: Broker, es: seq<Event>)
    requires Inv(b) && NoMisroute(b) && FreshRun(w, b, es)
    ensures ClashFreeRun(w, b, es)
    ensures Inv(Run(w, b, es)) && NoMisroute(Run(w, b, es))
    decreases |es|
  {
    if es != [] {
      StepMisroutesIff(w, b, es[0]);
      StepKeepsIff(w, b, es[0]);
      FreshRunKeeps(w, Step(w, b, es[0]), es[1..]);
    }
  }

  lemma StepHistory(w: World, b: Broker, e: Event)
    requires Lawful(b.ids)
    ensures Lawful(Step(w, b, e).ids)
    ensures b.ids.failed <= Step(w, b, e).ids.failed
    ensures |b.ids.created| + (if Creates(b, e) then 1 else 0) == |Step(w, b, e).ids.created|
  {
    if e.Registered? { NewServiceLawful(b.ids, e.c, e.name, e.trusted, e.exported); }
  }

  /** Exports that never fail and fewer than 2^32 services make every id of the run fresh
      and none of them the reserved 0. */
  lemma {:induction false} FaultFreeRunIsFresh(w: World, b: Broker, es: seq<Event>)
    requires Lawful(b.ids)
    requires Run(w, b, es).ids.failed == 0 && |Run(w, b, es).ids.created| < ID_LIMIT
    ensures FreshRun(w, b, es)
    ensures b.ids.failed == 0 && |b.ids.created| <= |Run(w, b, es).ids.created|
    ensures !Issued(Run(w, b, es).ids, 0)
    decreases |es|
  {
    if es != [] {
      StepHistory(w, b, es[0]);
      FaultFreeRunIsFresh(w, Step(w, b, es[0]), es[1..]);
      FaultFreeIdsAreFresh(b.ids);
    }
  }

  lemma CachedIsIssued(b: Broker, id: Id)
    requires Inv(b) && id in b.registry.cache
    ensures Issued(b.ids, id)
  {
    assert b.ids.created[b.registry.cache[id].serial].id == id;
  }

  lemma StartIsSafe()
    ensures Inv(START) && NoMisroute(START)
  {}

  /** Without failures: the daemon, from its start, is safe. */
  lemma FaultFreeDaemonIsSafe(w: World, es: seq<Event>)
    requires Run(w, START, es).ids.failed == 0 && |Run(w, START, es).ids.created| < ID_LIMIT
    ensures Inv(Run(w, START, es)) && NoMisroute(Run(w, START, es)) && 0 !in Run(w, START, es).registry.cache
  {
    hide IndexAgreement, Step, Lawful, Run;
    StartIsSafe();
    FaultFreeRunIsSafe(w, START, es);
  }

  lemma FaultFreeRunIsSafe(w: World, b: Broker, es: seq<Event>)
    requires Inv(b) && NoMisroute(b)
    requires Run(w, b, es).ids.failed == 0 && |Run(w, b, es).ids.created| < ID_LIMIT
    ensures Inv(Run(w, b, es)) && NoMisroute(Run(w, b, es)) && 0 !in Run(w, b, es).registry.cache
  {
    hide IndexAgreement, Step, Lawful;
    FaultFreeRunIsFresh(w, b, es);
    FreshRunKeeps(w, b, es);
    var b' := Run(w, b, es);
    if 0 in b'.registry.cache { CachedIsIssued(b', 0); }
  }

  /** In every safe state reached without a failure, one failed export followed by one
      registration hands the newest service's id to another port.  If that service is still
      live the indexes disagree from then on; if not, its old id now misroutes.  The one
      connection that cannot do this is that of the service itself while it is live: D-Bus
      refuses a second object under the same path. */
  lemma OneFailedExportMisroutes(w: World, b: Broker, c: Conn, name: string, trusted: bool)
    requires Inv(b) && NoMisroute(b) && b.ids.failed == 0 && 0 < |b.ids.created| < ID_LIMIT
    requires c in b.peers && name != "" && FindPort(Owned(b.registry, c), name, trusted).None?
    requires var newest := b.ids.created[|b.ids.created| - 1]; c != newest.owner || !Live(b, newest)
    ensures var b1 := Step(w, b, Registered(c, name, trusted, false));
            var b2 := Step(w, b1, Registered(c, name, trusted, true));
            var newest := b.ids.created[|b.ids.created| - 1];
            && !NoMisroute(b2)
            && newest.id in b2.registry.cache && b2.registry.cache[newest.id].owner == c
            && b2.registry.cache[newest.id] != newest
            && (IndexAgreement(b2.registry) <==> !Live(b, newest))
  {
    var e1, e2 := Registered(c, name, trusted, false), Registered(c, name, trusted, true);
    var b1 := Step(w, b, e1);
    var newest := b.ids.created[|b.ids.created| - 1];
    FailedExportReissues(b.ids, c, name, trusted);
    RegisterKeepsIff(b, c, name, trusted, false);
    assert b1.registry == b.registry && Candidate(b1.ids) == newest.id && Creates(b1, e2);
    StepKeepsIff(w, b1, e2);
    RegisterKeepsIff(b1, c, name, trusted, true);
    hide IndexAgreement, Lawful, RegisterPort;
    StepMisroutesIff(w, b1, e2);
    assert b.ids.created[|b.ids.created| - 1].id == newest.id;
  }
}
