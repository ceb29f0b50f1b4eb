/** What the certificate memo of a connection knows in a run of the daemon, and so which
    messages pass the gate of a trusted port. */
module GateHistory {
  import opened Basics
  import opened BrokerModel
  import opened BrokerSafety
  import opened Certificates
  import opened RegistryModel
  import opened Routing
  import opened StaleIds
  import opened TrustGate

  /** The question an event puts to the manager of `c`: only a message to one of its trusted
      ports does, from a connection that is open and, if sent from a port, owns it. */
  function Asks(b: Broker, e: Event, c: Conn): seq<Query> {
    if && (e.Sent? || (e.SentFrom? && e.port in b.registry.cache && b.registry.cache[e.port].owner == e.c))
       && e.c in b.peers && e.id != 0 && e.id in b.registry.cache
       && b.registry.cache[e.id].trusted && b.registry.cache[e.id].owner == c
    then [Query(b.peers[e.c].appId, e.fails)] else []
  }

  /** All questions of a run put to `c` since it was opened last; `qs` came before the run. */
  function Asked(w: World, b: Broker, es: seq<Event>, c: Conn, qs: seq<Query>): seq<Query>
    decreases |es|
  {
    if es == [] then qs
    else Asked(w, Step(w, b, es[0]), es[1..], c, if c in b.peers then qs + Asks(b, es[0], c) else [])
  }

  /** The memo of `c` is what the questions `qs` left of it. */
  ghost predicate MemoIs(w: World, b: Broker, c: Conn, qs: seq<Query>) {
    c in b.peers ==> b.peers[c] == After(w, NewPeer(b.peers[c].appId, b.peers[c].valid), qs)
  }

  lemma AfterOne(w: World, p: Peer, qs: seq<Query>, q: Query)
    ensures After(w, p, qs + [q]) == Validate(After(w, p, qs), q.app, CompareCerts(w, p.appId, q.app, q.fails)).0
  {
    assert (qs + [q])[..|qs|] == qs;
  }

  lemma DeliverMemo(w: World, b: Broker, target: Service, via: Option<Service>, sig: Signal, fails: bool, c: Conn)
    requires target.owner in b.peers
    ensures var b' := Deliver(b, target, via, sig, CompareCerts(w, b.peers[target.owner].appId, sig.app, fails)).0;
            && b'.peers.Keys == b.peers.Keys
            && (c in b.peers ==>
                  b'.peers[c] ==
                  if target.trusted && target.owner == c
                  then Validate(b.peers[c], sig.app, CompareCerts(w, b.peers[c].appId, sig.app, fails)).0
                  else b.peers[c])
  {
    hide Validate, CompareCerts;
  }

  /** A step changes the memo of a connection by the question it puts to it, if any. */
  lemma StepMemo(w: World, b: Broker, e: Event, c: Conn, qs: seq<Query>)
    requires Inv(b) && MemoIs(w, b, c, qs)
    ensures MemoIs(w, Step(w, b, e), c, if c in b.peers then qs + Asks(b, e, c) else [])
  {
    if c !in b.peers {
      NewMemo(w, b, e, c);
    } else if Asks(b, e, c) != [] {
      AskedMemo(w, b, e, c, qs);
    } else {
      assert qs + [] == qs;
      UnaskedMemo(w, b, e, c);
    }
  }

  lemma NewMemo(w: World, b: Broker, e: Event, c: Conn)
    requires Inv(b) && c !in b.peers
    ensures MemoIs(w, Step(w, b, e), c, [])
  {
    hide IndexAgreement, Register, UnregisterOne, UnregisterAll, Validate, CompareCerts;
  }

  lemma UnaskedMemo(w: World, b: Broker, e: Event, c: Conn)
    requires c in b.peers && Asks(b, e, c) == []
    ensures var b' := Step(w, b, e); c in b'.peers ==> b'.peers[c] == b.peers[c]
  {
    hide Register, UnregisterOne, UnregisterAll, Validate, CompareCerts;
  }

  lemma AskedMemo(w: World, b: Broker, e: Event, c: Conn, qs: seq<Query>)
    requires c in b.peers && MemoIs(w, b, c, qs) && Asks(b, e, c) != []
    ensures MemoIs(w, Step(w, b, e), c, qs + Asks(b, e, c))
  {
    var p := b.peers[c];
    AfterOne(w, NewPeer(p.appId, p.valid), qs, Asks(b, e, c)[0]);
    var t, app := b.registry.cache[e.id], b.peers[e.c].appId;
    if e.Sent? {
      DeliverMemo(w, b, t, None, Signal(e.data, app, "", false), e.fails, c);
    } else {
      var from := b.registry.cache[e.port];
      DeliverMemo(w, b, t, Some(from), Signal(e.data, app, from.name, from.trusted), e.fails, c);
    }
    hide Validate, CompareCerts, After, Deliver;
  }

  lemma {:induction false} RunMemo(w: World, b: Broker, es: seq<Event>, c: Conn, qs: seq<Query>)
    requires Inv(b) && ClashFreeRun(w, b, es) && MemoIs(w, b, c, qs)
    ensures MemoIs(w, Run(w, b, es), c, Asked(w, b, es, c, qs))
    decreases |es|
  {
    if es != [] {
      var qs' := if c in b.peers then qs + Asks(b, es[0], c) else [];
      StepMemo(w, b, es[0], c, qs);
      StepKeepsIff(w, b, es[0]);
      hide Inv, Step, MemoIs, Asks;
      RunMemo(w, Step(w, b, es[0]), es[1..], c, qs');
    }
  }

  /** In every run from the start, the memo of an open connection settles the answer for an
      application exactly if its own application is not known, or some earlier message to one
      of its trusted ports, whose comparison did not fail, settled it. */
  lemma MemoSettlesIff(w: World, es: seq<Event>, c: Conn, app: string)
    requires ClashFreeRun(w, START, es) && c in Run(w, START, es).peers
    ensures var p := Run(w, START, es).peers[c];
            p.isNullCert || app in p.peerCerts <==>
            !p.valid || Settled(w, NewPeer(p.appId, p.valid), Asked(w, START, es, c, []), app)
  {
    hide Run, ClashFreeRun, Inv, Asked;
    StartIsSafe();
    RunMemo(w, START, es, c, []);
    var p := Run(w, START, es).peers[c];
    MemoContents(w, p.appId, p.valid, Asked(w, START, es, c, []), app);
  }

  /** After every run from the start, a message to a live trusted port arrives exactly if the
      owner admits the sender and either the comparison works, or the owner's application is
      not known, or an earlier comparison settled the answer: one success is never forgotten. */
  lemma TrustedSendArrivesIff(w: World, es: seq<Event>, c: Conn, id: Id, data: VariantMap, fails: bool)
    requires ClashFreeRun(w, START, es)
    requires var b := Run(w, START, es);
             c in b.peers && id != 0 && id in b.registry.cache && b.registry.cache[id].trusted
    ensures var b := Run(w, START, es);
            var t, app := b.registry.cache[id], b.peers[c].appId;
            && t.owner in b.peers
            && var p := b.peers[t.owner];
               (Step(w, b, Sent(c, id, data, fails)).log != b.log <==>
                  && Admits(w, p.appId, p.valid, app)
                  && (fails ==> !p.valid
                                || Settled(w, NewPeer(p.appId, p.valid), Asked(w, START, es, t.owner, []), app)))
  {
    hide Run, ClashFreeRun, Step, Asked, Settled, Admits, Trusty;
    var b := Run(w, START, es);
    StartIsSafe();
    RunKeeps(w, START, es);
    TrustyStart(w);
    RunTrusty(w, START, es);
    MemoSettlesIff(w, es, b.registry.cache[id].owner, b.peers[c].appId);
    StepLogIff(w, b, Sent(c, id, data, fails));
  }

  lemma TrustyStart(w: World)
    ensures Trusty(w, START)
  {}
}
