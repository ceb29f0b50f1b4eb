/** Who may reach a trusted port, and what every emitted signal says about its sender. */
module TrustGate {
  import opened Basics
  import opened BrokerModel
  import opened BrokerSafety
  import opened Certificates
  import opened RegistryModel

  /** A signal on a trusted port was sent by an application that its owner admits. */
  predicate Gated(w: World, e: Emission) {
    e.target.trusted ==> Admits(w, e.ownerApp, e.ownerValid, e.signal.app)
  }

  /** All memos are true and every emission so far was rightly let through. */
  ghost predicate Trusty(w: World, b: Broker) {
    && (forall c | c in b.peers :: MemoTrue(w, b.peers[c]))
    && (forall i | 0 <= i < |b.log| :: Gated(w, b.log[i]))
  }

  lemma DeliverTrusty(w: World, b: Broker, target: Service, via: Option<Service>, sig: Signal, fails: bool)
    requires Trusty(w, b)
    ensures target.owner in b.peers ==>
              Trusty(w, Deliver(b, target, via, sig, CompareCerts(w, b.peers[target.owner].appId, sig.app, fails)).0)
    ensures target.owner !in b.peers ==> forall cmp :: Deliver(b, target, via, sig, cmp).0 == b
  {
    if target.owner in b.peers { ValidateDecides(w, b.peers[target.owner], sig.app, fails); }
  }

  /** No step by any client lets an application through to a trusted port that the owner's
      certificate does not admit, by either sending route. */
  lemma StepTrusty(w: World, b: Broker, e: Event)
    requires Trusty(w, b)
    ensures Trusty(w, Step(w, b, e))
  {
    if (e.Sent? || e.SentFrom?) && e.c in b.peers && GetById(b.registry, e.id).Ok? {
      var target := b.registry.cache[e.id];
      DeliverTrusty(w, b, target, None, Signal(e.data, b.peers[e.c].appId, "", false), e.fails);
      if e.SentFrom? && e.port in b.registry.cache {
        var p := b.registry.cache[e.port];
        DeliverTrusty(w, b, target, Some(p), Signal(e.data, b.peers[e.c].appId, p.name, p.trusted), e.fails);
      }
      hide Trusty;
    }
  }

  /** The gate holds after every run of the model.  Its steps are those of the code until two
      live services share an id, after which the code reads a destroyed service. */
  lemma {:induction false} RunTrusty(w: World, b: Broker, es: seq<Event>)
    requires Trusty(w, b)
    ensures Trusty(w, Run(w, b, es))
    decreases |es|
  {
    if es != [] {
      StepTrusty(w, b, es[0]);
      RunTrusty(w, Step(w, b, es[0]), es[1..]);
    }
  }

  // ----- What a signal says about its sender

  /** A signal names a port exactly if it was forwarded for one, and then that one. */
  predicate NamesSender(e: Emission) {
    && e.target.name != ""
    && (if e.via.None? then e.signal.port == ""
        else e.signal.port == e.via.value.name != "" && e.signal.trusted == e.via.value.trusted)
  }

  ghost predicate SendersNamed(b: Broker) {
    forall i | 0 <= i < |b.log| :: NamesSender(b.log[i])
  }

  lemma StepSendersNamed(w: World, b: Broker, e: Event)
    requires Inv(b) && SendersNamed(b)
    ensures SendersNamed(Step(w, b, e))
  {
    hide IndexAgreement, UnregisterAll, UnregisterOne;
  }

  lemma {:induction false} RunSendersNamed(w: World, b: Broker, es: seq<Event>)
    requires Inv(b) && SendersNamed(b) && ClashFreeRun(w, b, es)
    ensures SendersNamed(Run(w, b, es))
    decreases |es|
  {
    if es != [] {
      StepKeepsIff(w, b, es[0]);
      StepSendersNamed(w, b, es[0]);
      RunSendersNamed(w, Step(w, b, es[0]), es[1..]);
    }
  }
}
