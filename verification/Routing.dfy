/** Messages end to end: the look-up, the send that follows it, and the reply. */
module Routing {
  import opened Basics
  import opened BrokerModel
  import opened BrokerSafety
  import opened Certificates
  import opened ClientModel
  import opened RegistryModel
  import opened StaleIds
  import opened TrustGate

  // ----- The look-up

  /** Connection `c` has a live port of that name and trust. */
  ghost predicate HasPort(b: Broker, c: Conn, name: string, trusted: bool) {
    exists id | id in b.registry.cache :: PortOf(b, id, c, name, trusted)
  }

  predicate PortOf(b: Broker, id: Id, c: Conn, name: string, trusted: bool)
    requires id in b.registry.cache
  {
    b.registry.cache[id].owner == c && IsPort(b.registry.cache[id], name, trusted)
  }

  /** No two open connections belong to one application. */
  ghost predicate DistinctApps(b: Broker) {
    forall c, d | c in b.peers && d in b.peers && c != d :: b.peers[c].appId != b.peers[d].appId
  }

  /** In one connection's list the walk finds exactly its live ports, never an empty name. */
  lemma WalkFindsLive(b: Broker, c: Conn, name: string, trusted: bool)
    requires Inv(b)
    ensures var found := FindPort(Owned(b.registry, c), name, trusted);
            && (found.Some? <==> HasPort(b, c, name, trusted))
            && (found.Some? ==>
                  && Live(b, found.value) && found.value.owner == c
                  && IsPort(found.value, name, trusted) && name != "")
            && (forall s | Live(b, s) && s.owner == c && IsPort(s, name, trusted) :: found == Some(s))
  {
    var l := Owned(b.registry, c);
    WalkIsLookup(l, name, trusted);
    var found := FindPort(l, name, trusted);
    if found.Some? {
      assert Filed(b.registry, c, found.value);
      assert PortOf(b, found.value.id, c, name, trusted);
      assert Recorded(b, b.registry.cache[found.value.id]);
    }
    if HasPort(b, c, name, trusted) {
      var id :| id in b.registry.cache && PortOf(b, id, c, name, trusted);
      assert b.registry.cache[id] in l;
    }
  }

  /** An id returned by a check names a live port of an open connection with the app id,
      name and trust that were asked for. */
  lemma CheckIsSound(b: Broker, app: string, name: string, trusted: bool, pick: Option<Conn>)
    requires Inv(b) && FindsManager(b, app, pick)
    ensures var check := Check(b, name, trusted, pick);
            check.Ok? ==> && check.value in b.registry.cache
                          && var s := b.registry.cache[check.value];
                             && Live(b, s) && s.owner in b.peers && b.peers[s.owner].appId == app
                             && IsPort(s, name, trusted)
  {
    if pick.Some? { WalkFindsLive(b, pick.value, name, trusted); }
  }

  /** Whichever manager of the application the server finds first, the check succeeds:
      exactly if the application is connected and each of its connections has the port. */
  lemma CheckSucceedsIff(b: Broker, app: string, name: string, trusted: bool)
    requires Inv(b)
    ensures (forall pick | FindsManager(b, app, pick) :: Check(b, name, trusted, pick).Ok?) <==>
            && (exists c :: c in b.peers && b.peers[c].appId == app)
            && (forall c | c in b.peers && b.peers[c].appId == app :: HasPort(b, c, name, trusted))
  {
    hide Inv;
    forall c | c in b.peers && b.peers[c].appId == app
      ensures FindsManager(b, app, Some(c)) && (Check(b, name, trusted, Some(c)).Ok? <==> HasPort(b, c, name, trusted))
    {
      WalkFindsLive(b, c, name, trusted);
    }
    if forall c | c in b.peers :: b.peers[c].appId != app { assert FindsManager(b, app, None); }
  }

  /** With one connection per application, the check succeeds exactly if the port exists. */
  lemma CheckIsCompleteIfAppsDistinct(b: Broker, app: string, name: string, trusted: bool, pick: Option<Conn>)
    requires Inv(b) && DistinctApps(b) && FindsManager(b, app, pick)
    ensures Check(b, name, trusted, pick).Ok? <==>
            exists c :: c in b.peers && b.peers[c].appId == app && HasPort(b, c, name, trusted)
  {
    if pick.Some? { WalkFindsLive(b, pick.value, name, trusted); }
  }

  // ----- The look-up and the send

  /** A check and, any steps later, a use of its answer: the id leads to the very service the
      check found exactly if no step ended that service, and otherwise to no service. */
  lemma StaleIdSafety(w: World, b: Broker, es: seq<Event>, app: string, name: string, trusted: bool,
                      pick: Option<Conn>)
    requires Inv(b) && NoMisroute(b) && FreshRun(w, b, es)
    requires FindsManager(b, app, pick) && Check(b, name, trusted, pick).Ok?
    ensures var id := Check(b, name, trusted, pick).value;
            var b' := Run(w, b, es);
            && id in b.registry.cache
            && var s := b.registry.cache[id];
               && s.id == id && IsPort(s, name, trusted)
               && ((forall e | e in es :: !Ends(e, s)) <==> id in b'.registry.cache)
               && (id in b'.registry.cache ==>
                     && b'.registry.cache[id] == s
                     && s.owner in b'.peers && b'.peers[s.owner].appId == app)
  {
    CheckIsSound(b, app, name, trusted, pick);
    FreshRunKeeps(w, b, es);
    var s := b.registry.cache[Check(b, name, trusted, pick).value];
    RunLifetime(w, b, es, s);
    assert Run(w, b, es).ids.created[s.serial] == s;
  }

  /** `msgport_manager_send_message`: the check is made in `b`, the message sent in `b1`. */
  function PlainSend(namesKnown: bool, w: World, b: Broker, b1: Broker, c: Conn, name: string, trusted: bool,
                     pick: Option<Conn>, data: VariantMap, fails: bool): (Broker, ClientError)
    requires c in b1.peers
  {
    var check := Arrive(namesKnown, Check(b, name, trusted, pick));
    if check.Err? || check.value == 0 then (b1, PlainSendResult(check, Ok(())))
    else
      var cmp := CompareFor(w, b1, check.value, b1.peers[c].appId, fails);
      var (b2, sent) := SendById(b1, c, check.value, data, cmp);
      (b2, PlainSendResult(check, Arrive(namesKnown, sent)))
  }

  /** Delivery of a plain send, with any steps of the clients between its two requests.  The
      caller sees NONE exactly if one signal was emitted, on the port that was asked for and
      of the application that was asked for, with the sent data and the sender's app id;
      otherwise nothing is emitted.  The one exception is a port whose id is 0. */
  lemma PlainSendDelivers(namesKnown: bool, w: World, b: Broker, es: seq<Event>, c: Conn, app: string,
                          name: string, trusted: bool, pick: Option<Conn>, data: VariantMap, fails: bool)
    requires Inv(b) && NoMisroute(b) && FreshRun(w, b, es)
    requires FindsManager(b, app, pick) && c in Run(w, b, es).peers
    ensures var check := Check(b, name, trusted, pick);
            var b1 := Run(w, b, es);
            var (b2, err) := PlainSend(namesKnown, w, b, b1, c, name, trusted, pick, data, fails);
            && (check == Ok(0) ==> err == NONE && b2 == b1)
            && (err != NONE ==> b2.log == b1.log)
            && (err == NONE && check != Ok(0) ==>
                  && check.Ok? && check.value in b.registry.cache
                  && var s := b.registry.cache[check.value];
                     && Live(b1, s) && IsPort(s, name, trusted) && s.owner in b1.peers
                     && b2.log == b1.log + [Emission(s, app, b1.peers[s.owner].valid, None,
                                                     Signal(data, b1.peers[c].appId, "", false))])
  {
    hide Inv, NoMisroute, FreshRun, Run, Check;
    var check := Check(b, name, trusted, pick);
    if check.Ok? {
      StaleIdSafety(w, b, es, app, name, trusted, pick);
    }
  }

  /** The owner of a trusted port lets `app` through: it admits it, and if the comparison
      of their certificates fails, the answer is known already. */
  predicate LetsThrough(w: World, owner: Peer, app: string, fails: bool) {
    && Admits(w, owner.appId, owner.valid, app)
    && (fails ==> owner.isNullCert || app in owner.peerCerts)
  }

  /** What a caller is meant to see of sending to the live port `s`. */
  function GateError(w: World, b: Broker, s: Service, app: string, fails: bool): ClientError
    requires s.owner in b.peers
  {
    if s.trusted && !LetsThrough(w, b.peers[s.owner], app, fails) then CERTIFICATE_NOT_MATCH else NONE
  }

  lemma DeliverOutcome(w: World, b: Broker, s: Service, via: Option<Service>, sig: Signal, fails: bool)
    requires Trusty(w, b) && s.owner in b.peers
    ensures Deliver(b, s, via, sig, CompareCerts(w, b.peers[s.owner].appId, sig.app, fails)).1 ==
            if GateError(w, b, s, sig.app, fails) == NONE then Ok(()) else Err(CertificateMismatch)
  {
    hide MemoTrue, Admits, CompareCerts, Validate;
    ValidateDecides(w, b.peers[s.owner], sig.app, fails);
  }

  /** The error of a look-up that fails. */
  lemma FailedCheckOutcome(namesKnown: bool, b: Broker, app: string, name: string, trusted: bool, pick: Option<Conn>)
    requires Inv(b) && FindsManager(b, app, pick)
    ensures var check := Check(b, name, trusted, pick);
            check.Err? ==>
              PlainSendResult(Arrive(namesKnown, check), Ok(())) ==
              Reported(namesKnown, if pick.Some? && name == "" then INVALID_PARAMETER else NOT_FOUND)
  {}

  /** The error of sending to a service that was found. */
  lemma FoundSendOutcome(namesKnown: bool, w: World, b: Broker, c: Conn, s: Service, data: VariantMap, fails: bool)
    requires Trusty(w, b) && s.id != 0 && c in b.peers
    requires s.id in b.registry.cache ==> b.registry.cache[s.id] == s && s.owner in b.peers
    ensures var sent := SendById(b, c, s.id, data, CompareFor(w, b, s.id, b.peers[c].appId, fails)).1;
            PlainSendResult(Ok(s.id), Arrive(namesKnown, sent)) ==
            if s.id !in b.registry.cache then IO_ERROR
            else Reported(namesKnown, GateError(w, b, s, b.peers[c].appId, fails))
  {
    if s.id in b.registry.cache {
      DeliverOutcome(w, b, s, None, Signal(data, b.peers[c].appId, "", false), fails);
    }
    hide Trusty, LetsThrough, Deliver;
  }

  /** What the caller of a plain send sees: an error of the look-up; IO_ERROR if some step
      ended the port before the send; CERTIFICATE_NOT_MATCH if the port is trusted and its
      owner does not let the sender through; otherwise NONE.  All this only if the error
      names are known; if not, each of the errors is IO_ERROR. */
  lemma PlainSendOutcome(namesKnown: bool, w: World, b: Broker, es: seq<Event>, c: Conn, app: string, name: string,
                         trusted: bool, pick: Option<Conn>, data: VariantMap, fails: bool)
    requires Inv(b) && NoMisroute(b) && FreshRun(w, b, es) && Trusty(w, b)
    requires FindsManager(b, app, pick) && c in Run(w, b, es).peers
    ensures var check := Check(b, name, trusted, pick);
            var b1 := Run(w, b, es);
            var err := PlainSend(namesKnown, w, b, b1, c, name, trusted, pick, data, fails).1;
            && (check.Err? ==>
                  err == Reported(namesKnown, if pick.Some? && name == "" then INVALID_PARAMETER else NOT_FOUND))
            && (check == Ok(0) ==> err == NONE)
            && (check.Ok? && check.value != 0 ==>
                  && check.value in b.registry.cache
                  && var s := b.registry.cache[check.value];
                     if exists e | e in es :: Ends(e, s) then err == IO_ERROR
                     else
                       && s.owner in b1.peers && b1.peers[s.owner].appId == app && s.trusted == trusted
                       && err == Reported(namesKnown, GateError(w, b1, s, b1.peers[c].appId, fails)))
  {
    var check, b1 := Check(b, name, trusted, pick), Run(w, b, es);
    hide Inv, NoMisroute, FreshRun, Run, Check, Trusty, GateError, SendById, CompareFor, Ends;
    if check.Err? {
      FailedCheckOutcome(namesKnown, b, app, name, trusted, pick);
    } else if check.value != 0 {
      StaleIdSafety(w, b, es, app, name, trusted, pick);
      RunTrusty(w, b, es);
      FoundSendOutcome(namesKnown, w, b1, c, b.registry.cache[check.value], data, fails);
    }
  }

  /** Not knowing the error names changes no state, and turns every error into IO_ERROR. */
  lemma NamesChangeErrorsOnly(w: World, b: Broker, b1: Broker, c: Conn, name: string, trusted: bool,
                              pick: Option<Conn>, data: VariantMap, fails: bool)
    requires c in b1.peers
    ensures var (b2, meant) := PlainSend(true, w, b, b1, c, name, trusted, pick, data, fails);
            PlainSend(false, w, b, b1, c, name, trusted, pick, data, fails) == (b2, Reported(false, meant))
  {
    hide Check, SendById, CompareFor;
  }

  /** A caller is told the same whether or not the error names are known, exactly if the port
      is found and, unless its id is 0, has ended by the time of the send or lets the sender
      through. */
  lemma NamesMatterIff(w: World, b: Broker, es: seq<Event>, c: Conn, app: string, name: string, trusted: bool,
                       pick: Option<Conn>, data: VariantMap, fails: bool)
    requires Inv(b) && NoMisroute(b) && FreshRun(w, b, es) && Trusty(w, b)
    requires FindsManager(b, app, pick) && c in Run(w, b, es).peers
    ensures var check, b1 := Check(b, name, trusted, pick), Run(w, b, es);
            PlainSend(false, w, b, b1, c, name, trusted, pick, data, fails) ==
            PlainSend(true, w, b, b1, c, name, trusted, pick, data, fails) <==>
              && check.Ok?
              && (check.value == 0
                  || check.value !in b1.registry.cache
                  || var s := b1.registry.cache[check.value];
                     && s.owner in b1.peers
                     && (trusted ==> LetsThrough(w, b1.peers[s.owner], b1.peers[c].appId, fails)))
  {
    var check, b1 := Check(b, name, trusted, pick), Run(w, b, es);
    hide Inv, NoMisroute, FreshRun, Run, Check, Trusty, LetsThrough, PlainSend, Ends, FindsManager;
    NamesChangeErrorsOnly(w, b, b1, c, name, trusted, pick, data, fails);
    PlainSendOutcome(true, w, b, es, c, app, name, trusted, pick, data, fails);
    if check.Ok? { StaleIdSafety(w, b, es, app, name, trusted, pick); }
  }

  /** The message of a send event arrives: its target is there, the port it is sent from, if
      any, is the sender's own, and the gate lets the sender through. */
  ghost predicate Arrives(w: World, b: Broker, e: Event) {
    && (e.Sent? || (e.SentFrom? && e.port in b.registry.cache && b.registry.cache[e.port].owner == e.c))
    && e.c in b.peers && e.id != 0 && e.id in b.registry.cache && b.registry.cache[e.id].owner in b.peers
    && GateError(w, b, b.registry.cache[e.id], b.peers[e.c].appId, e.fails) == NONE
  }

  /** The signal such an event sends: a one-way message names no port, the other kind the port
      it is sent from. */
  function Sending(b: Broker, e: Event): Emission
    requires (e.Sent? || (e.SentFrom? && e.port in b.registry.cache)) && e.c in b.peers
    requires e.id in b.registry.cache && b.registry.cache[e.id].owner in b.peers
  {
    var t := b.registry.cache[e.id];
    var from := if e.SentFrom? then Some(b.registry.cache[e.port]) else None;
    var name, trusted := if from.Some? then from.value.name else "", from.Some? && from.value.trusted;
    Emission(t, b.peers[t.owner].appId, b.peers[t.owner].valid, from,
             Signal(e.data, b.peers[e.c].appId, name, trusted))
  }

  /** Every event adds exactly one signal to what was emitted, if it is a send that arrives,
      and none otherwise. */
  lemma StepLogIff(w: World, b: Broker, e: Event)
    requires Inv(b) && Trusty(w, b)
    ensures var b' := Step(w, b, e);
            && (!Arrives(w, b, e) ==> b'.log == b.log)
            && (Arrives(w, b, e) ==> b'.log == b.log + [Sending(b, e)])
  {
    if e.Sent? || e.SentFrom? {
      SendLogIff(w, b, e);
    } else {
      hide IndexAgreement, UnregisterAll, UnregisterOne, Register;
    }
  }

  lemma SendLogIff(w: World, b: Broker, e: Event)
    requires Trusty(w, b) && (e.Sent? || e.SentFrom?)
    requires e.id in b.registry.cache ==> b.registry.cache[e.id].owner in b.peers
    ensures var b' := Step(w, b, e);
            && (!Arrives(w, b, e) ==> b'.log == b.log)
            && (Arrives(w, b, e) ==> b'.log == b.log + [Sending(b, e)])
  {
    if e.c in b.peers && e.id in b.registry.cache {
      var t, sig := b.registry.cache[e.id], Signal(e.data, b.peers[e.c].appId, "", false);
      if e.Sent? {
        DeliverOutcome(w, b, t, None, sig, e.fails);
        DeliverLog(b, t, None, sig, CompareFor(w, b, e.id, sig.app, e.fails));
      } else if e.port in b.registry.cache {
        var p := b.registry.cache[e.port];
        sig := Signal(e.data, b.peers[e.c].appId, p.name, p.trusted);
        DeliverOutcome(w, b, t, Some(p), sig, e.fails);
        DeliverLog(b, t, Some(p), sig, CompareFor(w, b, e.id, sig.app, e.fails));
      }
    }
    hide Trusty, LetsThrough, Deliver;
  }

  lemma DeliverLog(b: Broker, t: Service, via: Option<Service>, sig: Signal, cmp: Compare)
    requires t.owner in b.peers
    ensures var (b', sent) := Deliver(b, t, via, sig, cmp);
            b'.log == b.log + if sent.Ok? then [Emission(t, b.peers[t.owner].appId, b.peers[t.owner].valid, via, sig)]
                              else []
  {
    hide Validate;
  }

  // ----- The reply

  /** The callback of a client whose service `s` received `sig`. */
  function Received(s: ClientService, sig: Signal): Callback {
    GotMessage(s, sig.data, sig.app, sig.port, sig.trusted)
  }

  /** The receiver is given a port to answer to exactly if the message came from a port. */
  lemma PortIsNullIffOneWay(w: World, es: seq<Event>, s: ClientService, i: nat)
    requires ClashFreeRun(w, START, es) && i < |Run(w, START, es).log|
    ensures var e := Run(w, START, es).log[i]; Received(s, e.signal).port.None? <==> e.via.None?
  {
    hide Run, ClashFreeRun, Inv;
    StartIsSafe();
    RunSendersNamed(w, START, es);
  }

  lemma SentFromEffect(b: Broker, c: Conn, port: Id, id: Id, data: VariantMap, cmp: Compare)
    requires Inv(b) && c in b.peers && SendFromPort(b, c, port, id, data, cmp).1.Ok?
    ensures var b1 := SendFromPort(b, c, port, id, data, cmp).0;
            && port in b.registry.cache
            && var p := b.registry.cache[port];
               && Inv(b1) && Recorded(b1, p) && Live(b1, p)
               && p.id == port && p.owner == c && p.name != ""
               && c in b1.peers && b1.peers[c].appId == b.peers[c].appId
               && b1.log != []
               && b1.log[|b1.log| - 1].signal == Signal(data, b.peers[c].appId, p.name, p.trusted)
  {
    var p := b.registry.cache[port];
    DeliverKeeps(b, GetById(b.registry, id).value, Some(p), Signal(data, b.peers[c].appId, p.name, p.trusted), cmp);
    assert Recorded(b, p);
    hide Inv, Validate;
  }

  lemma LivePortIsFound(b: Broker, p: Service, pick: Option<Conn>)
    requires Inv(b) && DistinctApps(b) && Live(b, p) && p.name != "" && p.owner in b.peers
    ensures FindsManager(b, b.peers[p.owner].appId, pick) ==> Check(b, p.name, p.trusted, pick) == Ok(p.id)
  {
    WalkFindsLive(b, p.owner, p.name, p.trusted);
    hide Inv, Live;
    if FindsManager(b, b.peers[p.owner].appId, pick) { assert pick == Some(p.owner); }
  }

  /** A bidirectional message from port `p` of `c` is delivered, then any steps follow, none
      of which ends `p`.  The callback of whoever receives it is given the app id of `c`, or
      NULL if that is empty, and the name and trust flag of `p`; and looking these up finds
      `p` itself, if no two open connections belong to one application. */
  lemma ReplyReachesSender(w: World, b: Broker, c: Conn, port: Id, id: Id, data: VariantMap, cmp: Compare,
                           es: seq<Event>, s: ClientService, pick: Option<Conn>)
    requires Inv(b) && c in b.peers
    requires SendFromPort(b, c, port, id, data, cmp).1.Ok?
    requires var b1 := SendFromPort(b, c, port, id, data, cmp).0;
             && ClashFreeRun(w, b1, es)
             && (forall e | e in es :: !Ends(e, b.registry.cache[port]))
             && DistinctApps(Run(w, b1, es))
    ensures var b1 := SendFromPort(b, c, port, id, data, cmp).0;
            var b2 := Run(w, b1, es);
            var p := b.registry.cache[port];
            && b1.log != []
            && var call := Received(s, b1.log[|b1.log| - 1].signal);
               && call.app == NullIfEmpty(b.peers[c].appId) && call.port == Some(p.name)
               && call.trusted == p.trusted && call.data == data
               && port in b2.registry.cache && b2.registry.cache[port] == p
               && (call.app.Some? && FindsManager(b2, call.app.value, pick) ==>
                     Check(b2, call.port.value, call.trusted, pick) == Ok(port))
  {
    var b1 := SendFromPort(b, c, port, id, data, cmp).0;
    var b2 := Run(w, b1, es);
    var p := b.registry.cache[port];
    hide Inv, ClashFreeRun, Run, SendFromPort, Recorded, DistinctApps, Check, FindsManager, Ends;
    SentFromEffect(b, c, port, id, data, cmp);
    RunKeeps(w, b1, es);
    RunLifetime(w, b1, es, p);
    LivePortIsFound(b2, p, pick);
  }
}
