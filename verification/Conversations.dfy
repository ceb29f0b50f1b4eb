/** Bidirectional messages: the local port, the look-up of the remote one, and the send. */
module Conversations {
  import opened Basics
  import opened BrokerModel
  import opened BrokerSafety
  import opened Certificates
  import opened ClientModel
  import opened RegistryModel
  import opened Routing
  import opened StaleIds
  import opened SystemModel
  import opened TrustGate

  /** `msgport_manager_send_bidirectional_message` of the library `cl` on connection `c`, once
      the check has answered: the message is sent on the local port's own object. */
  function BidirectionalSend(namesKnown: bool, w: World, b: Broker, cl: Client, c: Conn, id: int,
                             check: Result<Id>, data: VariantMap, fails: bool): (Broker, ClientError)
    requires c in b.peers
  {
    var path := GetLocal(cl, id).1;
    if id <= 0 || path.None? || check.Err? then (b, BidirectionalResult(cl, id, check, Ok(())))
    else
      var cmp := CompareFor(w, b, check.value, b.peers[c].appId, fails);
      var (b', sent) := SendFromPort(b, c, cl.services[path.value].service.id, check.value, data, cmp);
      (b', BidirectionalResult(cl, id, check, Arrive(namesKnown, sent)))
  }

  /** The local port of a coherent library stays callable while its connection is open. */
  lemma LocalPortStaysLive(w: World, b: Broker, es: seq<Event>, cl: Client, c: Conn, id: int)
    requires Inv(b) && ClashFreeRun(w, b, es) && Mirrors(b, c, cl) && id in cl.localServices
    requires forall e | e in es :: e != Closed(c) && !e.UnregisteredOne?
    ensures cl.localServices[id].text in cl.services
    ensures var path := cl.localServices[id].text;
            var s := cl.services[path].service;
            var b1 := Run(w, b, es);
            ToInt(s.id) == id && Exported(b1, c, path, s.id, s.name, s.trusted) && Live(b1, b1.registry.cache[s.id])
  {
    var p := b.registry.cache[cl.services[cl.localServices[id].text].service.id];
    RunLifetime(w, b, es, p);
  }

  /** What calling a live port's object does: one signal on behalf of that port, or nothing. */
  lemma SendFromLivePort(b: Broker, c: Conn, port: Id, id: Id, data: VariantMap, cmp: Compare)
    requires c in b.peers && port in b.registry.cache && b.registry.cache[port].owner == c
    ensures var (b', sent) := SendFromPort(b, c, port, id, data, cmp);
            var from := b.registry.cache[port];
            && (sent.Err? ==> b'.log == b.log)
            && (sent.Ok? ==>
                  && id != 0 && id in b.registry.cache && b.registry.cache[id].owner in b.peers
                  && var s := b.registry.cache[id];
                     b'.log == b.log + [Emission(s, b.peers[s.owner].appId, b.peers[s.owner].valid, Some(from),
                                                 Signal(data, b.peers[c].appId, from.name, from.trusted))])
  {
    hide Validate;
  }

  /** A port object that is gone, or is another connection's, cannot be called: nothing is
      sent, and the library reports an I/O error. */
  lemma GonePortReadsAsIoError(namesKnown: bool, b: Broker, c: Conn, port: Id, id: Id, data: VariantMap, cmp: Compare)
    requires c in b.peers && (port in b.registry.cache ==> b.registry.cache[port].owner != c)
    ensures var (b', sent) := SendFromPort(b, c, port, id, data, cmp);
            b' == b && sent.Err? && Translate(Arrive(namesKnown, sent).error) == IO_ERROR
  {}

  lemma BidirectionalSendEffect(namesKnown: bool, w: World, b: Broker, cl: Client, c: Conn, id: int,
                                check: Result<Id>, data: VariantMap, fails: bool)
    requires c in b.peers
    requires id in cl.localServices ==>
               && cl.localServices[id].text in cl.services
               && var port := cl.services[cl.localServices[id].text].service.id;
                  port in b.registry.cache && b.registry.cache[port].owner == c
    ensures var (b', err) := BidirectionalSend(namesKnown, w, b, cl, c, id, check, data, fails);
            && (err != NONE ==> b'.log == b.log)
            && (err == NONE ==>
                  && id > 0 && id in cl.localServices && check.Ok?
                  && check.value in b.registry.cache && b.registry.cache[check.value].owner in b.peers
                  && var port := cl.services[cl.localServices[id].text].service.id;
                     var s, from := b.registry.cache[check.value], b.registry.cache[port];
                     b'.log == b.log + [Emission(s, b.peers[s.owner].appId, b.peers[s.owner].valid, Some(from),
                                                 Signal(data, b.peers[c].appId, from.name, from.trusted))])
  {
    if check.Ok? && id > 0 && id in cl.localServices {
      SendFromLivePort(b, c, cl.services[cl.localServices[id].text].service.id, check.value, data,
                       CompareFor(w, b, check.value, b.peers[c].appId, fails));
    }
    hide SendFromPort, CompareFor;
  }

  /** Delivery of a bidirectional send, with any steps of the clients in between: the caller
      sees NONE exactly if one signal was emitted, on the port and application asked for, on
      behalf of the live port behind `id`, and naming that port; otherwise nothing is. */
  lemma BidirectionalSendDelivers(namesKnown: bool, w: World, b: Broker, es: seq<Event>, cl: Client, c: Conn,
                                  id: int, app: string, name: string, trusted: bool, pick: Option<Conn>,
                                  data: VariantMap, fails: bool)
    requires Inv(b) && NoMisroute(b) && FreshRun(w, b, es) && Mirrors(b, c, cl)
    requires FindsManager(b, app, pick) && c in Run(w, b, es).peers
    requires forall e | e in es :: e != Closed(c) && !e.UnregisteredOne?
    ensures var b1 := Run(w, b, es);
            var check := Check(b, name, trusted, pick);
            var (b2, err) := BidirectionalSend(namesKnown, w, b1, cl, c, id, Arrive(namesKnown, check), data, fails);
            && (err != NONE ==> b2.log == b1.log)
            && (err == NONE ==>
                  && id > 0 && id in cl.localServices && cl.localServices[id].text in cl.services
                  && var p := cl.services[cl.localServices[id].text].service;
                     && check.Ok? && check.value in b.registry.cache && p.id in b1.registry.cache
                     && var s, from := b.registry.cache[check.value], b1.registry.cache[p.id];
                        && ToInt(from.id) == id && from.owner == c && IsPort(from, p.name, p.trusted)
                        && Live(b1, s) && IsPort(s, name, trusted) && s.owner in b1.peers
                        && b2.log == b1.log + [Emission(s, app, b1.peers[s.owner].valid, Some(from),
                                                        Signal(data, b1.peers[c].appId, p.name, p.trusted))])
  {
    var check, b1 := Check(b, name, trusted, pick), Run(w, b, es);
    FreshRunKeeps(w, b, es);
    if id in cl.localServices { LocalPortStaysLive(w, b, es, cl, c, id); }
    BidirectionalSendEffect(namesKnown, w, b1, cl, c, id, Arrive(namesKnown, check), data, fails);
    hide Inv, NoMisroute, FreshRun, ClashFreeRun, Run, Check, Mirrors, BidirectionalSend;
    if check.Ok? { StaleIdSafety(w, b, es, app, name, trusted, pick); }
  }

  /** What a caller is meant to see of sending to `target` from a live port: the daemon
      refuses id 0, finds no ended port, and guards a trusted one. */
  function SendError(w: World, b: Broker, c: Conn, target: Id, fails: bool): ClientError
    requires c in b.peers
    requires target in b.registry.cache ==> b.registry.cache[target].owner in b.peers
  {
    if target == 0 then INVALID_PARAMETER
    else if target !in b.registry.cache then IO_ERROR
    else GateError(w, b, b.registry.cache[target], b.peers[c].appId, fails)
  }

  lemma LivePortOutcome(namesKnown: bool, w: World, b: Broker, c: Conn, port: Id, target: Id, data: VariantMap,
                        fails: bool)
    requires Trusty(w, b) && c in b.peers && port in b.registry.cache && b.registry.cache[port].owner == c
    requires target in b.registry.cache ==> b.registry.cache[target].owner in b.peers
    ensures var cmp := CompareFor(w, b, target, b.peers[c].appId, fails);
            var sent := Arrive(namesKnown, SendFromPort(b, c, port, target, data, cmp).1);
            (if sent.Err? then Translate(sent.error) else NONE) ==
            Reported(namesKnown, SendError(w, b, c, target, fails))
  {
    var p := b.registry.cache[port];
    if target in b.registry.cache {
      DeliverOutcome(w, b, b.registry.cache[target], Some(p), Signal(data, b.peers[c].appId, p.name, p.trusted),
                     fails);
    }
    hide Trusty, LetsThrough, Deliver;
  }

  /** What the caller of a bidirectional send sees: INVALID_PARAMETER for an id that is not
      positive; NOT_FOUND for an unknown one, and for every error of the look-up; then what
      sending from the live port gives: an error for id 0, IO_ERROR if some step ended the
      remote port, CERTIFICATE_NOT_MATCH if its owner does not let the sender through, and
      otherwise NONE.  The errors of the sending, and no others, depend on the error names. */
  lemma BidirectionalSendOutcome(namesKnown: bool, w: World, b: Broker, es: seq<Event>, cl: Client, c: Conn,
                                 id: int, app: string, name: string, trusted: bool, pick: Option<Conn>,
                                 data: VariantMap, fails: bool)
    requires Inv(b) && NoMisroute(b) && FreshRun(w, b, es) && Mirrors(b, c, cl) && Trusty(w, b)
    requires FindsManager(b, app, pick) && c in Run(w, b, es).peers
    requires forall e | e in es :: e != Closed(c) && !e.UnregisteredOne?
    ensures var b1 := Run(w, b, es);
            var check := Check(b, name, trusted, pick);
            var err := BidirectionalSend(namesKnown, w, b1, cl, c, id, Arrive(namesKnown, check), data, fails).1;
            if id <= 0 then err == INVALID_PARAMETER
            else if id !in cl.localServices || check.Err? then err == NOT_FOUND
            else
              && check.value in b.registry.cache
              && var s := b.registry.cache[check.value];
                 if check.value == 0 then err == Reported(namesKnown, INVALID_PARAMETER)
                 else if exists e | e in es :: Ends(e, s) then err == IO_ERROR
                 else
                   && s.owner in b1.peers && b1.peers[s.owner].appId == app && s.trusted == trusted
                   && err == Reported(namesKnown, GateError(w, b1, s, b1.peers[c].appId, fails))
  {
    var check, b1 := Check(b, name, trusted, pick), Run(w, b, es);
    hide Inv, NoMisroute, FreshRun, ClashFreeRun, Run, Check, Mirrors, Trusty, GateError, SendFromPort, CompareFor;
    hide Ends, Reported;
    if id in cl.localServices && check.Ok? {
      FreshRunKeeps(w, b, es);
      LocalPortStaysLive(w, b, es, cl, c, id);
      StaleIdSafety(w, b, es, app, name, trusted, pick);
      RunTrusty(w, b, es);
      LivePortOutcome(namesKnown, w, b1, c, cl.services[cl.localServices[id].text].service.id, check.value, data,
                      fails);
      IoErrorIsReported(namesKnown);
    }
  }

  lemma IoErrorIsReported(namesKnown: bool)
    ensures Reported(namesKnown, IO_ERROR) == IO_ERROR
  {}
}
