/** Runs from the start of the daemon that show where the code falls short.  Each lemma next
    to its exact condition: Routing.PlainSendDelivers (id 0), ClientModel.UsableLocalIds
    (ids from 2^31 on), Routing.CheckSucceedsIff (several connections of an application). */
module Witnesses {
  import opened Basics
  import opened BrokerModel
  import opened BrokerSafety
  import opened Certificates
  import opened ClientModel
  import opened Paths
  import opened RegistryModel
  import opened Routing
  import opened StaleIds
  import opened ServiceIds
  import opened SystemModel

  lemma RunOfThree(w: World, b: Broker, e1: Event, e2: Event, e3: Event)
    ensures Run(w, b, [e1, e2, e3]) == Step(w, Step(w, Step(w, b, e1), e2), e3)
  {
    hide Step;
    assert [e1, e2, e3][1..] == [e2, e3] && [e2, e3][1..] == [e3] && [e3][1..] == [];
    assert Run(w, Step(w, Step(w, b, e1), e2), [e3]) == Step(w, Step(w, Step(w, b, e1), e2), e3);
  }

  lemma RunOfFour(w: World, b: Broker, e1: Event, e2: Event, e3: Event, e4: Event)
    ensures Run(w, b, [e1, e2, e3, e4]) == Step(w, Step(w, Step(w, Step(w, b, e1), e2), e3), e4)
  {
    assert [e1, e2, e3, e4][1..] == [e2, e3, e4];
    RunOfThree(w, Step(w, b, e1), e2, e3, e4);
    hide Step;
  }

  /** The first connection of a daemon. */
  lemma FirstConnection(w: World, c: Conn, appId: string)
    ensures var b := Step(w, START, Connected(c, appId, true, true));
            && Inv(b) && NoMisroute(b) && b.peers == map[c := NewPeer(appId, true)]
            && b.registry == EMPTY && b.ids == START.ids && b.log == []
  {
    StartIsSafe();
    StepKeepsIff(w, START, Connected(c, appId, true, true));
  }

  lemma FailedRegistration(w: World, b: Broker, c: Conn, name: string, trusted: bool)
    requires Inv(b) && NoMisroute(b) && c in b.peers && name != "" && b.registry == EMPTY
    ensures var b' := Step(w, b, Registered(c, name, trusted, false));
            && Inv(b') && NoMisroute(b')
            && b' == b.(ids := Allocator((b.ids.counter - 1) % ID_LIMIT, b.ids.created, b.ids.failed + 1))
  {
    StepMisroutesIff(w, b, Registered(c, name, trusted, false));
    StepKeepsIff(w, b, Registered(c, name, trusted, false));
  }

  /** The first port of a daemon: it exists, and its id is found. */
  lemma FirstRegistration(w: World, b: Broker, c: Conn, name: string, trusted: bool)
    requires Inv(b) && NoMisroute(b) && c in b.peers && name != "" && b.registry == EMPTY && b.ids.created == []
    ensures var b', s := Step(w, b, Registered(c, name, trusted, true)), Service(0, Candidate(b.ids), c, name, trusted);
            && Inv(b') && NoMisroute(b') && b'.peers == b.peers && b'.registry == Insert(EMPTY, s)
            && HasPort(b', c, name, trusted) && Check(b', name, trusted, Some(c)) == Ok(s.id)
            && (forall d | d != c :: !HasPort(b', d, name, trusted))
  {
    var e := Registered(c, name, trusted, true);
    StepMisroutesIff(w, b, e);
    StepKeepsIff(w, b, e);
    hide Inv, NoMisroute;
    assert PortOf(Step(w, b, e), Candidate(b.ids), c, name, trusted);
  }

  /** A failed export before the first success makes a port with id 0.  It is found, and a
      plain send to it reports NONE, but nothing is sent. */
  lemma MessageToIdZeroIsLost(namesKnown: bool, w: World, c: Conn, appId: string, name: string,
                              trusted: bool, data: VariantMap, fails: bool)
    requires name != ""
    ensures var b := Run(w, START, [Connected(c, appId, true, true), Registered(c, name, trusted, false),
                                    Registered(c, name, trusted, true)]);
            && Inv(b) && NoMisroute(b) && c in b.peers && HasPort(b, c, name, trusted)
            && FindsManager(b, appId, Some(c)) && Check(b, name, trusted, Some(c)) == Ok(0)
            && PlainSend(namesKnown, w, b, b, c, name, trusted, Some(c), data, fails) == (b, NONE)
  {
    hide Inv, NoMisroute, Step, Run, HasPort, Check;
    var e1, e2, e3 := Connected(c, appId, true, true), Registered(c, name, trusted, false),
                      Registered(c, name, trusted, true);
    RunOfThree(w, START, e1, e2, e3);
    FirstConnection(w, c, appId);
    var b1 := Step(w, START, e1);
    FailedRegistration(w, b1, c, name, trusted);
    FirstRegistration(w, Step(w, b1, e2), c, name, trusted);
  }

  /** A plain send to a port that does not exist: where the error names are not known, the
      caller is told of an I/O error. */
  lemma MissingPortReadsAsIoError(w: World, c: Conn, appId: string, name: string, trusted: bool,
                                  data: VariantMap, fails: bool)
    requires name != ""
    ensures var b := Run(w, START, [Connected(c, appId, true, true)]);
            && Inv(b) && NoMisroute(b) && c in b.peers && FindsManager(b, appId, Some(c))
            && PlainSend(true, w, b, b, c, name, trusted, Some(c), data, fails) == (b, NOT_FOUND)
            && PlainSend(false, w, b, b, c, name, trusted, Some(c), data, fails) == (b, IO_ERROR)
  {
    var e := Connected(c, appId, true, true);
    FirstConnection(w, c, appId);
    assert [e][1..] == [];
    assert Run(w, START, [e]) == Run(w, Step(w, START, e), []);
    hide Inv, NoMisroute, Step, Run;
  }

  lemma TwiceFailed(w: World, c: Conn, appId: string, name: string, trusted: bool)
    requires name != ""
    ensures var failed, e := Registered(c, name, trusted, false), Registered(c, name, trusted, true);
            var b := Run(w, START, [Connected(c, appId, true, true), failed, failed, e]);
            var id: Id := 0xFFFF_FFFF;
            && Inv(b) && NoMisroute(b) && Check(b, name, trusted, Some(c)) == Ok(id)
            && Exported(b, c, PathOf(id), id, name, trusted)
  {
    hide Inv, NoMisroute, Step, Run, HasPort, Check, PathOf;
    var e1, failed, e := Connected(c, appId, true, true), Registered(c, name, trusted, false),
                         Registered(c, name, trusted, true);
    RunOfFour(w, START, e1, failed, failed, e);
    FirstConnection(w, c, appId);
    var b1 := Step(w, START, e1);
    FailedRegistration(w, b1, c, name, trusted);
    FailedRegistration(w, Step(w, b1, failed), c, name, trusted);
    FirstRegistration(w, Step(w, Step(w, b1, failed), failed), c, name, trusted);
  }

  /** Two failed exports before the first success make a port with id 2^32-1.  The library
      that caches it agrees with the daemon, but knows it as -1 and cannot send from it. */
  lemma NegativeIdCannotSend(w: World, c: Conn, appId: string, name: string, trusted: bool, handler: Handler,
                             check: Result<Id>, send: Result<()>)
    requires name != ""
    ensures var failed, e := Registered(c, name, trusted, false), Registered(c, name, trusted, true);
            var b := Run(w, START, [Connected(c, appId, true, true), failed, failed, e]);
            var id: Id := 0xFFFF_FFFF;
            && Inv(b) && NoMisroute(b) && Check(b, name, trusted, Some(c)) == Ok(id)
            && var (q, path) := NewString(NEW_CLIENT, PathOf(id));
               var cl := CacheService(q, path, ClientService(id, name, trusted, handler));
               && Mirrors(b, c, cl) && GetLocal(cl, -1).1.Some?
               && BidirectionalResult(cl, -1, check, send) == INVALID_PARAMETER
  {
    hide Inv, NoMisroute, Step, Run, Check, PathOf, TablesInverse;
    TwiceFailed(w, c, appId, name, trusted);
    NewTablesAreInverse();
    var id: Id := 0xFFFF_FFFF;
    CacheKeepsTablesIff(NEW_CLIENT, PathOf(id), ClientService(id, name, trusted, handler));
  }

  lemma NewTablesAreInverse()
    ensures TablesInverse(NEW_CLIENT)
  {}

  /** Two connections of one application, one of which has the port: the look-up finds it or
      not, depending on which manager the server comes upon first. */
  lemma LookUpDependsOnOrder(w: World, c: Conn, d: Conn, app: string, name: string, trusted: bool)
    requires name != "" && c != d
    ensures var b := Run(w, START, [Connected(c, app, true, true), Connected(d, app, true, true),
                                    Registered(c, name, trusted, true)]);
            && Inv(b) && NoMisroute(b) && HasPort(b, c, name, trusted)
            && FindsManager(b, app, Some(c)) && Check(b, name, trusted, Some(c)) == Ok(1)
            && FindsManager(b, app, Some(d)) && Check(b, name, trusted, Some(d)) == Err(NotFound)
  {
    hide Inv, NoMisroute, Run, HasPort;
    var e1, e2, e3 := Connected(c, app, true, true), Connected(d, app, true, true), Registered(c, name, trusted, true);
    RunOfThree(w, START, e1, e2, e3);
    FirstConnection(w, c, app);
    var b1 := Step(w, START, e1);
    StepMisroutesIff(w, b1, e2);
    ConnectKeeps(b1, d, app, true, true);
    var b2 := Step(w, b1, e2);
    assert b2.registry == EMPTY && b2.ids == START.ids;
    FirstRegistration(w, b2, c, name, trusted);
    WalkFindsLive(Step(w, b2, e3), d, name, trusted);
  }
}
