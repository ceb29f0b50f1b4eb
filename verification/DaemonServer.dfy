/** The daemon in its own form (daemon/dbus-server.c, daemon/dbus-manager.c): one server
    object, a manager object for each connection, and the registry they share. */
module DaemonServer {
  import opened Basics
  import opened BrokerModel
  import opened Certificates
  import opened GLists
  import opened Paths
  import opened RegistryModel
  import opened RegistryTables
  import opened ServiceIds
  import opened TrustGate

  class DbusServer {
    var dbusManagers: map<Conn, DbusManager>
    var singleton: RegistryTable?      // the static pointer of msgport_manager_new
    var references: nat                // references held on it
    const counter: IdCounter           // the static counter of dbus-service.c
    var emitted: seq<Emission>         // the signals sent

    ghost function Links(): set<Node>
      reads this, singleton
    {
      if singleton == null then {} else singleton.live
    }

    /** Every object the server holds and did not hold before is new. */
    twostate predicate OnlyNewAdded()
      reads this, singleton
    {
      && (singleton == old(singleton) || singleton == null || fresh(singleton))
      && fresh(Links() - old(Links()))
      && (forall c | c in dbusManagers :: dbusManagers[c] in old(dbusManagers.Values) || fresh(dbusManagers[c]))
    }

    /** The registry exists exactly while it is referenced; each manager is filed under its
        own connection, so no two connections share one. */
    ghost predicate Valid()
      reads this, singleton, Links()
    {
      && (singleton == null <==> references == 0)
      && (singleton != null ==> singleton.Valid())
      && (forall c | c in dbusManagers :: dbusManagers[c].connection == c)
    }

    ghost function RegistryView(): Registry
      reads this, singleton
    {
      if singleton == null then EMPTY else singleton.View()
    }

    ghost function PeersView(): map<Conn, Peer>
      reads this, dbusManagers.Values
    {
      map c | c in dbusManagers :: dbusManagers[c].Value()
    }

    /** The state of the transition system this object is in. */
    ghost function View(): Broker
      reads this, dbusManagers.Values, singleton, counter
    {
      Broker(PeersView(), RegistryView(), references, counter.State(), emitted)
    }

    constructor ()
      ensures Settled() && View() == START
      ensures fresh(counter) && singleton == null && dbusManagers == map[]
    {
      dbusManagers, singleton, references, emitted := map[], null, 0, [];
      counter := new IdCounter();
    }

    /** `msgport_manager_new`. */
    method AcquireRegistry()
      requires Valid()
      modifies `singleton, `references
      ensures Valid() && singleton != null && references == old(references) + 1
      ensures View() == BrokerModel.AcquireRegistry(old(View()))
      ensures fresh(Links() - old(Links())) && (singleton == old(singleton) || fresh(singleton))
      ensures OnlyNewAdded()
    {
      if singleton == null {
        singleton := new RegistryTable();
      }
      references := references + 1;
    }

    /** `_dbus_manager_dispose`: the services go first, then the reference. */
    method DisposeManager(c: Conn)
      requires Valid() && singleton != null
      modifies `singleton, `references, singleton
      ensures Valid() && Links() <= old(Links()) && references == old(references) - 1
      ensures singleton == null || singleton == old(singleton)
      ensures View() == BrokerModel.DisposeManager(old(View()), c)
    {
      singleton.UnregisterServices(c);
      references := references - 1;
      if references == 0 {
        singleton := null;
      }
    }

    /** Between requests each open connection holds one reference on the registry. */
    ghost predicate Settled()
      reads this, singleton, Links()
    {
      Valid() && references == |dbusManagers|
    }

    /** `msgport_dbus_server_start_dbus_manager_for_connection`, for a connection that is new. */
    method StartDbusManagerForConnection(c: Conn, appId: string, valid: bool, exported: bool)
      requires Settled() && c !in dbusManagers
      modifies this, singleton
      ensures Settled() && OnlyNewAdded()
      ensures View() == Connect(old(View()), c, appId, valid, exported)
    {
      hide RegistryTable.Valid, RegistryTable.View, BrokerModel.DisposeManager, BrokerModel.AcquireRegistry;
      if exported {
        AdmitConnection(c, appId, valid);
      } else {
        RejectConnection(c);
      }
    }

    /** A manager object takes a reference on the registry as soon as it is made. */
    method AdmitConnection(c: Conn, appId: string, valid: bool)
      requires Settled() && c !in dbusManagers
      modifies this, singleton
      ensures Settled() && OnlyNewAdded()
      ensures View() == Connect(old(View()), c, appId, valid, true)
    {
      hide RegistryTable.Valid, RegistryTable.View, View;
      AcquireRegistry();
      InsertManager(c, appId, valid);
    }

    /** One that cannot be exported is disposed at once. */
    method RejectConnection(c: Conn)
      requires Settled()
      modifies this, singleton
      ensures Settled() && OnlyNewAdded()
      ensures View() == BrokerModel.DisposeManager(BrokerModel.AcquireRegistry(old(View())), c)
    {
      hide RegistryTable.Valid, RegistryTable.View, BrokerModel.DisposeManager, BrokerModel.AcquireRegistry;
      AcquireRegistry();
      DisposeManager(c);
    }

    method InsertManager(c: Conn, appId: string, valid: bool)
      requires Valid() && c !in dbusManagers
      modifies `dbusManagers
      ensures Valid() && |dbusManagers| == |old(dbusManagers)| + 1
      ensures forall d | d in dbusManagers :: dbusManagers[d] in old(dbusManagers.Values) || fresh(dbusManagers[d])
      ensures View() == old(View()).(peers := old(View()).peers[c := NewPeer(appId, valid)])
    {
      hide RegistryTable.Valid, RegistryTable.View;
      var manager := new DbusManager(c, appId, valid);
      dbusManagers := dbusManagers[c := manager];
      assert PeersView() == old(PeersView())[c := NewPeer(appId, valid)];
    }

    /** `_on_connection_closed`: removing the table entry disposes the manager. */
    method OnConnectionClosed(c: Conn)
      requires Settled()
      modifies this, singleton
      ensures Settled() && OnlyNewAdded()
      ensures View() == Close(old(View()), c)
    {
      if c !in dbusManagers {
        return;
      }
      assert dbusManagers == (dbusManagers - {c})[c := dbusManagers[c]];
      dbusManagers := dbusManagers - {c};
      assert PeersView() == old(PeersView()) - {c};
      DisposeManager(c);
    }

    /** `msgport_dbus_server_get_dbus_manager_by_app_id`, visiting the table in any order. */
    method GetDbusManagerByAppId(app: string) returns (pick: Option<Conn>)
      ensures FindsManager(View(), app, pick)
    {
      var todo := dbusManagers.Keys;
      while todo != {}
        invariant todo <= dbusManagers.Keys
        invariant forall c | c in dbusManagers.Keys - todo :: dbusManagers[c].appId != app
        decreases todo
      {
        var c :| c in todo;
        if dbusManagers[c].appId == app {
          return Some(c);
        }
        todo := todo - {c};
      }
      return None;
    }

    /** `_dbus_manager_handle_register_service`. */
    method HandleRegisterService(c: Conn, name: string, trusted: bool, exported: bool)
        returns (r: Result<string>)
      requires Settled() && c in dbusManagers
      modifies singleton, Links(), counter
      ensures Settled() && OnlyNewAdded()
      ensures (View(), r) == RegisterPort(old(View()), c, name, trusted, exported)
    {
      hide RegistryTable.Valid, RegistryTable.View, Register, PathOf;
      var made := singleton.RegisterService(counter, c, name, trusted, exported);
      r := if made.Ok? then Ok(PathOf(made.value.id)) else Err(made.error);
    }

    /** `_dbus_manager_handle_check_for_remote_service`. */
    method HandleCheckForRemoteService(c: Conn, app: string, name: string, trusted: bool)
        returns (r: Result<Id>, pick: Option<Conn>)
      requires Settled() && c in dbusManagers
      ensures FindsManager(View(), app, pick)
      ensures r == Check(View(), name, trusted, pick)
    {
      pick := GetDbusManagerByAppId(app);
      if pick.None? {
        return Err(NotFound), pick;
      }
      if name == "" {
        return Err(InvalidParams), pick;
      }
      var found := singleton.GetServiceInternal(pick.value, name, trusted);
      r := if found.Some? then Ok(found.value.id) else Err(NotFound);
    }

    /** The trust gate of `msgport_dbus_service_send_message`. */
    method PassGate(target: Service, app: string, cmp: Compare) returns (pass: bool)
      requires Valid() && target.owner in dbusManagers
      modifies dbusManagers[target.owner]
      ensures Valid()
      ensures var owner := old(View()).peers[target.owner];
              && pass == (!target.trusted || Validate(owner, app, cmp).1)
              && View() == old(View()).(peers := old(View()).peers[target.owner :=
                             if target.trusted then Validate(owner, app, cmp).0 else owner])
    {
      hide RegistryTable.Valid, RegistryTable.View, Validate;
      var owner := dbusManagers[target.owner];
      pass := true;
      if target.trusted {
        pass := owner.ValidatePeerCertificate(app, cmp);
      }
      assert PeersView() == old(PeersView())[target.owner := owner.Value()];
    }

    method Emit(e: Emission)
      requires Valid()
      modifies `emitted
      ensures Valid()
      ensures View() == old(View()).(log := old(View()).log + [e])
    {
      hide RegistryTable.Valid, RegistryTable.View;
      emitted := emitted + [e];
      assert PeersView() == old(PeersView());
    }

    /** `msgport_dbus_service_send_message`; `cmp` is what the package manager would answer. */
    method SendMessage(target: Service, via: Option<Service>, sig: Signal, cmp: Compare) returns (r: Result<()>)
      requires Settled()
      modifies `emitted, dbusManagers.Values
      ensures Settled()
      ensures (View(), r) == Deliver(old(View()), target, via, sig, cmp)
    {
      hide RegistryTable.Valid, RegistryTable.View, RegistryView, Validate;
      if target.owner !in dbusManagers {
        return Err(Unknown);
      }
      var owner := dbusManagers[target.owner];
      var pass := PassGate(target, sig.app, cmp);
      if !pass {
        return Err(CertificateMismatch);
      }
      Emit(Emission(target, owner.appId, owner.valid, via, sig));
      return Ok(());
    }

    /** `_dbus_manager_handle_send_message`. */
    method HandleSendMessage(c: Conn, id: Id, data: VariantMap, cmp: Compare) returns (r: Result<()>)
      requires Settled() && c in dbusManagers
      modifies `emitted, dbusManagers.Values
      ensures Settled()
      ensures (View(), r) == SendById(old(View()), c, id, data, cmp)
    {
      if id == 0 {
        return Err(InvalidParams);
      }
      if id !in singleton.serviceCache {
        return Err(Unknown);
      }
      r := SendMessage(singleton.serviceCache[id], None, Signal(data, dbusManagers[c].appId, "", false), cmp);
    }

    /** `_dbus_service_handle_send_message`, on the object exported for `port` on `c`. */
    method HandleServiceSendMessage(c: Conn, port: Id, id: Id, data: VariantMap, cmp: Compare)
        returns (r: Result<()>)
      requires Settled() && c in dbusManagers
      modifies `emitted, dbusManagers.Values
      ensures Settled()
      ensures (View(), r) == SendFromPort(old(View()), c, port, id, data, cmp)
    {
      if port !in singleton.serviceCache || singleton.serviceCache[port].owner != c {
        return Err(Unknown);
      }
      var p := singleton.serviceCache[port];
      if id == 0 {
        return Err(InvalidParams);
      }
      if id !in singleton.serviceCache {
        return Err(Unknown);
      }
      r := SendMessage(singleton.serviceCache[id], Some(p),
                       Signal(data, dbusManagers[c].appId, p.name, p.trusted), cmp);
    }

    /** `msgport_manager_unregister_service` on the shared registry, which no request reaches. */
    method UnregisterService(id: CInt) returns (r: Result<()>)
      requires Settled() && singleton != null
      modifies singleton, Links()
      ensures Settled() && OnlyNewAdded()
      ensures View().registry == UnregisterOne(old(View()).registry, id).0
      ensures View() == old(View()).(registry := View().registry)
      ensures r == UnregisterOne(old(View()).registry, id).1
    {
      hide RegistryTable.Valid, UnregisterOne;
      r := singleton.UnregisterService(id);
    }

    /** What the package manager would answer for a message to `id` sent by `app`. */
    method CompareWith(w: World, id: Id, app: string, fails: bool) returns (cmp: Compare)
      requires Settled()
      ensures cmp == CompareFor(w, View(), id, app, fails)
    {
      if singleton == null || id !in singleton.serviceCache {
        return Failed;
      }
      var owner := singleton.serviceCache[id].owner;
      if owner !in dbusManagers {
        return Failed;
      }
      return CompareCerts(w, dbusManagers[owner].appId, app, fails);
    }

    // ----- Serving events

    method ServeConnection(w: World, e: Event)
      requires Settled() && (e.Connected? || e.Closed?)
      modifies this, singleton
      ensures Settled() && OnlyNewAdded() && View() == Step(w, old(View()), e)
    {
      hide RegistryTable.Valid, RegistryTable.View, Connect, Close;
      match e {
        case Connected(c, appId, valid, exported) =>
          if c !in dbusManagers {
            StartDbusManagerForConnection(c, appId, valid, exported);
          }
        case Closed(c) =>
          OnConnectionClosed(c);
      }
    }

    method ServeRegistration(w: World, e: Event)
      requires Settled() && (e.Registered? || e.UnregisteredOne?)
      modifies singleton, Links(), counter
      ensures Settled() && OnlyNewAdded() && View() == Step(w, old(View()), e)
    {
      hide RegistryTable.Valid, RegistryTable.View, RegisterPort;
      match e {
        case Registered(c, name, trusted, exported) =>
          if c in dbusManagers {
            var _ := HandleRegisterService(c, name, trusted, exported);
          }
        case UnregisteredOne(id) =>
          if singleton != null {
            var _ := UnregisterService(id);
          }
      }
    }

    method ServeMessage(w: World, e: Event)
      requires Settled() && (e.Sent? || e.SentFrom?)
      modifies `emitted, dbusManagers.Values
      ensures Settled() && View() == Step(w, old(View()), e)
    {
      hide RegistryTable.Valid, RegistryTable.View, SendById, SendFromPort, CompareFor;
      if e.c in dbusManagers {
        var cmp := CompareWith(w, e.id, dbusManagers[e.c].appId, e.fails);
        match e {
          case Sent(c, id, data, _) =>
            var _ := HandleSendMessage(c, id, data, cmp);
          case SentFrom(c, port, id, data, _) =>
            var _ := HandleServiceSendMessage(c, port, id, data, cmp);
        }
      }
    }

    /** Serves one event: whatever the event, the object takes the step of the transition
        system. */
    method Serve(w: World, e: Event)
      requires Settled()
      modifies this, singleton, Links(), counter, dbusManagers.Values
      ensures Settled() && OnlyNewAdded() && View() == Step(w, old(View()), e)
    {
      hide RegistryTable.Valid, RegistryTable.View, Valid, View;
      if e.Connected? || e.Closed? {
        ServeConnection(w, e);
      } else if e.Registered? || e.UnregisteredOne? {
        ServeRegistration(w, e);
      } else if e.Sent? || e.SentFrom? {
        ServeMessage(w, e);
      } else if e.c in dbusManagers {
        var _, _ := HandleCheckForRemoteService(e.c, e.app, e.name, e.trusted);
      }
    }
  }

  lemma RunFrom(w: World, b: Broker, es: seq<Event>, i: nat)
    requires i <= |es|
    ensures i == 0 ==> Run(w, b, es[i..]) == Run(w, b, es)
    ensures i == |es| ==> Run(w, b, es[i..]) == b
    ensures i < |es| ==> Run(w, b, es[i..]) == Run(w, Step(w, b, es[i]), es[i + 1..])
  {
    hide Step;
    if i == 0 { assert es[i..] == es; }
    if i < |es| { assert es[i..][1..] == es[i + 1..]; }
  }

  lemma TrustyFromStart(w: World, es: seq<Event>)
    ensures Trusty(w, Run(w, START, es))
  {
    hide Step, Run;
    RunTrusty(w, START, es);
  }

  /** A daemon from its start: after any events it is in the state of the transition system,
      so that what is proved of runs holds of the object; for one, that no signal on a
      trusted port was let through wrongly. */
  method RunDaemon(w: World, es: seq<Event>) returns (server: DbusServer)
    ensures server.Settled() && server.View() == Run(w, START, es)
    ensures Trusty(w, server.View())
  {
    hide Step, Run, DbusServer.View, DbusServer.Settled, DbusServer.Valid, RegistryTable.Valid, Trusty;
    server := new DbusServer();
    RunFrom(w, START, es, 0);
    TrustyFromStart(w, es);
    var i := 0;
    while i < |es|
      invariant 0 <= i <= |es|
      invariant fresh(server) && fresh(server.counter)
      invariant server.singleton != null ==> fresh(server.singleton) && fresh(server.singleton.live)
      invariant forall c | c in server.dbusManagers :: fresh(server.dbusManagers[c])
      invariant server.Settled()
      invariant Run(w, server.View(), es[i..]) == Run(w, START, es)
    {
      RunFrom(w, server.View(), es, i);
      server.Serve(w, es[i]);
      i := i + 1;
    }
    RunFrom(w, server.View(), es, i);
  }
}
