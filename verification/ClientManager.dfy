/** The client's manager in its own form: two hash tables over service objects. */
module ClientManagers {
  import opened Basics
  import opened ClientModel

  /** One cached port.  The path is the object path of its proxy. */
  class LocalService {
    const path: string
    const id: Id
    const name: string
    const trusted: bool
    var handler: Handler

    constructor (path: string, props: ClientService, handler: Handler)
      ensures this.path == path && Value() == props.(handler := handler)
    {
      this.path, this.id, this.name, this.trusted := path, props.id, props.name, props.trusted;
      this.handler := handler;
    }

    function Value(): ClientService
      reads this
    {
      ClientService(id, name, trusted, handler)
    }

    /** `msgport_service_set_message_handler`. */
    method SetMessageHandler(handler: Handler)
      modifies this
      ensures Value() == old(Value()).(handler := handler)
    {
      this.handler := handler;
    }

    /** `_on_got_message`: the callback is called with the handler that is set at delivery. */
    method OnGotMessage(data: VariantMap, remoteApp: string, remotePort: string, trusted: bool)
        returns (call: Callback)
      ensures call == GotMessage(Value(), data, remoteApp, remotePort, trusted)
    {
      var app, port := Some(remoteApp), Some(remotePort);
      if remoteApp == "" { app := None; }
      if remotePort == "" { port := None; }
      call := Callback(ToInt(id), app, port, trusted, data, handler);
    }
  }

  /** An entry of the table: the address of the key string it owns, and the service. */
  datatype Entry = Entry(key: nat, service: LocalService)

  class ClientManager {
    const connected: bool  // whether there is a proxy to the daemon
    var services: map<string, Entry>
    var localServices: map<int, Str>
    var made: nat          // path strings made so far; the next one gets this address
    ghost var freed: set<nat>

    ghost function Services(): set<LocalService>
      reads this
    {
      set p | p in services :: services[p].service
    }

    /** Each entry is filed under the path of its service, so no two share a service. */
    ghost predicate Valid()
      reads this, Services()
    {
      forall p | p in services :: services[p].service.path == p
    }

    ghost function View(): Client
      reads this, Services()
    {
      Client(SlotsOf(), localServices, made, freed)
    }

    ghost function SlotsOf(): map<string, Slot>
      reads this, Services()
    {
      map p | p in services :: Slot(services[p].key, services[p].service.Value())
    }

    constructor (connected: bool)
      ensures Valid() && View() == NEW_CLIENT && this.connected == connected
    {
      this.connected, services, localServices, made, freed := connected, map[], map[], 0, {};
    }

    /** `g_hash_table_find` with `_find_service`, visiting the table in any order. */
    method FindService(name: string, trusted: bool) returns (pick: Option<string>)
      requires Valid()
      ensures FindsCached(View(), name, trusted, pick)
    {
      var todo := services.Keys;
      while todo != {}
        invariant todo <= services.Keys
        invariant forall p | p in services.Keys - todo :: !IsLocalPort(services[p].service.Value(), name, trusted)
        decreases todo
      {
        var p :| p in todo;
        if services[p].service.name == name && services[p].service.trusted == trusted {
          return Some(p);
        }
        todo := todo - {p};
      }
      return None;
    }

    /** `msgport_manager_register_service`; a missing name or callback is refused. */
    method RegisterService(name: Option<string>, trusted: bool, handler: Option<Handler>,
                           reply: Result<string>, proxy: Option<ClientService>)
        returns (err: ClientError, id: Option<int>, ghost pick: Option<string>)
      requires Valid()
      modifies this, Services()
      ensures Valid()
      ensures !connected ==> err == IO_ERROR && id == None && View() == old(View())
      ensures connected && (name.None? || handler.None?) ==>
                err == INVALID_PARAMETER && id == None && View() == old(View())
      ensures connected && name.Some? && handler.Some? ==>
                && FindsCached(old(View()), name.value, trusted, pick)
                && (View(), err, id) ==
                   RegisterLocal(old(View()), name.value, trusted, handler.value, pick, reply, proxy)
    {
      if !connected {
        return IO_ERROR, None, None;
      }
      if name.None? || handler.None? {
        return INVALID_PARAMETER, None, None;
      }
      var found := FindService(name.value, trusted);
      pick := found;
      if found.Some? {
        var s := services[found.value].service;
        s.SetMessageHandler(handler.value);
        assert SlotsOf() == SetHandler(old(View()), found.value, handler.value).services;
        err, id := NONE, Some(ToInt(s.id));
      } else if reply.Err? {
        err, id := Translate(reply.error), None;
      } else {
        var path := Str(made, reply.value);
        made := made + 1;
        assert SlotsOf() == old(SlotsOf());
        hide SlotsOf, CacheService, Valid;
        err, id := CreateAndCacheService(path, handler.value, proxy);
      }
    }

    /** `g_hash_table_insert` in `services`: a key string that is there already stays, and
        the one passed is freed. */
    method InsertService(key: Str, s: LocalService)
      requires Valid() && s.path == key.text
      modifies `services, `freed
      ensures Valid() && View() == ClientModel.InsertService(old(View()), key, s.Value())
    {
      if key.text in services {
        freed := freed + {key.addr};
        services := services[key.text := Entry(services[key.text].key, s)];
      } else {
        services := services[key.text := Entry(key.addr, s)];
      }
      assert SlotsOf() == ClientModel.InsertService(old(View()), key, s.Value()).services;
    }

    /** `g_hash_table_remove` in `services`: frees the key string. */
    method RemoveService(path: string)
      requires Valid()
      modifies `services, `freed
      ensures Valid() && View() == ClientModel.RemoveService(old(View()), path)
    {
      if path in services {
        freed := freed + {services[path].key};
        services := services - {path};
      }
      assert SlotsOf() == ClientModel.RemoveService(old(View()), path).services;
    }

    /** `_create_and_cache_service`; without a proxy the path string is freed. */
    method CreateAndCacheService(path: Str, handler: Handler, proxy: Option<ClientService>)
        returns (err: ClientError, id: Option<int>)
      requires Valid()
      modifies this
      ensures Valid()
      ensures proxy.None? ==> err == OUT_OF_MEMORY && id == None && View() == FreeString(old(View()), path.addr)
      ensures proxy.Some? ==>
                && err == NONE && id == Some(ToInt(proxy.value.id))
                && View() == CacheService(old(View()), path, proxy.value.(handler := handler))
    {
      if proxy.None? {
        freed := freed + {path.addr};
        assert SlotsOf() == old(SlotsOf());
        return OUT_OF_MEMORY, None;
      }
      var s := new LocalService(path.text, proxy.value, handler);
      assert SlotsOf() == old(SlotsOf());
      InsertService(path, s);
      ghost var slots := SlotsOf();
      localServices := localServices[ToInt(s.id) := path];
      assert SlotsOf() == slots;
      return NONE, Some(ToInt(s.id));
    }

    /** `_get_local_port`. */
    method GetLocalPort(id: int) returns (path: Option<string>)
      requires Valid()
      modifies `localServices
      ensures Valid() && (View(), path) == GetLocal(old(View()), id)
    {
      if id !in localServices {
        return None;
      }
      var p := localServices[id].text;
      if p !in services {
        localServices := localServices - {id};
        assert SlotsOf() == old(SlotsOf());
        return None;
      }
      return Some(p);
    }

    /** `msgport_manager_unregister_service`: the id goes first, then the service, whose
        removal frees the path that was borrowed. */
    method UnregisterService(id: int, replied: bool) returns (err: ClientError)
      requires Valid()
      modifies this
      ensures Valid()
      ensures if connected then (View(), err) == UnregisterLocal(old(View()), id, replied)
              else err == IO_ERROR && View() == old(View())
    {
      if !connected {
        return IO_ERROR;
      }
      var path := GetLocalPort(id);
      if path.None? {
        return NOT_FOUND;
      }
      if !replied {
        return IO_ERROR;
      }
      localServices := localServices - {id};
      assert SlotsOf() == old(SlotsOf());
      RemoveService(path.value);
      return NONE;
    }

    /** `msgport_manager_send_message` over the replies of its two calls. */
    method SendMessage(check: Result<Id>, send: Result<()>) returns (err: ClientError)
      ensures err == if connected then PlainSendResult(check, send) else IO_ERROR
    {
      if !connected {
        return IO_ERROR;
      }
      var serviceId: Id := 0;
      err := NONE;
      match check {
        case Ok(found) => serviceId := found;
        case Err(e) => err := Translate(e);
      }
      if serviceId == 0 {
        return;
      }
      if send.Err? {
        err := Translate(send.error);
      }
    }

    /** `msgport_manager_send_bidirectional_message` over the replies of its two calls. */
    method SendBidirectionalMessage(id: int, check: Result<Id>, send: Result<()>) returns (err: ClientError)
      requires Valid()
      modifies `localServices
      ensures Valid()
      ensures if connected
              then err == BidirectionalResult(old(View()), id, check, send)
                   && View() == if id <= 0 then old(View()) else GetLocal(old(View()), id).0
              else err == IO_ERROR && View() == old(View())
    {
      if !connected {
        return IO_ERROR;
      }
      if id <= 0 {
        return INVALID_PARAMETER;
      }
      var path := GetLocalPort(id);
      if path.None? || check.Err? {
        return NOT_FOUND;
      }
      if send.Err? {
        return Translate(send.error);
      }
      return NONE;
    }
  }
}
