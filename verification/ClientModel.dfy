/** The client library's mirror of its own ports (lib/msgport-manager.c, lib/msgport-service.c). */
module ClientModel {
  import opened Basics
  import opened Paths

  datatype ClientError = NONE | IO_ERROR | OUT_OF_MEMORY | INVALID_PARAMETER | NOT_FOUND | CERTIFICATE_NOT_MATCH

  /** `msgport_daemon_error_to_error`. */
  function Translate(e: DaemonError): ClientError {
    match e
    case InvalidParams => INVALID_PARAMETER
    case NotFound => NOT_FOUND
    case CertificateMismatch => CERTIFICATE_NOT_MATCH
    case Unknown => IO_ERROR
    case ExportFailed => IO_ERROR
    case Unmapped => IO_ERROR
  }

  /** A daemon's reply as it arrives in the library's process.  `namesKnown`: the process has
      registered the daemon's error names with GDBus, by calling `msgport_error_quark`. */
  function Arrive<T>(namesKnown: bool, reply: Result<T>): Result<T> {
    if reply.Err? && !namesKnown && !reply.error.ExportFailed? then Err(Unmapped) else reply
  }

  /** What becomes of an error the caller was meant to see. */
  function Reported(namesKnown: bool, meant: ClientError): ClientError {
    if namesKnown || meant == NONE then meant else IO_ERROR
  }

  /** An application's message callback and its user data, both opaque. */
  datatype Handler = Handler(callback: nat, userData: nat)

  /** A port as the client sees it: properties read through a proxy, and the handler. */
  datatype ClientService = ClientService(id: Id, name: string, trusted: bool, handler: Handler)

  /** A string on the heap: its address tells it from an equal text elsewhere. */
  datatype Str = Str(addr: nat, text: string)

  /** An entry of `services`: the key string it owns, and the service. */
  datatype Slot = Slot(key: nat, service: ClientService)

  /** `services` is keyed by the text of an object path and owns the key strings;
      `localServices` borrows them.  `made` path strings were made so far, at the
      addresses below it, and those in `freed` were given back. */
  datatype Client = Client(
    services: map<string, Slot>,
    localServices: map<int, Str>,
    made: nat,
    freed: set<nat>)

  const NEW_CLIENT := Client(map[], map[], 0, {})

  /** `int id = guint`: ids from 2^31 on come out negative. */
  function ToInt(id: Id): int {
    if id < 0x8000_0000 then id else id - ID_LIMIT
  }

  predicate IsLocalPort(s: ClientService, name: string, trusted: bool) {
    s.name == name && s.trusted == trusted
  }

  /** `g_hash_table_find` with `_find_service`: any cached service that fits, or none. */
  ghost predicate FindsCached(cl: Client, name: string, trusted: bool, pick: Option<string>) {
    if pick.Some? then pick.value in cl.services && IsLocalPort(cl.services[pick.value].service, name, trusted)
    else forall p | p in cl.services :: !IsLocalPort(cl.services[p].service, name, trusted)
  }

  function SetHandler(cl: Client, path: string, handler: Handler): Client
    requires path in cl.services
  {
    var slot := cl.services[path];
    cl.(services := cl.services[path := slot.(service := slot.service.(handler := handler))])
  }

  /** The string a reply brings, at a new address. */
  function NewString(cl: Client, text: string): (Client, Str) {
    (cl.(made := cl.made + 1), Str(cl.made, text))
  }

  function FreeString(cl: Client, addr: nat): Client {
    cl.(freed := cl.freed + {addr})
  }

  /** `g_hash_table_insert` in `services`, which has a key destroy function: if the key is
      there already, the table keeps its own key string and frees the one passed. */
  function InsertService(cl: Client, key: Str, s: ClientService): Client {
    if key.text in cl.services
    then FreeString(cl, key.addr).(services := cl.services[key.text := Slot(cl.services[key.text].key, s)])
    else cl.(services := cl.services[key.text := Slot(key.addr, s)])
  }

  /** `g_hash_table_remove` in `services` frees the key string. */
  function RemoveService(cl: Client, path: string): Client {
    if path in cl.services
    then FreeString(cl, cl.services[path].key).(services := cl.services - {path})
    else cl
  }

  /** `_create_and_cache_service`, once the proxy has been made: the same string becomes the
      key of one table and a value of the other. */
  function CacheService(cl: Client, key: Str, s: ClientService): Client {
    var q := InsertService(cl, key, s);
    q.(localServices := q.localServices[ToInt(s.id) := key])
  }

  /** `msgport_manager_register_service`.  `reply` is the daemon's answer, as it arrives, if
      it is asked, `proxy` the properties read through the new proxy, or None if it cannot be made. */
  function RegisterLocal(cl: Client, name: string, trusted: bool, handler: Handler,
                         pick: Option<string>, reply: Result<string>, proxy: Option<ClientService>)
    : (Client, ClientError, Option<int>)
    requires pick.Some? ==> pick.value in cl.services
  {
    if pick.Some? then
      (SetHandler(cl, pick.value, handler), NONE, Some(ToInt(cl.services[pick.value].service.id)))
    else if reply.Err? then (cl, Translate(reply.error), None)
    else
      var (q, key) := NewString(cl, reply.value);
      if proxy.None? then (FreeString(q, key.addr), OUT_OF_MEMORY, None)
      else
        var s := proxy.value.(handler := handler);
        (CacheService(q, key, s), NONE, Some(ToInt(s.id)))
  }

  /** `_get_local_port`: an id whose path has no service any more is forgotten. */
  function GetLocal(cl: Client, id: int): (Client, Option<string>) {
    if id !in cl.localServices then (cl, None)
    else if cl.localServices[id].text !in cl.services then (ForgetId(cl, id), None)
    else (cl, Some(cl.localServices[id].text))
  }

  function ForgetId(cl: Client, id: int): Client {
    cl.(localServices := cl.localServices - {id})
  }

  /** `msgport_manager_unregister_service`; `replied` says whether the daemon answered.  The
      id goes first, then the service, found by the string that was borrowed. */
  function UnregisterLocal(cl: Client, id: int, replied: bool): (Client, ClientError) {
    var (q, path) := GetLocal(cl, id);
    if path.None? then (q, NOT_FOUND)
    else if !replied then (q, IO_ERROR)
    else (RemoveService(ForgetId(q, id), path.value), NONE)
  }

  // ----- Sending

  /** `msgport_manager_send_message`: what the two replies, as they arrive, make the
      caller see.  An id of 0
      ends the call before the message is sent, with the error of the check, NONE. */
  function PlainSendResult(check: Result<Id>, send: Result<()>): ClientError {
    if check.Err? then Translate(check.error)
    else if check.value == 0 then NONE
    else if send.Err? then Translate(send.error)
    else NONE
  }

  /** `msgport_manager_send_bidirectional_message`: a failed check is always NOT_FOUND. */
  function BidirectionalResult(cl: Client, id: int, check: Result<Id>, send: Result<()>): ClientError {
    if id <= 0 then INVALID_PARAMETER
    else if GetLocal(cl, id).1.None? then NOT_FOUND
    else if check.Err? then NOT_FOUND
    else if send.Err? then Translate(send.error)
    else NONE
  }

  // ----- Receiving

  /** The arguments of the application's callback, the port's id first. */
  datatype Callback =
    Callback(id: int, app: Option<string>, port: Option<string>, trusted: bool, data: VariantMap, handler: Handler)

  function NullIfEmpty(s: string): Option<string> {
    if s == "" then None else Some(s)
  }

  /** `_on_got_message`. */
  function GotMessage(s: ClientService, data: VariantMap, app: string, port: string, trusted: bool): Callback {
    Callback(ToInt(s.id), NullIfEmpty(app), NullIfEmpty(port), trusted, data, s.handler)
  }

  // ----- The two tables

  /** Every path string is either the key of one service or freed: none leaks, none is
      freed while in use. */
  ghost predicate StringsSound(cl: Client) {
    && (forall p | p in cl.services :: cl.services[p].key < cl.made && cl.services[p].key !in cl.freed)
    && (forall p, q | p in cl.services && q in cl.services && p != q :: cl.services[p].key != cl.services[q].key)
    && (forall a | a in cl.freed :: a < cl.made)
    && |cl.freed| + |cl.services| == cl.made
  }

  /** The string is the very key that `services` owns for its text. */
  predicate Owns(cl: Client, s: Str) {
    s.text in cl.services && cl.services[s.text].key == s.addr && s.addr !in cl.freed
  }

  /** No borrowed string dangles. */
  ghost predicate BorrowedStringsOwned(cl: Client) {
    forall id | id in cl.localServices :: Owns(cl, cl.localServices[id])
  }

  /** Read as texts, the tables lead from an id to a service with that id and back. */
  ghost predicate IdsInverse(cl: Client) {
    && (forall id | id in cl.localServices ::
          var p := cl.localServices[id].text; p in cl.services && ToInt(cl.services[p].service.id) == id)
    && (forall p | p in cl.services ::
          var id := ToInt(cl.services[p].service.id); id in cl.localServices && cl.localServices[id].text == p)
  }

  /** And each service is filed under its own path. */
  ghost predicate IdsMatch(cl: Client) {
    IdsInverse(cl) && forall p | p in cl.services :: p == PathOf(cl.services[p].service.id)
  }

  /** The tables are inverse to each other, and the one borrows the other's very keys. */
  ghost predicate TablesInverse(cl: Client) {
    StringsSound(cl) && BorrowedStringsOwned(cl) && IdsMatch(cl)
  }

  /** What a C compiler makes of the assignment: the `int` with the same 32 bits. */
  lemma ToIntIsSameBits(id: Id)
    ensures -0x8000_0000 <= ToInt(id) < 0x8000_0000 && (ToInt(id) - id) % ID_LIMIT == 0
    ensures ToInt(id) == id <==> id < 0x8000_0000
  {}

  /** After an insertion the service is found under the text of the key, and all others as
      before.  The string passed becomes the key, or is freed because there is one already. */
  lemma InsertedIsFound(cl: Client, key: Str, s: ClientService)
    ensures var q := InsertService(cl, key, s);
            && key.text in q.services && q.services[key.text].service == s
            && SameElsewhere(cl.services, q.services, key.text)
            && q.localServices == cl.localServices && q.made == cl.made
            && (if key.text in cl.services
                then q.services[key.text].key == cl.services[key.text].key && q.freed == cl.freed + {key.addr}
                else q.services[key.text].key == key.addr && q.freed == cl.freed)
  {}

  /** An id is resolved exactly if it leads to a service; one that does not is forgotten, so
      that afterwards no look-up finds it; and all else stays as it is. */
  lemma GetLocalForgets(cl: Client, id: int)
    ensures var (q, path) := GetLocal(cl, id);
            && (path.Some? <==> id in q.localServices)
            && (path.Some? <==> id in cl.localServices && cl.localServices[id].text in cl.services)
            && (path.Some? ==> path.value == cl.localServices[id].text && q == cl)
            && SameElsewhere(cl.localServices, q.localServices, id)
            && q.services == cl.services && q.made == cl.made && q.freed == cl.freed
  {}

  lemma CacheKeepsStrings(cl: Client, path: string, s: ClientService)
    requires StringsSound(cl) && BorrowedStringsOwned(cl) && path !in cl.services
    ensures var (q, key) := NewString(cl, path);
            var r := CacheService(q, key, s);
            StringsSound(r) && BorrowedStringsOwned(r)
  {}

  lemma CacheKeepsIdsIff(cl: Client, path: string, s: ClientService)
    requires IdsInverse(cl) && path !in cl.services
    ensures var (q, key) := NewString(cl, path);
            IdsInverse(CacheService(q, key, s)) <==> ToInt(s.id) !in cl.localServices
  {
    var (q, key) := NewString(cl, path);
    var r, id := CacheService(q, key, s), ToInt(s.id);
    if id in cl.localServices {
      var p := cl.localServices[id].text;
      assert p in r.services && r.services[p] == cl.services[p] && r.localServices[id].text == path;
    }
  }

  /** Caching a service keeps the tables inverse, and the borrowed strings alive, exactly if
      neither its path nor its id is in a table yet: under a path that is there already, the
      string that `localServices` borrows has just been freed; under an id that is there, the
      service it led to before can no longer be reached. */
  lemma CacheKeepsInverseIff(cl: Client, path: string, s: ClientService)
    requires StringsSound(cl) && BorrowedStringsOwned(cl) && IdsInverse(cl)
    ensures var (q, key) := NewString(cl, path);
            var r := CacheService(q, key, s);
            StringsSound(r) && BorrowedStringsOwned(r) && IdsInverse(r) <==>
            path !in cl.services && ToInt(s.id) !in cl.localServices
  {
    hide StringsSound, IdsInverse;
    if path in cl.services {
      var (q, key) := NewString(cl, path);
      assert !Owns(CacheService(q, key, s), CacheService(q, key, s).localServices[ToInt(s.id)]);
    } else {
      CacheKeepsStrings(cl, path, s);
      CacheKeepsIdsIff(cl, path, s);
    }
  }

  /** Distinct ids have distinct paths, so filing every service under its own path keeps the
      tables inverse as long as the path is new. */
  lemma CacheKeepsTablesIff(cl: Client, path: string, s: ClientService)
    requires TablesInverse(cl)
    ensures var (q, key) := NewString(cl, path);
            TablesInverse(CacheService(q, key, s)) <==> path == PathOf(s.id) && path !in cl.services
  {
    CacheKeepsInverseIff(cl, path, s);
    if path == PathOf(s.id) && path !in cl.services { IdIsFree(cl, s.id); }
    hide StringsSound, BorrowedStringsOwned, IdsInverse, PathOf;
    var (q, key) := NewString(cl, path);
    assert CacheService(q, key, s).services[path].service == s;
  }

  lemma SetHandlerKeepsTables(cl: Client, path: string, handler: Handler)
    requires TablesInverse(cl) && path in cl.services
    ensures TablesInverse(SetHandler(cl, path, handler))
  {
    var q := SetHandler(cl, path, handler);
    assert q.services.Keys == cl.services.Keys;
    forall p | p in cl.services
      ensures q.services[p].key == cl.services[p].key && q.services[p].service.id == cl.services[p].service.id {}
    hide SetHandler, PathOf;
  }

  lemma FreeNewString(cl: Client, path: string)
    requires TablesInverse(cl)
    ensures var (q, key) := NewString(cl, path); TablesInverse(FreeString(q, key.addr))
  {}

  lemma RemoveKeepsStrings(cl: Client, path: string)
    requires StringsSound(cl) && path in cl.services
    ensures StringsSound(RemoveService(cl, path))
  {
    assert cl.services == (cl.services - {path})[path := cl.services[path]];
  }

  /** Unregistering removes one port from both tables.  Between the two removals, when only
      the id is gone, no borrowed string dangles and the path still to be read is alive;
      the other order would leave the id borrowing a freed string. */
  lemma UnregisterKeepsTables(cl: Client, id: int, replied: bool)
    requires TablesInverse(cl)
    ensures TablesInverse(UnregisterLocal(cl, id, replied).0)
    ensures BorrowedStringsOwned(ForgetId(cl, id))
    ensures id in cl.localServices ==>
              && Owns(ForgetId(cl, id), cl.localServices[id])
              && !BorrowedStringsOwned(RemoveService(cl, cl.localServices[id].text))
    ensures UnregisterLocal(cl, id, replied).1 ==
            if id !in cl.localServices then NOT_FOUND else if !replied then IO_ERROR else NONE
    ensures UnregisterLocal(cl, id, replied).1 != NONE ==> UnregisterLocal(cl, id, replied).0 == cl
    ensures var q := UnregisterLocal(cl, id, replied).0;
            forall other | other != id :: GetLocal(q, other) == (q, GetLocal(cl, other).1)
  {
    hide StringsSound, PathOf;
    if id in cl.localServices {
      var path := cl.localServices[id].text;
      assert !Owns(RemoveService(cl, path), cl.localServices[id]);
      RemoveBothKeeps(cl, id);
      OtherIdsResolve(cl, id);
    }
  }

  lemma OthersElsewhere(cl: Client, id: int)
    requires TablesInverse(cl) && id in cl.localServices
    ensures forall other | other in cl.localServices && other != id ::
              cl.localServices[other].text != cl.localServices[id].text
  {
    forall other | other in cl.localServices && other != id
      ensures cl.localServices[other].text != cl.localServices[id].text
    {
      assert ToInt(cl.services[cl.localServices[other].text].service.id) == other;
    }
  }

  lemma RemoveBothKeepsBorrowed(cl: Client, id: int)
    requires TablesInverse(cl) && id in cl.localServices
    ensures BorrowedStringsOwned(RemoveService(ForgetId(cl, id), cl.localServices[id].text))
  {
    OthersElsewhere(cl, id);
    KeysDiffer(cl, cl.localServices[id].text);
    hide StringsSound, IdsMatch;
  }

  lemma RemoveBothKeepsIds(cl: Client, id: int)
    requires TablesInverse(cl) && id in cl.localServices
    ensures IdsMatch(RemoveService(ForgetId(cl, id), cl.localServices[id].text))
  {
    OthersElsewhere(cl, id);
    hide StringsSound, BorrowedStringsOwned, PathOf;
  }

  lemma OtherIdsResolve(cl: Client, id: int)
    requires TablesInverse(cl) && id in cl.localServices
    ensures var q := RemoveService(ForgetId(cl, id), cl.localServices[id].text);
            forall other | other != id :: GetLocal(q, other) == (q, GetLocal(cl, other).1)
  {
    OthersElsewhere(cl, id);
    hide StringsSound, IdsMatch;
  }

  lemma RemoveBothKeeps(cl: Client, id: int)
    requires TablesInverse(cl) && id in cl.localServices
    ensures TablesInverse(RemoveService(ForgetId(cl, id), cl.localServices[id].text))
  {
    RemoveBothKeepsBorrowed(cl, id);
    RemoveBothKeepsIds(cl, id);
    RemoveKeepsStrings(ForgetId(cl, id), cl.localServices[id].text);
    hide StringsSound, BorrowedStringsOwned, IdsMatch, RemoveService;
  }

  lemma KeysDiffer(cl: Client, path: string)
    requires StringsSound(cl) && path in cl.services
    ensures forall p | p in cl.services && p != path :: cl.services[p].key != cl.services[path].key
  {}

  /** In `q`, `id` resolves to `path`, a port of that name and trust with the handler; all
      else is as it was in `cl`. */
  ghost predicate GivesPort(cl: Client, q: Client, id: int, path: string,
                            name: string, trusted: bool, handler: Handler)
  {
    && GetLocal(q, id).1 == Some(path) && path in q.services
    && IsLocalPort(q.services[path].service, name, trusted) && q.services[path].service.handler == handler
    && SameElsewhere(cl.services, q.services, path)
    && SameElsewhere(cl.localServices, q.localServices, id)
  }

  /** The tables differ at `k` only. */
  ghost predicate SameElsewhere<K, V>(m: map<K, V>, n: map<K, V>, k: K) {
    && (forall x | x in m && x != k :: x in n && n[x] == m[x])
    && (forall x | x in n && x != k :: x in m)
  }

  lemma CachedService(cl: Client, key: Str, s: ClientService)
    ensures var r := CacheService(cl, key, s); key.text in r.services && r.services[key.text].service == s
  {}

  lemma CacheGivesPort(cl: Client, s: ClientService)
    requires TablesInverse(cl) && PathOf(s.id) !in cl.services
    ensures var (q, key) := NewString(cl, PathOf(s.id));
            var r := CacheService(q, key, s);
            TablesInverse(r) && GivesPort(cl, r, ToInt(s.id), PathOf(s.id), s.name, s.trusted, s.handler)
  {
    CacheKeepsTablesIff(cl, PathOf(s.id), s);
    hide TablesInverse, PathOf;
  }

  /** What an application gets from registering: an id that resolves to a port of that name
      and trust with the given handler, every other port as it was; or an error and both
      tables unchanged.  A port that was cached keeps its id. */
  lemma RegisterGivesWorkingId(cl: Client, name: string, trusted: bool, handler: Handler,
                               pick: Option<string>, reply: Result<string>, proxy: Option<ClientService>)
    requires TablesInverse(cl) && FindsCached(cl, name, trusted, pick)
    requires pick.None? && reply.Ok? && proxy.Some? ==>
               && reply.value == PathOf(proxy.value.id) && reply.value !in cl.services
               && IsLocalPort(proxy.value, name, trusted)
    ensures var (q, err, id) := RegisterLocal(cl, name, trusted, handler, pick, reply, proxy);
            && TablesInverse(q)
            && (err == NONE <==> pick.Some? || (reply.Ok? && proxy.Some?))
            && (err != NONE ==> q.services == cl.services && q.localServices == cl.localServices && id == None
                                && err == if reply.Err? then Translate(reply.error) else OUT_OF_MEMORY)
            && (err == NONE ==>
                  && id.Some? && (pick.Some? ==> q.localServices == cl.localServices)
                  && var path := if pick.Some? then pick.value else reply.value;
                     GivesPort(cl, q, id.value, path, name, trusted, handler))
  {
    hide TablesInverse, PathOf;
    if pick.Some? {
      SetHandlerKeepsTables(cl, pick.value, handler);
      IdOfCached(cl, pick.value);
    } else if reply.Ok? && proxy.Some? {
      CacheGivesPort(cl, proxy.value.(handler := handler));
      hide GivesPort, CacheService;
    } else if reply.Ok? {
      FreeNewString(cl, reply.value);
    }
  }

  lemma IdOfCached(cl: Client, path: string)
    requires TablesInverse(cl) && path in cl.services
    ensures var id := ToInt(cl.services[path].service.id);
            id in cl.localServices && cl.localServices[id].text == path
  {}

  lemma IdIsFree(cl: Client, id: Id)
    requires TablesInverse(cl) && PathOf(id) !in cl.services
    ensures ToInt(id) !in cl.localServices
  {
    forall k | k in cl.localServices ensures k != ToInt(id) {
      assert PathOf(cl.services[cl.localServices[k].text].service.id) in cl.services;
    }
  }

  /** Unregistering undoes caching, and gives the path string back. */
  lemma UnregisterUndoesCache(cl: Client, s: ClientService)
    requires TablesInverse(cl) && PathOf(s.id) !in cl.services
    ensures var (q, key) := NewString(cl, PathOf(s.id));
            UnregisterLocal(CacheService(q, key, s), ToInt(s.id), true) == (FreeString(q, key.addr), NONE)
  {
    var id := ToInt(s.id);
    IdIsFree(cl, s.id);
    hide TablesInverse, PathOf;
    var (q, key) := NewString(cl, PathOf(s.id));
    var r := CacheService(q, key, s);
    assert r.services - {PathOf(s.id)} == cl.services;
    assert r.localServices - {id} == cl.localServices;
  }

  /** A cached port can be named in a bidirectional send exactly if its id is a positive
      `int`; ports with ids from 2^31 on are refused as an invalid parameter. */
  lemma UsableLocalIds(cl: Client, path: string, check: Result<Id>, send: Result<()>)
    requires TablesInverse(cl) && path in cl.services
    ensures var port := cl.services[path].service.id;
            && (BidirectionalResult(cl, ToInt(port), check, send) == NONE <==>
                  0 < port < 0x8000_0000 && check.Ok? && send.Ok?)
            && (port >= 0x8000_0000 ==>
                  BidirectionalResult(cl, ToInt(port), check, send) == INVALID_PARAMETER)
  {
    assert ToInt(cl.services[path].service.id) in cl.localServices;
  }
}
