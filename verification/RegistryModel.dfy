/** The abstract registry of daemon/manager.c: two indexes over the same services. */
module RegistryModel {
  import opened Basics
  import opened ServiceIds

  /** `cache` is `service_cache`, which owns the services; `lists` is `owner_service_map`,
      each `GList` given by its elements. */
  datatype Registry = Registry(cache: map<Id, Service>, lists: map<Conn, seq<Service>>)

  const EMPTY := Registry(map[], map[])

  /** The services listed for an owner.  An absent key and a NULL list read the same. */
  function Owned(r: Registry, o: Conn): seq<Service> {
    if o in r.lists then r.lists[o] else []
  }

  predicate IsPort(s: Service, name: string, trusted: bool) {
    s.name == name && s.trusted == trusted
  }

  /** The walk over an owner's list. */
  function FindPort(l: seq<Service>, name: string, trusted: bool): Option<Service> {
    if l == [] then None
    else if IsPort(l[0], name, trusted) then Some(l[0])
    else FindPort(l[1..], name, trusted)
  }

  function Insert(r: Registry, s: Service): Registry {
    Registry(r.cache[s.id := s], r.lists[s.owner := Owned(r, s.owner) + [s]])
  }

  /** `msgport_manager_register_service`: an existing port is returned as it is. */
  function Register(r: Registry, a: Allocator, o: Conn, name: string, trusted: bool, exported: bool)
    : (Registry, Allocator, Result<Service>)
  {
    if name == "" then (r, a, Err(InvalidParams))
    else match FindPort(Owned(r, o), name, trusted)
      case Some(s) => (r, a, Ok(s))
      case None =>
        var (b, made) := NewService(a, o, name, trusted, exported);
        if made.Ok? then (Insert(r, made.value), b, made) else (r, b, made)
  }

  /** `msgport_manager_get_service_by_id`; an unknown id leaves the error unset, which the
      callers report as `Unknown`. */
  function GetById(r: Registry, id: Id): Result<Service> {
    if id == 0 then Err(InvalidParams)
    else if id in r.cache then Ok(r.cache[id])
    else Err(Unknown)
  }

  /** `msgport_manager_get_service`. */
  function GetService(r: Registry, o: Conn, name: string, trusted: bool): Result<Service> {
    if name == "" then Err(InvalidParams)
    else match FindPort(Owned(r, o), name, trusted)
      case Some(s) => Ok(s)
      case None => Err(NotFound)
  }

  /** `g_list_remove`: drop the first link that holds `s`. */
  function RemoveFirst(l: seq<Service>, s: Service): seq<Service> {
    if l == [] then []
    else if l[0] == s then l[1..]
    else [l[0]] + RemoveFirst(l[1..], s)
  }

  /** `msgport_manager_unregister_service` takes the id as a `gint`.  Where a pointer is wider
      than an `int`, a negative one is not the key of any service: those are `guint`s. */
  function UnregisterOne(r: Registry, id: CInt): (Registry, Result<()>) {
    if !Cached(r, id) then (r, Err(NotFound))
    else
      var s := r.cache[id];
      var lists := if s.owner in r.lists
                   then r.lists[s.owner := RemoveFirst(r.lists[s.owner], s)]
                   else r.lists;
      (Registry(r.cache - {id}, lists), Ok(()))
  }

  /** The key made from `id` is in the cache. */
  predicate Cached(r: Registry, id: int) {
    0 <= id && id in r.cache
  }

  function Ids(l: seq<Service>): set<Id> {
    set s | s in l :: s.id
  }

  /** A NULL list makes the daemon return early, leaving the key in place. */
  function UnregisterAll(r: Registry, o: Conn): Registry {
    if Owned(r, o) == [] then r
    else Registry(r.cache - Ids(Owned(r, o)), r.lists - {o})
  }

  /** Removing several services one after the other; unknown ids fail and change nothing. */
  function UnregisterEach(r: Registry, ids: seq<CInt>): Registry
    decreases |ids|
  {
    if ids == [] then r else UnregisterEach(UnregisterOne(r, ids[0]).0, ids[1..])
  }

  // ----- Index agreement

  predicate Filed(r: Registry, o: Conn, s: Service) {
    s.owner == o && s.id in r.cache && r.cache[s.id] == s
  }

  ghost predicate PortsDistinct(l: seq<Service>) {
    forall i, j | 0 <= i < j < |l| :: !IsPort(l[i], l[j].name, l[j].trusted)
  }

  /** The cache holds exactly the listed services, each under its own id, each listed once
      and by its own owner; no owner has two services for one (name, trusted) pair. */
  ghost predicate IndexAgreement(r: Registry) {
    && (forall id | id in r.cache :: r.cache[id].id == id && r.cache[id] in Owned(r, r.cache[id].owner))
    && (forall o, s | o in r.lists && s in r.lists[o] :: Filed(r, o, s))
    && (forall o | o in r.lists :: PortsDistinct(r.lists[o]))
  }

  /** Equality up to "no key" against "empty list". */
  ghost predicate Same(r: Registry, q: Registry) {
    r.cache == q.cache && forall o :: Owned(r, o) == Owned(q, o)
  }

  /** On agreeing indexes the list walk is the lookup by (owner, name, trusted). */
  lemma {:induction false} WalkIsLookup(l: seq<Service>, name: string, trusted: bool)
    ensures FindPort(l, name, trusted).Some? ==>
              FindPort(l, name, trusted).value in l && IsPort(FindPort(l, name, trusted).value, name, trusted)
    ensures PortsDistinct(l) ==>
              forall s :: FindPort(l, name, trusted) == Some(s) <==> s in l && IsPort(s, name, trusted)
    ensures FindPort(l, name, trusted).None? <==> forall s | s in l :: !IsPort(s, name, trusted)
  {
    if l != [] {
      WalkIsLookup(l[1..], name, trusted);
      assert l == [l[0]] + l[1..];
    }
  }

  /** Registering a new port keeps the indexes in agreement exactly when its id is not the
      id of a live service: a clash replaces, and thereby destroys, a service that its
      owner still lists. */
  lemma InsertAgreesIff(r: Registry, s: Service)
    requires IndexAgreement(r)
    requires FindPort(Owned(r, s.owner), s.name, s.trusted).None?
    requires forall id | id in r.cache :: r.cache[id] != s
    ensures IndexAgreement(Insert(r, s)) <==> s.id !in r.cache
    ensures Owned(Insert(r, s), s.owner) == Owned(r, s.owner) + [s]
    ensures forall o | o != s.owner :: Owned(Insert(r, s), o) == Owned(r, o)
  {
    WalkIsLookup(Owned(r, s.owner), s.name, s.trusted);
    var q := Insert(r, s);
    if s.id in r.cache {
      var prior := r.cache[s.id];
      assert prior in Owned(q, prior.owner);
      assert !Filed(q, prior.owner, prior);
    } else {
      forall id | id in q.cache
        ensures q.cache[id].id == id && q.cache[id] in Owned(q, q.cache[id].owner)
      {
        if id == s.id { assert (Owned(r, s.owner) + [s])[|Owned(r, s.owner)|] == s; }
      }
    }
  }

  lemma {:induction false} RemoveFirstAt(l: seq<Service>, s: Service, k: nat)
    requires k < |l| && l[k] == s && s !in l[..k]
    ensures RemoveFirst(l, s) == l[..k] + l[k + 1..]
  {
    if k > 0 {
      assert l[1..][..k - 1] == l[..k][1..];
      assert s != l[0] by { assert l[..k][0] == l[0]; }
      RemoveFirstAt(l[1..], s, k - 1);
    }
  }

  lemma {:induction false} RemoveFirstAbsent(l: seq<Service>, s: Service)
    requires s !in l
    ensures RemoveFirst(l, s) == l
  {
    if l != [] { RemoveFirstAbsent(l[1..], s); }
  }

  /** On a list without repeated ports, removing `s` removes `s` and nothing else. */
  lemma {:induction false} RemoveFirstMembers(l: seq<Service>, s: Service)
    requires PortsDistinct(l)
    ensures PortsDistinct(RemoveFirst(l, s))
    ensures forall t :: t in RemoveFirst(l, s) <==> t in l && t != s
  {
    if l != [] {
      var rest := l[1..];
      assert l == [l[0]] + rest;
      RemoveFirstMembers(rest, s);
      assert forall t | t in rest :: !IsPort(l[0], t.name, t.trusted);
      assert l[0] !in rest;
    }
  }

  lemma UnregisterOneAgrees(r: Registry, id: CInt)
    requires IndexAgreement(r)
    ensures IndexAgreement(UnregisterOne(r, id).0)
    ensures forall i :: i in UnregisterOne(r, id).0.cache <==> i in r.cache && i != id
    ensures forall i | i in UnregisterOne(r, id).0.cache :: UnregisterOne(r, id).0.cache[i] == r.cache[i]
    ensures UnregisterOne(r, id).1 == if Cached(r, id) then Ok(()) else Err(NotFound)
    ensures forall o, s :: s in Owned(UnregisterOne(r, id).0, o) <==> s in Owned(r, o) && s.id != id
    ensures forall o | !(Cached(r, id) && r.cache[id].owner == o) ::
              Owned(UnregisterOne(r, id).0, o) == Owned(r, o)
  {
    if Cached(r, id) {
      var s := r.cache[id];
      RemoveFirstMembers(Owned(r, s.owner), s);
    }
  }

  lemma UnregisterAllAgrees(r: Registry, o: Conn)
    requires IndexAgreement(r)
    ensures IndexAgreement(UnregisterAll(r, o))
    ensures Owned(UnregisterAll(r, o), o) == []
    ensures forall p | p != o :: Owned(UnregisterAll(r, o), p) == Owned(r, p)
    ensures forall id :: id in UnregisterAll(r, o).cache <==> id in r.cache && r.cache[id].owner != o
    ensures forall id | id in UnregisterAll(r, o).cache :: UnregisterAll(r, o).cache[id] == r.cache[id]
  {
    var l := Owned(r, o);
    forall id | id in r.cache
      ensures id in Ids(l) <==> r.cache[id].owner == o
    {
      if r.cache[id].owner == o { assert r.cache[id] in l; }
    }
  }

  lemma RestOfIds(r: Registry, o: Conn, ids: seq<CInt>)
    requires IndexAgreement(r) && ids != []
    requires forall i, j | 0 <= i < j < |ids| :: ids[i] != ids[j]
    requires forall id: CInt :: id in ids <==> id in Ids(Owned(r, o))
    ensures forall id: CInt :: id in ids[1..] <==> id in Ids(Owned(UnregisterOne(r, ids[0]).0, o))
  {
    UnregisterOneAgrees(r, ids[0]);
    hide IndexAgreement;
    var l, m := Owned(r, o), Owned(UnregisterOne(r, ids[0]).0, o);
    hide UnregisterOne;
    forall id: CInt ensures id in ids[1..] <==> id in Ids(m) {
      assert ids == [ids[0]] + ids[1..];
      assert id in Ids(m) <==> id in Ids(l) && id != ids[0];
    }
  }

  lemma AllAfterOne(r: Registry, o: Conn, id: CInt)
    requires IndexAgreement(r) && Cached(r, id) && r.cache[id].owner == o
    ensures Same(UnregisterAll(UnregisterOne(r, id).0, o), UnregisterAll(r, o))
  {
    hide IndexAgreement, UnregisterOne, UnregisterAll;
    var r1 := UnregisterOne(r, id).0;
    UnregisterOneAgrees(r, id);
    UnregisterAllAgrees(r, o);
    UnregisterAllAgrees(r1, o);
    assert UnregisterAll(r1, o).cache == UnregisterAll(r, o).cache;
  }

  /** The ids of the services are `int`s. */
  ghost predicate IntIds(l: seq<Service>) {
    forall s | s in l :: s.id < 0x8000_0000
  }

  lemma AllIsNothingIff(r: Registry, o: Conn)
    requires IndexAgreement(r)
    requires forall id: CInt :: id !in Ids(Owned(r, o))
    ensures Same(r, UnregisterAll(r, o)) <==> IntIds(Owned(r, o))
  {
    var l := Owned(r, o);
    forall s | s in l ensures s.id >= 0x8000_0000 {
      assert s.id in Ids(l);
    }
    if l != [] {
      assert l[0] in l && Filed(r, o, l[0]);
      UnregisterAllAgrees(r, o);
    }
  }

  lemma IntIdsAfterOne(r: Registry, o: Conn, id: CInt)
    requires IndexAgreement(r)
    ensures IntIds(Owned(UnregisterOne(r, id).0, o)) <==> IntIds(Owned(r, o))
  {
    UnregisterOneAgrees(r, id);
    hide IndexAgreement, UnregisterOne;
    var l, m := Owned(r, o), Owned(UnregisterOne(r, id).0, o);
    assert forall s | s in l :: s in m || s.id == id;
  }

  lemma SameAsEither(r: Registry, p: Registry, q: Registry)
    requires Same(p, q)
    ensures Same(r, p) <==> Same(r, q)
  {}

  /** Closing a connection in one sweep leaves the registry that unregistering its services
      one at a time leaves, whatever the order, exactly if all their ids are `int`s: a
      service with an id from 2^31 on can only be swept. */
  lemma {:induction false} BulkIsRepeatedSingleIff(r: Registry, o: Conn, ids: seq<CInt>)
    requires IndexAgreement(r)
    requires forall i, j | 0 <= i < j < |ids| :: ids[i] != ids[j]
    requires forall id: CInt :: id in ids <==> id in Ids(Owned(r, o))
    ensures Same(UnregisterEach(r, ids), UnregisterAll(r, o)) <==> IntIds(Owned(r, o))
    decreases |ids|
  {
    if ids == [] {
      AllIsNothingIff(r, o);
    } else {
      var id, r1 := ids[0], UnregisterOne(r, ids[0]).0;
      assert id in ids;
      UnregisterOneAgrees(r, id);
      assert Cached(r, id) && r.cache[id].owner == o;
      hide IndexAgreement, Ids, UnregisterOne, UnregisterAll, IntIds, Same;
      RestOfIds(r, o, ids);
      BulkIsRepeatedSingleIff(r1, o, ids[1..]);
      IntIdsAfterOne(r, o, id);
      AllAfterOne(r, o, id);
      SameAsEither(UnregisterEach(r, ids), UnregisterAll(r1, o), UnregisterAll(r, o));
    }
  }
}
