/** daemon/manager.c in its own form: two hash tables, one of them holding the heads of
    linked lists that are edited in place. */
module RegistryTables {
  import opened Basics
  import opened GLists
  import opened RegistryModel
  import opened ServiceIds

  ghost function ListsOf(spines: map<Conn, seq<Node>>): map<Conn, seq<Service>> {
    map o | o in spines :: DataOf(spines[o])
  }

  lemma ListsOfUpdate(spines: map<Conn, seq<Node>>, o: Conn, spine: seq<Node>)
    ensures ListsOf(spines[o := spine]) == ListsOf(spines)[o := DataOf(spine)]
  {}

  lemma ListsOfRemoval(spines: map<Conn, seq<Node>>, o: Conn)
    ensures ListsOf(spines - {o}) == ListsOf(spines) - {o}
  {}

  /** The links that belong to one owner. */
  ghost function Of(live: set<Node>, o: Conn): set<Node> {
    set n | n in live && n.owner == o
  }

  lemma OfGrown(live: set<Node>, link: Node)
    ensures forall o {:trigger Of(live + {link}, o)} ::
              Of(live + {link}, o) == if link.owner == o then Of(live, o) + {link} else Of(live, o)
  {}

  lemma OfShrunk(live: set<Node>, o: Conn, kept: set<Node>, gone: set<Node>)
    requires Of(live, o) == gone + kept && gone !! kept
    ensures forall p {:trigger Of(live - gone, p)} :: Of(live - gone, p) == if p == o then kept else Of(live, p)
  {
    assert forall n | n in gone :: n in Of(live, o);
  }

  lemma NothingChained()
    ensures Chain(null, []) && Links([]) == {}
  {}

  class RegistryTable {
    var serviceCache: map<Id, Service>
    var ownerServiceMap: map<Conn, Node?>

    ghost var spines: map<Conn, seq<Node>>  // the links of each owner's list, in order
    ghost var live: set<Node>               // allocated by g_list_append and not freed
    ghost var freed: set<Node>              // given back to the allocator

    /** Every stored value is the true head of an acyclic list; the lists share no link;
        the live links are exactly those in the lists, and none of them has been freed. */
    ghost predicate Valid()
      reads this, live
    {
      && spines.Keys == ownerServiceMap.Keys
      && (forall o | o in spines :: Links(spines[o]) == Of(live, o) && Of(live, o) <= live)
      && (forall o | o in spines :: IsList(ownerServiceMap[o], spines[o]))
      && (forall n | n in live :: n.owner in spines)
      && live !! freed
    }

    /** The registry these tables represent. */
    ghost function View(): Registry
      reads this
    {
      Registry(serviceCache, ListsOf(spines))
    }

    ghost function SpineOf(o: Conn): seq<Node>
      reads this
    {
      if o in spines then spines[o] else []
    }

    lemma TrueHead(o: Conn)
      requires Valid()
      ensures IsList(Head(o), SpineOf(o)) && Chain(Head(o), SpineOf(o)) && Links(SpineOf(o)) == Of(live, o)
      ensures Of(live, o) <= live
      ensures forall p, i | p in spines && p != o && 0 <= i < |spines[p]| :: spines[p][i] !in SpineOf(o)
      ensures Head(o) == null <==> Owned(View(), o) == []
      ensures DataOf(SpineOf(o)) == Owned(View(), o)
    {
      forall p, i | p in spines && p != o && 0 <= i < |spines[p]| ensures spines[p][i] !in SpineOf(o) {
        assert spines[p][i] in Links(spines[p]);
        assert spines[p][i] !in Links(SpineOf(o));
      }
    }

    constructor ()
      ensures Valid() && View() == EMPTY && live == {} && freed == {}
    {
      serviceCache, ownerServiceMap := map[], map[];
      spines, live, freed := map[], {}, {};
    }

    /** `g_hash_table_lookup` in the owner table. */
    function Head(o: Conn): Node?
      reads this
    {
      if o in ownerServiceMap then ownerServiceMap[o] else null
    }

    /** `_manager_get_service_internal`: walks the owner's list. */
    method GetServiceInternal(o: Conn, name: string, trusted: bool) returns (r: Option<Service>)
      requires Valid()
      ensures r == FindPort(Owned(View(), o), name, trusted)
    {
      ghost var spine := SpineOf(o);
      ghost var k := 0;
      var link := Head(o);
      while link != null
        invariant 0 <= k <= |spine| && link == At(spine, k)
        invariant FindPort(DataOf(spine), name, trusted) == FindPort(DataOf(spine)[k..], name, trusted)
        decreases |spine| - k
      {
        if link.data.name == name && link.data.trusted == trusted {
          return Some(link.data);
        }
        link := link.next;
        k := k + 1;
      }
      return None;
    }

    /** `msgport_manager_register_service`. */
    method RegisterService(ids: IdCounter, o: Conn, name: string, trusted: bool, exported: bool)
        returns (r: Result<Service>)
      requires Valid()
      modifies this, live, ids
      ensures Valid() && fresh(live - old(live)) && old(live) <= live && freed == old(freed)
      ensures (View(), ids.State(), r) ==
              Register(old(View()), old(ids.State()), o, name, trusted, exported)
    {
      hide FindPort, IsList, Of, Links, DataOf, ListsOf;
      if name == "" {
        return Err(InvalidParams);
      }
      var found := GetServiceInternal(o, name, trusted);
      if found.Some? {
        return Ok(found.value);
      }
      r := ids.New(o, name, trusted, exported);
      if r.Err? {
        return;
      }
      serviceCache := serviceCache[r.value.id := r.value];
      AppendToOwner(o, r.value);
    }

    // ----- The owner table: a GHashTable with `g_list_free` as its destroy function

    /** `g_hash_table_insert`: a value it replaces is destroyed, whatever links that value
        leads to by then; `chain` are those links. */
    method TableInsert(o: Conn, head: Node?, ghost chain: seq<Node>)
      requires Chain(Head(o), chain) && Links(chain) !! freed
      modifies `ownerServiceMap, `freed
      ensures ownerServiceMap == old(ownerServiceMap)[o := head]
      ensures freed == old(freed) + Links(chain)
    {
      ghost var now := Free(Head(o), chain, freed);
      ownerServiceMap, freed := ownerServiceMap[o := head], now;
    }

    /** `g_hash_table_steal`: takes the entry out without destroying its value. */
    method TableSteal(o: Conn)
      modifies `ownerServiceMap
      ensures ownerServiceMap == old(ownerServiceMap) - {o}
    {
      ownerServiceMap := ownerServiceMap - {o};
    }

    /** `g_hash_table_remove`: takes the entry out and destroys its value. */
    method TableRemove(o: Conn, ghost chain: seq<Node>)
      requires Chain(Head(o), chain) && Links(chain) !! freed
      modifies `ownerServiceMap, `freed
      ensures ownerServiceMap == old(ownerServiceMap) - {o}
      ensures freed == old(freed) + Links(chain)
    {
      ghost var now := Free(Head(o), chain, freed);
      ownerServiceMap, freed := ownerServiceMap - {o}, now;
    }

    // ----- The operations on one owner's list

    /** The lists of all owners but `o` are in order, among the links `links`. */
    ghost predicate OthersInOrder(o: Conn, links: set<Node>)
      reads this, links
    {
      && spines.Keys == ownerServiceMap.Keys
      && (forall p | p in spines && p != o :: Links(spines[p]) == Of(links, p) && Of(links, p) <= links)
      && (forall p | p in spines && p != o :: IsList(ownerServiceMap[p], spines[p]))
      && (forall n | n in links :: n.owner in spines || n.owner == o)
    }

    /** The end of a registration: the head is stored only if the list was empty, so that
        the value the table replaces, and would free, is NULL. */
    method StoreAppended(o: Conn, listWasEmpty: bool, head: Node, ghost spine: seq<Node>, ghost links: set<Node>)
      requires OthersInOrder(o, links)
      requires IsList(head, spine) && Links(spine) == Of(links, o) <= links && links !! freed
      requires listWasEmpty <==> Head(o) == null
      requires !listWasEmpty ==> head == Head(o)
      modifies this
      ensures live == links && freed == old(freed)
      ensures View() == old(View()).(lists := old(View()).lists[o := DataOf(spine)])
      ensures Valid()
    {
      hide IsList, Of, Links, DataOf, ListsOf;
      ListsOfUpdate(spines, o, spine);
      NothingChained();
      if listWasEmpty {
        TableInsert(o, head, []);
      }
      spines, live := spines[o := spine], links;
    }

    /** The end of an unregistration: `gone` are the links `g_list_remove` has freed.  A
        changed head is stored after the old entry, which leads to a freed link, has been
        stolen. */
    method StoreRemoved(o: Conn, head: Node?, ghost spine: seq<Node>, ghost links: set<Node>, ghost gone: set<Node>)
      requires OthersInOrder(o, links) && o in ownerServiceMap
      requires IsList(head, spine) && Links(spine) == Of(links, o) <= links
      requires gone !! freed && links !! freed + gone
      modifies this
      ensures live == links && freed == old(freed) + gone
      ensures View() == old(View()).(lists := old(View()).lists[o := DataOf(spine)])
      ensures Valid()
    {
      hide IsList, Of, Links, DataOf, ListsOf;
      ListsOfUpdate(spines, o, spine);
      NothingChained();
      freed := freed + gone;
      if head != Head(o) {
        TableSteal(o);
        TableInsert(o, head, []);
      }
      spines, live := spines[o := spine], links;
    }

    method AppendLink(o: Conn, s: Service) returns (newHead: Node, link: Node)
      requires Valid()
      modifies Of(live, o)
      ensures forall p | p in spines && p != o :: IsList(ownerServiceMap[p], spines[p])
      ensures fresh(link) && link.owner == o
      ensures IsList(newHead, SpineOf(o) + [link])
      ensures DataOf(SpineOf(o) + [link]) == Owned(View(), o) + [s]
      ensures Head(o) != null ==> newHead == Head(o)
    {
      TrueHead(o);
      hide IsList, DataOf, ListsOf, Of;
      newHead, link := Append(Head(o), s, o, SpineOf(o));
    }

    /** Appends to the owner's list, which frees no link. */
    method AppendToOwner(o: Conn, s: Service)
      requires Valid()
      modifies this, live
      ensures Valid() && fresh(live - old(live)) && old(live) <= live && freed == old(freed)
      ensures View() == old(View()).(lists := old(View()).lists[o := Owned(old(View()), o) + [s]])
    {
      ghost var spine := SpineOf(o);
      TrueHead(o);
      hide IsList, DataOf, ListsOf, Of, Links;
      var newHead, link := AppendLink(o, s);
      OfGrown(live, link);
      LinksAppend(spine, link);
      StoreAppended(o, Head(o) == null, newHead, spine + [link], live + {link});
      assert live - old(live) <= {link};
    }

    /** `msgport_manager_unregister_service`.  When the head of the list changed, the old
        entry is stolen (not destroyed) before the new head is inserted. */
    method UnregisterService(id: CInt) returns (r: Result<()>)
      requires Valid()
      modifies this, live
      ensures Valid() && live + freed == old(live + freed) && old(freed) <= freed
      ensures (View(), r) == UnregisterOne(old(View()), id)
    {
      if id < 0 || id !in serviceCache {
        return Err(NotFound);
      }
      var s := serviceCache[id];
      RemoveFromOwner(s.owner, s);
      serviceCache := serviceCache - {id};
      return Ok(());
    }

    method RemoveLink(o: Conn, s: Service)
        returns (newHead: Node?, ghost newSpine: seq<Node>, ghost gone: set<Node>)
      requires Valid()
      modifies Of(live, o)
      ensures forall p | p in spines && p != o :: IsList(ownerServiceMap[p], spines[p])
      ensures IsList(newHead, newSpine) && DataOf(newSpine) == RemoveFirst(Owned(View(), o), s)
      ensures Links(SpineOf(o)) == gone + Links(newSpine) && gone !! Links(newSpine)
    {
      TrueHead(o);
      hide IsList, DataOf, ListsOf, Of, RemoveFirst;
      newHead, newSpine, gone := Remove(Head(o), s, SpineOf(o));
    }

    method RemoveFromOwner(o: Conn, s: Service)
      requires Valid()
      modifies this, live
      ensures Valid() && live + freed == old(live + freed) && old(freed) <= freed
      ensures View() == old(View()).(lists :=
                if o in old(View()).lists
                then old(View()).lists[o := RemoveFirst(old(View()).lists[o], s)]
                else old(View()).lists)
    {
      TrueHead(o);
      hide IsList, DataOf, ListsOf, Of, Links, RemoveFirst;
      var newHead: Node?;
      ghost var newSpine, gone;
      newHead, newSpine, gone := RemoveLink(o, s);
      OfShrunk(live, o, Links(newSpine), gone);
      if o in ownerServiceMap {
        StoreRemoved(o, newHead, newSpine, live - gone, gone);
      }
    }

    /** `g_list_foreach` with `_manager_unref_dbus_manager_cb`. */
    method Sweep(o: Conn)
      requires Valid()
      modifies `serviceCache
      ensures serviceCache == old(serviceCache) - Ids(Owned(old(View()), o))
    {
      TrueHead(o);
      ghost var spine := SpineOf(o);
      ghost var k := 0;
      var link := Head(o);
      while link != null
        invariant 0 <= k <= |spine| && link == At(spine, k)
        invariant serviceCache == old(serviceCache) - Ids(DataOf(spine)[..k])
        decreases |spine| - k
      {
        assert DataOf(spine)[..k + 1] == DataOf(spine)[..k] + [link.data];
        serviceCache := serviceCache - {link.data.id};
        link := link.next;
        k := k + 1;
      }
      assert DataOf(spine)[..k] == DataOf(spine);
    }

    /** `msgport_manager_unregister_services`: the sweep over the list, after which removing
        the key frees the list itself. */
    method UnregisterServices(o: Conn)
      requires Valid()
      modifies this
      ensures Valid() && live + freed == old(live + freed) && old(freed) <= freed
      ensures View() == UnregisterAll(old(View()), o)
    {
      TrueHead(o);
      hide IsList, Of, Links, DataOf, ListsOf, Ids;
      if Head(o) == null {
        return;
      }
      ghost var links := Links(spines[o]);
      OfShrunk(live, o, {}, links);
      ListsOfRemoval(spines, o);
      Sweep(o);
      TableRemove(o, spines[o]);
      spines, live := spines - {o}, live - links;
    }
  }
}
