/** lib/msgport-factory.c: one client manager for each thread, created on first use.  Any
    number of threads race through the unlocked test and the two locked sections. */
module FactoryModel {
  import opened Basics

  type Thread = nat
  type Manager = nat  // the n-th manager made

  /** Where a thread is inside `msgport_factory_get_manager`: about to take the lock for
      `msgport_factory_init`, testing the table there, about to store a new one, past the
      test, looking itself up, about to store the table it saw with its new manager in it,
      or about to return. */
  datatype Pc =
    | Outside | MustInit | InTest | InCreate
    | PastTest | InLookup | InInsert(seen: map<Thread, Manager>, own: Manager) | Returning(result: Manager)

  /** `table` is `__managers`.  `made` counts the managers created, `tables` the tables
      created and not destroyed.  A table holds the one reference to each of its managers,
      so `destroyed` are those whose table was destroyed. */
  datatype Shared = Shared(table: Option<map<Thread, Manager>>, made: nat, tables: int, destroyed: set<Manager>)

  /** `results` lists what calls have returned.  `crashed`: a look-up in a NULL table. */
  datatype Factory = Factory(
    shared: Shared,
    lock: Option<Thread>,
    pcs: map<Thread, Pc>,
    results: seq<(Thread, Manager)>,
    crashed: bool)

  const UNUSED := Shared(None, 0, 0, {})
  const FRESH := Factory(UNUSED, None, map[], [], false)

  function PcOf(f: Factory, t: Thread): Pc {
    if t in f.pcs then f.pcs[t] else Outside
  }

  function Goto(f: Factory, t: Thread, pc: Pc): Factory {
    f.(pcs := f.pcs[t := pc])
  }

  /** The locked section of `msgport_factory_init`. */
  function InitSection(s: Shared): Shared {
    if s.table.None? then s.(table := Some(map[]), tables := s.tables + 1) else s
  }

  /** The locked section of `msgport_factory_get_manager`. */
  function LookupSection(s: Shared, t: Thread): (Shared, Manager)
    requires s.table.Some?
  {
    if t in s.table.value then (s, s.table.value[t])
    else (s.(table := Some(s.table.value[t := s.made]), made := s.made + 1), s.made)
  }

  /** The locked section of `msgport_factory_uninit`: destroying the table drops its
      references. */
  function ClearSection(s: Shared): Shared {
    if s.table.None? then s
    else s.(table := None, tables := s.tables - 1, destroyed := s.destroyed + s.table.value.Values)
  }

  /** One step of thread `t`; a thread that waits for a held lock stays where it is.  Inside
      the locked sections reading and writing the table are separate steps. */
  function Advance(f: Factory, t: Thread): Factory {
    match PcOf(f, t)
    case Outside => Goto(f, t, if f.shared.table.None? then MustInit else PastTest)
    case MustInit => if f.lock.Some? then f else Goto(f.(lock := Some(t)), t, InTest)
    case InTest =>
      if f.shared.table.None? then Goto(f, t, InCreate) else Goto(f.(lock := None), t, PastTest)
    case InCreate =>
      Goto(f.(shared := f.shared.(table := Some(map[]), tables := f.shared.tables + 1), lock := None), t, PastTest)
    case PastTest => if f.lock.Some? then f else Goto(f.(lock := Some(t)), t, InLookup)
    case InLookup =>
      if f.shared.table.None? then f.(crashed := true)
      else if t in f.shared.table.value
      then Goto(f.(lock := None), t, Returning(f.shared.table.value[t]))
      else Goto(f.(shared := f.shared.(made := f.shared.made + 1)), t, InInsert(f.shared.table.value, f.shared.made))
    case InInsert(seen, own) =>
      Goto(f.(shared := f.shared.(table := Some(seen[t := own])), lock := None), t, Returning(own))
    case Returning(m) => Goto(f, t, Outside).(results := f.results + [(t, m)])
  }

  /** `msgport_factory_uninit`, one locked section. */
  function Uninit(f: Factory): Factory {
    if f.lock.Some? then f else f.(shared := ClearSection(f.shared))
  }

  function AdvanceAll(f: Factory, ts: seq<Thread>): Factory
    decreases |ts|
  {
    if ts == [] then f else AdvanceAll(Advance(f, ts[0]), ts[1..])
  }

  /** The thread is in a locked section. */
  predicate Holds(f: Factory, t: Thread) {
    var pc := PcOf(f, t);
    pc.InTest? || pc.InCreate? || pc.InLookup? || pc.InInsert?
  }

  ghost predicate Exclusive(f: Factory) {
    forall t: Thread :: Holds(f, t) <==> f.lock == Some(t)
  }

  /** No thread that has passed the test will find the table gone. */
  ghost predicate TableStays(f: Factory) {
    && (forall t: Thread :: PcOf(f, t).PastTest? || PcOf(f, t).InLookup? || PcOf(f, t).InInsert? ==>
          f.shared.table.Some?)
    && !f.crashed
  }

  predicate Filed(f: Factory, t: Thread, m: Manager) {
    f.shared.table.Some? && t in f.shared.table.value && f.shared.table.value[t] == m
  }

  /** The manager some thread has made and not stored yet. */
  predicate Unstored(f: Factory) {
    f.lock.Some? && PcOf(f, f.lock.value).InInsert?
  }

  /** What a thread in a locked section has seen is still so. */
  ghost predicate ViewsCurrent(f: Factory) {
    && (forall t: Thread :: PcOf(f, t).InCreate? ==> f.shared.table.None?)
    && (forall t: Thread :: PcOf(f, t).InInsert? ==>
          && f.shared.table == Some(PcOf(f, t).seen) && t !in PcOf(f, t).seen
          && PcOf(f, t).own == f.shared.made - 1)
  }

  /** A call of thread `t` has returned `m`, or is about to. */
  predicate HandedOut(f: Factory, t: Thread, m: Manager) {
    PcOf(f, t) == Returning(m) || (t, m) in f.results
  }

  /** There is one table at most; every manager made is in it, or about to be, under one
      thread; the entries are just what calls have returned, and none is destroyed. */
  ghost predicate OneTable(f: Factory) {
    var s := f.shared;
    && s.tables == (if s.table.Some? then 1 else 0)
    && s.made == (if s.table.Some? then |s.table.value| else 0) + (if Unstored(f) then 1 else 0)
    && (s.table.Some? ==> forall t | t in s.table.value ::
          s.table.value[t] < s.made - (if Unstored(f) then 1 else 0))
    && (s.table.Some? ==> forall t: Thread, u: Thread | t in s.table.value && u in s.table.value && t != u ::
          s.table.value[t] != s.table.value[u])
    && (forall t: Thread, m: Manager :: HandedOut(f, t, m) <==> Filed(f, t, m))
    && s.destroyed == {}
  }

  ghost predicate Inv(f: Factory) {
    Exclusive(f) && TableStays(f) && ViewsCurrent(f) && OneTable(f)
  }

  lemma OthersStay(f: Factory, t: Thread)
    ensures forall u: Thread | u != t :: PcOf(Advance(f, t), u) == PcOf(f, u)
  {}

  /** The lock is held by the one thread inside a locked section. */
  lemma AdvanceExclusive(f: Factory, t: Thread)
    requires Exclusive(f)
    ensures Exclusive(Advance(f, t))
  {
    var g := Advance(f, t);
    forall u: Thread ensures Holds(g, u) <==> g.lock == Some(u) {
      assert Holds(f, u) <==> f.lock == Some(u);
      assert Holds(f, t) <==> f.lock == Some(t);
    }
  }

  lemma AdvanceTableStays(f: Factory, t: Thread)
    requires TableStays(f)
    ensures TableStays(Advance(f, t))
  {
    OthersStay(f, t);
  }

  /** Here the lock is needed: a thread that writes the table writes what it has read. */
  lemma AdvanceViewsCurrent(f: Factory, t: Thread)
    requires Exclusive(f) && ViewsCurrent(f)
    ensures ViewsCurrent(Advance(f, t))
  {
    var g := Advance(f, t);
    OthersStay(f, t);
    assert Holds(f, t) <==> f.lock == Some(t);
    forall u: Thread
      ensures PcOf(g, u).InCreate? ==> g.shared.table.None?
      ensures PcOf(g, u).InInsert? ==> && g.shared.table == Some(PcOf(g, u).seen) && u !in PcOf(g, u).seen
                                       && PcOf(g, u).own == g.shared.made - 1
    {
      assert Holds(f, u) <==> f.lock == Some(u);
    }
  }

  lemma AdvanceFiled(f: Factory, t: Thread)
    requires Inv(f)
    ensures forall u: Thread, m: Manager :: HandedOut(Advance(f, t), u, m) <==> Filed(Advance(f, t), u, m)
  {
    var g := Advance(f, t);
    OthersStay(f, t);
    forall u: Thread, m: Manager
      ensures HandedOut(g, u, m) <==> Filed(g, u, m)
    {
      assert HandedOut(f, u, m) <==> Filed(f, u, m);
    }
  }

  lemma AdvanceOneTable(f: Factory, t: Thread)
    requires Inv(f)
    ensures OneTable(Advance(f, t))
  {
    var g := Advance(f, t);
    OthersStay(f, t);
    AdvanceFiled(f, t);
    AdvanceExclusive(f, t);
    assert Holds(f, t) <==> f.lock == Some(t);
    assert Holds(g, t) <==> g.lock == Some(t);
    hide Filed, HandedOut;
  }

  lemma {:induction false} RunKeeps(f: Factory, ts: seq<Thread>)
    requires Inv(f)
    ensures Inv(AdvanceAll(f, ts))
    decreases |ts|
  {
    if ts != [] {
      AdvanceExclusive(f, ts[0]);
      AdvanceTableStays(f, ts[0]);
      AdvanceViewsCurrent(f, ts[0]);
      AdvanceOneTable(f, ts[0]);
      hide Exclusive, TableStays, ViewsCurrent, OneTable;
      RunKeeps(Advance(f, ts[0]), ts[1..]);
    }
  }

  /** For every interleaving of any number of threads: nothing crashes, one table at most is
      created, and two calls return the same manager exactly if one thread made both. */
  lemma SameManagerIffSameThread(ts: seq<Thread>)
    ensures var g := AdvanceAll(FRESH, ts);
            && !g.crashed && g.shared.tables <= 1
            && (g.lock.None? && g.shared.table.Some? ==> g.shared.made == |g.shared.table.value|)
            && forall i, j | 0 <= i < |g.results| && 0 <= j < |g.results| ::
                 g.results[i].1 == g.results[j].1 <==> g.results[i].0 == g.results[j].0
  {
    FreshIsSound();
    hide AdvanceAll;
    RunKeeps(FRESH, ts);
    var g := AdvanceAll(FRESH, ts);
    forall i | 0 <= i < |g.results| ensures Filed(g, g.results[i].0, g.results[i].1) {
      assert HandedOut(g, g.results[i].0, g.results[i].1);
    }
  }

  lemma FreshIsSound()
    ensures Inv(FRESH)
  {}

  function Steps(f: Factory, t: Thread, n: nat): Factory
    decreases n
  {
    if n == 0 then f else Steps(Advance(f, t), t, n - 1)
  }

  lemma TestAlone(f: Factory, t: Thread) returns (n: nat)
    requires PcOf(f, t) == Outside && f.lock.None?
    ensures Steps(f, t, n) == Goto(f.(shared := InitSection(f.shared)), t, PastTest)
  {
    var f1 := Advance(f, t);
    if f.shared.table.Some? {
      n := 1;
      assert Steps(f, t, 1) == Steps(f1, t, 0);
    } else {
      n := 4;
      var f2 := Advance(f1, t);
      var f3 := Advance(f2, t);
      var f4 := Advance(f3, t);
      assert Steps(f, t, 4) == Steps(f1, t, 3) == Steps(f2, t, 2) == Steps(f3, t, 1) == Steps(f4, t, 0);
      assert f4.pcs == f.pcs[t := PastTest];
    }
  }

  lemma LookupAlone(f: Factory, t: Thread) returns (n: nat)
    requires PcOf(f, t) == PastTest && f.lock.None? && f.shared.table.Some?
    ensures var (s, m) := LookupSection(f.shared, t);
            Steps(f, t, n) == Goto(f.(shared := s), t, Returning(m))
  {
    var f1 := Advance(f, t);
    var f2 := Advance(f1, t);
    if t in f.shared.table.value {
      n := 2;
      assert Steps(f, t, 2) == Steps(f1, t, 1) == Steps(f2, t, 0);
    } else {
      n := 3;
      var f3 := Advance(f2, t);
      assert Steps(f, t, 3) == Steps(f1, t, 2) == Steps(f2, t, 1) == Steps(f3, t, 0);
    }
  }

  lemma {:induction false} StepsAdd(f: Factory, t: Thread, m: nat, n: nat)
    ensures Steps(Steps(f, t, m), t, n) == Steps(f, t, m + n)
    decreases m
  {
    if m > 0 { StepsAdd(Advance(f, t), t, m - 1, n); }
  }

  /** A call that is not interrupted does what its two sections say, frees the lock, and
      returns the manager. */
  lemma UninterruptedCall(f: Factory, t: Thread)
    requires PcOf(f, t) == Outside && f.lock.None?
    ensures var (s, m) := LookupSection(InitSection(f.shared), t);
            exists n: nat :: && Steps(f, t, n) == Goto(f.(shared := s), t, Returning(m))
                             && Steps(f, t, n + 1) == Goto(f.(shared := s, results := f.results + [(t, m)]), t, Outside)
  {
    var n1 := TestAlone(f, t);
    var g := Steps(f, t, n1);
    var n2 := LookupAlone(g, t);
    StepsAdd(f, t, n1, n2);
    var (s, m) := LookupSection(InitSection(f.shared), t);
    assert g.pcs[t := Returning(m)] == f.pcs[t := Returning(m)];
    var h := Steps(f, t, n1 + n2);
    StepsAdd(f, t, n1 + n2, 1);
    assert Steps(h, t, 1) == Steps(Advance(h, t), t, 0);
    assert h.pcs[t := Outside] == f.pcs[t := Outside];
  }

  // ----- Clearing the factory

  /** Nothing has been handed out, and no thread stands between the test and its look-up. */
  ghost predicate Unused(f: Factory) {
    f.results == [] && forall t: Thread :: !PcOf(f, t).PastTest? && !PcOf(f, t).Returning?
  }

  /** No thread met a NULL table, and every manager handed out is still there. */
  ghost predicate Safe(f: Factory) {
    !f.crashed && forall t: Thread, m: Manager | HandedOut(f, t, m) :: m !in f.shared.destroyed
  }

  /** What clearing does to the threads it finds: one past the test looks itself up in a
      NULL table, and one that was handed a manager is left with a destroyed object. */
  lemma ClearedUnder(f: Factory)
    requires Inv(f) && f.lock.None?
    ensures forall t: Thread | PcOf(f, t).PastTest? :: AdvanceAll(Uninit(f), [t, t]).crashed
    ensures forall t: Thread, m: Manager | HandedOut(f, t, m) ::
              HandedOut(Uninit(f), t, m) && m in Uninit(f).shared.destroyed
  {
    var g := Uninit(f);
    forall t: Thread | PcOf(f, t).PastTest? ensures AdvanceAll(g, [t, t]).crashed {
      assert [t, t][1..] == [t] && [t][1..] == [];
      assert AdvanceAll(Advance(g, t), [t]) == AdvanceAll(Advance(Advance(g, t), t), []);
    }
    forall t: Thread, m: Manager | HandedOut(f, t, m)
      ensures HandedOut(g, t, m) && m in g.shared.destroyed
    {
      assert Filed(f, t, m);
    }
  }

  lemma ClearedUnused(f: Factory)
    requires Inv(f) && f.lock.None? && Unused(f)
    ensures Inv(Uninit(f))
  {
    var g := Uninit(f);
    forall t: Thread ensures !Holds(f, t) && PcOf(g, t) == PcOf(f, t) {
      assert Holds(f, t) <==> f.lock == Some(t);
    }
    if f.shared.table.Some? {
      forall t | t in f.shared.table.value ensures false {
        assert Filed(f, t, f.shared.table.value[t]);
      }
      assert f.shared.table.value == map[];
    }
  }

  /** While a thread is inside a locked section, clearing waits. */
  lemma UninitWaits(f: Factory)
    requires Inv(f) && f.lock.Some?
    ensures Uninit(f) == f
  {}

  lemma SomeHandedOut(f: Factory)
    requires !Unused(f) && forall t: Thread :: !PcOf(f, t).PastTest?
    ensures exists t: Thread, m: Manager :: HandedOut(f, t, m)
  {
    if f.results != [] {
      assert HandedOut(f, f.results[0].0, f.results[0].1);
    } else {
      var t: Thread :| PcOf(f, t).Returning?;
      assert HandedOut(f, t, PcOf(f, t).result);
    }
  }

  /** Clearing the factory is harmless, at once and however the threads go on, exactly if no
      manager was handed out before and no thread stands between the test and its look-up;
      the factory is then as sound as a fresh one. */
  lemma UninitIsSafeIff(f: Factory)
    requires Inv(f) && f.lock.None?
    ensures (forall ts: seq<Thread> :: Safe(AdvanceAll(Uninit(f), ts))) <==> Unused(f)
    ensures Inv(Uninit(f)) <==> Unused(f)
    ensures TableStays(Uninit(f)) <==> forall t: Thread :: !PcOf(f, t).PastTest?
  {
    var g := Uninit(f);
    ClearedUnder(f);
    assert AdvanceAll(g, []) == g;
    forall t: Thread ensures !Holds(f, t) && PcOf(g, t) == PcOf(f, t) {
      assert Holds(f, t) <==> f.lock == Some(t);
    }
    if Unused(f) {
      ClearedUnused(f);
      forall ts: seq<Thread> ensures Safe(AdvanceAll(g, ts)) { RunKeeps(g, ts); }
    } else if t: Thread :| PcOf(f, t).PastTest? {
      assert PcOf(g, t).PastTest? && !Safe(AdvanceAll(g, [t, t]));
    } else {
      SomeHandedOut(f);
      assert !Safe(AdvanceAll(g, []));
    }
  }

  /** The table and its lock-protected sections as the library holds them. */
  class ManagerTable {
    var managers: Option<map<Thread, Manager>>
    var made: nat
    var tables: int
    ghost var destroyed: set<Manager>

    ghost function State(): Shared
      reads this
    {
      Shared(managers, made, tables, destroyed)
    }

    constructor ()
      ensures State() == UNUSED
    {
      managers, made, tables, destroyed := None, 0, 0, {};
    }

    /** The body of `msgport_factory_init`. */
    method Init()
      modifies this
      ensures State() == InitSection(old(State()))
    {
      if managers.None? {
        managers := Some(map[]);
        tables := tables + 1;
      }
    }

    /** The body of `msgport_factory_uninit`. */
    method Uninit()
      modifies this
      ensures State() == ClearSection(old(State()))
    {
      if managers.Some? {
        destroyed := destroyed + managers.value.Values;
        managers := None;
        tables := tables - 1;
      }
    }

    /** `msgport_factory_get_manager`, run by one thread without interruption. */
    method GetManager(self: Thread) returns (manager: Manager)
      modifies this
      ensures (State(), manager) == LookupSection(InitSection(old(State())), self)
    {
      if managers.None? {
        Init();
      }
      assert State() == InitSection(old(State()));
      if self in managers.value {
        return managers.value[self];
      }
      manager := made;
      made := made + 1;
      managers := Some(managers.value[self := manager]);
    }
  }
}
