/** Id allocation of daemon/dbus-service.c: a static counter that outlives every registry. */
module ServiceIds {
  import opened Basics

  /** `counter` is the static `object_conter`.  `created` and `failed` are the history of
      the constructor: the services it made, in order, and how often an export failed. */
  datatype Allocator = Allocator(counter: Id, created: seq<Service>, failed: nat)

  const FIRST := Allocator(0, [], 0)

  /** The id the next service would get; `guint` addition wraps. */
  function Candidate(a: Allocator): Id {
    (a.counter + 1) % ID_LIMIT
  }

  /** `msgport_dbus_service_new`.  A failed export takes one off a counter that was not
      yet incremented. */
  function NewService(a: Allocator, owner: Conn, name: string, trusted: bool, exported: bool)
    : (Allocator, Result<Service>)
  {
    if name == "" then (a, Err(InvalidParams))
    else if !exported then
      (Allocator((a.counter - 1) % ID_LIMIT, a.created, a.failed + 1), Err(ExportFailed))
    else
      var s := Service(|a.created|, Candidate(a), owner, name, trusted);
      (Allocator(Candidate(a), a.created + [s], a.failed), Ok(s))
  }

  /** What every history of the constructor satisfies, failures and wrap-around included. */
  ghost predicate Lawful(a: Allocator) {
    && a.counter == (|a.created| - a.failed) % ID_LIMIT
    && (forall k | 0 <= k < |a.created| :: a.created[k].serial == k && a.created[k].name != "")
    && (a.failed == 0 ==> forall k | 0 <= k < |a.created| :: a.created[k].id == (k + 1) % ID_LIMIT)
  }

  ghost predicate Issued(a: Allocator, id: Id) {
    exists k | 0 <= k < |a.created| :: a.created[k].id == id
  }

  lemma NewServiceLawful(a: Allocator, owner: Conn, name: string, trusted: bool, exported: bool)
    requires Lawful(a)
    ensures var (b, made) := NewService(a, owner, name, trusted, exported);
            && Lawful(b)
            && (made.Ok? <==> name != "" && exported)
            && (made.Err? ==> made.error == if name == "" then InvalidParams else ExportFailed)
            && b.created == a.created + (if made.Ok? then [made.value] else [])
            && b.failed == a.failed + (if made == Err(ExportFailed) then 1 else 0)
  {
    var n := |a.created| - a.failed;
    assert (n % ID_LIMIT + 1) % ID_LIMIT == (n + 1) % ID_LIMIT;
    assert (n % ID_LIMIT - 1) % ID_LIMIT == (n - 1) % ID_LIMIT;
  }

  /** As long as no export has failed and ids have not wrapped, the next id is new and not
      zero; the bound is exact, for the 2^32-th service would get id 0. */
  lemma FaultFreeIdsAreFresh(a: Allocator)
    requires Lawful(a) && a.failed == 0 && |a.created| < ID_LIMIT
    ensures !Issued(a, Candidate(a))
    ensures Candidate(a) == 0 <==> |a.created| == ID_LIMIT - 1
  {
    assert Candidate(a) == (|a.created| + 1) % ID_LIMIT;
    forall k | 0 <= k < |a.created| ensures a.created[k].id != Candidate(a) {
      assert a.created[k].id == (k + 1) % ID_LIMIT == k + 1;
    }
  }

  /** The first failed export makes the next service repeat the id of the newest one, or
      take the reserved id 0 when there is none. */
  lemma FailedExportReissues(a: Allocator, owner: Conn, name: string, trusted: bool)
    requires Lawful(a) && a.failed == 0 && |a.created| < ID_LIMIT && name != ""
    ensures var b := NewService(a, owner, name, trusted, false).0;
            && Candidate(b) == |a.created|
            && (Candidate(b) == 0 <==> a.created == [])
            && (a.created != [] ==> Candidate(b) == a.created[|a.created| - 1].id)
  {
    var n := |a.created|;
    assert ((n - 1) % ID_LIMIT + 1) % ID_LIMIT == n % ID_LIMIT == n;
    if n > 0 { assert a.created[n - 1].id == n % ID_LIMIT; }
  }

  /** The static counter as the daemon holds it. */
  class IdCounter {
    var counter: Id
    var created: seq<Service>
    var failed: nat

    constructor ()
      ensures State() == FIRST
    {
      counter, created, failed := 0, [], 0;
    }

    function State(): Allocator
      reads this
    {
      Allocator(counter, created, failed)
    }

    method New(owner: Conn, name: string, trusted: bool, exported: bool) returns (r: Result<Service>)
      modifies this
      ensures (State(), r) == NewService(old(State()), owner, name, trusted, exported)
    {
      if name == "" {
        return Err(InvalidParams);
      }
      var s := Service(|created|, (counter + 1) % ID_LIMIT, owner, name, trusted);
      if !exported {
        counter := (counter - 1) % ID_LIMIT;
        failed := failed + 1;
        return Err(ExportFailed);
      }
      counter := (counter + 1) % ID_LIMIT;
      created := created + [s];
      return Ok(s);
    }
  }
}
