/** The memoized certificate check of daemon/dbus-manager.c. */
module Certificates {
  import opened Basics

  /** Outcomes of `pkgmgrinfo_pkginfo_compare_app_cert_info`. */
  datatype Compare = Failed | Match | Mismatch | LhsNoCert | RhsNoCert | BothNoCert

  /** Which certificate each application is signed with; unsigned ones are absent. */
  type World = map<string, string>

  /** A comparison either fails or tells the truth. */
  function CompareCerts(w: World, lhs: string, rhs: string, fails: bool): Compare {
    if fails then Failed
    else if lhs !in w && rhs !in w then BothNoCert
    else if lhs !in w then LhsNoCert
    else if rhs !in w then RhsNoCert
    else if w[lhs] == w[rhs] then Match
    else Mismatch
  }

  /** The fields of `MsgPortDbusManager` the check uses.  `valid` says whether the app id
      came from the application database; it only sets the first value of `isNullCert`. */
  datatype Peer = Peer(appId: string, valid: bool, isNullCert: bool, peerCerts: map<string, bool>)

  function NewPeer(appId: string, valid: bool): Peer {
    Peer(appId, valid, !valid, map[])
  }

  /** `msgport_dbus_manager_validate_peer_certificate`, given what a comparison would say. */
  function Validate(p: Peer, app: string, cmp: Compare): (Peer, bool) {
    if p.isNullCert then (p, true)
    else if app in p.peerCerts then (p, p.peerCerts[app])
    else match cmp
      case Failed => (p, false)
      case LhsNoCert => (p.(isNullCert := true), true)
      case BothNoCert => (p.(isNullCert := true), true)
      case _ => (p.(peerCerts := p.peerCerts[app := cmp == Match]), cmp == Match)
  }

  // ----- The decision the memo stands for

  predicate NoCertificate(w: World, appId: string, valid: bool) {
    !valid || appId !in w
  }

  /** May `app` send to a trusted port of the application `appId`? */
  predicate Admits(w: World, appId: string, valid: bool, app: string) {
    NoCertificate(w, appId, valid) || (app in w && w[app] == w[appId])
  }

  /** The memo holds only true answers. */
  ghost predicate MemoTrue(w: World, p: Peer) {
    && (p.isNullCert ==> NoCertificate(w, p.appId, p.valid))
    && (!p.valid ==> p.isNullCert)
    && (forall a | a in p.peerCerts :: p.appId in w && p.peerCerts[a] == Admits(w, p.appId, true, a))
  }

  /** The check agrees with the direct decision, except that a failing comparison whose
      answer is not yet known is a refusal that leaves no trace. */
  lemma ValidateDecides(w: World, p: Peer, app: string, fails: bool)
    requires MemoTrue(w, p)
    ensures var (q, ok) := Validate(p, app, CompareCerts(w, p.appId, app, fails));
            var unknown := fails && !p.isNullCert && app !in p.peerCerts;
            && MemoTrue(w, q) && q.appId == p.appId && q.valid == p.valid
            && (ok <==> Admits(w, p.appId, p.valid, app) && !unknown)
            && (unknown ==> q == p)
  {}

  datatype Query = Query(app: string, fails: bool)

  /** The manager after a sequence of queries. */
  function After(w: World, p: Peer, qs: seq<Query>): Peer {
    if qs == [] then p
    else
      var n := |qs| - 1;
      Validate(After(w, p, qs[..n]), qs[n].app, CompareCerts(w, p.appId, qs[n].app, qs[n].fails)).0
  }

  function Answer(w: World, p: Peer, qs: seq<Query>, i: nat): bool
    requires i < |qs|
  {
    Validate(After(w, p, qs[..i]), qs[i].app, CompareCerts(w, p.appId, qs[i].app, qs[i].fails)).1
  }

  /** Some earlier comparison succeeded that settles the answer for `app`. */
  predicate Settled(w: World, p: Peer, qs: seq<Query>, app: string) {
    exists q | q in qs :: !q.fails && (q.app == app || p.appId !in w)
  }

  lemma {:induction false} MemoContents(w: World, appId: string, valid: bool, qs: seq<Query>, app: string)
    ensures var p := NewPeer(appId, valid);
            var q := After(w, p, qs);
            && q.appId == appId && q.valid == valid && MemoTrue(w, q)
            && (q.isNullCert || app in q.peerCerts <==> !valid || Settled(w, p, qs, app))
  {
    var p := NewPeer(appId, valid);
    if qs != [] {
      var n := |qs| - 1;
      assert qs == qs[..n] + [qs[n]];
      MemoContents(w, appId, valid, qs[..n], app);
      MemoContents(w, appId, valid, qs[..n], qs[n].app);
      ValidateDecides(w, After(w, p, qs[..n]), qs[n].app, qs[n].fails);
    }
  }

  /** Whatever was asked before, in whatever order, each answer is the direct decision,
      unless its comparison fails and nothing asked before settles it. */
  lemma AnswersAreDirect(w: World, appId: string, valid: bool, qs: seq<Query>, i: nat)
    requires i < |qs|
    ensures var p := NewPeer(appId, valid);
            Answer(w, p, qs, i) <==>
              Admits(w, appId, valid, qs[i].app) &&
              (!qs[i].fails || !valid || Settled(w, p, qs[..i], qs[i].app))
  {
    var p := NewPeer(appId, valid);
    MemoContents(w, appId, valid, qs[..i], qs[i].app);
    ValidateDecides(w, After(w, p, qs[..i]), qs[i].app, qs[i].fails);
  }

  /** One connection's manager object. */
  class DbusManager {
    const connection: Conn
    const appId: string
    const valid: bool
    var isNullCert: bool
    var peerCerts: map<string, bool>

    constructor (connection: Conn, appId: string, valid: bool)
      ensures this.connection == connection && Value() == NewPeer(appId, valid)
    {
      this.connection, this.appId, this.valid := connection, appId, valid;
      isNullCert, peerCerts := !valid, map[];
    }

    function Value(): Peer
      reads this
    {
      Peer(appId, valid, isNullCert, peerCerts)
    }

    method ValidatePeerCertificate(app: string, cmp: Compare) returns (ok: bool)
      modifies this
      ensures (Value(), ok) == Validate(old(Value()), app, cmp)
    {
      if isNullCert {
        return true;
      }
      if app in peerCerts {
        return peerCerts[app];
      }
      if cmp == Failed {
        return false;
      }
      if cmp == LhsNoCert || cmp == BothNoCert {
        isNullCert := true;
        return true;
      }
      ok := cmp == Match;
      peerCerts := peerCerts[app := ok];
    }
  }
}
