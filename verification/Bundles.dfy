/** Message payloads: a bundle on the application's side, a variant map on the wire
    (lib/msgport-utils.c). */
module Bundles {
  import opened Basics

  /** A bundle entry is a string or something else, which messages do not carry. */
  datatype Entry = Str(key: string, text: string) | Other(key: string)

  /** A bundle is an ordered collection of entries; its own operations keep keys distinct. */
  type Bundle = seq<Entry>

  predicate HasKey(b: Bundle, key: string) {
    exists e | e in b :: e.key == key
  }

  ghost predicate DistinctKeys(b: Bundle) {
    forall i, j | 0 <= i < j < |b| :: b[i].key != b[j].key
  }

  ghost predicate DistinctNames(v: VariantMap) {
    forall i, j | 0 <= i < j < |v| :: v[i].0 != v[j].0
  }

  /** `bundle_add` refuses a key that is taken. */
  function Add(b: Bundle, key: string, text: string): Bundle {
    if HasKey(b, key) then b else b + [Str(key, text)]
  }

  /** The string entries of a bundle, in order. */
  function Strings(b: Bundle): Bundle {
    if b == [] then []
    else
      var rest, last := b[..|b| - 1], b[|b| - 1];
      if last.Str? then Strings(rest) + [last] else Strings(rest)
  }

  function Pairs(b: Bundle): (v: VariantMap)
    requires forall e | e in b :: e.Str?
    ensures |v| == |b| && forall i | 0 <= i < |v| :: v[i] == (b[i].key, b[i].text)
  {
    seq(|b|, i requires 0 <= i < |b| => (b[i].key, b[i].text))
  }

  function AddAll(b: Bundle, v: VariantMap): Bundle
    decreases |v|
  {
    if v == [] then b else AddAll(Add(b, v[0].0, v[0].1), v[1..])
  }

  lemma {:induction false} StringsMembers(b: Bundle)
    ensures forall e :: e in Strings(b) <==> e in b && e.Str?
    ensures |Strings(b)| <= |b|
  {
    if b != [] {
      var rest, last := b[..|b| - 1], b[|b| - 1];
      StringsMembers(rest);
      assert b == rest + [last];
    }
  }

  lemma {:induction false} StringsDistinct(b: Bundle)
    requires DistinctKeys(b)
    ensures DistinctKeys(Strings(b))
  {
    if b != [] {
      var rest := b[..|b| - 1];
      StringsDistinct(rest);
      StringsMembers(rest);
    }
  }

  lemma {:induction false} StringsIsAllIff(b: Bundle)
    ensures Strings(b) == b <==> forall e | e in b :: e.Str?
  {
    if b != [] {
      var rest, last := b[..|b| - 1], b[|b| - 1];
      StringsIsAllIff(rest);
      StringsMembers(rest);
      assert b == rest + [last];
    }
  }

  /** What a bundle is on the wire. */
  function Wire(b: Bundle): VariantMap {
    StringsMembers(b);
    Pairs(Strings(b))
  }

  /** `bundle_to_variant_map`: `bundle_foreach` with `_bundle_iter_cb`. */
  method ToVariantMap(b: Bundle) returns (v: VariantMap)
    ensures (forall e | e in Strings(b) :: e.Str?) && v == Pairs(Strings(b)) == Wire(b)
  {
    v := [];
    StringsMembers(b);
    for i := 0 to |b|
      invariant forall e | e in Strings(b[..i]) :: e.Str?
      invariant v == Pairs(Strings(b[..i]))
    {
      assert b[..i + 1][..i] == b[..i];
      StringsMembers(b[..i + 1]);
      if b[i].Str? {
        v := v + [(b[i].key, b[i].text)];
      }
    }
    assert b[..|b|] == b;
  }

  /** `bundle_from_variant_map`; no data makes no bundle. */
  method FromVariantMap(data: Option<VariantMap>) returns (b: Option<Bundle>)
    ensures data.None? ==> b.None?
    ensures data.Some? ==> b == Some(AddAll([], data.value))
  {
    if data.None? {
      return None;
    }
    var v := data.value;
    var made: Bundle := [];
    var i := 0;
    while i < |v|
      invariant 0 <= i <= |v|
      invariant AddAll(made, v[i..]) == AddAll([], v)
    {
      made := Add(made, v[i].0, v[i].1);
      i := i + 1;
    }
    return Some(made);
  }

  /** What `Add` builds up: nothing is lost exactly if no name comes twice. */
  lemma {:induction false} AddAllKeepsIff(b: Bundle, v: VariantMap)
    ensures |AddAll(b, v)| <= |b| + |v|
    ensures |AddAll(b, v)| == |b| + |v| <==> DistinctNames(v) && forall p | p in v :: !HasKey(b, p.0)
    ensures DistinctNames(v) && (forall p | p in v :: !HasKey(b, p.0)) ==>
              AddAll(b, v) == b + seq(|v|, i requires 0 <= i < |v| => Str(v[i].0, v[i].1))
    decreases |v|
  {
    if v != [] {
      var c, rest := Add(b, v[0].0, v[0].1), v[1..];
      assert v == [v[0]] + rest;
      AddAllKeepsIff(c, rest);
      if !HasKey(b, v[0].0) {
        assert forall key :: HasKey(c, key) <==> HasKey(b, key) || key == v[0].0 by { KeysOfAdd(b, v[0].0, v[0].1); }
        assert (forall p | p in rest :: !HasKey(c, p.0)) <==>
               (forall p | p in rest :: !HasKey(b, p.0) && p.0 != v[0].0);
      }
    }
  }

  lemma KeysOfAdd(b: Bundle, key: string, text: string)
    ensures forall k :: HasKey(Add(b, key, text), k) <==> HasKey(b, k) || k == key
  {
    forall k ensures HasKey(Add(b, key, text), k) <==> HasKey(b, k) || k == key {
      if k == key && !HasKey(b, k) { assert Str(key, text) in Add(b, key, text); }
      if HasKey(b, k) {
        var e :| e in b && e.key == k;
        assert e in Add(b, key, text);
      }
    }
  }

  /** `v[i]` is the first pair with its name. */
  predicate IsFirst(v: VariantMap, i: nat) {
    i < |v| && forall j | 0 <= j < i :: v[j].0 != v[i].0
  }

  /** Of several pairs with one name the first is kept; what was there before stays. */
  lemma {:induction false} AddAllMembers(b: Bundle, v: VariantMap)
    ensures b <= AddAll(b, v)
    ensures forall key :: HasKey(AddAll(b, v), key) <==> HasKey(b, key) || exists p | p in v :: p.0 == key
    ensures forall e | e in AddAll(b, v) ::
              e in b || (!HasKey(b, e.key) && exists i: nat :: IsFirst(v, i) && e == Str(v[i].0, v[i].1))
    decreases |v|
  {
    if v != [] {
      var c, rest := Add(b, v[0].0, v[0].1), v[1..];
      assert v == [v[0]] + rest;
      AddAllMembers(c, rest);
      KeysOfAdd(b, v[0].0, v[0].1);
      forall e | e in AddAll(b, v)
        ensures e in b || (!HasKey(b, e.key) && exists i: nat :: IsFirst(v, i) && e == Str(v[i].0, v[i].1))
      {
        if e in c {
          if e !in b { assert IsFirst(v, 0); }
        } else {
          var i: nat :| IsFirst(rest, i) && e == Str(rest[i].0, rest[i].1);
          assert v[i + 1] == rest[i] && IsFirst(v, i + 1);
        }
      }
    }
  }

  /** What a bundle becomes on its way through a message. */
  function Trip(b: Bundle): Bundle {
    AddAll([], Wire(b))
  }

  /** A message carries exactly the string entries of a bundle, in order; so sending is the
      identity exactly on bundles of strings, and sending on what was received loses nothing. */
  lemma RoundTrip(b: Bundle)
    requires DistinctKeys(b)
    ensures forall e | e in Strings(b) :: e.Str?
    ensures Trip(b) == Strings(b)
    ensures Trip(b) == b <==> forall e | e in b :: e.Str?
    ensures (forall e | e in Strings(Trip(b)) :: e.Str?) && Trip(Trip(b)) == Trip(b)
  {
    StringsMembers(b);
    StringsDistinct(b);
    StringsIsAllIff(b);
    StringsIsAllIff(Strings(b));
    StringPairsBack(Strings(b));
  }

  lemma StringPairsBack(s: Bundle)
    requires DistinctKeys(s) && forall e | e in s :: e.Str?
    ensures AddAll([], Pairs(s)) == s
  {
    AddAllKeepsIff([], Pairs(s));
    forall i | 0 <= i < |s| ensures s[i] == Str(Pairs(s)[i].0, Pairs(s)[i].1) {
      assert s[i] in s;
    }
  }
}
