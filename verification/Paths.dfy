/** Object paths: the daemon exports service `id` under the text "/%u". */
module Paths {
  import opened Basics

  function Digit(d: nat): char
    requires d < 10
  {
    ('0' as int + d) as char
  }

  /** What `%u` prints. */
  function Decimal(n: nat): string {
    if n < 10 then [Digit(n)] else Decimal(n / 10) + [Digit(n % 10)]
  }

  function PathOf(id: Id): string {
    "/" + Decimal(id)
  }

  /** The number a decimal text denotes. */
  function Value(s: string): int {
    if s == "" then 0 else Value(s[..|s| - 1]) * 10 + (s[|s| - 1] as int - '0' as int)
  }

  lemma {:induction false} ValueOfDecimal(n: nat)
    ensures Decimal(n) != "" && Value(Decimal(n)) == n
  {
    if n < 10 {
      assert Decimal(n)[..0] == "";
    } else {
      ValueOfDecimal(n / 10);
      assert Decimal(n)[..|Decimal(n)| - 1] == Decimal(n / 10);
    }
  }

  /** Different ids are exported under different paths. */
  lemma {:induction false} PathInjective(a: Id, b: Id)
    ensures PathOf(a) == PathOf(b) <==> a == b
  {
    ValueOfDecimal(a);
    ValueOfDecimal(b);
    assert PathOf(a)[1..] == Decimal(a) && PathOf(b)[1..] == Decimal(b);
  }

  /** A decimal text without superfluous zeros. */
  predicate Canonical(s: string) {
    s != "" && (forall i | 0 <= i < |s| :: '0' <= s[i] <= '9') && (|s| > 1 ==> s[0] != '0')
  }

  lemma {:induction false} DecimalIsCanonical(n: nat)
    ensures Canonical(Decimal(n)) && (Decimal(n)[0] == '0' <==> n == 0)
  {
    if n >= 10 { DecimalIsCanonical(n / 10); }
  }

  lemma {:induction false} CanonicalIsDecimal(s: string)
    requires Canonical(s)
    ensures Value(s) >= 0 && s == Decimal(Value(s)) && (s[0] != '0' ==> Value(s) > 0)
  {
    var rest, last := s[..|s| - 1], s[|s| - 1];
    if rest == "" {
      assert s == [last];
    } else {
      CanonicalIsDecimal(rest);
      assert Value(s) / 10 == Value(rest) && s == rest + [last];
    }
  }

  /** The path of a service is the one text of the form "/%u" that denotes its id. */
  lemma PathOfIff(path: string, id: Id)
    ensures path == PathOf(id) <==>
            path != "" && path[0] == '/' && Canonical(path[1..]) && Value(path[1..]) == id
  {
    DecimalIsCanonical(id);
    ValueOfDecimal(id);
    assert PathOf(id)[1..] == Decimal(id);
    if path != "" && Canonical(path[1..]) {
      CanonicalIsDecimal(path[1..]);
      assert path == [path[0]] + path[1..];
    }
  }
}
