/** Admission scopes and the coordinates their counters are kept under (`admission.rs`). */
module Scopes {
  import opened Prelude

  datatype Scope = TenantScope(tenant: string, key: string) | DeploymentScope(key: string)

  function Digit(d: nat): char
    requires d < 10
  {
    '0' + d as char
  }

  function Decimal(n: nat): string {
    if n < 10 then [Digit(n)] else Decimal(n / 10) + [Digit(n % 10)]
  }

  /** A length, a colon and the value itself. Fields are ASCII, so bytes and characters are the same. */
  function LengthPrefixed(value: string): string {
    Decimal(|value|) + ":" + value
  }

  function Coordinate(scope: Scope): string {
    match scope
    case TenantScope(tenant, key) => "t" + LengthPrefixed(tenant) + LengthPrefixed(key)
    case DeploymentScope(key) => "d" + LengthPrefixed(key)
  }

  // ---- The encoding loses nothing ----

  lemma {:induction false} DecimalPlain(n: nat)
    ensures Decimal(n) != "" && ':' !in Decimal(n)
  {
    if n >= 10 {
      DecimalPlain(n / 10);
    }
  }

  lemma {:induction false} DecimalInjective(a: nat, b: nat)
    requires Decimal(a) == Decimal(b)
    ensures a == b
  {
    DecimalPlain(a / 10);
    DecimalPlain(b / 10);
    var s, t := Decimal(a), Decimal(b);
    assert s[|s| - 1] == Digit(a % 10) && t[|t| - 1] == Digit(b % 10);
    if a >= 10 && b >= 10 {
      assert s[..|s| - 1] == Decimal(a / 10) && t[..|t| - 1] == Decimal(b / 10);
      DecimalInjective(a / 10, b / 10);
    }
  }

  /** A length-prefixed value can be cut off the front in one way only. */
  lemma LengthPrefixedCuts(a: string, x: string, b: string, y: string)
    requires LengthPrefixed(a) + x == LengthPrefixed(b) + y
    ensures a == b && x == y
  {
    var s, t := LengthPrefixed(a) + x, LengthPrefixed(b) + y;
    var m, n := Decimal(|a|), Decimal(|b|);
    DecimalPlain(|a|);
    DecimalPlain(|b|);
    assert s[|m|] == ':' && t[|n|] == ':';
    assert (forall i :: 0 <= i < |m| ==> s[i] == m[i]) && (forall i :: 0 <= i < |n| ==> t[i] == n[i]);
    assert |m| == |n|;
    assert s[..|m|] == m && t[..|n|] == n;
    DecimalInjective(|a|, |b|);
    var k := |m| + 1;
    assert s[k..][..|a|] == a && t[k..][..|b|] == b;
    assert s[k..][|a|..] == x && t[k..][|b|..] == y;
  }

  /** Different scopes never share a counter, across tenants and the deployment alike. */
  lemma CoordinateInjective(p: Scope, q: Scope)
    requires Coordinate(p) == Coordinate(q)
    ensures p == q
  {
    hide LengthPrefixed;
    var s, t := Coordinate(p), Coordinate(q);
    assert s[0] == (if p.TenantScope? then 't' else 'd') && t[0] == (if q.TenantScope? then 't' else 'd');
    if p.TenantScope? {
      assert s[1..] == LengthPrefixed(p.tenant) + LengthPrefixed(p.key);
      assert t[1..] == LengthPrefixed(q.tenant) + LengthPrefixed(q.key);
      LengthPrefixedCuts(p.tenant, LengthPrefixed(p.key), q.tenant, LengthPrefixed(q.key));
      assert LengthPrefixed(p.key) + "" == LengthPrefixed(q.key) + "";
      LengthPrefixedCuts(p.key, "", q.key, "");
    } else {
      assert s[1..] == LengthPrefixed(p.key) + "" && t[1..] == LengthPrefixed(q.key) + "";
      LengthPrefixedCuts(p.key, "", q.key, "");
    }
  }

  /** The tenant a coordinate belongs to; none for the deployment's. */
  ghost function Owner(coordinate: string): Option<string> {
    if exists t, k :: Coordinate(TenantScope(t, k)) == coordinate
    then var t, k :| Coordinate(TenantScope(t, k)) == coordinate; Some(t)
    else None
  }

  function ScopeTenant(scope: Scope): Option<string> {
    if scope.TenantScope? then Some(scope.tenant) else None
  }

  lemma OwnerOfCoordinate(scope: Scope)
    ensures Owner(Coordinate(scope)) == ScopeTenant(scope)
  {
    var c := Coordinate(scope);
    if exists t, k :: Coordinate(TenantScope(t, k)) == c {
      var t, k :| Coordinate(TenantScope(t, k)) == c;
      forall t', k' | Coordinate(TenantScope(t', k')) == c ensures TenantScope(t', k') == scope {
        CoordinateInjective(TenantScope(t', k'), scope);
      }
      CoordinateInjective(TenantScope(t, k), scope);
    }
  }
}
