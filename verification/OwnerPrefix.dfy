/** Owner prefixes: the LIKE pattern of Store.scanByOwnerPrefix (apps/server/src/db.ts) and the composed
    owner of apps/server/src/db-tenant.ts. */
module OwnerPrefix {
  import opened Runs

  // ------------------------------------------------------------------ LIKE

  /** PostgreSQL's `text LIKE pattern ESCAPE '\'`. */
  predicate Like(pattern: string, text: string)
    decreases |pattern| + |text|
  {
    if pattern == "" then text == ""
    else if pattern[0] == '%' then
      Like(pattern[1..], text) || (text != "" && Like(pattern, text[1..]))
    else if pattern[0] == '\\' then
      |pattern| > 1 && text != "" && text[0] == pattern[1] && Like(pattern[2..], text[1..])
    else
      text != "" && (pattern[0] == '_' || text[0] == pattern[0]) && Like(pattern[1..], text[1..])
  }

  /** A backslash before each wildcard, and before nothing else. */
  function Escape(p: string): string {
    if p == "" then ""
    else (if p[0] in {'%', '_'} then ['\\', p[0]] else [p[0]]) + Escape(p[1..])
  }

  predicate IsSpace(c: char) {
    || '\t' <= c <= '\r' || c in {' ', '\U{A0}', '\U{1680}', '\U{2028}', '\U{2029}', '\U{202F}', '\U{205F}', '\U{3000}', '\U{FEFF}'}
    || '\U{2000}' <= c <= '\U{200A}'
  }

  /** The prefixes scanByOwnerPrefix does not throw on. */
  predicate Accepted(p: string) {
    forall i :: 0 <= i < |p| ==>
      && p[i] !in {'"', '\'', '`', ';', '\\'} && !IsSpace(p[i])
      && (i + 1 < |p| ==> (p[i], p[i + 1]) !in {('/', '*'), ('-', '-')})
  }

  lemma {:induction false} AnythingMatchesPercent(text: string)
    ensures Like("%", text)
    decreases |text|
  {
    if text != "" { AnythingMatchesPercent(text[1..]); }
  }

  lemma {:induction false} PatternIsPrefix(p: string, text: string)
    requires '\\' !in p
    ensures Like(Escape(p) + "%", text) <==> p <= text
    decreases |p|
  {
    var pattern := Escape(p) + "%";
    if p == "" {
      assert pattern == "%";
      AnythingMatchesPercent(text);
    } else {
      var rest := Escape(p[1..]) + "%";
      assert p[0] != '\\' && '\\' !in p[1..];
      if p[0] in {'%', '_'} {
        assert pattern == ['\\', p[0]] + rest && pattern[2..] == rest;
      } else {
        assert pattern == [p[0]] + rest && pattern[1..] == rest;
      }
      if text != "" {
        PatternIsPrefix(p[1..], text[1..]);
        assert p <= text <==> p[0] == text[0] && p[1..] <= text[1..];
      }
    }
  }

  /** A text that matches the pattern of a prefix holding a backslash, but does not start with it. */
  function Stray(p: string): (s: string)
    ensures |s| <= |p|
    decreases |p|
  {
    if p == "" then ""
    else if p[0] != '\\' then [p[0]] + Stray(p[1..])
    else if |p| == 1 then "%"
    else (if p[1] == '%' then "\\" else if p[1] == '_' then "\\x" else [p[1]]) + Stray(p[2..])
  }

  lemma {:induction false} StrayMatches(p: string)
    ensures Like(Escape(p) + "%", Stray(p))
    ensures '\\' in p ==> !(p <= Stray(p))
    decreases |p|
  {
    var pattern, s := Escape(p) + "%", Stray(p);
    if p == "" {
      assert Like("%", "");
    } else if p[0] != '\\' {
      var rest := Escape(p[1..]) + "%";
      StrayMatches(p[1..]);
      assert s[1..] == Stray(p[1..]);
      if p[0] in {'%', '_'} {
        assert pattern == ['\\', p[0]] + rest && pattern[2..] == rest;
      } else {
        assert pattern == [p[0]] + rest && pattern[1..] == rest;
      }
      assert p <= s ==> p[1..] <= s[1..];
    } else if |p| == 1 {
      assert Escape(p[1..]) == "" && pattern == "\\%" && pattern[2..] == "";
      assert Like("", "");
    } else {
      var rest := Escape(p[2..]) + "%";
      StrayMatches(p[2..]);
      StrayAfterBackslash(p, rest);
    }
  }

  lemma StrayAfterBackslash(p: string, rest: string)
    requires |p| > 1 && p[0] == '\\' && rest == Escape(p[2..]) + "%" && Like(rest, Stray(p[2..]))
    ensures Like(Escape(p) + "%", Stray(p)) && !(p <= Stray(p))
  {
    var pattern, s := Escape(p) + "%", Stray(p);
    assert p[1..][0] == p[1] && p[1..][1..] == p[2..];
    if p[1] in {'%', '_'} {
      assert Escape(p[1..]) == ['\\', p[1]] + Escape(p[2..]);
      assert pattern == ['\\', '\\', p[1]] + rest && pattern[2..] == [p[1]] + rest;
      assert ([p[1]] + rest)[1..] == rest;
      if p[1] == '%' {
        assert s[1..] == Stray(p[2..]);
        assert Like([p[1]] + rest, s[1..]);
      } else {
        assert s[1..][1..] == Stray(p[2..]);
        assert Like([p[1]] + rest, s[1..]);
        assert s[1] == 'x';
      }
    } else {
      assert Escape(p[1..]) == [p[1]] + Escape(p[2..]);
      assert pattern == ['\\', p[1]] + rest && pattern[2..] == rest;
      assert s[1..] == Stray(p[2..]);
    }
  }

  /** The escaped pattern selects exactly the owners that start with the prefix if and only if the prefix
      holds no backslash. */
  lemma EscapeIsExact(p: string)
    ensures (forall text :: Like(Escape(p) + "%", text) <==> p <= text) <==> '\\' !in p
  {
    if '\\' in p {
      StrayMatches(p);
      var text := Stray(p);
      assert !(Like(Escape(p) + "%", text) <==> p <= text);
    } else {
      forall text ensures Like(Escape(p) + "%", text) <==> p <= text { PatternIsPrefix(p, text); }
    }
  }

  /** Every prefix the validator accepts is matched exactly. */
  lemma AcceptedIsExact(p: string, owner: string)
    requires Accepted(p)
    ensures Like(Escape(p) + "%", owner) <==> p <= owner
  {
    PatternIsPrefix(p, owner);
  }

  // ------------------------------------------------------------------ composed owners

  /** `${tenantId}:${owner}`. */
  function Compose(tenant: string, owner: string): string { tenant + ":" + owner }

  /** Where the first colon stands; the length when there is none. */
  function FirstColon(s: string): (i: nat)
    ensures i <= |s| && (forall j :: 0 <= j < i ==> s[j] != ':') && (i < |s| ==> s[i] == ':')
  {
    if s == "" || s[0] == ':' then 0
    else 1 + FirstColon(s[1..])
  }

  function Peel(composed: string): string {
    var i := FirstColon(composed);
    if i < |composed| then composed[i + 1..] else composed
  }

  /** Peeling undoes composing exactly for tenant ids without a colon. */
  lemma PeelUndoesCompose(tenant: string, owner: string)
    ensures Peel(Compose(tenant, owner)) == owner <==> ':' !in tenant
  {
    var k := Compose(tenant, owner);
    if ':' !in tenant {
      assert FirstColon(k) == |tenant| by { assert k[|tenant|] == ':' && forall j :: 0 <= j < |tenant| ==> k[j] == tenant[j]; }
      assert k[|tenant| + 1..] == owner;
    } else {
      var i :| 0 <= i < |tenant| && tenant[i] == ':';
      assert k[i] == ':';
      assert |Peel(k)| > |owner|;
    }
  }

  /** Two tenants can own the same composed key exactly when one id is the other, or continues it past a
      colon. */
  lemma WhenKeysCollide(a: string, b: string)
    ensures (exists x, y :: Compose(a, x) == Compose(b, y)) <==> a == b || a + ":" <= b || b + ":" <= a
  {
    if a == b {
      assert Compose(a, "") == Compose(b, "");
    } else if a + ":" <= b {
      assert Compose(a, (b + ":")[|a| + 1..]) == Compose(b, "");
    } else if b + ":" <= a {
      assert Compose(a, "") == Compose(b, (a + ":")[|b| + 1..]);
    } else {
      forall x, y ensures Compose(a, x) != Compose(b, y) {
        if Compose(a, x) == Compose(b, y) { SameKeyMeansPrefix(a, x, b, y); }
      }
    }
  }

  lemma SameKeyMeansPrefix(a: string, x: string, b: string, y: string)
    requires Compose(a, x) == Compose(b, y)
    ensures a == b || a + ":" <= b || b + ":" <= a
  {
    var k := Compose(a, x);
    assert k[..|a|] == a && k[..|b|] == b && k[|a|] == ':' && k[|b|] == ':';
    if |a| < |b| {
      assert b[..|a| + 1] == k[..|b|][..|a| + 1] == a + ":";
    } else if |b| < |a| {
      assert a[..|b| + 1] == k[..|a|][..|b| + 1] == b + ":";
    }
  }

  /** Colon-free tenants never share a key, and the key tells both parts apart. */
  lemma ComposeIsInjective(a: string, x: string, b: string, y: string)
    requires ':' !in a && ':' !in b && Compose(a, x) == Compose(b, y)
    ensures a == b && x == y
  {
    PeelUndoesCompose(a, x);
    PeelUndoesCompose(b, y);
    assert Compose(a, x)[..|a|] == a && Compose(b, y)[..|b|] == b;
  }
}
