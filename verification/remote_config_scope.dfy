/**
 The scope a configuration is cached under: percent-escaped identifiers joined by a
 separator no escaped identifier contains, so distinct tuples never share a scope.
 */
module RemoteConfigScope {

  /** Identifiers are byte strings. */
  type Bytes = s: string | forall i :: 0 <= i < |s| ==> s[i] < 256 as char

  const SEPARATOR: char := 31 as char

  predicate Unreserved(c: char) {
    || 'A' <= c <= 'Z' || 'a' <= c <= 'z' || '0' <= c <= '9'
    || c == '.' || c == '_' || c == '~' || c == '-'
  }

  function HexDigit(n: nat): char
    requires n < 16
  {
    if n < 10 then ('0' as int + n) as char else ('A' as int + n - 10) as char
  }

  function EscapeByte(c: char): (r: string)
    requires c < 256 as char
    ensures r != []
  {
    if Unreserved(c) then [c] else ['%', HexDigit(c as int / 16), HexDigit(c as int % 16)]
  }

  function Escape(s: Bytes): string {
    if s == "" then "" else EscapeByte(s[0]) + Escape(s[1..])
  }

  lemma EscapeNext(value: Bytes, i: nat, done: string)
    requires i < |value|
    ensures done + Escape(value[i..]) == done + EscapeByte(value[i]) + Escape(value[i + 1..])
  {
    hide EscapeByte;
    assert value[i..][1..] == value[i + 1..];
  }

  /** escapeRemoteConfigSegment, byte by byte. */
  method EscapeSegment(value: Bytes) returns (escaped: string)
    ensures escaped == Escape(value)
  {
    escaped := "";
    for i := 0 to |value|
      invariant Escape(value) == escaped + Escape(value[i..])
    {
      EscapeNext(value, i, escaped);
      escaped := escaped + EscapeByte(value[i]);
    }
    assert value[|value|..] == "";
  }

  /** strings.TrimRight(url, "/"). */
  function TrimSlashes(url: string): string {
    if url != "" && url[|url| - 1] == '/' then TrimSlashes(url[..|url| - 1]) else url
  }

  function Scope(workspace: Bytes, environment: Bytes, client: Bytes, url: string): string {
    Escape(workspace) + [SEPARATOR] + (Escape(environment) + [SEPARATOR] + (Escape(client) + [SEPARATOR] + TrimSlashes(url)))
  }

  lemma HexDistinct(m: nat, n: nat)
    requires m < 16 && n < 16 && HexDigit(m) == HexDigit(n)
    ensures m == n
  {
  }

  /** No escape of one byte is the beginning of another's, followed by anything. */
  lemma ByteDecodes(c: char, d: char, s: string, t: string)
    requires c < 256 as char && d < 256 as char
    requires EscapeByte(c) + s == EscapeByte(d) + t
    ensures c == d && s == t
  {
    var x, y := EscapeByte(c) + s, EscapeByte(d) + t;
    assert x[0] == y[0];
    if Unreserved(c) {
      assert x[0] == c && Unreserved(d);
    } else {
      assert x[1] == y[1] && x[2] == y[2];
      HexDistinct(c as int / 16, d as int / 16);
      HexDistinct(c as int % 16, d as int % 16);
      assert c as int == d as int;
    }
    assert s == x[|EscapeByte(c)|..] && t == y[|EscapeByte(d)|..];
  }

  /** Escaping is injective. */
  lemma {:induction false} EscapeInjective(s: Bytes, t: Bytes)
    requires Escape(s) == Escape(t)
    ensures s == t
  {
    if s != "" && t != "" {
      ByteDecodes(s[0], t[0], Escape(s[1..]), Escape(t[1..]));
      EscapeInjective(s[1..], t[1..]);
      assert s == [s[0]] + s[1..] && t == [t[0]] + t[1..];
    }
  }

  lemma {:induction false} EscapedHasNoSeparator(s: Bytes)
    ensures SEPARATOR !in Escape(s)
  {
    if s != "" { EscapedHasNoSeparator(s[1..]); }
  }

  /** What precedes the first separator is determined, and so is what follows it. */
  lemma SplitsOnce(a: string, b: string, s: string, t: string)
    requires SEPARATOR !in a && SEPARATOR !in b
    requires a + [SEPARATOR] + s == b + [SEPARATOR] + t
    ensures a == b && s == t
  {
    var x, y := a + [SEPARATOR] + s, b + [SEPARATOR] + t;
    assert x[|a|] == SEPARATOR && y[|b|] == SEPARATOR;
    assert forall i :: 0 <= i < |a| ==> x[i] == a[i];
    assert forall i :: 0 <= i < |b| ==> y[i] == b[i];
    assert |a| == |b|;
    assert a == x[..|a|] && b == y[..|b|];
    assert s == x[|a| + 1..] && t == y[|b| + 1..];
  }

  /** Distinct workspaces, environments, clients or endpoints never share a scope, whatever bytes they hold. */
  lemma ScopeInjective(w: Bytes, e: Bytes, c: Bytes, u: string, w': Bytes, e': Bytes, c': Bytes, u': string)
    requires Scope(w, e, c, u) == Scope(w', e', c', u')
    ensures w == w' && e == e' && c == c' && TrimSlashes(u) == TrimSlashes(u')
  {
    EscapedHasNoSeparator(w); EscapedHasNoSeparator(w');
    EscapedHasNoSeparator(e); EscapedHasNoSeparator(e');
    EscapedHasNoSeparator(c); EscapedHasNoSeparator(c');
    var r, r' := Escape(c) + [SEPARATOR] + TrimSlashes(u), Escape(c') + [SEPARATOR] + TrimSlashes(u');
    SplitsOnce(Escape(w), Escape(w'), Escape(e) + [SEPARATOR] + r, Escape(e') + [SEPARATOR] + r');
    SplitsOnce(Escape(e), Escape(e'), r, r');
    SplitsOnce(Escape(c), Escape(c'), TrimSlashes(u), TrimSlashes(u'));
    EscapeInjective(w, w');
    EscapeInjective(e, e');
    EscapeInjective(c, c');
  }

  /** In particular the scope with an identity is never the identifier-free scope. */
  lemma IdentityScopeDiffers(w: Bytes, e: Bytes, client: Bytes, url: string)
    requires client != ""
    ensures Scope(w, e, client, url) != Scope(w, e, "", url)
  {
    if Scope(w, e, client, url) == Scope(w, e, "", url) {
      ScopeInjective(w, e, client, url, w, e, "", url);
    }
  }
}
