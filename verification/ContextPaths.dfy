/** Context paths: which paths an admin may store, the SQL overlap test that guards
    them, and the request paths a gateway route built from one of them answers. */
module ContextPaths {

  predicate IsAlnum(c: char) {
    'A' <= c <= 'Z' || 'a' <= c <= 'z' || '0' <= c <= '9'
  }

  predicate IsPathChar(c: char) {
    IsAlnum(c) || c == '/' || c == '_' || c == '-'
  }

  predicate ValidContextPath(p: string) {
    && |p| >= 2
    && p[0] == '/'
    && IsAlnum(p[1])
    && IsAlnum(p[|p| - 1])
    && (forall i :: 1 <= i < |p| ==> IsPathChar(p[i]))
    && (forall i :: 1 <= i < |p| ==> !(p[i - 1] == '/' && p[i] == '/'))
  }

  /** SQL's LIKE: '%' matches any run of characters, '_' any one character, and a
      backslash makes the next pattern character literal. */
  predicate Like(s: string, pattern: string)
    decreases |pattern|, |s|
  {
    if pattern == "" then s == ""
    else if pattern[0] == '%' then Like(s, pattern[1..]) || (s != "" && Like(s[1..], pattern))
    else if pattern[0] == '_' then s != "" && Like(s[1..], pattern[1..])
    else if pattern[0] == '\\' && |pattern| > 1 then s != "" && s[0] == pattern[1] && Like(s[1..], pattern[2..])
    else s != "" && s[0] == pattern[0] && Like(s[1..], pattern[1..])
  }

  /** SQL's replace(p, '_', '\_'). */
  function EscapeUnderscores(p: string): string {
    if p == "" then ""
    else (if p[0] == '_' then "\\_" else [p[0]]) + EscapeUnderscores(p[1..])
  }

  /** The predicate of ContextPathOverlaps between a stored path and a new one. */
  predicate SqlOverlap(stored: string, path: string) {
    || stored == path
    || Like(stored, EscapeUnderscores(path) + "/%")
    || Like(path, EscapeUnderscores(stored) + "/%")
  }

  /** A route for context path c carries two URIs, c itself and c with a slash and a
      wildcard: it answers c and everything under it. */
  predicate Serves(c: string, request: string) {
    request == c || c + "/" <= request
  }

  lemma {:induction false} LikeAnything(s: string)
    ensures Like(s, "%")
  {
    if s != "" {
      LikeAnything(s[1..]);
    } else {
      assert Like("", "%"[1..]);
    }
  }

  lemma LikeSlashAnything(s: string)
    ensures Like(s, "/%") <==> "/" <= s
  {
    assert "/%"[1..] == "%";
    if s != "" {
      LikeAnything(s[1..]);
      assert "/" <= s <==> s[0] == '/';
    }
  }

  /** With underscores escaped, the LIKE pattern built from a path free of '%' and
      backslashes is exactly "has the path and a slash as a prefix". */
  lemma {:induction false} LikeIsPrefix(s: string, p: string)
    requires '%' !in p && '\\' !in p
    ensures Like(s, EscapeUnderscores(p) + "/%") <==> p + "/" <= s
  {
    if p == "" {
      assert EscapeUnderscores(p) + "/%" == "/%" && p + "/" == "/";
      LikeSlashAnything(s);
    } else {
      var rest := EscapeUnderscores(p[1..]) + "/%";
      var pattern := EscapeUnderscores(p) + "/%";
      assert p[0] in p && forall c :: c in p[1..] ==> c in p;
      if p[0] == '_' {
        assert pattern[0] == '\\' && pattern[1] == '_' && pattern[2..] == rest;
      } else {
        assert pattern[0] == p[0] && pattern[1..] == rest;
      }
      assert Like(s, pattern) <==> s != "" && s[0] == p[0] && Like(s[1..], rest);
      if s != "" {
        LikeIsPrefix(s[1..], p[1..]);
        assert p == [p[0]] + p[1..] && s == [s[0]] + s[1..];
        assert p + "/" == [p[0]] + (p[1..] + "/");
        assert p + "/" <= s <==> p[0] == s[0] && p[1..] + "/" <= s[1..];
      }
    }
  }

  /** For storable paths the SQL test holds exactly when some request would be
      answered by both routes. */
  lemma OverlapMeansSharedRequest(c: string, d: string)
    requires ValidContextPath(c) && ValidContextPath(d)
    ensures SqlOverlap(c, d) <==> exists request :: Serves(c, request) && Serves(d, request)
    ensures SqlOverlap(c, d) <==> SqlOverlap(d, c)
  {
    LikeIsPrefix(c, d);
    LikeIsPrefix(d, c);
    if SqlOverlap(c, d) {
      var shared := if d + "/" <= c then c else d;
      assert Serves(c, shared) && Serves(d, shared);
    }
    if request :| Serves(c, request) && Serves(d, request) {
      SharedRequestNests(c, d, request);
    }
  }

  lemma SharedRequestNests(c: string, d: string, request: string)
    requires Serves(c, request) && Serves(d, request)
    ensures c == d || c + "/" <= d || d + "/" <= c
  {
    var r := request;
    assert c == r[..|c|] && d == r[..|d|];
    if |c| < |d| {
      assert (c + "/")[|c|] == '/' == r[|c|];
      assert c + "/" == r[..|c| + 1] == d[..|c| + 1];
    } else if |d| < |c| {
      assert (d + "/")[|d|] == '/' == r[|d|];
      assert d + "/" == r[..|d| + 1] == c[..|d| + 1];
    }
  }
}
