/** Lexical path normalisation and glob matching.

    Paths are strings, as the runtime compares them. The component list of a path is
    what the strings mean; the lemmas of this module connect the two.
 */
module Paths {

  // ---------------------------------------------------------------------------
  // Splitting and joining on '/'
  // ---------------------------------------------------------------------------

  /** The pieces of a string that starts with `c`, given the pieces of the rest. */
  function Prepend(c: char, pieces: seq<string>): (r: seq<string>)
    requires |pieces| >= 1
    ensures |r| >= 1
  {
    if c == '/' then [""] + pieces else [[c] + pieces[0]] + pieces[1..]
  }

  /** The pieces of `s` between slashes; the empty string has one empty piece. */
  function Split(s: string): (r: seq<string>)
    ensures |r| >= 1
  {
    if s == "" then [""] else Prepend(s[0], Split(s[1..]))
  }

  function Join(cs: seq<string>): (s: string)
  {
    if |cs| == 0 then ""
    else if |cs| == 1 then cs[0]
    else cs[0] + "/" + Join(cs[1..])
  }

  predicate SlashFree(cs: seq<string>)
  {
    forall i :: 0 <= i < |cs| ==> '/' !in cs[i]
  }

  lemma {:induction false} SplitSlashFree(s: string)
    ensures SlashFree(Split(s))
  {
    if s != "" {
      SplitSlashFree(s[1..]);
    }
  }

  lemma {:induction false} PrependToAppend(c: char, left: seq<string>, right: seq<string>)
    requires |left| >= 1
    ensures Prepend(c, left + right) == Prepend(c, left) + right
  {
  }

  lemma {:induction false} SplitAtSlash(a: string, b: string)
    ensures Split(a + "/" + b) == Split(a) + Split(b)
  {
    var s := a + "/" + b;
    if a == "" {
      assert s[0] == '/' && s[1..] == b;
    } else {
      var rest := a[1..];
      assert s[0] == a[0] && s[1..] == rest + "/" + b;
      SplitAtSlash(rest, b);
      PrependToAppend(a[0], Split(rest), Split(b));
    }
  }

  lemma {:induction false} SplitWithoutSlash(c: string)
    requires '/' !in c
    ensures Split(c) == [c]
  {
    if c != "" {
      SplitWithoutSlash(c[1..]);
      assert [c[0]] + c[1..] == c;
    }
  }

  /** Splitting undoes joining. */
  lemma {:induction false} SplitOfJoin(cs: seq<string>)
    requires |cs| > 0 && SlashFree(cs)
    ensures Split(Join(cs)) == cs
  {
    SplitWithoutSlash(cs[0]);
    if |cs| > 1 {
      SplitAtSlash(cs[0], Join(cs[1..]));
      SplitOfJoin(cs[1..]);
    }
  }

  lemma {:induction false} JoinOfAppend(cs: seq<string>, ds: seq<string>)
    requires |cs| > 0 && |ds| > 0
    ensures Join(cs + ds) == Join(cs) + "/" + Join(ds)
  {
    assert (cs + ds)[1..] == cs[1..] + ds;
    if |cs| == 1 {
      assert (cs + ds)[1..] == ds;
    } else {
      JoinOfAppend(cs[1..], ds);
    }
  }

  // ---------------------------------------------------------------------------
  // Normalisation
  // ---------------------------------------------------------------------------

  /** One component read from left to right: `""` and `.` vanish, `..` undoes its predecessor. */
  function Push(stack: seq<string>, c: string): (r: seq<string>)
  {
    if c == "" || c == "." then stack
    else if c == ".." then (if stack == [] then [] else stack[..|stack| - 1])
    else stack + [c]
  }

  function Resolve(cs: seq<string>): (r: seq<string>)
  {
    if cs == [] then [] else Push(Resolve(cs[..|cs| - 1]), cs[|cs| - 1])
  }

  predicate IsAbsolute(path: string)
  {
    path != "" && path[0] == '/'
  }

  function Components(path: string): (r: seq<string>)
  {
    Resolve(Split(path))
  }

  function Render(absolute: bool, cs: seq<string>): (s: string)
  {
    if absolute then "/" + Join(cs) else Join(cs)
  }

  function Normalize(path: string): (r: string)
  {
    Render(IsAbsolute(path), Components(path))
  }

  method NormalizePath(path: string) returns (r: string)
    ensures r == Normalize(path)
  {
    var parts: seq<string> := [];
    var components := Split(path);
    for i := 0 to |components|
      invariant parts == Resolve(components[..i])
    {
      assert components[..i + 1][..i] == components[..i];
      var component := components[i];
      if component == "" || component == "." {
      } else if component == ".." {
        if |parts| > 0 {
          parts := parts[..|parts| - 1];
        }
      } else {
        parts := parts + [component];
      }
    }
    assert components[..|components|] == components;
    if IsAbsolute(path) {
      r := "/" + Join(parts);
    } else {
      r := Join(parts);
    }
  }

  predicate CleanComponent(c: string)
  {
    c != "" && c != "." && c != ".." && '/' !in c
  }

  predicate Clean(cs: seq<string>)
  {
    forall i :: 0 <= i < |cs| ==> CleanComponent(cs[i])
  }

  lemma {:induction false} ResolveIsClean(cs: seq<string>)
    requires SlashFree(cs)
    ensures Clean(Resolve(cs))
  {
    if cs != [] {
      ResolveIsClean(cs[..|cs| - 1]);
    }
  }

  lemma {:induction false} ResolveOfClean(cs: seq<string>, ds: seq<string>)
    requires Clean(ds)
    ensures Resolve(cs + ds) == Resolve(cs) + ds
  {
    if ds == [] {
      assert cs + ds == cs;
    } else {
      var last := |ds| - 1;
      ResolveOfClean(cs, ds[..last]);
      assert (cs + ds)[..|cs + ds| - 1] == cs + ds[..last];
      assert (cs + ds)[|cs + ds| - 1] == ds[last];
      assert ds == ds[..last] + [ds[last]];
    }
  }

  lemma {:induction false} ComponentsAreClean(path: string)
    ensures Clean(Components(path))
  {
    SplitSlashFree(path);
    ResolveIsClean(Split(path));
  }

  lemma {:induction false} JoinStartsWithoutSlash(cs: seq<string>)
    requires Clean(cs)
    ensures cs == [] ==> Join(cs) == ""
    ensures cs != [] ==> Join(cs) != "" && Join(cs)[0] != '/'
  {
    if cs != [] {
      assert CleanComponent(cs[0]) && cs[0][0] in cs[0];
    }
  }

  lemma {:induction false} SplitOfRender(absolute: bool, cs: seq<string>)
    requires Clean(cs)
    ensures Split(Render(absolute, cs)) == (if absolute then [""] else []) + (if cs == [] then [""] else cs)
  {
    if absolute {
      assert Render(absolute, cs) == "" + "/" + Join(cs);
      SplitAtSlash("", Join(cs));
    }
    if cs != [] {
      SplitOfJoin(cs);
    }
  }

  /** A rendered component list reads back as itself, and so does its kind. */
  lemma {:induction false} ComponentsOfRender(absolute: bool, cs: seq<string>)
    requires Clean(cs)
    ensures IsAbsolute(Render(absolute, cs)) == absolute
    ensures Components(Render(absolute, cs)) == cs
  {
    JoinStartsWithoutSlash(cs);
    SplitOfRender(absolute, cs);
    var head: seq<string> := if absolute then [""] else [];
    var none: seq<string> := [];
    assert Resolve(head) == [] by {
      assert [""][..0] == none;
    }
    if cs == [] {
      assert (head + [""])[..|head|] == head;
    } else {
      ResolveOfClean(head, cs);
    }
  }

  /** Normalisation is idempotent, and its output has no empty, `.` or `..` component. */
  lemma {:induction false} NormalizeIsIdempotent(path: string)
    ensures Normalize(Normalize(path)) == Normalize(path)
    ensures IsAbsolute(Normalize(path)) == IsAbsolute(path)
    ensures Components(Normalize(path)) == Components(path)
    ensures Clean(Components(path))
    ensures Components(path) != [] ==> Split(Normalize(path)) ==
                                       (if IsAbsolute(path) then [""] else []) + Components(path)
  {
    var cs := Components(path);
    ComponentsAreClean(path);
    ComponentsOfRender(IsAbsolute(path), cs);
    SplitOfRender(IsAbsolute(path), cs);
  }

  /** Normal forms are equal exactly when kind and components are. */
  lemma {:induction false} NormalizeDecides(p: string, q: string)
    ensures Normalize(p) == Normalize(q) <==> IsAbsolute(p) == IsAbsolute(q) && Components(p) == Components(q)
  {
    NormalizeIsIdempotent(p);
    NormalizeIsIdempotent(q);
  }

  lemma {:induction false} ComponentsOfPiece(p: string, c: string)
    requires '/' !in c
    ensures Components(p + "/" + c) == Push(Components(p), c)
    ensures p != "" ==> IsAbsolute(p + "/" + c) == IsAbsolute(p)
  {
    SplitAtSlash(p, c);
    SplitWithoutSlash(c);
    assert (Split(p) + [c])[..|Split(p)|] == Split(p);
  }

  /** A plain component extends the path, a repeated slash or `.` changes nothing, and `..` takes back exactly the
      component before it, however the path was spelled; there is nothing above a path without components. */
  lemma {:induction false} DotDotUndoes(p: string, d: string, q: string)
    requires CleanComponent(d)
    ensures Components(p + "/" + d) == Components(p) + [d]
    ensures Components(p + "/" + d + "/" + "..") == Components(p)
    ensures Components(p + "/" + ".") == Components(p) == Components(p + "/" + "")
    ensures Components(q) == Components(p) + [d] ==> Components(q + "/" + "..") == Components(p)
    ensures Components(p) == [] ==> Components(p + "/" + "..") == []
  {
    ComponentsOfPiece(p, d);
    ComponentsOfPiece(p + "/" + d, "..");
    ComponentsOfPiece(p, ".");
    ComponentsOfPiece(p, "");
    ComponentsOfPiece(q, "..");
    ComponentsOfPiece(p, "..");
    assert (Components(p) + [d])[..|Components(p)|] == Components(p);
  }

  /** The same on strings: descending and climbing back, or repeating a slash, spells the same path. */
  lemma {:induction false} DetoursNormalizeAway(p: string, d: string)
    requires p != "" && CleanComponent(d)
    ensures Normalize(p + "/" + d + "/" + "..") == Normalize(p)
    ensures Normalize(p + "/" + ".") == Normalize(p) == Normalize(p + "/" + "")
  {
    DotDotUndoes(p, d, p);
    ComponentsOfPiece(p, d);
    ComponentsOfPiece(p + "/" + d, "..");
    ComponentsOfPiece(p, ".");
    ComponentsOfPiece(p, "");
  }

  // ---------------------------------------------------------------------------
  // Glob matching on strings
  // ---------------------------------------------------------------------------

  predicate EndsWithStar(pattern: string)
  {
    pattern != "" && pattern[|pattern| - 1] == '*'
  }

  /** `prefix` is a string prefix of `s` that ends at a separator boundary. */
  predicate PrefixAtBoundary(prefix: string, s: string)
  {
    prefix <= s && (|s| == |prefix| || s[|prefix|] == '/')
  }

  predicate GlobMatchesCanonical(pattern: string, canonical: string)
  {
    if pattern == "*" then true
    else if EndsWithStar(pattern) then
      PrefixAtBoundary(Normalize(pattern[..|pattern| - 1]), canonical)
    else Normalize(pattern) == canonical
  }

  /** The request is normalised first; the file system is taken not to resolve any of it. */
  predicate GlobMatches(pattern: string, path: string)
  {
    GlobMatchesCanonical(pattern, Normalize(path))
  }

  /** Every spelling of a path is decided alike. */
  lemma {:induction false} GlobIgnoresSpelling(pattern: string, path: string)
    ensures GlobMatches(pattern, Normalize(path)) == GlobMatches(pattern, path)
  {
    NormalizeIsIdempotent(path);
  }

  // ---------------------------------------------------------------------------
  // What a pattern means: a set of component lists
  // ---------------------------------------------------------------------------

  datatype Scope =
    | Everything
    | Exactly(absolute: bool, path: seq<string>)
    | Beneath(absolute: bool, root: seq<string>)
    | AbsoluteOrEmpty

  predicate InScope(s: Scope, absolute: bool, cs: seq<string>)
  {
    match s
    case Everything => true
    case Exactly(a, p) => a == absolute && p == cs
    case Beneath(a, root) => a == absolute && root <= cs
    case AbsoluteOrEmpty => absolute || cs == []
  }

  // Of the patterns ending in a star, the two whose stripped prefix has no component are
  // special: `/*` denotes only the root, and a relative empty prefix every absolute path.
  function ScopeOf(pattern: string): (s: Scope)
  {
    if pattern == "*" then Everything
    else if EndsWithStar(pattern) then
      var prefix := pattern[..|pattern| - 1];
      if Components(prefix) != [] then Beneath(IsAbsolute(prefix), Components(prefix))
      else if IsAbsolute(prefix) then Exactly(true, [])
      else AbsoluteOrEmpty
    else Exactly(IsAbsolute(pattern), Components(pattern))
  }

  predicate CleanScope(s: Scope)
  {
    match s
    case Everything => true
    case Exactly(_, p) => Clean(p)
    case Beneath(_, root) => Clean(root) && root != []
    case AbsoluteOrEmpty => true
  }

  lemma {:induction false} ScopeIsClean(pattern: string)
    ensures CleanScope(ScopeOf(pattern))
  {
    ComponentsAreClean(pattern);
    if EndsWithStar(pattern) {
      ComponentsAreClean(pattern[..|pattern| - 1]);
    }
  }

  lemma {:induction false} BoundaryPrefixIsComponentPrefix(cs: seq<string>, ds: seq<string>)
    requires Clean(cs) && Clean(ds) && cs != [] && PrefixAtBoundary(Join(cs), Join(ds))
    ensures cs <= ds
  {
    var s, t := Join(cs), Join(ds);
    JoinStartsWithoutSlash(cs);
    JoinStartsWithoutSlash(ds);
    SplitOfJoin(cs);
    SplitOfJoin(ds);
    if |t| == |s| {
      assert t == s;
    } else {
      var rest := t[|s| + 1..];
      assert t == s + "/" + rest;
      SplitAtSlash(s, rest);
    }
  }

  lemma {:induction false} ComponentPrefixIsBoundaryPrefix(cs: seq<string>, ds: seq<string>)
    requires cs != [] && cs <= ds
    ensures PrefixAtBoundary(Join(cs), Join(ds))
  {
    if cs != ds {
      var rest := ds[|cs|..];
      JoinOfAppend(cs, rest);
      assert ds == cs + rest;
    }
  }

  lemma {:induction false} PrefixUnderSlash(s: string, t: string)
    ensures PrefixAtBoundary("/" + s, "/" + t) <==> PrefixAtBoundary(s, t)
  {
    var u, v := "/" + s, "/" + t;
    assert u[1..] == s && v[1..] == t;
    if u <= v {
      assert s == v[1..|u|] == t[..|s|];
    }
    if s <= t {
      assert u == v[..|u|];
    }
  }

  /** String prefixes at a boundary are component prefixes. */
  lemma {:induction false} PrefixOfRender(a: bool, cs: seq<string>, b: bool, ds: seq<string>)
    requires Clean(cs) && Clean(ds) && cs != []
    ensures PrefixAtBoundary(Render(a, cs), Render(b, ds)) <==> a == b && cs <= ds
  {
    JoinStartsWithoutSlash(cs);
    JoinStartsWithoutSlash(ds);
    if a == b {
      if cs <= ds {
        ComponentPrefixIsBoundaryPrefix(cs, ds);
      } else if PrefixAtBoundary(Join(cs), Join(ds)) {
        BoundaryPrefixIsComponentPrefix(cs, ds);
      }
      PrefixUnderSlash(Join(cs), Join(ds));
    } else {
      var s, t := Render(a, cs), Render(b, ds);
      assert s[0] != '/' <==> !a;
      assert t != "" ==> (t[0] != '/' <==> !b);
    }
  }

  /** For every pattern and every path, matching on strings is membership in the pattern's scope. */
  lemma {:induction false} GlobRefinesScope(pattern: string, path: string)
    ensures GlobMatches(pattern, path) <==> InScope(ScopeOf(pattern), IsAbsolute(path), Components(path))
  {
    ComponentsAreClean(path);
    JoinStartsWithoutSlash(Components(path));
    if pattern != "*" {
      if EndsWithStar(pattern) {
        var prefix := pattern[..|pattern| - 1];
        ComponentsAreClean(prefix);
        if Components(prefix) != [] {
          PrefixOfRender(IsAbsolute(prefix), Components(prefix), IsAbsolute(path), Components(path));
        }
      } else {
        NormalizeDecides(pattern, path);
      }
    }
  }

  /** The separator-boundary property: a non-degenerate absolute star pattern matches a normalised
      absolute path exactly when the prefix's components are a prefix of the path's. */
  lemma {:induction false} StarPatternIsComponentPrefix(pattern: string, canonical: string)
    requires pattern != "*" && EndsWithStar(pattern) && IsAbsolute(pattern)
    requires Normalize(pattern[..|pattern| - 1]) != "/"
    requires IsAbsolute(canonical) && Normalize(canonical) == canonical
    ensures GlobMatchesCanonical(pattern, canonical) <==> Components(pattern[..|pattern| - 1]) <= Components(canonical)
  {
    var prefix := pattern[..|pattern| - 1];
    assert IsAbsolute(prefix);
    GlobRefinesScope(pattern, canonical);
  }

  /** A pattern without a trailing star denotes one path. */
  lemma {:induction false} LiteralPatternIsComponentEquality(pattern: string, path: string)
    requires !EndsWithStar(pattern)
    ensures GlobMatches(pattern, path) <==>
            IsAbsolute(pattern) == IsAbsolute(path) && Components(pattern) == Components(path)
  {
    NormalizeDecides(pattern, path);
  }

  // ---------------------------------------------------------------------------
  // When one pattern covers another
  // ---------------------------------------------------------------------------

  /** Decides scope inclusion by comparing at most two component lists. */
  predicate ScopeCovers(a: Scope, b: Scope)
  {
    match (a, b)
    case (Everything, _) => true
    case (_, Everything) => false
    case (Exactly(x, p), Exactly(y, q)) => x == y && p == q
    case (Exactly(_, _), _) => false
    case (Beneath(x, r), Exactly(y, q)) => x == y && r <= q
    case (Beneath(x, r), Beneath(y, q)) => x == y && r <= q
    case (Beneath(_, _), AbsoluteOrEmpty) => false
    case (AbsoluteOrEmpty, Exactly(y, q)) => y || q == []
    case (AbsoluteOrEmpty, Beneath(y, _)) => y
    case (AbsoluteOrEmpty, AbsoluteOrEmpty) => true
  }

  /** A path in `b` but not in `a`, when `a` does not cover `b`. */
  function Escape(a: Scope, b: Scope): (r: (bool, seq<string>))
  {
    match b
    case Exactly(y, q) => (y, q)
    case Beneath(y, q) => if a == Exactly(y, q) then (y, q + ["x"]) else (y, q)
    case AbsoluteOrEmpty => if a == Exactly(true, []) then (true, ["x"]) else (true, [])
    case Everything =>
      match a
      case Beneath(x, _) => (x, [])
      case AbsoluteOrEmpty => (false, ["x"])
      case Exactly(x, p) => if p == [] then (true, ["x"]) else (true, [])
      case Everything => (true, [])
  }

  lemma {:induction false} EscapeEscapes(a: Scope, b: Scope)
    requires CleanScope(a) && CleanScope(b) && !ScopeCovers(a, b)
    ensures Clean(Escape(a, b).1)
    ensures InScope(b, Escape(a, b).0, Escape(a, b).1)
    ensures !InScope(a, Escape(a, b).0, Escape(a, b).1)
  {
    assert CleanComponent("x");
    match b
    case Beneath(y, q) =>
      assert q <= q + ["x"] && |q + ["x"]| != |q|;
    case _ =>
  }

  /** `a` grants every path that `b` grants. */
  ghost predicate GrantsAllOf(a: string, b: string)
  {
    forall path: string :: GlobMatches(b, path) ==> GlobMatches(a, path)
  }

  /** For all patterns, well-formed or not: the exact condition under which delegating `b`
      from a holder of `a` widens nothing. */
  lemma {:induction false} CoverageIsDecidable(a: string, b: string)
    ensures GrantsAllOf(a, b) <==> ScopeCovers(ScopeOf(a), ScopeOf(b))
  {
    ScopeIsClean(a);
    ScopeIsClean(b);
    if ScopeCovers(ScopeOf(a), ScopeOf(b)) {
      forall path: string | GlobMatches(b, path)
        ensures GlobMatches(a, path)
      {
        GlobRefinesScope(a, path);
        GlobRefinesScope(b, path);
      }
    } else {
      var (absolute, cs) := Escape(ScopeOf(a), ScopeOf(b));
      EscapeEscapes(ScopeOf(a), ScopeOf(b));
      var outside := Render(absolute, cs);
      ComponentsOfRender(absolute, cs);
      GlobRefinesScope(a, outside);
      GlobRefinesScope(b, outside);
      assert GlobMatches(b, outside) && !GlobMatches(a, outside);
    }
  }

  // ---------------------------------------------------------------------------
  // Well-formed globs
  // ---------------------------------------------------------------------------

  predicate PlainPath(p: string)
  {
    IsAbsolute(p) && Normalize(p) == p && '*' !in p
  }

  predicate DirectoryGlob(g: string)
  {
    |g| > 2 && g[|g| - 2..] == "/*" && PlainPath(g[..|g| - 2]) && g[..|g| - 2] != "/"
  }

  // `*`, a normalised absolute path, or `D/*` for a normalised absolute directory below the root.
  predicate WellFormedGlob(g: string)
  {
    g == "*" || PlainPath(g) || DirectoryGlob(g)
  }

  lemma {:induction false} StarInJoin(cs: seq<string>, i: nat)
    requires i < |cs| && '*' in cs[i]
    ensures '*' in Join(cs)
  {
    if i > 0 {
      StarInJoin(cs[1..], i - 1);
    }
  }

  lemma {:induction false} ComponentsOfDirectoryGlob(g: string)
    requires DirectoryGlob(g)
    ensures ScopeOf(g) == Beneath(true, Components(g[..|g| - 2]))
    ensures IsAbsolute(g) && Components(g) == Components(g[..|g| - 2]) + ["*"]
    ensures Components(g[..|g| - 2]) != []
  {
    var d := g[..|g| - 2];
    assert g == d + "/" + "*";
    assert g[..|g| - 1] == d + "/" + "";
    SplitAtSlash(d, "*");
    SplitWithoutSlash("*");
    SplitAtSlash(d, "");
    assert Split("") == [""];
    assert (Split(d) + [""])[..|Split(d)|] == Split(d);
    assert (Split(d) + ["*"])[..|Split(d)|] == Split(d);
    assert Components(d) == [] ==> Normalize(d) == "/";
  }

  lemma {:induction false} PlainPathHasNoStar(p: string, i: nat)
    requires PlainPath(p) && i < |Components(p)|
    ensures '*' !in Components(p)[i]
  {
    assert p == "/" + Join(Components(p));
    if '*' in Components(p)[i] {
      StarInJoin(Components(p), i);
    }
  }

  lemma {:induction false} WellFormedScope(g: string)
    requires WellFormedGlob(g) && g != "*"
    ensures IsAbsolute(g)
    ensures ScopeOf(g)
         == if DirectoryGlob(g) then Beneath(true, Components(g[..|g| - 2])) else Exactly(true, Components(g))
  {
    if DirectoryGlob(g) {
      ComponentsOfDirectoryGlob(g);
    }
    assert EndsWithStar(g) ==> '*' in g;
  }

  /** For well-formed globs the check made at delegation is enough: a request the parent's glob
      matches denotes a set of paths the parent's glob covers. */
  lemma {:induction false} WellFormedMatchCovers(a: string, b: string)
    requires WellFormedGlob(a) && WellFormedGlob(b) && GlobMatches(a, b)
    ensures ScopeCovers(ScopeOf(a), ScopeOf(b))
  {
    GlobRefinesScope(a, b);
    if a != "*" {
      WellFormedScope(a);
      if b != "*" {
        WellFormedScope(b);
        if DirectoryGlob(b) {
          ComponentsOfDirectoryGlob(b);
          var stem := Components(b[..|b| - 2]);
          assert Components(b) == stem + ["*"];
          assert (stem + ["*"])[|stem|] == "*" && '*' in "*";
          if DirectoryGlob(a) {
            var dir := a[..|a| - 2];
            if |Components(dir)| == |stem| + 1 {
              PlainPathHasNoStar(dir, |stem|);
            }
          } else {
            PlainPathHasNoStar(a, |stem|);
          }
        }
      }
    }
  }

  lemma {:induction false} WellFormedReflexive(g: string)
    requires WellFormedGlob(g)
    ensures GlobMatches(g, g)
  {
    GlobRefinesScope(g, g);
    if g != "*" {
      WellFormedScope(g);
      if DirectoryGlob(g) {
        ComponentsOfDirectoryGlob(g);
      }
    }
  }

  lemma {:induction false} WellFormedTransitive(a: string, b: string, path: string)
    requires WellFormedGlob(a) && WellFormedGlob(b)
    requires GlobMatches(a, b) && GlobMatches(b, path)
    ensures GlobMatches(a, path)
  {
    WellFormedMatchCovers(a, b);
    CoverageIsDecidable(a, b);
  }

  lemma {:induction false} ComponentsUnder(d: string, c: string)
    requires CleanComponent(d) && '/' !in c
    ensures Components("/" + d + "/" + c) == Push([d], c)
  {
    ComponentsOfRender(true, [d]);
    assert Render(true, [d]) == "/" + d;
    ComponentsOfPiece("/" + d, c);
  }

  // Outside the well-formed globs the delegation check is not enough: `/d/..*` passes the check
  // against `/d/*`, yet as a pattern it denotes the root, which the parent does not match.
  lemma {:induction false} OddTailEscapes(d: string, parent: string, child: string)
    requires CleanComponent(d) && parent == "/" + d + "/" + "*" && child == "/" + d + "/" + "..*"
    ensures GlobMatches(parent, child) && !GrantsAllOf(parent, child)
    ensures GlobMatches(child, "/") && !GlobMatches(parent, "/")
  {
    var none: seq<string> := [];
    assert parent[..|parent| - 1] == "/" + d + "/" + "";
    assert child[..|child| - 1] == "/" + d + "/" + "..";
    ComponentsUnder(d, "");
    ComponentsUnder(d, "..");
    ComponentsUnder(d, "..*");
    ComponentsOfRender(true, none);
    var root := Render(true, none);
    assert root == "/";
    GlobRefinesScope(parent, child);
    GlobRefinesScope(child, root);
    GlobRefinesScope(parent, root);
  }
}
