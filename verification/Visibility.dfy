/** Which host directories a sandbox makes visible for a manifest's file grants. */
module Visibility {
  import opened Options
  import opened Paths

  // ---------------------------------------------------------------------------
  // Reading declarations
  // ---------------------------------------------------------------------------

  /** A manifest entry; the parameterised form never grants files. */
  datatype Declaration = Simple(text: string) | WithParams

  /** The Unicode white-space characters. */
  predicate IsSpace(c: char)
  {
    var n := c as int;
    9 <= n <= 13 || n == 32 || n == 133 || n == 160 || n == 5760 || 8192 <= n <= 8202
    || n == 8232 || n == 8233 || n == 8239 || n == 8287 || n == 12288
  }

  predicate AllSpace(s: string)
  {
    forall c :: c in s ==> IsSpace(c)
  }

  function TrimStart(s: string): (r: string)
  {
    if s != "" && IsSpace(s[0]) then TrimStart(s[1..]) else s
  }

  function TrimEnd(s: string): (r: string)
  {
    if s != "" && IsSpace(s[|s| - 1]) then TrimEnd(s[..|s| - 1]) else s
  }

  function Trim(s: string): (r: string)
  {
    TrimEnd(TrimStart(s))
  }

  /** The index of the first colon, or the length. */
  function Colon(s: string): (i: nat)
    ensures i <= |s| && (i < |s| ==> s[i] == ':') && ':' !in s[..i]
  {
    if s == "" || s[0] == ':' then 0
    else
      var i := 1 + Colon(s[1..]);
      assert s[..i] == [s[0]] + s[1..][..i - 1];
      i
  }

  const FILE_READ := "file_read"
  const FILE_WRITE := "file_write"

  /** The glob a declaration grants when capabilities are issued. */
  function GrantedGlob(decl: Declaration): (g: Option<string>)
  {
    if decl.WithParams? then None else
    var s := Trim(decl.text);
    if FILE_READ + ":" <= s then Some(Trim(s[|FILE_READ| + 1..]))
    else if FILE_WRITE + ":" <= s then Some(Trim(s[|FILE_WRITE| + 1..]))
    else None
  }

  /** The glob the sandbox builder sees in a declaration. */
  function SeenGlob(decl: Declaration): (g: Option<string>)
  {
    if decl.WithParams? then None else
    var i := Colon(decl.text);
    if i == |decl.text| then None
    else
      var kind := Trim(decl.text[..i]);
      if kind == FILE_READ || kind == FILE_WRITE then Some(Trim(decl.text[i + 1..])) else None
  }

  // ---------------------------------------------------------------------------
  // Roots
  // ---------------------------------------------------------------------------

  /** The text before the first star or brace. */
  function Literal(s: string): (r: string)
    ensures r <= s && '*' !in r && '{' !in r
    ensures r != s ==> s[|r|] == '*' || s[|r|] == '{'
  {
    if s == "" || s[0] == '*' || s[0] == '{' then ""
    else
      var rest := Literal(s[1..]);
      assert s == [s[0]] + s[1..];
      [s[0]] + rest
  }

  /** The components of a path as the file system library reads it: `..` is kept. */
  function Kept(pieces: seq<string>): (r: seq<string>)
  {
    if pieces == [] then []
    else
      var last := pieces[|pieces| - 1];
      Kept(pieces[..|pieces| - 1]) + if last == "" || last == "." then [] else [last]
  }

  function Parent(cs: seq<string>): (r: seq<string>)
  {
    if cs == [] then [] else cs[..|cs| - 1]
  }

  function RootOfText(text: string): (r: seq<string>)
    requires text != ""
  {
    if text[|text| - 1] == '/' then Kept(Split(text)) else Parent(Kept(Split(text)))
  }

  /** The directory to show for a glob, if the glob is absolute; no components stand for the root directory. */
  function RootOfGlob(glob: string): (r: Option<seq<string>>)
  {
    var text := Literal(glob);
    if !IsAbsolute(text) then None
    else Some(RootOfText(text))
  }

  function RootOf(decl: Declaration): (r: Option<seq<string>>)
  {
    var glob := SeenGlob(decl);
    if glob.None? then None
    else
      var root := RootOfGlob(glob.value);
      if root.None? || root.value == [] then None else root
  }

  function RootsOf(decls: seq<Declaration>): (r: seq<Option<seq<string>>>)
    ensures |r| == |decls| && forall i :: 0 <= i < |r| ==> r[i] == RootOf(decls[i])
  {
    seq(|decls|, i requires 0 <= i < |decls| => RootOf(decls[i]))
  }

  function Somes<T>(os: seq<Option<T>>): (r: seq<T>)
  {
    if os == [] then []
    else Somes(os[..|os| - 1]) + if os[|os| - 1].Some? then [os[|os| - 1].value] else []
  }

  /** The roots of the declarations that have one, in order. */
  function Extracted(decls: seq<Declaration>): (r: seq<seq<string>>)
  {
    Somes(RootsOf(decls))
  }

  lemma {:induction false} ExtractedNext(decls: seq<Declaration>, k: nat)
    requires k < |decls|
    ensures Extracted(decls[..k + 1])
         == Extracted(decls[..k]) + if RootOf(decls[k]).Some? then [RootOf(decls[k]).value] else []
  {
    assert RootsOf(decls[..k + 1])[..k] == RootsOf(decls[..k]);
  }

  method ExtractCapabilityRoots(decls: seq<Declaration>) returns (roots: seq<seq<string>>)
    ensures roots == Extracted(decls)
  {
    roots := [];
    for k := 0 to |decls|
      invariant roots == Extracted(decls[..k])
    {
      ExtractedNext(decls, k);
      var seen := SeenGlob(decls[k]);
      if seen.None? {
        continue;
      }
      var text := Literal(seen.value);
      if !IsAbsolute(text) {
        continue;
      }
      var root := Kept(Split(text));
      if text[|text| - 1] != '/' {
        root := Parent(root);
      }
      if root == [] {
        continue;
      }
      roots := roots + [root];
    }
    assert decls[..|decls|] == decls;
  }

  lemma {:induction false} SomesAre<T>(os: seq<Option<T>>, x: T)
    ensures x in Somes(os) <==> Some(x) in os
  {
    if os != [] {
      var init, last := os[..|os| - 1], os[|os| - 1];
      SomesAre(init, x);
      assert os == init + [last];
    }
  }

  lemma {:induction false} ExtractedAre(decls: seq<Declaration>, root: seq<string>)
    ensures root in Extracted(decls) <==> exists i :: 0 <= i < |decls| && RootOf(decls[i]) == Some(root)
  {
    SomesAre(RootsOf(decls), root);
    assert forall i :: 0 <= i < |decls| ==> RootsOf(decls)[i] == RootOf(decls[i]);
  }

  // ---------------------------------------------------------------------------
  // The policy
  // ---------------------------------------------------------------------------

  datatype Directory = Directory(absolute: bool, parts: seq<string>)

  predicate Under(dir: Option<Directory>, cs: seq<string>)
  {
    dir.Some? && dir.value.absolute && dir.value.parts <= cs
  }

  const SCRATCH: seq<string> := ["scratch"]

  /** What does not depend on the manifest: the shared libraries, the workspace, and which directories exist. */
  datatype Host = Host(sharedLibs: set<seq<string>>, workspace: Option<Directory>, present: seq<string> -> bool)

  datatype Policy = Policy(scratch: seq<string>, sharedLibs: set<seq<string>>, workspace: Option<Directory>,
                           roots: set<seq<string>>)

  /** Roots beneath the workspace or missing on the host are dropped, and duplicates collapse. */
  function PolicyFor(decls: seq<Declaration>, host: Host): (p: Policy)
  {
    Policy(SCRATCH, host.sharedLibs, host.workspace,
           set r | r in Extracted(decls) && !Under(host.workspace, r) && host.present(r))
  }

  /** Beneath the directories that are there for every manifest without a workspace. */
  predicate Given(p: Policy, cs: seq<string>)
  {
    p.scratch <= cs || exists lib :: lib in p.sharedLibs && lib <= cs
  }

  predicate Visible(p: Policy, cs: seq<string>)
  {
    Given(p, cs) || Under(p.workspace, cs) || BeneathRoot(p, cs)
  }

  predicate BeneathRoot(p: Policy, cs: seq<string>)
  {
    exists r :: r in p.roots && r <= cs
  }

  // ---------------------------------------------------------------------------
  // Both readings of a declaration agree on file grants
  // ---------------------------------------------------------------------------

  lemma {:induction false} TrimStartOfAppend(x: string, y: string)
    ensures TrimStart(x + y) == if TrimStart(x) == "" then TrimStart(y) else TrimStart(x) + y
    ensures AllSpace(x) ==> TrimStart(x) == ""
  {
    if x == "" {
      assert x + y == y;
    } else {
      assert (x + y)[1..] == x[1..] + y;
      TrimStartOfAppend(x[1..], y);
    }
  }

  lemma {:induction false} TrimEndOfSpace(x: string, y: string)
    requires AllSpace(y)
    ensures TrimEnd(x + y) == TrimEnd(x)
  {
    if y == "" {
      assert x + y == x;
    } else {
      var n := |y| - 1;
      assert (x + y)[..|x + y| - 1] == x + y[..n];
      TrimEndOfSpace(x, y[..n]);
    }
  }

  lemma {:induction false} TrimStartCuts(s: string)
    ensures exists a :: s == a + TrimStart(s) && AllSpace(a)
  {
    if s != "" && IsSpace(s[0]) {
      TrimStartCuts(s[1..]);
      var a :| s[1..] == a + TrimStart(s[1..]) && AllSpace(a);
      assert s == ([s[0]] + a) + TrimStart(s) && AllSpace([s[0]] + a);
    } else {
      assert s == "" + TrimStart(s) && AllSpace("");
    }
  }

  lemma {:induction false} TrimEndCuts(s: string)
    ensures exists b :: s == TrimEnd(s) + b && AllSpace(b)
  {
    if s != "" && IsSpace(s[|s| - 1]) {
      var n := |s| - 1;
      TrimEndCuts(s[..n]);
      var b :| s[..n] == TrimEnd(s[..n]) + b && AllSpace(b);
      assert s == TrimEnd(s) + (b + [s[n]]) && AllSpace(b + [s[n]]);
    } else {
      assert s == TrimEnd(s) + "" && AllSpace("");
    }
  }

  lemma {:induction false} TrimCuts(s: string)
    ensures exists a, b :: s == a + Trim(s) + b && AllSpace(a) && AllSpace(b)
  {
    TrimStartCuts(s);
    TrimEndCuts(TrimStart(s));
    var a :| s == a + TrimStart(s) && AllSpace(a);
    var b :| TrimStart(s) == Trim(s) + b && AllSpace(b);
    assert s == a + Trim(s) + b;
  }

  predicate Keyword(kind: string)
  {
    kind != "" && !IsSpace(kind[0]) && !IsSpace(kind[|kind| - 1]) && ':' !in kind
  }

  lemma {:induction false} TrimOfPadded(a: string, kind: string)
    requires AllSpace(a) && Keyword(kind)
    ensures Trim(a + kind) == kind
  {
    TrimStartOfAppend(a, kind);
  }

  lemma {:induction false} TrimIgnoresTail(rest: string, b: string)
    requires AllSpace(b)
    ensures Trim(rest + b) == Trim(rest)
  {
    TrimStartOfAppend(rest, b);
    TrimStartOfAppend(b, "");
    assert b + "" == b;
    TrimEndOfSpace(TrimStart(rest), b);
  }

  lemma {:induction false} FirstColon(x: string, y: string)
    requires ':' !in x
    ensures Colon(x + ":" + y) == |x|
  {
    var s := x + ":" + y;
    if x == "" {
      assert s[0] == ':';
    } else {
      assert s[1..] == x[1..] + ":" + y;
      FirstColon(x[1..], y);
    }
  }

  lemma {:induction false} KeywordsAreKeywords()
    ensures Keyword(FILE_READ) && Keyword(FILE_WRITE)
  {
  }

  lemma {:induction false} Regroup(a: string, kind: string, rest: string, b: string)
    ensures a + (kind + ":" + rest) + b == (a + kind) + ":" + (rest + b)
  {
  }

  lemma {:induction false} HalvesAtColon(x: string, y: string)
    requires ':' !in x
    ensures var s := x + ":" + y;
            Colon(s) == |x| && s[..|x|] == x && s[|x| + 1..] == y
  {
    FirstColon(x, y);
  }

  /** Whatever padding surrounds it, a file grant is seen with exactly the glob it was issued for. */
  lemma {:induction false} GrantIsSeen(decl: Declaration, kind: string)
    requires decl.Simple? && Keyword(kind) && (kind == FILE_READ || kind == FILE_WRITE) && kind + ":" <= Trim(decl.text)
    ensures SeenGlob(decl) == Some(Trim(Trim(decl.text)[|kind| + 1..]))
  {
    var t := Trim(decl.text);
    var rest := t[|kind| + 1..];
    assert t == kind + ":" + rest;
    TrimCuts(decl.text);
    var a, b :| decl.text == a + t + b && AllSpace(a) && AllSpace(b);
    Regroup(a, kind, rest, b);
    SeenWithPadding(decl, a, kind, rest, b);
  }

  lemma {:induction false} SeenWithPadding(decl: Declaration, a: string, kind: string, rest: string, b: string)
    requires decl == Simple((a + kind) + ":" + (rest + b)) && AllSpace(a) && AllSpace(b)
    requires Keyword(kind) && (kind == FILE_READ || kind == FILE_WRITE)
    ensures SeenGlob(decl) == Some(Trim(rest))
  {
    HalvesAtColon(a + kind, rest + b);
    TrimOfPadded(a, kind);
    TrimIgnoresTail(rest, b);
  }

  lemma {:induction false} TrimEndOfAppend(x: string, y: string)
    ensures TrimEnd(x + y) == if TrimEnd(y) == "" then TrimEnd(x) else x + TrimEnd(y)
  {
    if y == "" {
      assert x + y == x;
    } else {
      var n := |y| - 1;
      assert (x + y)[..|x + y| - 1] == x + y[..n];
      TrimEndOfAppend(x, y[..n]);
      assert x + y == x + y[..n] + [y[n]];
    }
  }

  lemma {:induction false} TrimTwice(s: string)
    ensures Trim(TrimEnd(s)) == Trim(s)
  {
    TrimEndCuts(s);
    var b :| s == TrimEnd(s) + b && AllSpace(b);
    TrimIgnoresTail(TrimEnd(s), b);
  }

  /** A file grant, padded or not, is issued for the text behind its colon. */
  lemma {:induction false} GrantIsIssued(a: string, kind: string, rest: string)
    requires AllSpace(a) && (kind == "file_read" || kind == "file_write")
    ensures GrantedGlob(Simple(a + (kind + ":" + rest))) == Some(Trim(rest))
  {
    KeywordsAreKeywords();
    var head, text := kind + ":", a + (kind + ":" + rest);
    TrimStartOfAppend(a, head + rest);
    assert TrimStart(head + rest) == head + rest;
    TrimEndOfAppend(head, rest);
    var tail := TrimEnd(rest);
    assert TrimEnd(head) == head;
    assert Trim(text) == head + tail;
    assert (head + tail)[|head|..] == tail;
    TrimTwice(rest);
    KindsDiffer(tail);
  }

  lemma {:induction false} KindsDiffer(tail: string)
    ensures !(FILE_READ + ":" <= FILE_WRITE + ":" + tail)
  {
    var s := FILE_WRITE + ":" + tail;
    assert s[5] == 'w' && (FILE_READ + ":")[5] == 'r';
  }

  lemma {:induction false} GrantsAreSeen(decl: Declaration)
    requires GrantedGlob(decl).Some?
    ensures SeenGlob(decl) == GrantedGlob(decl)
  {
    KeywordsAreKeywords();
    if FILE_READ + ":" <= Trim(decl.text) {
      GrantIsSeen(decl, FILE_READ);
    } else {
      GrantIsSeen(decl, FILE_WRITE);
    }
  }

  // ---------------------------------------------------------------------------
  // The root of a well-formed glob lies above everything the glob matches
  // ---------------------------------------------------------------------------

  lemma {:induction false} KeptOfAppend(a: seq<string>, b: seq<string>)
    ensures Kept(a + b) == Kept(a) + Kept(b)
  {
    if b == [] {
      assert a + b == a;
    } else {
      var n := |b| - 1;
      KeptOfAppend(a, b[..n]);
      assert (a + b)[..|a + b| - 1] == a + b[..n];
    }
  }

  lemma {:induction false} KeptOfClean(cs: seq<string>)
    requires Clean(cs)
    ensures Kept(cs) == cs
  {
    if cs != [] {
      var n := |cs| - 1;
      KeptOfClean(cs[..n]);
      assert CleanComponent(cs[n]);
      assert cs == cs[..n] + [cs[n]];
    }
  }

  /** Cutting a string leaves all its pieces but the last as they were. */
  lemma {:induction false} SplitOfCut(t: string, u: string)
    ensures |Split(t)| <= |Split(t + u)|
    ensures Split(t)[..|Split(t)| - 1] == Split(t + u)[..|Split(t)| - 1]
  {
    if t != "" {
      SplitOfCut(t[1..], u);
      assert (t + u)[1..] == t[1..] + u;
    }
  }

  lemma {:induction false} KeptOfPlain(d: string)
    requires PlainPath(d)
    ensures Kept(Split(d + "/")) == Components(d)
  {
    var cs := Components(d);
    ComponentsAreClean(d);
    SplitOfRender(true, cs);
    assert d == Render(true, cs);
    SplitAtSlash(d, "");
    assert d + "/" + "" == d + "/";
    assert Split("") == [""];
    var head: seq<string> := [""];
    assert Kept(head) == [];
    KeptOfAppend(Split(d), head);
    KeptOfAppend(head, if cs == [] then head else cs);
    KeptOfClean(cs);
  }

  lemma {:induction false} KeptBeforeCut(d: string, text: string)
    requires PlainPath(d) && text <= d + "/"
    ensures Kept(Split(text)[..|Split(text)| - 1]) <= Components(d)
  {
    var whole := d + "/";
    var front := Split(text)[..|Split(text)| - 1];
    assert whole == text + whole[|text|..];
    SplitOfCut(text, whole[|text|..]);
    assert Split(whole) == front + Split(whole)[|front|..];
    KeptOfAppend(front, Split(whole)[|front|..]);
    KeptOfPlain(d);
  }

  lemma {:induction false} LastPieceAfterSlash(text: string)
    requires text != "" && text[|text| - 1] == '/'
    ensures Split(text)[|Split(text)| - 1] == ""
  {
    var front := text[..|text| - 1];
    assert text == front + "/" + "";
    SplitAtSlash(front, "");
    assert Split("") == [""];
  }

  lemma {:induction false} RootOfCut(d: string, text: string)
    requires PlainPath(d) && text <= d + "/" && text != ""
    ensures RootOfText(text) <= Components(d)
  {
    KeptBeforeCut(d, text);
    if text[|text| - 1] == '/' {
      LastPieceAfterSlash(text);
    }
  }

  // ---------------------------------------------------------------------------
  // Which directory that is
  // ---------------------------------------------------------------------------

  /** The index of the first component with a brace, or the length. */
  function BraceAt(cs: seq<string>): (i: nat)
    ensures i <= |cs| && (i < |cs| ==> '{' in cs[i]) && forall k :: 0 <= k < i ==> '{' !in cs[k]
  {
    if cs == [] || '{' in cs[0] then 0 else 1 + BraceAt(cs[1..])
  }

  /** The components a well-formed glob spells out. */
  function Spelled(glob: string): (cs: seq<string>)
  {
    Components(if DirectoryGlob(glob) then glob[..|glob| - 2] else glob)
  }

  // The directory a well-formed glob stands for: `D` for `D/*`, and the directory that contains it for a single path.
  // A brace cuts the glob short: what counts is in front of the component with the brace, and one component less if
  // that component begins with a dot and the brace.
  function DirectoryOf(glob: string): (cs: seq<string>)
  {
    var cs := Spelled(glob);
    var i := BraceAt(cs);
    if i < |cs| then (if ".{" <= cs[i] then Parent(cs[..i]) else cs[..i])
    else if DirectoryGlob(glob) then cs
    else Parent(cs)
  }

  lemma {:induction false} LiteralOfPlain(s: string)
    requires '*' !in s && '{' !in s
    ensures Literal(s) == s
  {
  }

  lemma {:induction false} LiteralUpTo(s: string, n: nat)
    requires n < |s| && (s[n] == '*' || s[n] == '{') && '*' !in s[..n] && '{' !in s[..n]
    ensures Literal(s) == s[..n]
  {
    if n > 0 {
      assert s[0] == s[..n][0] && s[..n] == [s[0]] + s[1..][..n - 1];
      LiteralUpTo(s[1..], n - 1);
    }
  }

  lemma {:induction false} NoBraceInJoin(cs: seq<string>)
    requires forall k :: 0 <= k < |cs| ==> '{' !in cs[k]
    ensures '{' !in Join(cs)
  {
    if |cs| > 1 {
      NoBraceInJoin(cs[1..]);
    }
  }

  lemma {:induction false} LastOfJoin(cs: seq<string>)
    requires Clean(cs) && cs != []
    ensures Join(cs) != "" && Join(cs)[|Join(cs)| - 1] != '/'
  {
    assert CleanComponent(cs[0]) && cs[0][|cs[0]| - 1] in cs[0];
    if |cs| > 1 {
      LastOfJoin(cs[1..]);
    }
  }

  lemma {:induction false} KeptOfPath(p: string)
    requires PlainPath(p)
    ensures Kept(Split(p)) == Components(p)
    ensures Components(p) != [] ==> p[|p| - 1] != '/'
  {
    var cs := Components(p);
    ComponentsAreClean(p);
    assert p == Render(true, cs);
    SplitOfRender(true, cs);
    var head: seq<string> := [""];
    assert Kept(head) == [];
    KeptOfAppend(head, if cs == [] then head else cs);
    KeptOfClean(cs);
    if cs != [] {
      LastOfJoin(cs);
    }
  }

  lemma {:induction false} KeptOfOne(piece: string)
    ensures Kept([piece]) == if piece == "" || piece == "." then [] else [piece]
  {
    var none: seq<string> := [];
    assert [piece][..0] == none && Kept(none) == none;
  }

  lemma {:induction false} SplitOfCutPath(cs: seq<string>, piece: string)
    requires Clean(cs) && '/' !in piece
    ensures Split("/" + Join(cs + [piece])) == [""] + (cs + [piece])
  {
    var all := cs + [piece];
    assert SlashFree(all);
    assert "/" + Join(all) == "" + "/" + Join(all);
    SplitAtSlash("", Join(all));
    SplitOfJoin(all);
    assert Split("") == [""];
  }

  /** A text that ends inside a component. */
  lemma {:induction false} RootInside(cs: seq<string>, piece: string, text: string)
    requires Clean(cs) && '/' !in piece && text == "/" + Join(cs + [piece])
    ensures RootOfText(text) == if piece == "." then Parent(cs) else cs
  {
    SplitOfCutPath(cs, piece);
    KeptOfAppend([""], cs + [piece]);
    KeptOfAppend(cs, [piece]);
    KeptOfClean(cs);
    KeptOfOne("");
    KeptOfOne(piece);
    EndOfJoin(cs, piece);
    var kept := Kept(Split(text));
    assert piece == "" || piece == "." ==> kept == cs;
    assert piece != "" && piece != "." ==> kept == cs + [piece] && Parent(kept) == cs;
  }

  lemma {:induction false} EndOfJoin(cs: seq<string>, piece: string)
    requires Clean(cs) && '/' !in piece
    ensures var text := "/" + Join(cs + [piece]); text[|text| - 1] == '/' <==> piece == ""
  {
    if cs == [] {
      assert cs + [piece] == [piece];
    } else {
      JoinOfAppend(cs, [piece]);
    }
    if piece != "" {
      assert piece[|piece| - 1] in piece;
    }
  }

  /** Cutting a joined path inside component `i`. */
  lemma {:induction false} JoinCut(cs: seq<string>, i: nat, n: nat)
    requires i < |cs| && n < |cs[i]|
    ensures var cut := Join(cs[..i] + [cs[i][..n]]); cut < Join(cs) && Join(cs)[|cut|] == cs[i][n]
  {
    var front, rest := cs[..i] + [cs[i][..n]], cs[i + 1..];
    var whole := cs[..i] + [cs[i]];
    assert cs == whole + rest;
    if rest != [] {
      JoinOfAppend(whole, rest);
    } else {
      assert cs == whole;
    }
    if i > 0 {
      JoinOfAppend(cs[..i], [cs[i]]);
      JoinOfAppend(cs[..i], [cs[i][..n]]);
    } else {
      assert whole == [cs[i]] && front == [cs[i][..n]];
    }
  }

  lemma {:induction false} InPrefix(a: string, b: string, c: char)
    requires a <= b && c !in b
    ensures c !in a
  {
    assert forall k :: 0 <= k < |a| ==> a[k] == b[k];
  }

  /** The component with the first brace, up to the brace. */
  lemma {:induction false} BraceInComponent(c: string)
    requires '{' in c && '*' !in c
    ensures var n := |Literal(c)|; n < |c| && c[n] == '{' && '{' !in c[..n]
    ensures c[..|Literal(c)|] == "." <==> ".{" <= c
  {
    var n := |Literal(c)|;
    assert Literal(c) == c[..n];
    assert n < |c| ==> c[n] in c;
    if ".{" <= c {
      assert c[..1] == "." && c[1] == '{';
      LiteralUpTo(c, 1);
    }
  }

  lemma {:induction false} LiteralBeforeBrace(glob: string, cs: seq<string>, i: nat, n: nat)
    requires i == BraceAt(cs) < |cs| && n < |cs[i]| && cs[i][n] == '{' && '{' !in cs[i][..n]
    requires "/" + Join(cs) <= glob && '*' !in Join(cs)
    ensures Literal(glob) == "/" + Join(cs[..i] + [cs[i][..n]])
  {
    var front := cs[..i] + [cs[i][..n]];
    var text := "/" + Join(front);
    JoinCut(cs, i, n);
    NoBraceInJoin(front);
    InPrefix(Join(front), Join(cs), '*');
    var whole := "/" + Join(cs);
    assert whole[|text|] == '{' && glob[|text|] == whole[|text|];
    assert glob[..|text|] == whole[..|text|] == text;
    LiteralUpTo(glob, |text|);
  }

  lemma {:induction false} RootBeforeBrace(glob: string, cs: seq<string>, i: nat)
    requires Clean(cs) && i == BraceAt(cs) < |cs| && "/" + Join(cs) <= glob && '*' !in Join(cs)
    ensures RootOfGlob(glob) == Some(if ".{" <= cs[i] then Parent(cs[..i]) else cs[..i])
  {
    var c := cs[i];
    var n := |Literal(c)|;
    assert CleanComponent(c);
    StarInJoinOf(cs, i);
    BraceInComponent(c);
    LiteralBeforeBrace(glob, cs, i, n);
    RootInside(cs[..i], c[..n], Literal(glob));
  }

  lemma {:induction false} StarInJoinOf(cs: seq<string>, i: nat)
    requires i < |cs| && '*' !in Join(cs)
    ensures '*' !in cs[i]
  {
    if '*' in cs[i] {
      StarInJoin(cs, i);
    }
  }

  lemma {:induction false} RootWithoutBrace(glob: string)
    requires (PlainPath(glob) || DirectoryGlob(glob)) && BraceAt(Spelled(glob)) == |Spelled(glob)|
    ensures RootOfGlob(glob) == Some(if DirectoryGlob(glob) then Spelled(glob) else Parent(Spelled(glob)))
  {
    var d := if DirectoryGlob(glob) then glob[..|glob| - 2] else glob;
    NoBraceInJoin(Components(d));
    assert d == "/" + Join(Components(d));
    if DirectoryGlob(glob) {
      var n := |glob| - 1;
      assert glob[..n] == d + "/" && glob[n] == '*';
      LiteralUpTo(glob, n);
      KeptOfPlain(d);
    } else {
      LiteralOfPlain(glob);
      KeptOfPath(glob);
      assert Components(glob) == [] ==> glob == "/";
    }
  }

  /** The root extracted for a well-formed glob is the directory it stands for. */
  lemma {:induction false} RootIsDirectory(glob: string)
    requires WellFormedGlob(glob) && glob != "*"
    ensures RootOfGlob(glob) == Some(DirectoryOf(glob))
  {
    var d := if DirectoryGlob(glob) then glob[..|glob| - 2] else glob;
    var cs := Components(d);
    ComponentsAreClean(d);
    if BraceAt(cs) < |cs| {
      assert d == "/" + Join(cs) && d <= glob;
      assert '*' !in Join(cs) by {
        assert forall k :: 0 <= k < |Join(cs)| ==> Join(cs)[k] == d[k + 1];
      }
      RootBeforeBrace(glob, cs, BraceAt(cs));
    } else {
      RootWithoutBrace(glob);
    }
  }

  /** Nothing more is shown than the grant needs: of all directories above everything that a directory glob without
      braces matches, the root is the lowest. */
  lemma {:induction false} RootIsLowest(glob: string, cs: seq<string>)
    requires DirectoryGlob(glob) && '{' !in glob
    ensures RootOfGlob(glob) == Some(Components(glob[..|glob| - 2]))
    ensures (forall path :: GlobMatches(glob, path) ==> cs <= Components(path)) <==> cs <= RootOfGlob(glob).value
  {
    var d := glob[..|glob| - 2];
    BracesAreSpelled(d);
    RootIsDirectory(glob);
    ComponentsOfDirectoryGlob(glob);
    GlobRefinesScope(glob, d);
    assert GlobMatches(glob, d);
    forall path | GlobMatches(glob, path)
      ensures Components(d) <= Components(path)
    {
      GlobRefinesScope(glob, path);
    }
  }

  lemma {:induction false} BraceInJoin(cs: seq<string>, i: nat)
    requires i < |cs| && '{' in cs[i]
    ensures '{' in Join(cs)
  {
    if i > 0 {
      BraceInJoin(cs[1..], i - 1);
    }
  }

  lemma {:induction false} BracesAreSpelled(d: string)
    requires PlainPath(d) && '{' !in d
    ensures BraceAt(Components(d)) == |Components(d)|
  {
    var cs := Components(d);
    assert d == "/" + Join(cs);
    if BraceAt(cs) < |cs| {
      BraceInJoin(cs, BraceAt(cs));
    }
  }

  /** For a single path without braces the root is the directory that contains it. */
  lemma {:induction false} RootContainsPath(path: string)
    requires PlainPath(path) && path != "/" && '{' !in path
    ensures Components(path) != []
    ensures RootOfGlob(path) == Some(Components(path)[..|Components(path)| - 1])
  {
    BracesAreSpelled(path);
    assert |path| > 2 ==> path[|path| - 2..][1] in path;
    RootIsDirectory(path);
  }

  /** The root of a well-formed glob is above every path the glob matches. */
  lemma {:induction false} RootIsAbove(glob: string, path: string)
    requires WellFormedGlob(glob) && glob != "*" && GlobMatches(glob, path)
    ensures IsAbsolute(path)
    ensures RootOfGlob(glob).Some? && RootOfGlob(glob).value <= Components(path)
  {
    WellFormedScope(glob);
    GlobRefinesScope(glob, path);
    var text := Literal(glob);
    assert IsAbsolute(text);
    if DirectoryGlob(glob) {
      var d := glob[..|glob| - 2];
      assert d + "/" == glob[..|glob| - 1];
      assert |text| <= |glob| - 1 by {
        assert |text| == |glob| ==> text == glob && '*' in text;
      }
      RootOfCut(d, text);
    } else {
      assert text <= glob + "/";
      RootOfCut(glob, text);
    }
  }

  /** For every manifest: a path that one of its well-formed file grants matches lies beneath the workspace or
      beneath a root of the policy, unless the directory that grant stands for is the root directory or missing on
      the host. */
  lemma {:induction false} VisibilityCoversAuthority(decls: seq<Declaration>, host: Host, i: nat, glob: string,
                                                     path: string)
    requires i < |decls| && GrantedGlob(decls[i]) == Some(glob)
    requires WellFormedGlob(glob) && glob != "*" && GlobMatches(glob, path)
    ensures var root, p, cs := DirectoryOf(glob), PolicyFor(decls, host), Components(path);
            root == [] || !host.present(root) || Under(p.workspace, cs) || BeneathRoot(p, cs)
  {
    GrantsAreSeen(decls[i]);
    RootIsAbove(glob, path);
    RootIsDirectory(glob);
    var root, p := DirectoryOf(glob), PolicyFor(decls, host);
    if root != [] && host.present(root) && !Under(host.workspace, root) {
      assert RootOf(decls[i]) == Some(root);
      ExtractedAre(decls, root);
      assert root in p.roots;
    }
  }

  lemma {:induction false} RootsOfOne(decl: Declaration, host: Host, glob: string, root: seq<string>, p: Policy)
    requires SeenGlob(decl) == Some(glob) && RootOfGlob(glob) == Some(root) && p == PolicyFor([decl], host)
    ensures forall r :: r in p.roots ==> root != [] && host.present(root)
  {
    forall r | r in p.roots
      ensures root != [] && host.present(root)
    {
      ExtractedAre([decl], r);
    }
  }

  /** The exceptions are real: with that grant alone and no workspace, the path is visible exactly when the directory
      the grant stands for is neither the root directory nor missing, or the path lies in the scratch or the shared
      library directories. */
  lemma {:induction false} VisibleExactlyWhenRootIsKept(decl: Declaration, host: Host, glob: string, path: string)
    requires GrantedGlob(decl) == Some(glob) && host.workspace.None?
    requires WellFormedGlob(glob) && glob != "*" && GlobMatches(glob, path)
    ensures var root, p, cs := DirectoryOf(glob), PolicyFor([decl], host), Components(path);
            Visible(p, cs) <==> (root != [] && host.present(root)) || Given(p, cs)
  {
    var p := PolicyFor([decl], host);
    VisibilityCoversAuthority([decl], host, 0, glob, path);
    GrantsAreSeen(decl);
    RootIsDirectory(glob);
    RootsOfOne(decl, host, glob, DirectoryOf(glob), p);
    assert !Under(p.workspace, Components(path));
  }
}
