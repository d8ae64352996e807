/** Lexical Unix paths, as Go's path/filepath treats them: cleaning, joining, and the components a
    cleaned path stands for. */
module Paths {
  import opened Text

  predicate NoSlash(s: string) { forall i :: 0 <= i < |s| ==> s[i] != '/' }

  /** The text up to the first slash. */
  function Head(s: string): string
    ensures NoSlash(Head(s)) && |Head(s)| <= |s|
    ensures |Head(s)| < |s| ==> s[|Head(s)|] == '/'
    ensures Head(s) <= s
  {
    if s == "" || s[0] == '/' then "" else [s[0]] + Head(s[1..])
  }

  /** strings.Split(s, "/"). */
  function Split(s: string): (parts: seq<string>)
    ensures parts != [] && forall i :: 0 <= i < |parts| ==> NoSlash(parts[i])
    decreases |s|
  {
    var h := Head(s);
    if |h| == |s| then [h] else [h] + Split(s[|h| + 1..])
  }

  /** One element walked from a stack of components; at the root, `..` stays. */
  function Walk(stack: seq<string>, part: string): seq<string> {
    if part == "" || part == "." then stack
    else if part == ".." then (if stack == [] then [] else stack[..|stack| - 1])
    else stack + [part]
  }

  function WalkAll(stack: seq<string>, parts: seq<string>): seq<string> {
    if parts == [] then stack else Walk(WalkAll(stack, parts[..|parts| - 1]), parts[|parts| - 1])
  }

  /** The same for a relative path, where a leading `..` is kept. */
  function WalkRel(stack: seq<string>, part: string): seq<string> {
    if part == "" || part == "." then stack
    else if part == ".." then
      (if stack == [] || stack[|stack| - 1] == ".." then stack + [".."] else stack[..|stack| - 1])
    else stack + [part]
  }

  function WalkRelAll(parts: seq<string>): seq<string> {
    if parts == [] then [] else WalkRel(WalkRelAll(parts[..|parts| - 1]), parts[|parts| - 1])
  }

  predicate IsAbs(p: string) { p != "" && p[0] == '/' }

  function Render(components: seq<string>): string { "/" + Join(components, "/") }

  function RenderRel(components: seq<string>): string { if components == [] then "." else Join(components, "/") }

  /** filepath.Clean. */
  function Clean(p: string): string {
    if IsAbs(p) then Render(WalkAll([], Split(p))) else RenderRel(WalkRelAll(Split(p)))
  }

  /** filepath.Join of two elements. */
  function JoinPaths(a: string, b: string): string {
    if a == "" && b == "" then "" else if a == "" then Clean(b) else if b == "" then Clean(a) else Clean(a + "/" + b)
  }

  /** filepath.Abs for a process whose working directory is `cwd`. */
  function Abs(cwd: string, p: string): string {
    if IsAbs(p) then Clean(p) else JoinPaths(cwd, p)
  }

  /** The components of an absolute path. */
  function Components(p: string): seq<string> { WalkAll([], Split(p)) }

  predicate Proper(part: string) { part != "" && part != "." && part != ".." && NoSlash(part) }

  predicate AllProper(parts: seq<string>) { forall i :: 0 <= i < |parts| ==> Proper(parts[i]) }

  // ---- splitting and joining ----

  lemma {:induction false} HeadAppend(a: string, b: string)
    requires NoSlash(a)
    ensures Head(a + "/" + b) == a
    ensures Head(a) == a
  {
    if a == "" {
      assert a + "/" + b == "/" + b;
    } else {
      assert (a + "/" + b)[1..] == a[1..] + "/" + b;
      HeadAppend(a[1..], b);
    }
  }

  lemma {:induction false} SplitAppend(a: string, b: string)
    ensures Split(a + "/" + b) == Split(a) + Split(b)
    decreases |a|
  {
    var h := Head(a);
    if |h| == |a| {
      HeadAppend(a, b);
      assert (a + "/" + b)[|a| + 1..] == b;
    } else {
      var rest := a[|h| + 1..];
      assert a == h + "/" + rest;
      assert a + "/" + b == h + "/" + (rest + "/" + b);
      HeadAppend(h, rest + "/" + b);
      assert (h + "/" + (rest + "/" + b))[|h| + 1..] == rest + "/" + b;
      SplitAppend(rest, b);
      assert [h] + (Split(rest) + Split(b)) == ([h] + Split(rest)) + Split(b);
    }
  }

  lemma {:induction false} SplitJoin(parts: seq<string>)
    requires parts != [] && forall i :: 0 <= i < |parts| ==> NoSlash(parts[i])
    ensures Split(Join(parts, "/")) == parts
    decreases |parts|
  {
    hide Split, NoSlash;
    SplitOne(parts[0]);
    if |parts| == 1 {
      assert parts == [parts[0]];
    } else {
      SplitJoin(parts[1..]);
      SplitAppend(parts[0], Join(parts[1..], "/"));
      assert parts == [parts[0]] + parts[1..];
    }
  }

  lemma SplitOne(part: string)
    requires NoSlash(part)
    ensures Split(part) == [part]
  {
    HeadAppend(part, "");
  }

  lemma {:induction false} JoinAppend(a: seq<string>, b: seq<string>)
    requires a != [] && b != []
    ensures Join(a + b, "/") == Join(a, "/") + "/" + Join(b, "/")
    decreases |a|
  {
    if |a| == 1 {
      assert (a + b)[1..] == b;
    } else {
      assert (a + b)[1..] == a[1..] + b;
      JoinAppend(a[1..], b);
      assert a[0] + "/" + (Join(a[1..], "/") + "/" + Join(b, "/")) == (a[0] + "/" + Join(a[1..], "/")) + "/" + Join(b, "/");
    }
  }

  lemma SplitRender(parts: seq<string>)
    requires AllProper(parts)
    ensures Split(Render(parts)) == [""] + (if parts == [] then [""] else parts)
  {
    SplitAppend("", Join(parts, "/"));
    assert "" + "/" + Join(parts, "/") == Render(parts);
    assert Split("") == [""];
    if parts != [] {
      SplitJoin(parts);
    }
  }

  // ---- walking ----

  lemma {:induction false} WalkAppend(stack: seq<string>, a: seq<string>, b: seq<string>)
    ensures WalkAll(stack, a + b) == WalkAll(WalkAll(stack, a), b)
    decreases |b|
  {
    if b == [] {
      assert a + b == a;
    } else {
      assert (a + b)[..|a + b| - 1] == a + b[..|b| - 1];
      WalkAppend(stack, a, b[..|b| - 1]);
    }
  }

  lemma {:induction false} WalkProper(stack: seq<string>, parts: seq<string>)
    requires AllProper(parts)
    ensures WalkAll(stack, parts) == stack + parts
    decreases |parts|
  {
    if parts != [] {
      WalkProper(stack, parts[..|parts| - 1]);
      assert stack + parts[..|parts| - 1] + [parts[|parts| - 1]] == stack + parts;
    } else {
      assert stack + [] == stack;
    }
  }

  lemma {:induction false} WalkStaysProper(stack: seq<string>, parts: seq<string>)
    requires AllProper(stack) && forall i :: 0 <= i < |parts| ==> NoSlash(parts[i])
    ensures AllProper(WalkAll(stack, parts))
    decreases |parts|
  {
    if parts != [] {
      WalkStaysProper(stack, parts[..|parts| - 1]);
    }
  }

  lemma ComponentsProper(p: string)
    ensures AllProper(Components(p))
  {
    WalkStaysProper([], Split(p));
  }

  /** Rendering and reading components are inverse on proper components. */
  lemma ComponentsOfRender(parts: seq<string>)
    requires AllProper(parts)
    ensures Components(Render(parts)) == parts
  {
    SplitRender(parts);
    var rest := if parts == [] then [""] else parts;
    WalkAppend([], [""], rest);
    assert WalkAll([], [""]) == [] by { assert [""][..0] == []; }
    if parts == [] {
      assert WalkAll([], [""]) == [];
    } else {
      WalkProper([], parts);
      assert [] + parts == parts;
    }
  }

  /** Cleaning an absolute path is idempotent. */
  lemma CleanIsIdempotent(p: string)
    requires IsAbs(p)
    ensures IsAbs(Clean(p)) && Clean(Clean(p)) == Clean(p) && Components(Clean(p)) == Components(p)
  {
    ComponentsProper(p);
    ComponentsOfRender(Components(p));
  }

  // ---- relative paths ----

  /** What a cleaned relative path consists of: leading `..`s, then proper components. */
  predicate RelNormal(parts: seq<string>) {
    forall i :: 0 <= i < |parts| ==>
      (parts[i] == ".." && (forall j :: 0 <= j < i ==> parts[j] == "..")) || Proper(parts[i])
  }

  /** Cleaning a relative path first does not change where it leads. */
  lemma {:induction false} WalkRelSame(base: seq<string>, parts: seq<string>)
    requires forall i :: 0 <= i < |parts| ==> NoSlash(parts[i])
    ensures WalkAll(base, WalkRelAll(parts)) == WalkAll(base, parts)
    ensures RelNormal(WalkRelAll(parts))
    decreases |parts|
  {
    hide WalkRel, Walk, RelNormal, NoSlash;
    if parts == [] {
      NothingIsNormal();
    } else {
      var init, part := parts[..|parts| - 1], parts[|parts| - 1];
      WalkRelSame(base, init);
      WalkRelOne(base, WalkRelAll(init), part);
    }
  }

  lemma NothingIsNormal()
    ensures RelNormal([])
  {
  }

  lemma RelStaysNormal(r: seq<string>, part: string)
    requires RelNormal(r) && NoSlash(part)
    ensures RelNormal(WalkRel(r, part))
  {
    if part == ".." && r != [] && r[|r| - 1] == ".." {
      assert forall j :: 0 <= j < |r| ==> r[j] == "..";
    }
  }

  lemma NormalLast(r: seq<string>)
    requires RelNormal(r) && r != [] && r[|r| - 1] != ".."
    ensures r[|r| - 1] != "" && r[|r| - 1] != "."
  {
  }

  lemma WalkRelOne(base: seq<string>, r: seq<string>, part: string)
    requires RelNormal(r) && NoSlash(part)
    ensures WalkAll(base, WalkRel(r, part)) == Walk(WalkAll(base, r), part) && RelNormal(WalkRel(r, part))
  {
    hide RelNormal, Proper, NoSlash;
    RelStaysNormal(r, part);
    if r != [] && r[|r| - 1] != ".." {
      NormalLast(r);
    }
    if part == "" || part == "." {
    } else if part == ".." && r != [] && r[|r| - 1] != ".." {
      assert WalkAll(base, r) == WalkAll(base, r[..|r| - 1]) + [r[|r| - 1]];
    } else {
      assert (r + [part])[..|r + [part]| - 1] == r;
    }
  }

  lemma CleanRelLeads(base: seq<string>, rel: string)
    requires !IsAbs(rel)
    ensures WalkAll(base, Split(Clean(rel))) == WalkAll(base, Split(rel))
  {
    WalkRelSame(base, Split(rel));
    var r := WalkRelAll(Split(rel));
    if r == [] {
      HeadAppend(".", "");
      assert Split(".") == ["."];
      assert ["."][..0] == [];
      assert WalkAll(base, ["."]) == base;
    } else {
      SplitJoin(r);
    }
  }

  /** Joining to an absolute directory and cleaning is walking from it. */
  lemma JoinLeads(dir: string, rel: string)
    requires IsAbs(dir) && !IsAbs(rel)
    ensures JoinPaths(dir, Clean(rel)) == Render(WalkAll(Components(dir), Split(rel)))
  {
    var c := Clean(rel);
    assert c != "" by { RelNotEmpty(rel); }
    SplitAppend(dir, c);
    WalkAppend([], Split(dir), Split(c));
    CleanRelLeads(Components(dir), rel);
    assert IsAbs(dir + "/" + c);
  }

  lemma RelNotEmpty(rel: string)
    requires !IsAbs(rel)
    ensures Clean(rel) != ""
  {
    WalkRelSame([], Split(rel));
    var r := WalkRelAll(Split(rel));
    if r != [] {
      assert r[0] == ".." || Proper(r[0]);
      assert |Join(r, "/")| >= |r[0]|;
    }
  }

  // ---- inside a root ----

  /** The string test of the sandbox: equal, or below after a separator. */
  predicate Under(p: string, root: string) { p == root || root + "/" <= p }

  /** The component test: equal, or a proper extension of a root other than "/". */
  predicate Inside(parts: seq<string>, root: seq<string>) {
    parts == root || (root != [] && root <= parts)
  }

  lemma NoDoubleSlash(parts: seq<string>)
    requires AllProper(parts)
    ensures Render([]) + "/" == "//" && !("//" <= Render(parts))
  {
    if parts != [] {
      assert parts[0] <= Join(parts, "/");
      assert Render(parts)[1] == parts[0][0] != '/';
    }
  }

  /** String prefix plus separator is component prefix; and the root "/" covers nothing below it. */
  lemma UnderIsInside(parts: seq<string>, root: seq<string>)
    requires AllProper(parts) && AllProper(root)
    ensures Under(Render(parts), Render(root)) <==> Inside(parts, root)
  {
    ComponentsOfRender(parts);
    ComponentsOfRender(root);
    if root == [] {
      NoDoubleSlash(parts);
    } else {
      if Render(root) + "/" <= Render(parts) {
        PrefixOfRender(parts, root);
      }
      if root <= parts && parts != root {
        var more := parts[|root|..];
        assert parts == root + more;
        JoinAppend(root, more);
        assert Render(parts) == Render(root) + "/" + Join(more, "/");
      }
    }
  }

  lemma PrefixOfRender(parts: seq<string>, root: seq<string>)
    requires AllProper(parts) && AllProper(root) && root != [] && Render(root) + "/" <= Render(parts)
    ensures root <= parts
  {
    hide Split, Join, Render, AllProper;
    var p, r := Render(parts), Render(root);
    var rest := p[|r| + 1..];
    assert p == r + "/" + rest;
    SplitAppend(r, rest);
    SplitRender(parts);
    SplitRender(root);
    var whole := [""] + (if parts == [] then [""] else parts);
    assert whole == [""] + root + Split(rest);
    assert whole[1..] == root + Split(rest);
    assert |whole| >= 3;
    assert whole[1..] == parts;
  }

  // ---- what a path means, component by component ----

  /** A component and the `..` after it cancel. */
  lemma {:induction false} UpCancels(base: seq<string>, a: seq<string>, p: string, b: seq<string>)
    requires Proper(p)
    ensures WalkAll(base, a + [p, ".."] + b) == WalkAll(base, a + b)
  {
    WalkAppend(base, a + [p, ".."], b);
    WalkAppend(base, a, [p, ".."]);
    WalkAppend(base, a, b);
    var at := WalkAll(base, a);
    assert [p, ".."][..1] == [p] && [p][..0] == [];
    assert WalkAll(at, [p]) == at + [p];
    assert (at + [p])[..|at|] == at;
  }

  /** `.` and an empty component mean nothing. */
  lemma {:induction false} DotsVanish(base: seq<string>, a: seq<string>, dot: string, b: seq<string>)
    requires dot == "." || dot == ""
    ensures WalkAll(base, a + [dot] + b) == WalkAll(base, a + b)
  {
    WalkAppend(base, a + [dot], b);
    WalkAppend(base, a, [dot]);
    WalkAppend(base, a, b);
    assert [dot][..0] == [];
  }

  /** `..` at the root stays there. */
  lemma UpAtRoot(b: seq<string>)
    ensures WalkAll([], [".."] + b) == WalkAll([], b)
  {
    WalkAppend([], [".."], b);
    assert [".."][..0] == [] && WalkAll([], []) == [];
  }
}
