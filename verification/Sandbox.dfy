/** The sandbox (internal/agent/sandbox.go): tool paths are resolved and confined to granted roots. */
module Sandbox {
  import opened Common
  import opened Paths
  import Text

  const EMPTY_PATH := "empty path"
  const OUTSIDE := "path is outside the allowed directories"

  /** Where a tool path leads, as components: from the root, or from the primary directory. */
  function Target(primary: string, rel: string): seq<string> {
    if IsAbs(rel) then Components(rel) else WalkAll(Components(primary), Split(rel))
  }

  class Sandbox {
    /** Absolute and cleaned; the first is the primary directory. */
    var roots: seq<string>

    ghost predicate Valid()
      reads this
    {
      roots != [] && forall i :: 0 <= i < |roots| ==> IsAbs(roots[i]) && Clean(roots[i]) == roots[i]
    }

    constructor (cwd: string, root: string)
      requires IsAbs(cwd)
      ensures Valid() && roots == [Abs(cwd, root)]
    {
      AbsIsClean(cwd, root);
      roots := [Abs(cwd, root)];
    }

    /** Grants one more root, unless it is granted already; no earlier root is taken away. */
    method Add(cwd: string, root: string, isDir: bool) returns (r: Result<string>)
      requires Valid() && IsAbs(cwd)
      modifies this
      ensures Valid() && r.Ok? == isDir
      ensures isDir ==> r.value == Abs(cwd, root)
      ensures roots == if isDir && r.value !in old(roots) then old(roots) + [r.value] else old(roots)
    {
      var abs := Abs(cwd, root);
      AbsIsClean(cwd, root);
      if !isDir {
        return Err("not a directory");
      }
      for i := 0 to |roots|
        invariant roots == old(roots) && forall j :: 0 <= j < i ==> roots[j] != abs
      {
        if roots[i] == abs {
          return Ok(abs);
        }
      }
      roots := roots + [abs];
      return Ok(abs);
    }

    /** Accepts exactly the non-blank paths whose target lies inside some root, component by component,
        and returns the target's path. */
    method Resolve(cwd: string, rel: string) returns (r: Result<string>)
      requires Valid() && IsAbs(cwd)
      ensures Text.TrimSpace(rel) == "" ==> r == Err(EMPTY_PATH)
      ensures Text.TrimSpace(rel) != "" ==>
        var target := Target(roots[0], rel);
        r == if exists i :: 0 <= i < |roots| && Inside(target, Components(roots[i]))
             then Ok(Render(target)) else Err(OUTSIDE)
    {
      hide Clean, JoinPaths, Abs, Components, Inside, Render, AllProper, Target, Text.TrimSpace;
      if Text.TrimSpace(rel) == "" {
        return Err(EMPTY_PATH);
      }
      var cand := if IsAbs(rel) then Clean(rel) else JoinPaths(roots[0], Clean(rel));
      var candAbs := Abs(cwd, cand);
      ghost var target := Target(roots[0], rel);
      CandidateIsTarget(cwd, roots[0], rel);
      TargetProper(roots[0], rel);
      assert candAbs == Render(target);
      for i := 0 to |roots|
        invariant forall j :: 0 <= j < i ==> !Inside(target, Components(roots[j]))
      {
        ComponentsProper(roots[i]);
        RootIsRendered(roots[i]);
        UnderIsInside(target, Components(roots[i]));
        if candAbs == roots[i] || roots[i] + "/" <= candAbs {
          return Ok(candAbs);
        }
      }
      return Err(OUTSIDE);
    }
  }

  lemma AbsIsClean(cwd: string, p: string)
    requires IsAbs(cwd)
    ensures IsAbs(Abs(cwd, p)) && Clean(Abs(cwd, p)) == Abs(cwd, p)
  {
    if IsAbs(p) {
      CleanIsIdempotent(p);
    } else if p == "" {
      CleanIsIdempotent(cwd);
    } else {
      CleanIsIdempotent(cwd + "/" + p);
    }
  }

  lemma RootIsRendered(root: string)
    requires IsAbs(root) && Clean(root) == root
    ensures Render(Components(root)) == root
  {
  }

  lemma TargetProper(primary: string, rel: string)
    ensures AllProper(Target(primary, rel))
  {
    ComponentsProper(rel);
    ComponentsProper(primary);
    WalkStaysProper(Components(primary), Split(rel));
  }

  lemma CandidateIsTarget(cwd: string, primary: string, rel: string)
    requires IsAbs(cwd) && IsAbs(primary)
    ensures Abs(cwd, if IsAbs(rel) then Clean(rel) else JoinPaths(primary, Clean(rel))) == Render(Target(primary, rel))
  {
    TargetProper(primary, rel);
    if !IsAbs(rel) {
      JoinLeads(primary, rel);
    }
    ComponentsOfRender(Target(primary, rel));
  }

  /** A resolved path resolves to itself, whatever the primary directory. */
  lemma ResolveIsIdempotent(primary: string, rel: string, other: string)
    ensures Target(other, Render(Target(primary, rel))) == Target(primary, rel)
  {
    TargetProper(primary, rel);
    ComponentsOfRender(Target(primary, rel));
  }

  /** Granting roots never rejects a path that was accepted. */
  lemma AcceptanceGrows(roots: seq<string>, more: seq<string>, target: seq<string>)
    requires exists i :: 0 <= i < |roots| && Inside(target, Components(roots[i]))
    ensures exists i :: 0 <= i < |roots + more| && Inside(target, Components((roots + more)[i]))
  {
    var i :| 0 <= i < |roots| && Inside(target, Components(roots[i]));
    assert (roots + more)[i] == roots[i];
  }

  /** The root "/" grants only itself: the separator test never matches below it. */
  lemma SlashGrantsOnlyItself(target: seq<string>)
    requires AllProper(target)
    ensures Components("/") == []
    ensures Inside(target, Components("/")) <==> target == []
  {
    assert Render([]) == "/";
    ComponentsOfRender([]);
  }

  /** Where plain paths lead: one that begins with a slash to its own components, and any other to its
      components below the primary directory. */
  lemma TargetMeans(primary: string, parts: seq<string>)
    requires AllProper(parts) && parts != []
    ensures Target(primary, "/" + Text.Join(parts, "/")) == parts
    ensures Target(primary, Text.Join(parts, "/")) == Components(primary) + parts
  {
    ComponentsOfRender(parts);
    SplitJoin(parts);
    WalkProper(Components(primary), parts);
    JoinIsRelative(parts);
  }

  lemma JoinIsRelative(parts: seq<string>)
    requires AllProper(parts) && parts != []
    ensures !IsAbs(Text.Join(parts, "/")) && IsAbs("/" + Text.Join(parts, "/"))
  {
    assert Proper(parts[0]);
    assert Text.Join(parts, "/")[0] == parts[0][0];
  }
}
