/** The text side of the edit tools (internal/agent/tools.go): edit_file and multi_edit. */
module Editing {
  import opened Common
  import opened Text

  /** One replacement, as the model asked for it. */
  datatype Edit = Edit(old_: string, new_: string, all: bool)

  /** CRLF line ends become LF. */
  function LF(s: string): string { ReplaceAll(s, "\r\n", "\n") }

  const NOT_FOUND := "old_string not found"
  const AMBIGUOUS := "old_string occurs several times; set replace_all"
  const NO_EDITS := "no edits provided"

  /** One edit on a body whose line ends are already normalized. */
  function ApplyEdit(body: string, e: Edit): Result<string> {
    var n := Count(body, LF(e.old_));
    if n == 0 then Err(NOT_FOUND)
    else if n > 1 && !e.all then Err(AMBIGUOUS)
    else Ok(ReplaceAll(body, LF(e.old_), LF(e.new_)))
  }

  /** edit_file's new content. */
  function EditFile(content: string, e: Edit): Result<string> { ApplyEdit(LF(content), e) }

  function ApplyEdits(body: string, edits: seq<Edit>): Result<string>
    decreases |edits|
  {
    if edits == [] then Ok(body)
    else match ApplyEdit(body, edits[0])
      case Ok(next) => ApplyEdits(next, edits[1..])
      case Err(e) => Err(e)
  }

  /** multi_edit's new content: normalized once, then edited in order. */
  function MultiEdit(content: string, edits: seq<Edit>): Result<string> {
    if edits == [] then Err(NO_EDITS) else ApplyEdits(LF(content), edits)
  }

  /** The same edits one at a time through edit_file. */
  function OneByOne(content: string, edits: seq<Edit>): Result<string>
    decreases |edits|
  {
    if edits == [] then Ok(content)
    else match EditFile(content, edits[0])
      case Ok(next) => OneByOne(next, edits[1..])
      case Err(e) => Err(e)
  }

  /** The loop of multi_edit. */
  method RunMultiEdit(content: string, edits: seq<Edit>) returns (r: Result<string>)
    ensures r == MultiEdit(content, edits)
  {
    var body := ReplaceAll(content, "\r\n", "\n");
    if |edits| == 0 {
      return Err(NO_EDITS);
    }
    for i := 0 to |edits|
      invariant ApplyEdits(body, edits[i..]) == ApplyEdits(LF(content), edits)
    {
      var e := edits[i];
      var old_, new_ := ReplaceAll(e.old_, "\r\n", "\n"), ReplaceAll(e.new_, "\r\n", "\n");
      var cnt := Count(body, old_);
      assert edits[i..][0] == e && edits[i..][1..] == edits[i + 1..];
      if cnt == 0 {
        return Err(NOT_FOUND);
      }
      if cnt > 1 && !e.all {
        return Err(AMBIGUOUS);
      }
      body := ReplaceAll(body, old_, new_);
    }
    return Ok(body);
  }

  // ---- what replacing means ----

  /** The text between the occurrences that are replaced. */
  function Pieces(s: string, sub: string): (r: seq<string>)
    requires sub != ""
    ensures r != []
  {
    if |s| < |sub| then [s]
    else if sub <= s then [""] + Pieces(s[|sub|..], sub)
    else
      var rest := Pieces(s[1..], sub);
      [[s[0]] + rest[0]] + rest[1..]
  }

  lemma JoinCons(head: string, rest: seq<string>, sep: string)
    requires rest != []
    ensures Join([head] + rest, sep) == head + sep + Join(rest, sep)
  {
    assert ([head] + rest)[1..] == rest;
  }

  lemma JoinPrepend(c: char, parts: seq<string>, sep: string)
    requires parts != []
    ensures Join([[c] + parts[0]] + parts[1..], sep) == [c] + Join(parts, sep)
  {
    var longer := [[c] + parts[0]] + parts[1..];
    assert longer[1..] == parts[1..];
    if |parts| > 1 {
      assert Join(longer, sep) == ([c] + parts[0]) + sep + Join(parts[1..], sep);
      assert Join(parts, sep) == parts[0] + sep + Join(parts[1..], sep);
    }
  }

  lemma {:induction false} ReplaceIsRejoin(s: string, old_: string, new_: string)
    requires old_ != ""
    ensures Join(Pieces(s, old_), new_) == ReplaceAll(s, old_, new_)
    decreases |s|
  {
    if |s| < |old_| {
    } else if old_ <= s {
      ReplaceIsRejoin(s[|old_|..], old_, new_);
      JoinCons("", Pieces(s[|old_|..], old_), new_);
      assert "" + new_ == new_;
    } else {
      ReplaceIsRejoin(s[1..], old_, new_);
      JoinPrepend(s[0], Pieces(s[1..], old_), new_);
    }
  }

  lemma {:induction false} ReplaceByItself(s: string, old_: string)
    requires old_ != ""
    ensures ReplaceAll(s, old_, old_) == s
    decreases |s|
  {
    if |s| < |old_| {
    } else if old_ <= s {
      ReplaceByItself(s[|old_|..], old_);
      assert s == old_ + s[|old_|..];
    } else {
      ReplaceByItself(s[1..], old_);
    }
  }

  lemma {:induction false} CountsSeparators(s: string, sub: string)
    requires sub != ""
    ensures Count(s, sub) == |Pieces(s, sub)| - 1
    decreases |s|
  {
    if |s| < |sub| {
    } else if sub <= s {
      CountsSeparators(s[|sub|..], sub);
    } else {
      CountsSeparators(s[1..], sub);
    }
  }

  /** Replacing keeps the pieces and changes only what stands between them; the number of
      occurrences is what separates the pieces. */
  lemma ReplaceMeaning(s: string, old_: string, new_: string)
    requires old_ != ""
    ensures Join(Pieces(s, old_), old_) == s
    ensures Join(Pieces(s, old_), new_) == ReplaceAll(s, old_, new_)
    ensures Count(s, old_) == |Pieces(s, old_)| - 1
  {
    ReplaceIsRejoin(s, old_, old_);
    ReplaceByItself(s, old_);
    ReplaceIsRejoin(s, old_, new_);
    CountsSeparators(s, old_);
  }

  /** `sub` does not begin at any of the first n places of `s`. */
  ghost predicate NotBefore(s: string, sub: string, n: nat)
    requires n <= |s|
  {
    forall i :: 0 <= i < n ==> !(sub <= s[i..])
  }

  lemma JoinStarts(parts: seq<string>, sep: string)
    requires |parts| > 1
    ensures parts[0] + sep <= Join(parts, sep)
  {
  }

  /** The pieces are cut at leftmost occurrences: each piece runs up to the first occurrence, and
      the last one contains none. */
  lemma {:induction false} PiecesAreLeftmost(s: string, sub: string, j: nat)
    requires sub != "" && j < |Pieces(s, sub)|
    ensures var p := Pieces(s, sub)[j];
      if j + 1 < |Pieces(s, sub)| then NotBefore(p + sub, sub, |p|) else NotBefore(p, sub, |p|)
    decreases |s|
  {
    if |s| < |sub| {
    } else if sub <= s {
      if j > 0 {
        PiecesAreLeftmost(s[|sub|..], sub, j - 1);
      }
    } else {
      PiecesAreLeftmost(s[1..], sub, j);
      if j == 0 {
        hide ReplaceAll, Count;
        ReplaceMeaning(s[1..], sub, sub);
        FirstPiece(s, sub, Pieces(s[1..], sub));
      }
    }
  }

  /** One more character in front of the first piece. */
  lemma FirstPiece(s: string, sub: string, rest: seq<string>)
    requires sub != "" && s != "" && !(sub <= s) && rest != [] && Join(rest, sub) == s[1..]
    requires if |rest| > 1 then NotBefore(rest[0] + sub, sub, |rest[0]|) else NotBefore(rest[0], sub, |rest[0]|)
    ensures var p := [s[0]] + rest[0];
      if |rest| > 1 then NotBefore(p + sub, sub, |p|) else NotBefore(p, sub, |p|)
  {
    var p := [s[0]] + rest[0];
    if |rest| > 1 {
      JoinStarts(rest, sub);
      assert p + sub <= s;
      ShiftNotBefore(s[0], rest[0] + sub, sub, |rest[0]|);
      assert p + sub == [s[0]] + (rest[0] + sub);
    } else {
      assert rest[0] == s[1..] && p == s;
      ShiftNotBefore(s[0], rest[0], sub, |rest[0]|);
    }
  }

  lemma ShiftNotBefore(c: char, s: string, sub: string, n: nat)
    requires n <= |s| && NotBefore(s, sub, n) && !(sub <= [c] + s)
    ensures NotBefore([c] + s, sub, n + 1)
  {
    forall i | 0 <= i < n + 1 ensures !(sub <= ([c] + s)[i..]) {
      if i > 0 {
        assert ([c] + s)[i..] == s[i - 1..];
      } else {
        assert ([c] + s)[0..] == [c] + s;
      }
    }
  }

  lemma OneMore(n: int, d: int)
    ensures (n + 1) * d == n * d + d
  {
  }

  /** Each replacement changes the length by |new| - |old|; the empty string, which occurs between
      all characters, is included. */
  lemma {:induction false} ReplaceLength(s: string, old_: string, new_: string)
    ensures |ReplaceAll(s, old_, new_)| == |s| + Count(s, old_) * (|new_| - |old_|)
    decreases |s|
  {
    var d := |new_| - |old_|;
    if old_ == "" {
      if s != "" {
        ReplaceLength(s[1..], old_, new_);
        OneMore(|s|, d);
      }
    } else if |s| < |old_| {
      assert Count(s, old_) == 0;
    } else if old_ <= s {
      ReplaceLength(s[|old_|..], old_, new_);
      OneMore(Count(s[|old_|..], old_), d);
      assert |ReplaceAll(s, old_, new_)| == |new_| + |ReplaceAll(s[|old_|..], old_, new_)|;
    } else {
      ReplaceLength(s[1..], old_, new_);
    }
  }

  // ---- multi_edit against edit_file ----

  predicate CRFree(s: string) { '\r' !in s }

  lemma {:induction false} CRFreeIsLF(s: string)
    requires CRFree(s)
    ensures LF(s) == s
    decreases |s|
  {
    if |s| >= 2 {
      assert s[0] in s;
      assert forall c :: c in s[1..] ==> c in s;
      CRFreeIsLF(s[1..]);
    }
  }

  lemma {:induction false} ReplaceKeepsCRFree(s: string, old_: string, new_: string)
    requires CRFree(s) && CRFree(new_)
    ensures CRFree(ReplaceAll(s, old_, new_))
    decreases |s|
  {
    if old_ == "" {
      if s != "" {
        ReplaceKeepsCRFree(s[1..], old_, new_);
      }
    } else if |s| < |old_| {
    } else if old_ <= s {
      ReplaceKeepsCRFree(s[|old_|..], old_, new_);
    } else {
      ReplaceKeepsCRFree(s[1..], old_, new_);
    }
  }

  /** The new strings bring in no carriage return. */
  predicate CleanEdits(edits: seq<Edit>) { forall e :: e in edits ==> CRFree(LF(e.new_)) }

  lemma {:induction false} EditsOnCleanText(body: string, edits: seq<Edit>)
    requires CRFree(body) && CleanEdits(edits)
    ensures ApplyEdits(body, edits) == OneByOne(body, edits)
    decreases |edits|
  {
    if edits != [] {
      CRFreeIsLF(body);
      assert edits[0] in edits;
      match ApplyEdit(body, edits[0])
      case Ok(next) =>
        ReplaceKeepsCRFree(body, LF(edits[0].old_), LF(edits[0].new_));
        EditsOnCleanText(next, edits[1..]);
      case Err(_) =>
    }
  }

  /** multi_edit and running its edits one at a time have the same outcome, for every non-empty list
      of clean edits. */
  ghost predicate Atomic(content: string) {
    forall edits: seq<Edit> :: edits != [] && CleanEdits(edits) ==>
      MultiEdit(content, edits) == OneByOne(content, edits)
  }

  /** A carriage return that does not begin a CRLF. */
  predicate LoneCR(s: string) {
    exists i :: 0 <= i < |s| && s[i] == '\r' && (i + 1 == |s| || s[i + 1] != '\n')
  }

  lemma {:induction false} LFLeavesLoneCR(s: string)
    ensures CRFree(LF(s)) <==> !LoneCR(s)
    decreases |s|
  {
    if s == "" {
    } else if |s| == 1 {
      if s[0] == '\r' {
        assert LoneCR(s);
      }
    } else if "\r\n" <= s {
      LFLeavesLoneCR(s[2..]);
      assert s[0] == '\r' && s[1] == '\n';
      if LoneCR(s) {
        var i :| 0 <= i < |s| && s[i] == '\r' && (i + 1 == |s| || s[i + 1] != '\n');
        assert s[2..][i - 2] == '\r';
      }
      if LoneCR(s[2..]) {
        var i :| 0 <= i < |s[2..]| && s[2..][i] == '\r' && (i + 1 == |s[2..]| || s[2..][i + 1] != '\n');
        assert s[i + 2] == '\r';
      }
    } else {
      LFLeavesLoneCR(s[1..]);
      assert LF(s) == [s[0]] + LF(s[1..]);
      if LoneCR(s) {
        var i :| 0 <= i < |s| && s[i] == '\r' && (i + 1 == |s| || s[i + 1] != '\n');
        if i > 0 {
          assert s[1..][i - 1] == '\r';
        }
      }
      if LoneCR(s[1..]) {
        var i :| 0 <= i < |s[1..]| && s[1..][i] == '\r' && (i + 1 == |s[1..]| || s[1..][i + 1] != '\n');
        assert s[i + 1] == '\r';
      }
      if s[0] == '\r' {
        assert s[1] != '\n';
        assert LoneCR(s);
      }
    }
  }

  lemma {:induction false} EmptyForEmpty(s: string)
    ensures ReplaceAll(s, "", "") == s
  {
    if s != "" {
      EmptyForEmpty(s[1..]);
    }
  }

  lemma {:induction false} NewlinesMakeCRLF(s: string)
    requires '\r' in s
    ensures Count(ReplaceAll(s, "", "\n"), "\r\n") >= 1
    decreases |s|
  {
    var rest := ReplaceAll(s[1..], "", "\n");
    var out := ReplaceAll(s, "", "\n");
    assert out == "\n" + [s[0]] + rest;
    assert rest[0] == '\n';
    assert out[1..] == [s[0]] + rest;
    if s[0] == '\r' {
      assert "\r\n" <= out[1..];
    } else {
      assert out[1..][1..] == rest;
      NewlinesMakeCRLF(s[1..]);
    }
  }

  /** The two edits that tell the tools apart on a text with a lone carriage return: a newline
      everywhere, then nothing everywhere. */
  const APART := [Edit("", "\n", true), Edit("", "", true)]

  lemma LoneCRTellsApart(content: string)
    requires !CRFree(LF(content))
    ensures MultiEdit(content, APART) != OneByOne(content, APART)
  {
    var b := LF(content);
    var next := ReplaceAll(b, "", "\n");
    hide MultiEdit, OneByOne, ReplaceAll;
    ApartAtOnce(content);
    ApartOneByOne(content);
    NewlinesMakeCRLF(b);
    ReplaceLength(next, "\r\n", "\n");
  }

  lemma ApartSteps(b: string, next: string)
    ensures ApplyEdit(b, APART[0]) == Ok(ReplaceAll(b, "", "\n")) && ApplyEdit(next, APART[1]) == Ok(next)
  {
    assert LF("") == "" && LF("\n") == "\n";
    EmptyForEmpty(next);
  }

  lemma ApartAtOnce(content: string)
    ensures MultiEdit(content, APART) == Ok(ReplaceAll(LF(content), "", "\n"))
  {
    var b := LF(content);
    var next := ReplaceAll(b, "", "\n");
    hide ApplyEdit, ReplaceAll;
    ApartSteps(b, next);
    assert APART[1..] == [APART[1]] && APART[1..][1..] == [];
    assert ApplyEdits(next, APART[1..]) == Ok(next);
  }

  lemma ApartOneByOne(content: string)
    ensures OneByOne(content, APART) == Ok(LF(ReplaceAll(LF(content), "", "\n")))
  {
    var b := LF(content);
    var next := ReplaceAll(b, "", "\n");
    hide ApplyEdit, ReplaceAll;
    ApartSteps(b, LF(next));
    assert APART[1..] == [APART[1]] && APART[1..][1..] == [];
    assert OneByOne(next, APART[1..]) == Ok(LF(next));
  }

  /** multi_edit is an atomic fold of edit_file on exactly the texts in which every carriage return
      begins a CRLF. */
  lemma MultiEditIsAtomicFold(content: string)
    ensures Atomic(content) <==> !LoneCR(content)
  {
    LFLeavesLoneCR(content);
    if CRFree(LF(content)) {
      forall edits: seq<Edit> | edits != [] && CleanEdits(edits)
        ensures MultiEdit(content, edits) == OneByOne(content, edits)
      {
        var b := LF(content);
        CRFreeIsLF(b);
        EditsOnCleanText(b, edits);
        assert OneByOne(content, edits) == OneByOne(b, edits);
      }
    } else {
      LoneCRTellsApart(content);
      assert LF("") == "" && LF("\n") == "\n";
      assert CleanEdits(APART);
    }
  }

  lemma Skip(s: string, sub: string, with: string)
    requires 0 < |sub| <= |s| && !(sub <= s)
    ensures Count(s, sub) == Count(s[1..], sub)
    ensures ReplaceAll(s, sub, with) == [s[0]] + ReplaceAll(s[1..], sub, with)
  {
  }

  lemma Hit(s: string, sub: string, with: string, rest: string)
    requires sub != "" && s == sub + rest
    ensures Count(s, sub) == 1 + Count(rest, sub)
    ensures ReplaceAll(s, sub, with) == with + ReplaceAll(rest, sub, with)
  {
    assert s[|sub|..] == rest;
  }

  lemma ExampleNormalized()
    ensures LF("\r\r\nab") == "\r\nab" && LF("\r\nxb") == "\nxb"
  {
    CRFreeIsLF("ab");
    CRFreeIsLF("xb");
    Hit("\r\nab", "\r\n", "\n", "ab");
    assert "\r\r\nab"[1] != "\r\n"[1];
    Skip("\r\r\nab", "\r\n", "\n");
    assert "\r\r\nab"[1..] == "\r\nab" && ['\r'] + "\nab" == "\r\nab";
    Hit("\r\nxb", "\r\n", "\n", "xb");
  }

  lemma ExampleFirstEdit()
    ensures Count("\r\nab", "a") == 1 && ReplaceAll("\r\nab", "a", "x") == "\r\nxb"
  {
    assert "\r\nab"[0] == '\r' && "a"[0] == 'a';
    Skip("\r\nab", "a", "x");
    Skip("\nab", "a", "x");
    Hit("ab", "a", "x", "b");
    Skip("b", "a", "x");
    assert "\r\nab"[1..] == "\nab" && "\nab"[1..] == "ab" && "b"[1..] == "";
    assert ['\r'] + (['\n'] + ("x" + "b")) == "\r\nxb";
  }

  lemma ExampleSecondEdit()
    ensures Count("\r\nxb", "b") == 1 && ReplaceAll("\r\nxb", "b", "y") == "\r\nxy"
    ensures Count("\nxb", "b") == 1 && ReplaceAll("\nxb", "b", "y") == "\nxy"
  {
    assert "\r\nxb"[0] == '\r' && "b"[0] == 'b';
    Skip("\r\nxb", "b", "y");
    Skip("\nxb", "b", "y");
    Skip("xb", "b", "y");
    Hit("b", "b", "y", "");
    assert "\r\nxb"[1..] == "\nxb" && "\nxb"[1..] == "xb" && "xb"[1..] == "b";
    assert ['\n'] + (['x'] + ("y" + "")) == "\nxy" && ['\r'] + "\nxy" == "\r\nxy";
  }

  /** A concrete text on which they differ, with ordinary edits: CR CR LF, then "ab". */
  lemma DifferExample()
    ensures var edits := [Edit("a", "x", false), Edit("b", "y", false)];
      MultiEdit("\r\r\nab", edits) == Ok("\r\nxy") && OneByOne("\r\r\nab", edits) == Ok("\nxy")
  {
    var edits := [Edit("a", "x", false), Edit("b", "y", false)];
    assert edits[1..] == [edits[1]] && edits[1..][1..] == [];
    CRFreeIsLF("a");
    CRFreeIsLF("x");
    CRFreeIsLF("b");
    CRFreeIsLF("y");
    ExampleNormalized();
    ExampleFirstEdit();
    ExampleSecondEdit();
    var first, multi, single := "\r\nxb", "\r\nxy", "\nxy";
    assert ApplyEdit("\r\nab", edits[0]) == Ok(first);
    assert ApplyEdit(first, edits[1]) == Ok(multi);
    assert ApplyEdit(LF(first), edits[1]) == Ok(single);
    assert ApplyEdits(first, [edits[1]]) == Ok(multi);
    assert OneByOne(first, [edits[1]]) == Ok(single);
  }

  // ---- what an edit does ----

  /** The characters one by one, and the end. */
  function Single(s: string): (r: seq<string>)
    ensures |r| == |s| + 1
  {
    if s == "" then [""] else [[s[0]]] + Single(s[1..])
  }

  /** A text cut at the leftmost occurrences of `sub`; the empty string occurs everywhere. */
  function Cuts(s: string, sub: string): (r: seq<string>)
    ensures r != []
  {
    if sub == "" then [""] + Single(s) else Pieces(s, sub)
  }

  lemma {:induction false} SingleJoins(s: string, new_: string)
    ensures new_ + Join(Single(s), new_) == ReplaceAll(s, "", new_)
    ensures Join(Single(s), "") == s
  {
    if s != "" {
      var rest := Single(s[1..]);
      SingleJoins(s[1..], new_);
      JoinCons([s[0]], rest, new_);
      JoinCons([s[0]], rest, "");
      assert new_ + ([s[0]] + new_ + Join(rest, new_)) == new_ + [s[0]] + (new_ + Join(rest, new_));
      assert [s[0]] + "" + s[1..] == s;
    }
  }

  /** The cuts put together again give the text, with another text between them what replacing gives;
      and there is one more of them than there are occurrences. */
  lemma CutsMeaning(s: string, sub: string, new_: string)
    ensures Join(Cuts(s, sub), sub) == s
    ensures Join(Cuts(s, sub), new_) == ReplaceAll(s, sub, new_)
    ensures Count(s, sub) == |Cuts(s, sub)| - 1
  {
    if sub == "" {
      CutsEverywhere(s, new_);
    } else {
      ReplaceMeaning(s, sub, new_);
    }
  }

  lemma CutsEverywhere(s: string, new_: string)
    ensures Join(Cuts(s, ""), "") == s && Join(Cuts(s, ""), new_) == ReplaceAll(s, "", new_)
    ensures Count(s, "") == |Cuts(s, "")| - 1
  {
    hide Single, ReplaceAll, Join;
    SingleJoins(s, new_);
    JoinCons("", Single(s), new_);
    JoinCons("", Single(s), "");
    assert "" + new_ + Join(Single(s), new_) == new_ + Join(Single(s), new_);
    assert "" + "" + Join(Single(s), "") == Join(Single(s), "");
  }

  /** A text with its CRLFs written as newlines. */
  function Unix(s: string): string { Join(Pieces(s, "\r\n"), "\n") }

  /** What an edit makes of a text: it succeeds exactly if the old string occurs once, or several times
      and all are wanted; and then every occurrence, and nothing else, is replaced. */
  ghost predicate EditedTo(body: string, e: Edit, r: Result<string>) {
    var cuts := Cuts(body, Unix(e.old_));
    && (r.Ok? <==> |cuts| == 2 || (|cuts| > 2 && e.all))
    && (r.Ok? ==> r.value == Join(cuts, Unix(e.new_)))
    && (r.Err? ==> r.error == if |cuts| == 1 then NOT_FOUND else AMBIGUOUS)
  }

  lemma UnixIsLF(s: string)
    ensures Unix(s) == LF(s)
  {
    ReplaceMeaning(s, "\r\n", "\n");
  }

  lemma ApplyEditMeaning(body: string, e: Edit)
    ensures EditedTo(body, e, ApplyEdit(body, e))
  {
    UnixIsLF(e.old_);
    UnixIsLF(e.new_);
    CutsMeaning(body, LF(e.old_), LF(e.new_));
  }

  /** edit_file edits the text as it is with newlines only. */
  lemma EditFileMeaning(content: string, e: Edit)
    ensures EditedTo(Unix(content), e, EditFile(content, e))
  {
    UnixIsLF(content);
    ApplyEditMeaning(LF(content), e);
  }

  /** The texts an edit list goes through. */
  ghost predicate Stages(content: string, edits: seq<Edit>, bodies: seq<string>) {
    && |bodies| == |edits| + 1 && bodies[0] == Unix(content)
    && forall i :: 0 <= i < |edits| ==> EditedTo(bodies[i], edits[i], Ok(bodies[i + 1]))
  }

  /** What multi_edit makes of a text: it succeeds exactly if there is an edit and every one succeeds on
      what the ones before it left, and gives the last text; otherwise some edit is the first to fail,
      or there is none. */
  ghost predicate MultiEditedTo(content: string, edits: seq<Edit>, r: Result<string>) {
    match r
    case Ok(body) => edits != [] && exists bodies :: Stages(content, edits, bodies) && body == bodies[|edits|]
    case Err(e) => if edits == [] then e == NO_EDITS else exists bodies :: FailsAt(content, edits, bodies, e)
  }

  ghost predicate FailsAt(content: string, edits: seq<Edit>, bodies: seq<string>, error: string) {
    && 0 < |bodies| <= |edits| && Stages(content, edits[..|bodies| - 1], bodies)
    && EditedTo(bodies[|bodies| - 1], edits[|bodies| - 1], Err(error))
  }

  lemma {:induction false} MultiEditStages(content: string, edits: seq<Edit>, bodies: seq<string>)
    requires |bodies| <= |edits| + 1 && bodies != [] && Stages(content, edits[..|bodies| - 1], bodies)
    ensures var r := ApplyEdits(bodies[|bodies| - 1], edits[|bodies| - 1..]);
      match r
      case Ok(body) => exists all :: Stages(content, edits, all) && body == all[|edits|]
      case Err(e) => exists some :: FailsAt(content, edits, some, e)
    decreases |edits| - |bodies|
  {
    hide EditedTo, ApplyEdit, Unix;
    var n := |bodies| - 1;
    if n == |edits| {
      assert edits[..n] == edits && edits[n..] == [];
      assert Stages(content, edits, bodies);
    } else {
      ApplyEditMeaning(bodies[n], edits[n]);
      assert edits[n..][0] == edits[n] && edits[n..][1..] == edits[n + 1..];
      match ApplyEdit(bodies[n], edits[n])
      case Ok(next) =>
        var more := bodies + [next];
        assert edits[..n + 1] == edits[..n] + [edits[n]];
        assert Stages(content, edits[..n + 1], more);
        MultiEditStages(content, edits, more);
      case Err(e) =>
        assert FailsAt(content, edits, bodies, e);
    }
  }

  lemma MultiEditMeaning(content: string, edits: seq<Edit>)
    ensures MultiEditedTo(content, edits, MultiEdit(content, edits))
  {
    UnixIsLF(content);
    if edits != [] {
      var bodies := [Unix(content)];
      assert edits[..0] == [] && Stages(content, [], bodies);
      assert edits[0..] == edits;
      MultiEditStages(content, edits, bodies);
    }
  }
}
