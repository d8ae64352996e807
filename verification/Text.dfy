/** The parts of Go's `strings` package the modelled code relies on.  A string is a sequence of
    characters, one for each byte. */
module Text {
  /** ASCII white space, as `unicode.IsSpace` has it. */
  predicate IsSpace(c: char) {
    c == ' ' || c == '\t' || c == '\n' || c == '\r' || c == '\U{000B}' || c == '\U{000C}'
  }

  function TrimLeft(s: string): string {
    if s != "" && IsSpace(s[0]) then TrimLeft(s[1..]) else s
  }

  function TrimRight(s: string): string {
    if s != "" && IsSpace(s[|s| - 1]) then TrimRight(s[..|s| - 1]) else s
  }

  function TrimSpace(s: string): string {
    TrimRight(TrimLeft(s))
  }

  /** `strings.Count`: non-overlapping occurrences from the left; an empty `sub` occurs between
      all characters and at both ends. */
  function Count(s: string, sub: string): nat {
    if sub == "" then |s| + 1
    else if |s| < |sub| then 0
    else if sub <= s then 1 + Count(s[|sub|..], sub)
    else Count(s[1..], sub)
  }

  /** `strings.ReplaceAll`. */
  function ReplaceAll(s: string, old_: string, new_: string): string {
    if old_ == "" then
      if s == "" then new_ else new_ + [s[0]] + ReplaceAll(s[1..], old_, new_)
    else if |s| < |old_| then s
    else if old_ <= s then new_ + ReplaceAll(s[|old_|..], old_, new_)
    else [s[0]] + ReplaceAll(s[1..], old_, new_)
  }

  function Concat(parts: seq<string>): string {
    if parts == [] then "" else parts[0] + Concat(parts[1..])
  }

  function Join(parts: seq<string>, sep: string): string {
    if parts == [] then ""
    else if |parts| == 1 then parts[0]
    else parts[0] + sep + Join(parts[1..], sep)
  }

  /** The characters of `s` before its first white space. */
  function FirstWord(s: string): string {
    if s == "" || IsSpace(s[0]) then "" else [s[0]] + FirstWord(s[1..])
  }

  lemma {:induction false} FirstWordIsPrefix(s: string)
    ensures FirstWord(s) <= s
    ensures forall c :: c in FirstWord(s) ==> !IsSpace(c)
    ensures |FirstWord(s)| < |s| ==> IsSpace(s[|FirstWord(s)|])
    ensures s != "" && !IsSpace(s[0]) ==> FirstWord(s) != ""
  {
    if s != "" && !IsSpace(s[0]) {
      FirstWordIsPrefix(s[1..]);
    }
  }

  /** `strings.Fields`: the maximal runs of characters that are not white space. */
  function Fields(s: string): seq<string>
    decreases |s|
  {
    if s == "" then []
    else if IsSpace(s[0]) then Fields(s[1..])
    else
      FirstWordIsPrefix(s);
      [FirstWord(s)] + Fields(s[|FirstWord(s)|..])
  }

  predicate IsWord(w: string) {
    w != "" && forall c :: c in w ==> !IsSpace(c)
  }

  lemma {:induction false} FieldsAreWords(s: string)
    ensures forall w :: w in Fields(s) ==> IsWord(w)
    decreases |s|
  {
    if s != "" {
      if IsSpace(s[0]) {
        FieldsAreWords(s[1..]);
      } else {
        FirstWordIsPrefix(s);
        FieldsAreWords(s[|FirstWord(s)|..]);
      }
    }
  }

  /** What `strings.Fields` reads back from words joined by single spaces is those words. */
  lemma {:induction false} FieldsOfJoin(words: seq<string>)
    requires forall w :: w in words ==> IsWord(w)
    ensures Fields(Join(words, " ")) == words
  {
    if words == [] {
    } else if |words| == 1 {
      assert IsWord(words[0]);
      FirstWordOf(words[0], "");
      assert words[0] + "" == words[0];
      assert Fields(words[0][|words[0]|..]) == [];
    } else {
      assert IsWord(words[0]);
      var rest := " " + Join(words[1..], " ");
      assert Join(words, " ") == words[0] + rest;
      FirstWordOf(words[0], rest);
      assert (words[0] + rest)[|words[0]|..] == rest;
      assert rest[1..] == Join(words[1..], " ");
      FieldsOfJoin(words[1..]);
      assert Fields(words[0] + rest) == [words[0]] + Fields(rest);
    }
  }

  lemma {:induction false} FirstWordOf(w: string, rest: string)
    requires forall c :: c in w ==> !IsSpace(c)
    requires rest != "" ==> IsSpace(rest[0])
    ensures FirstWord(w + rest) == w
  {
    if w == "" {
      assert w + rest == rest;
    } else {
      assert (w + rest)[1..] == w[1..] + rest;
      FirstWordOf(w[1..], rest);
    }
  }

  /** Joining the fields of a text by single spaces never makes it longer. */
  lemma {:induction false} JoinFieldsIsShort(s: string)
    ensures |Join(Fields(s), " ")| <= |s|
    decreases |s|
  {
    if s != "" {
      if IsSpace(s[0]) {
        JoinFieldsIsShort(s[1..]);
      } else {
        FirstWordIsPrefix(s);
        var n := |FirstWord(s)|;
        var rest := s[n..];
        var fields := Fields(rest);
        assert Fields(s) == [FirstWord(s)] + fields;
        assert Fields(s)[1..] == fields;
        if fields == [] {
        } else {
          assert rest != "" && IsSpace(rest[0]);
          JoinFieldsIsShort(rest[1..]);
          assert fields == Fields(rest[1..]);
        }
      }
    }
  }

  function Digit(d: nat): char
    requires d < 10
  {
    ('0' as int + d) as char
  }

  /** Decimal digits without leading zeros. */
  function Decimal(n: nat): string {
    if n < 10 then [Digit(n)] else Decimal(n / 10) + [Digit(n % 10)]
  }

  /** The number a string of decimal digits denotes. */
  function Value(s: string): nat
    requires forall i :: 0 <= i < |s| ==> '0' <= s[i] <= '9'
  {
    if s == "" then 0 else 10 * Value(s[..|s| - 1]) + (s[|s| - 1] as int - '0' as int)
  }

  /** Decimal denotes its argument, in digits, without a leading zero. */
  lemma {:induction false} DecimalDenotes(n: nat)
    ensures forall i :: 0 <= i < |Decimal(n)| ==> '0' <= Decimal(n)[i] <= '9'
    ensures Value(Decimal(n)) == n
    ensures Decimal(n) != "" && (Decimal(n)[0] == '0' ==> n == 0)
  {
    if n < 10 {
      assert [Digit(n)][..0] == "";
    } else {
      DecimalDenotes(n / 10);
      var head := Decimal(n / 10);
      assert (head + [Digit(n % 10)])[..|head|] == head;
      assert Decimal(n)[0] == head[0];
    }
  }

  /** Counting a single character counts its places. */
  lemma {:induction false} CountChar(s: string, c: char)
    ensures Count(s, [c]) == multiset(s)[c]
    decreases |s|
  {
    if s != "" {
      CountChar(s[1..], c);
      assert s == [s[0]] + s[1..];
    }
  }

  /** White space only. */
  predicate Blank(s: string) { forall i :: 0 <= i < |s| ==> IsSpace(s[i]) }

  lemma {:induction false} TrimLeftCut(s: string) returns (n: nat)
    ensures n <= |s| && Blank(s[..n]) && TrimLeft(s) == s[n..]
    ensures n < |s| ==> !IsSpace(s[n])
    decreases |s|
  {
    n := 0;
    if s != "" && IsSpace(s[0]) {
      n := TrimLeftCut(s[1..]);
      assert forall i :: 0 < i < n + 1 ==> s[i] == s[1..][..n][i - 1];
      n := n + 1;
    }
  }

  lemma {:induction false} TrimRightCut(s: string) returns (n: nat)
    ensures n <= |s| && Blank(s[n..]) && TrimRight(s) == s[..n]
    ensures n > 0 ==> !IsSpace(s[n - 1])
    decreases |s|
  {
    n := |s|;
    if s != "" && IsSpace(s[|s| - 1]) {
      n := TrimRightCut(s[..|s| - 1]);
      assert forall i :: n <= i < |s| - 1 ==> s[i] == s[..|s| - 1][n..][i - n];
    }
  }

  /** Trimming takes white space off both ends, and all of it. */
  lemma TrimSpaceCuts(s: string) returns (n: nat, m: nat)
    ensures n <= m <= |s| && TrimSpace(s) == s[n..m] && Blank(s[..n]) && Blank(s[m..])
    ensures n < m ==> !IsSpace(s[n]) && !IsSpace(s[m - 1])
  {
    n := TrimLeftCut(s);
    var k := TrimRightCut(s[n..]);
    m := n + k;
    assert s[m..] == s[n..][k..] && s[n..m] == s[n..][..k];
    if k > 0 {
      assert s[m - 1] == s[n..][k - 1];
    }
  }

  lemma TrimSpaceBlank(s: string)
    ensures TrimSpace(s) == "" <==> Blank(s)
  {
    var n, m := TrimSpaceCuts(s);
    if n == m {
      forall i | 0 <= i < |s| ensures IsSpace(s[i]) {
        if i < n {
          assert s[i] == s[..n][i];
        } else {
          assert s[i] == s[m..][i - m];
        }
      }
    }
  }

  lemma BlankNothing()
    ensures Blank("")
  {
  }

  lemma BlankAppend(a: string, b: string)
    requires Blank(a) && Blank(b)
    ensures Blank(a + b)
  {
  }

  /** Trimming a text with blanks around it gives the text, if it has none at its own ends. */
  lemma TrimSpaceOf(pre: string, text: string, post: string)
    requires Blank(pre) && Blank(post) && (text != "" ==> !IsSpace(text[0]) && !IsSpace(text[|text| - 1]))
    ensures TrimSpace(pre + text + post) == text
  {
    var s := pre + text + post;
    var n, m := TrimSpaceCuts(s);
    if text == "" {
      assert Blank(s);
      TrimSpaceBlank(s);
    } else {
      assert s[|pre|] == text[0] && s[|pre| + |text| - 1] == text[|text| - 1];
      forall i | 0 <= i < n ensures IsSpace(s[i]) {
        assert s[..n][i] == s[i];
      }
      forall i | m <= i < |s| ensures IsSpace(s[i]) {
        assert s[m..][i - m] == s[i];
      }
      assert n <= |pre| && |pre| + |text| <= m;
      assert forall i :: 0 <= i < |pre| ==> s[i] == pre[i];
      assert forall i :: |pre| + |text| <= i < |s| ==> s[i] == post[i - |pre| - |text|];
      assert n == |pre| && m == |pre| + |text|;
      assert s[n..m] == text;
    }
  }
}
