/** The Go string helpers the tool relies on, with the facts about them that the
    rest of the model needs: unicode.IsSpace, strings.TrimSpace, strings.Fields,
    strings.Split with a one-character separator, strings.Contains and
    strings.Join, plus the newline-terminated lines that `docker ps` prints. */
module Text {

  /** unicode.IsSpace: the Unicode White_Space characters. */
  predicate IsSpace(c: char) {
    c == ' ' || c == '\t' || c == '\n' || c == '\r' || c == '\U{000B}' || c == '\U{000C}' ||
    c == '\U{0085}' || c == '\U{00A0}' || c == '\U{1680}' || ('\U{2000}' <= c <= '\U{200A}') ||
    c == '\U{2028}' || c == '\U{2029}' || c == '\U{202F}' || c == '\U{205F}' || c == '\U{3000}'
  }

  predicate NoSpace(s: string) {
    forall i :: 0 <= i < |s| ==> !IsSpace(s[i])
  }

  predicate AllSpace(s: string) {
    forall i :: 0 <= i < |s| ==> IsSpace(s[i])
  }

  /** A non-empty run of non-space characters: what strings.Fields yields. */
  predicate IsToken(s: string) {
    s != [] && NoSpace(s)
  }

  /** Non-empty, and neither first nor last character is a space. */
  predicate Framed(s: string) {
    s != [] && !IsSpace(s[0]) && !IsSpace(s[|s| - 1])
  }

  function TrimLeft(s: string): (r: string)
    ensures |r| <= |s| && r == s[|s| - |r|..]
    ensures AllSpace(s[..|s| - |r|])
    ensures r == [] || !IsSpace(r[0])
  {
    if s != [] && IsSpace(s[0]) then
      var r := TrimLeft(s[1..]);
      assert s[..|s| - |r|] == [s[0]] + s[1..][..|s| - 1 - |r|];
      r
    else s
  }

  function TrimRight(s: string): (r: string)
    ensures |r| <= |s| && r == s[..|r|]
    ensures AllSpace(s[|r|..])
    ensures r == [] || !IsSpace(r[|r| - 1])
  {
    if s != [] && IsSpace(s[|s| - 1]) then
      var r := TrimRight(s[..|s| - 1]);
      assert s[|r|..] == s[..|s| - 1][|r|..] + [s[|s| - 1]];
      r
    else s
  }

  /** strings.TrimSpace: drops the leading and trailing white space. */
  function TrimSpace(s: string): (r: string)
    ensures |r| <= |s|
    ensures r == [] || Framed(r)
    ensures r == [] <==> AllSpace(s)
    ensures Framed(s) ==> r == s
  {
    var l := TrimLeft(s);
    var r := TrimRight(l);
    assert r == [] ==> AllSpace(s) by {
      if r == [] {
        assert AllSpace(l);
        assert s == s[..|s| - |l|] + l;
      }
    }
    r
  }

  /** The length of the run of non-space characters that starts s. */
  function TokenLength(s: string): (n: nat)
    ensures n <= |s| && NoSpace(s[..n])
    ensures n < |s| ==> IsSpace(s[n])
    ensures s != [] && !IsSpace(s[0]) ==> n >= 1
  {
    if s == [] || IsSpace(s[0]) then 0
    else
      var n := TokenLength(s[1..]);
      assert s[..n + 1] == [s[0]] + s[1..][..n];
      1 + n
  }

  /** strings.Fields: the maximal runs of non-space characters of s, in order. */
  function Fields(s: string): (r: seq<string>)
    ensures forall i :: 0 <= i < |r| ==> IsToken(r[i])
    decreases |s|
  {
    if s == [] then []
    else if IsSpace(s[0]) then Fields(s[1..])
    else
      var n := TokenLength(s);
      [s[..n]] + Fields(s[n..])
  }

  /** The position of the first c in s, or |s| when there is none. */
  function IndexOf(s: string, c: char): (i: nat)
    ensures i <= |s|
    ensures i < |s| ==> s[i] == c
    ensures c !in s[..i]
  {
    if s == [] || s[0] == c then 0
    else
      var i := IndexOf(s[1..], c);
      assert s[..i + 1] == [s[0]] + s[1..][..i];
      1 + i
  }

  /** strings.Split(s, string(sep)): the pieces between separators; "" gives [""]. */
  function Split(s: string, sep: char): (r: seq<string>)
    ensures |r| >= 1
    ensures forall i :: 0 <= i < |r| ==> sep !in r[i]
    decreases |s|
  {
    var i := IndexOf(s, sep);
    if i == |s| then [s] else [s[..i]] + Split(s[i + 1..], sep)
  }

  /** strings.Contains: sub occurs somewhere in s (the empty string occurs everywhere). */
  predicate Contains(s: string, sub: string)
    decreases |s|
  {
    sub <= s || (s != [] && Contains(s[1..], sub))
  }

  /** strings.Join. */
  function Join(parts: seq<string>, sep: string): string {
    if |parts| == 0 then ""
    else if |parts| == 1 then parts[0]
    else parts[0] + sep + Join(parts[1..], sep)
  }

  /** Each part followed by a newline, the way `docker ps --format` prints rows. */
  function Lines(parts: seq<string>): string {
    if parts == [] then "" else parts[0] + "\n" + Lines(parts[1..])
  }

  // ---------------------------------------------------------------------------
  // Facts about the helpers.

  lemma ConcatAssoc(a: string, b: string, c: string)
    ensures a + (b + c) == a + b + c
  {
  }

  lemma {:induction false} TokenLengthOfNoSpace(t: string, rest: string)
    requires NoSpace(t)
    requires rest == [] || IsSpace(rest[0])
    ensures TokenLength(t + rest) == |t|
    decreases |t|
  {
    if t != [] {
      assert (t + rest)[1..] == t[1..] + rest;
      TokenLengthOfNoSpace(t[1..], rest);
    }
  }

  /** A token splits into itself alone. */
  lemma FieldsOfToken(t: string)
    requires IsToken(t)
    ensures Fields(t) == [t]
  {
    TokenLengthOfNoSpace(t, []);
    assert t + [] == t;
    assert t[|t|..] == [];
  }

  /** A token followed by a white-space character is the first field, whatever follows. */
  lemma FieldsAfterToken(t: string, c: char, rest: string)
    requires IsToken(t) && IsSpace(c)
    ensures Fields(t + [c] + rest) == [t] + Fields(rest)
  {
    var s := t + [c] + rest;
    TokenLengthOfNoSpace(t, [c] + rest);
    assert s == t + ([c] + rest);
    assert s[..|t|] == t;
    assert s[|t|..] == [c] + rest;
    assert ([c] + rest)[1..] == rest;
  }

  /** Splitting newline-joined tokens into fields gives the tokens back. */
  lemma {:induction false} FieldsOfJoin(parts: seq<string>)
    requires forall i :: 0 <= i < |parts| ==> IsToken(parts[i])
    ensures Fields(Join(parts, "\n")) == parts
  {
    if |parts| == 1 {
      FieldsOfToken(parts[0]);
    } else if |parts| > 1 {
      FieldsAfterToken(parts[0], '\n', Join(parts[1..], "\n"));
      FieldsOfJoin(parts[1..]);
    }
  }

  lemma {:induction false} JoinFramed(parts: seq<string>)
    requires parts != []
    requires forall i :: 0 <= i < |parts| ==> Framed(parts[i])
    ensures var j := Join(parts, "\n"); Framed(j) && j[0] == parts[0][0]
  {
    if |parts| > 1 {
      JoinFramed(parts[1..]);
      var rest := Join(parts[1..], "\n");
      assert Join(parts, "\n") == parts[0] + "\n" + rest;
    }
  }

  lemma {:induction false} LinesAsJoin(parts: seq<string>)
    requires parts != []
    ensures Lines(parts) == Join(parts, "\n") + "\n"
  {
    if |parts| > 1 {
      LinesAsJoin(parts[1..]);
    }
  }

  /** Trimming newline-terminated rows leaves exactly the rows joined by newlines. */
  lemma TrimSpaceOfLines(parts: seq<string>)
    requires forall i :: 0 <= i < |parts| ==> Framed(parts[i])
    ensures TrimSpace(Lines(parts)) == Join(parts, "\n")
  {
    if parts != [] {
      LinesAsJoin(parts);
      JoinFramed(parts);
      TrimRightNewline(Join(parts, "\n"));
    }
  }

  lemma TrimRightNewline(j: string)
    requires Framed(j)
    ensures TrimSpace(j + "\n") == j
  {
    var s := j + "\n";
    assert TrimLeft(s) == s;
    assert s[..|s| - 1] == j;
  }

  lemma {:induction false} IndexOfJoined(a: string, sep: char, b: string)
    requires sep !in a
    ensures IndexOf(a + [sep] + b, sep) == |a|
    decreases |a|
  {
    if a != [] {
      assert (a + [sep] + b)[1..] == a[1..] + [sep] + b;
      IndexOfJoined(a[1..], sep, b);
    }
  }

  lemma {:induction false} IndexOfAbsent(a: string, sep: char)
    requires sep !in a
    ensures IndexOf(a, sep) == |a|
    decreases |a|
  {
    if a != [] {
      IndexOfAbsent(a[1..], sep);
    }
  }

  /** Splitting on the separator undoes joining with it, when no part holds the separator. */
  lemma {:induction false} SplitOfJoin(parts: seq<string>, sep: char)
    requires parts != []
    requires forall i :: 0 <= i < |parts| ==> sep !in parts[i]
    ensures Split(Join(parts, [sep]), sep) == parts
  {
    if |parts| == 1 {
      IndexOfAbsent(parts[0], sep);
    } else {
      var rest := Join(parts[1..], [sep]);
      var s := parts[0] + [sep] + rest;
      IndexOfJoined(parts[0], sep, rest);
      assert s[..|parts[0]|] == parts[0];
      assert s[|parts[0]| + 1..] == rest;
      SplitOfJoin(parts[1..], sep);
    }
  }
}
