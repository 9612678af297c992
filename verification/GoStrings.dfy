/** The string functions the controller takes from Go's `strings` package. */
module GoStrings {

  predicate HasPrefix(s: string, prefix: string) {
    prefix <= s
  }

  predicate HasSuffix(s: string, suffix: string) {
    |suffix| <= |s| && s[|s| - |suffix|..] == suffix
  }

  function TrimSuffix(s: string, suffix: string): string {
    if HasSuffix(s, suffix) then s[..|s| - |suffix|] else s
  }

  /** The position of the first `c` in `s`, or |s| when there is none. */
  function Index(s: string, c: char): (i: nat)
    ensures i <= |s|
    ensures forall k :: 0 <= k < i ==> s[k] != c
    ensures i < |s| ==> s[i] == c
    ensures i == |s| <==> c !in s
  {
    if s == "" then 0
    else if s[0] == c then 0
    else
      var j := Index(s[1..], c);
      1 + j
  }

  /** `Index` is the only position with nothing before it. */
  lemma IndexIs(s: string, c: char, i: nat)
    requires i <= |s| && (forall k :: 0 <= k < i ==> s[k] != c) && (i < |s| ==> s[i] == c)
    ensures Index(s, c) == i
  {
    var j := Index(s, c);
    assert j < |s| ==> s[j] == c;
  }

  /** Text around a character is recovered by cutting there. */
  lemma CutAt(a: string, c: char, b: string)
    ensures var s := a + [c] + b; |s| == |a| + 1 + |b| && s[|a|] == c && s[..|a|] == a && s[|a| + 1..] == b
    ensures forall k :: 0 <= k < |a| ==> (a + [c] + b)[k] == a[k]
    ensures forall k :: |a| < k < |a| + 1 + |b| ==> (a + [c] + b)[k] == b[k - |a| - 1]
  {
  }

  lemma NotSuffixed(s: string, c: char)
    requires s != "" && s[|s| - 1] != c
    ensures !HasSuffix(s, [c])
  {
    assert s[|s| - 1..][0] == s[|s| - 1];
  }

  /** The pieces of `s` between separators; a string without one is its own only piece. */
  function Split(s: string, sep: char): (parts: seq<string>)
    ensures |parts| >= 1
  {
    var i := Index(s, sep);
    if i == |s| then [s] else [s[..i]] + Split(s[i + 1..], sep)
  }

  function Join(parts: seq<string>, sep: char): string {
    if |parts| == 0 then ""
    else if |parts| == 1 then parts[0]
    else parts[0] + [sep] + Join(parts[1..], sep)
  }

  /** Joining undoes splitting, and no piece contains the separator. */
  lemma {:induction false} JoinAfterSplit(s: string, sep: char)
    ensures Join(Split(s, sep), sep) == s
    ensures forall k :: 0 <= k < |Split(s, sep)| ==> sep !in Split(s, sep)[k]
    decreases |s|
  {
    var i := Index(s, sep);
    if i < |s| {
      JoinAfterSplit(s[i + 1..], sep);
      assert s == s[..i] + [sep] + s[i + 1..];
      assert Split(s, sep)[1..] == Split(s[i + 1..], sep);
    }
  }

  /** The first separator is where the first separator-free piece ends. */
  lemma IndexOfPiece(a: string, sep: char, rest: string)
    requires sep !in a
    ensures Index(a + [sep] + rest, sep) == |a|
  {
    var s := a + [sep] + rest;
    assert forall k :: 0 <= k < |a| ==> s[k] == a[k];
    assert s[|a|] == sep;
  }

  /** Splitting undoes joining for any list of separator-free pieces. */
  lemma {:induction false} SplitAfterJoin(parts: seq<string>, sep: char)
    requires |parts| >= 1
    requires forall k :: 0 <= k < |parts| ==> sep !in parts[k]
    ensures Split(Join(parts, sep), sep) == parts
    decreases |parts|
  {
    if |parts| == 1 {
      assert Index(parts[0], sep) == |parts[0]|;
    } else {
      var rest := Join(parts[1..], sep);
      IndexOfPiece(parts[0], sep, rest);
      assert Join(parts, sep)[..|parts[0]|] == parts[0];
      assert Join(parts, sep)[|parts[0]| + 1..] == rest;
      SplitAfterJoin(parts[1..], sep);
    }
  }

  /** Unicode White_Space, the set Go's TrimSpace removes. */
  predicate IsSpace(c: char) {
    || '\t' <= c <= '\r' || c == ' ' || c == '\U{0085}' || c == '\U{00A0}' || c == '\U{1680}'
    || '\U{2000}' <= c <= '\U{200A}' || c == '\U{2028}' || c == '\U{2029}' || c == '\U{202F}'
    || c == '\U{205F}' || c == '\U{3000}'
  }

  function TrimLeftSpace(s: string): (t: string)
    ensures |t| <= |s|
  {
    if s != "" && IsSpace(s[0]) then TrimLeftSpace(s[1..]) else s
  }

  function TrimRightSpace(s: string): (t: string)
    ensures t <= s
    ensures s != "" && !IsSpace(s[0]) ==> t != ""
  {
    if s != "" && IsSpace(s[|s| - 1]) then TrimRightSpace(s[..|s| - 1]) else s
  }

  function TrimSpace(s: string): string {
    TrimRightSpace(TrimLeftSpace(s))
  }

  /** Some character is not white space. */
  predicate HasInk(s: string) {
    exists i :: 0 <= i < |s| && !IsSpace(s[i])
  }

  lemma {:induction false} LeftInk(s: string)
    ensures TrimLeftSpace(s) != "" <==> HasInk(s)
    ensures TrimLeftSpace(s) != "" ==> !IsSpace(TrimLeftSpace(s)[0])
    decreases |s|
  {
    if s != "" && IsSpace(s[0]) {
      LeftInk(s[1..]);
      if HasInk(s) {
        var i :| 0 <= i < |s| && !IsSpace(s[i]);
        assert s[1..][i - 1] == s[i];
      }
      if HasInk(s[1..]) {
        var i :| 0 <= i < |s[1..]| && !IsSpace(s[1..][i]);
        assert !IsSpace(s[i + 1]);
      }
    }
  }

  /** Trimming leaves nothing exactly of text that is all white space. */
  lemma TrimmedIffInk(s: string)
    ensures TrimSpace(s) != "" <==> HasInk(s)
  {
    LeftInk(s);
    hide HasInk;
  }

  /** Removes every trailing `c`. */
  function TrimRight(s: string, c: char): (t: string)
    ensures t <= s
    ensures t != "" ==> t[|t| - 1] != c
  {
    if s != "" && s[|s| - 1] == c then TrimRight(s[..|s| - 1], c) else s
  }

  function LowerChar(c: char): char {
    if 'A' <= c <= 'Z' then (c as int + 32) as char else c
  }

  function ToLower(s: string): (t: string)
    ensures |t| == |s|
    ensures forall i :: 0 <= i < |s| ==> t[i] == LowerChar(s[i])
  {
    if s == "" then "" else [LowerChar(s[0])] + ToLower(s[1..])
  }
}
