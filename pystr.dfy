/** The few Python string built-ins the gateway and the directory walk rely on:
    `str.strip(chars)`, `str.split(sep)`, `sep.join(parts)` and the substring test `t in s`.
    Strings are sequences of characters; separators are one character, as in the source. */
module PyStr {

  /** Number of leading characters of `s` that belong to `cs`. */
  function LeadingIn(s: string, cs: set<char>): (k: nat)
    ensures k <= |s|
    ensures forall i :: 0 <= i < k ==> s[i] in cs
    ensures k < |s| ==> s[k] !in cs
  {
    if s == [] || s[0] !in cs then 0 else 1 + LeadingIn(s[1..], cs)
  }

  /** Number of trailing characters of `s` that belong to `cs`. */
  function TrailingIn(s: string, cs: set<char>): (k: nat)
    ensures k <= |s|
    ensures forall i :: |s| - k <= i < |s| ==> s[i] in cs
    ensures k < |s| ==> s[|s| - 1 - k] !in cs
  {
    if s == [] || s[|s| - 1] !in cs then 0 else 1 + TrailingIn(s[..|s| - 1], cs)
  }

  /** Cutting `s` to `s[i..j]` removes only characters of `cs`, and the kept part
      neither begins nor ends with one. */
  ghost predicate StripCut(s: string, cs: set<char>, i: int, j: int)
  {
    0 <= i <= j <= |s| &&
    (forall k :: 0 <= k < i ==> s[k] in cs) &&
    (forall k :: j <= k < |s| ==> s[k] in cs) &&
    (i < j ==> s[i] !in cs && s[j - 1] !in cs)
  }

  /** `r` is `s` with every leading and every trailing character that belongs to `cs`
      removed. */
  ghost predicate StrippedOf(r: string, s: string, cs: set<char>)
  {
    exists i, j :: StripCut(s, cs, i, j) && r == s[i..j]
  }

  /** Two cuts of the same string that both satisfy StripCut keep the same text. */
  lemma StripCutUnique(s: string, cs: set<char>, i1: int, j1: int, i2: int, j2: int)
    requires StripCut(s, cs, i1, j1) && StripCut(s, cs, i2, j2)
    ensures s[i1..j1] == s[i2..j2]
  {
  }

  /** The characterisation determines the stripped string. */
  lemma StrippedOfUnique(r1: string, r2: string, s: string, cs: set<char>)
    requires StrippedOf(r1, s, cs) && StrippedOf(r2, s, cs)
    ensures r1 == r2
  {
  }

  /** Python's `s.strip(chars)`: `chars` is a SET of characters removed from both ends,
      not a prefix or suffix. */
  function Strip(s: string, cs: set<char>): (r: string)
    ensures |r| <= |s|
  {
    var i := LeadingIn(s, cs);
    var u := s[i..];
    var t := TrailingIn(u, cs);
    u[..|u| - t]
  }

  /** Strip removes exactly the leading and trailing characters of the set. */
  lemma StripIsStripped(s: string, cs: set<char>)
    ensures StrippedOf(Strip(s, cs), s, cs)
  {
    var i := LeadingIn(s, cs);
    var u := s[i..];
    var t := TrailingIn(u, cs);
    var r := u[..|u| - t];
    assert r == s[i..i + |r|];
    assert StripCut(s, cs, i, i + |r|);
  }

  /** Index of the first occurrence of `c` in `s`, or `|s|` when there is none. */
  function IndexOf(s: string, c: char): (k: nat)
    ensures k <= |s|
    ensures k < |s| ==> s[k] == c
    ensures forall j :: 0 <= j < k ==> s[j] != c
  {
    if s == [] || s[0] == c then 0 else 1 + IndexOf(s[1..], c)
  }

  /** Python's `s.split(c)`: the pieces between occurrences of `c`, always at least one
      (`"".split('/') == ['']`, `"a//b".split('/') == ['a', '', 'b']`). */
  function Split(s: string, c: char): (parts: seq<string>)
    ensures |parts| >= 1
    ensures forall i :: 0 <= i < |parts| ==> c !in parts[i]
    decreases |s|
  {
    var k := IndexOf(s, c);
    if k == |s| then [s] else [s[..k]] + Split(s[k + 1..], c)
  }

  /** Python's `c.join(parts)`. */
  function Join(c: char, parts: seq<string>): (j: string)
    ensures parts == [] ==> j == ""
  {
    if |parts| == 0 then ""
    else if |parts| == 1 then parts[0]
    else parts[0] + [c] + Join(c, parts[1..])
  }

  /** A join starts with its first piece, followed by the separator when there are more. */
  lemma JoinHead(c: char, parts: seq<string>)
    requires |parts| >= 1
    ensures parts[0] <= Join(c, parts)
    ensures |parts| >= 2 ==> |Join(c, parts)| > |parts[0]| && Join(c, parts)[|parts[0]|] == c
  {
  }

  /** Joining the pieces of a split gives back the original string. */
  lemma {:induction false} JoinSplit(s: string, c: char)
    ensures Join(c, Split(s, c)) == s
    decreases |s|
  {
    var k := IndexOf(s, c);
    if k < |s| {
      var rest := s[k + 1..];
      var tail := Split(rest, c);
      JoinSplit(rest, c);
      assert Split(s, c) == [s[..k]] + tail;
      assert ([s[..k]] + tail)[1..] == tail;
      assert Join(c, [s[..k]] + tail) == s[..k] + [c] + Join(c, tail);
      assert s == s[..k] + [c] + rest;
    }
  }

  /** Splitting a join of separator-free pieces gives back the pieces. */
  lemma {:induction false} SplitJoin(parts: seq<string>, c: char)
    requires |parts| >= 1
    requires forall i :: 0 <= i < |parts| ==> c !in parts[i]
    ensures Split(Join(c, parts), c) == parts
  {
    var s := Join(c, parts);
    if |parts| == 1 {
      assert IndexOf(s, c) == |s|;
    } else {
      var rest := Join(c, parts[1..]);
      assert s == parts[0] + [c] + rest;
      assert IndexOf(s, c) == |parts[0]| by {
        assert s[|parts[0]|] == c;
        assert forall j :: 0 <= j < |parts[0]| ==> s[j] == parts[0][j];
      }
      assert s[..|parts[0]|] == parts[0];
      assert s[|parts[0]| + 1..] == rest;
      SplitJoin(parts[1..], c);
      assert parts == [parts[0]] + parts[1..];
    }
  }

  /** `t` occurs in `s` starting at index `i`. */
  ghost predicate OccursAt(s: string, t: string, i: int)
  {
    0 <= i && i + |t| <= |s| && s[i..i + |t|] == t
  }

  /** Python's substring test `t in s`. */
  function Contains(s: string, t: string): (b: bool)
    ensures b <==> exists i :: OccursAt(s, t, i)
    decreases |s|
  {
    if |s| < |t| then false
    else if s[..|t|] == t then assert OccursAt(s, t, 0); true
    else
      var b := Contains(s[1..], t);
      assert b ==> exists i :: OccursAt(s, t, i) by {
        if b {
          var i :| OccursAt(s[1..], t, i);
          assert s[1..][i..i + |t|] == s[i + 1..i + 1 + |t|];
          assert OccursAt(s, t, i + 1);
        }
      }
      assert (exists i :: OccursAt(s, t, i)) ==> b by {
        if exists i :: OccursAt(s, t, i) {
          var i :| OccursAt(s, t, i);
          assert i != 0;
          assert s[1..][i - 1..i - 1 + |t|] == s[i..i + |t|];
          assert OccursAt(s[1..], t, i - 1);
        }
      }
      b
  }
}
