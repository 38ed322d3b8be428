// The string helpers of the source's standard library that the stored formats depend on.

module Text {

  function SplitOn(s: string, c: char): (parts: seq<string>)
    ensures |parts| >= 1
  {
    if s == "" then [""]
    else
      var rest := SplitOn(s[1..], c);
      if s[0] == c then [""] + rest else [[s[0]] + rest[0]] + rest[1..]
  }

  function JoinWith(parts: seq<string>, c: char): string {
    if |parts| == 0 then ""
    else if |parts| == 1 then parts[0]
    else parts[0] + [c] + JoinWith(parts[1..], c)
  }

  predicate IsSpace(c: char) {
    || c == ' ' || '\t' <= c <= '\r' || c == '\U{85}' || c == '\U{A0}' || c == '\U{1680}'
    || '\U{2000}' <= c <= '\U{200A}' || c == '\U{2028}' || c == '\U{2029}' || c == '\U{202F}'
    || c == '\U{205F}' || c == '\U{3000}'
  }

  function TrimLeft(s: string, cut: char -> bool): string {
    if s != "" && cut(s[0]) then TrimLeft(s[1..], cut) else s
  }

  function TrimRight(s: string, cut: char -> bool): string {
    if s != "" && cut(s[|s| - 1]) then TrimRight(s[..|s| - 1], cut) else s
  }

  function TrimBy(s: string, cut: char -> bool): string {
    TrimRight(TrimLeft(s, cut), cut)
  }

  function TrimSpace(s: string): string {
    TrimBy(s, (c: char) => IsSpace(c))
  }

  // As far as ASCII text can come out: two letters beyond it have an ASCII lower case.
  function LowerChar(c: char): char {
    if 'A' <= c <= 'Z' then (c as int + 32) as char
    else if c == '\U{130}' then 'i'
    else if c == '\U{212A}' then 'k'
    else c
  }

  function ToLower(s: string): (r: string)
    ensures |r| == |s| && forall i :: 0 <= i < |s| ==> r[i] == LowerChar(s[i])
  {
    seq(|s|, i requires 0 <= i < |s| => LowerChar(s[i]))
  }

  predicate TrimmedText(s: string) {
    s != "" && !IsSpace(s[0]) && !IsSpace(s[|s| - 1])
  }

  lemma TrimmedIsFixed(s: string)
    requires s == "" || TrimmedText(s)
    ensures TrimSpace(s) == s
  {}

  lemma {:induction false} TrimSpaceIsTrimmed(s: string)
    ensures TrimSpace(s) == "" || TrimmedText(TrimSpace(s))
    ensures forall c :: c in TrimSpace(s) ==> c in s
  {
    var cut := (c: char) => IsSpace(c);
    TrimLeftFacts(s, cut);
    TrimRightFacts(TrimLeft(s, cut), cut);
  }

  lemma {:induction false} TrimLeftFacts(s: string, cut: char -> bool)
    ensures var r := TrimLeft(s, cut); r == "" || !cut(r[0])
    ensures forall c :: c in TrimLeft(s, cut) ==> c in s
  {
    if s != "" && cut(s[0]) {
      TrimLeftFacts(s[1..], cut);
    }
  }

  lemma {:induction false} TrimRightFacts(s: string, cut: char -> bool)
    ensures var r := TrimRight(s, cut); r == "" || (!cut(r[|r| - 1]) && r[0] == s[0])
    ensures |TrimRight(s, cut)| <= |s|
    ensures forall c :: c in TrimRight(s, cut) ==> c in s
  {
    if s != "" && cut(s[|s| - 1]) {
      TrimRightFacts(s[..|s| - 1], cut);
    }
  }

  lemma {:induction false} SplitPrefix(a: string, rest: string, c: char)
    requires c !in a
    ensures SplitOn(a + [c] + rest, c) == [a] + SplitOn(rest, c)
  {
    if a == "" {
      assert a + [c] + rest == [c] + rest;
    } else {
      assert a + [c] + rest == [a[0]] + (a[1..] + [c] + rest);
      SplitPrefix(a[1..], rest, c);
      assert [a[0]] + a[1..] == a;
    }
  }

  lemma {:induction false} SplitWhole(a: string, c: char)
    requires c !in a
    ensures SplitOn(a, c) == [a]
  {
    if a != "" {
      SplitWhole(a[1..], c);
      assert [a[0]] + a[1..] == a;
    }
  }

  lemma {:induction false} SplitPiecesFree(s: string, c: char)
    ensures forall i :: 0 <= i < |SplitOn(s, c)| ==> c !in SplitOn(s, c)[i]
  {
    if s != "" {
      SplitPiecesFree(s[1..], c);
    }
  }

  // Splitting undoes joining exactly when no part holds the separator.
  lemma {:induction false} SplitOfJoin(parts: seq<string>, c: char)
    requires |parts| > 0
    ensures SplitOn(JoinWith(parts, c), c) == parts <==> (forall i :: 0 <= i < |parts| ==> c !in parts[i])
  {
    SplitPiecesFree(JoinWith(parts, c), c);
    if forall i :: 0 <= i < |parts| ==> c !in parts[i] {
      SplitOfFreeJoin(parts, c);
    }
  }

  lemma {:induction false} SplitOfFreeJoin(parts: seq<string>, c: char)
    requires |parts| > 0
    requires forall i :: 0 <= i < |parts| ==> c !in parts[i]
    ensures SplitOn(JoinWith(parts, c), c) == parts
  {
    if |parts| == 1 {
      SplitWhole(parts[0], c);
    } else {
      SplitOfFreeJoin(parts[1..], c);
      SplitPrefix(parts[0], JoinWith(parts[1..], c), c);
      assert [parts[0]] + parts[1..] == parts;
    }
  }

  // A joined text starts and ends as its outer parts do.
  lemma {:induction false} JoinEnds(parts: seq<string>, c: char)
    requires parts != [] && parts[|parts| - 1] != ""
    ensures var s := JoinWith(parts, c); s != "" && s[|s| - 1] == parts[|parts| - 1][|parts[|parts| - 1]| - 1]
    ensures parts[0] != "" ==> JoinWith(parts, c)[0] == parts[0][0]
  {
    if |parts| > 1 {
      JoinEnds(parts[1..], c);
    }
  }

  // ----- what the helpers mean -----

  // The white space of Unicode, by code point.
  lemma SpacesAreWhiteSpace(c: char)
    ensures IsSpace(c) <==>
            c as int in {0x9, 0xA, 0xB, 0xC, 0xD, 0x20, 0x85, 0xA0, 0x1680, 0x2000, 0x2001, 0x2002, 0x2003, 0x2004, 0x2005, 0x2006,
                         0x2007, 0x2008, 0x2009, 0x200A, 0x2028, 0x2029, 0x202F, 0x205F, 0x3000}
  {}

  // The pieces of a text, joined again, are the text; with SplitPiecesFree this determines them.
  lemma {:induction false} JoinOfSplit(s: string, c: char)
    ensures JoinWith(SplitOn(s, c), c) == s
  {
    if s != "" {
      var rest := SplitOn(s[1..], c);
      JoinOfSplit(s[1..], c);
      assert s == [s[0]] + s[1..];
      if s[0] == c {
        assert ([""] + rest)[1..] == rest;
      } else {
        var head := [s[0]] + rest[0];
        assert ([head] + rest[1..])[1..] == rest[1..];
      }
    }
  }

  predicate AllCut(s: string, cut: char -> bool) {
    forall i :: 0 <= i < |s| ==> cut(s[i])
  }

  lemma {:induction false} TrimLeftMeans(s: string, cut: char -> bool) returns (before: string)
    ensures s == before + TrimLeft(s, cut) && AllCut(before, cut)
  {
    before := "";
    if s != "" && cut(s[0]) {
      var more := TrimLeftMeans(s[1..], cut);
      before := [s[0]] + more;
      assert s == [s[0]] + s[1..];
    }
  }

  lemma {:induction false} TrimRightMeans(s: string, cut: char -> bool) returns (after: string)
    ensures s == TrimRight(s, cut) + after && AllCut(after, cut)
  {
    after := "";
    if s != "" && cut(s[|s| - 1]) {
      var more := TrimRightMeans(s[..|s| - 1], cut);
      after := more + [s[|s| - 1]];
      assert s == s[..|s| - 1] + [s[|s| - 1]];
    }
  }

  // Trimming takes away only what is to be cut, and at both ends; with TrimSpaceIsTrimmed this determines
  // what is left.
  lemma TrimMeans(s: string, cut: char -> bool)
    ensures exists before, after :: s == before + TrimBy(s, cut) + after && AllCut(before, cut) && AllCut(after, cut)
    ensures var r := TrimBy(s, cut); r != "" ==> !cut(r[0]) && !cut(r[|r| - 1])
  {
    var before := TrimLeftMeans(s, cut);
    var after := TrimRightMeans(TrimLeft(s, cut), cut);
    TrimLeftFacts(s, cut);
    TrimRightFacts(TrimLeft(s, cut), cut);
    assert s == before + TrimBy(s, cut) + after;
  }

  predicate AllSpace(s: string) {
    forall k :: 0 <= k < |s| ==> IsSpace(s[k])
  }

  // r is s without the white space around it.
  ghost predicate IsTrimOf(r: string, s: string) {
    && (r == "" || TrimmedText(r))
    && exists before, after :: s == before + r + after && AllSpace(before) && AllSpace(after)
  }

  // Trimming gives the one text that is s without the white space around it.
  lemma TrimSpaceIff(s: string, r: string)
    ensures r == TrimSpace(s) <==> IsTrimOf(r, s)
  {
    var cut := (c: char) => IsSpace(c);
    TrimMeans(s, cut);
    TrimSpaceIsTrimmed(s);
    var before, after :| s == before + TrimBy(s, cut) + after && AllCut(before, cut) && AllCut(after, cut);
    assert AllSpace(before) && AllSpace(after);
    assert IsTrimOf(TrimSpace(s), s);
    if IsTrimOf(r, s) {
      TrimIsUnique(r, TrimSpace(s), s);
    }
  }

  // s has its white space around the range from i to j, which neither starts nor ends with any.
  predicate TrimRange(s: string, i: nat, j: nat) {
    && i <= j <= |s|
    && (forall k :: 0 <= k < |s| && !(i <= k < j) ==> IsSpace(s[k]))
    && (i < j ==> !IsSpace(s[i]) && !IsSpace(s[j - 1]))
  }

  lemma TrimIsUnique(r: string, q: string, s: string)
    requires IsTrimOf(r, s) && IsTrimOf(q, s)
    ensures r == q
  {
    var i, j := RangeOfTrim(r, s);
    var i', j' := RangeOfTrim(q, s);
    SameRange(s, i, j, i', j');
  }

  lemma SameRange(s: string, i: nat, j: nat, i': nat, j': nat)
    requires TrimRange(s, i, j) && TrimRange(s, i', j')
    ensures s[i..j] == s[i'..j']
  {
    hide IsSpace;
    assert i < j ==> i' <= i < j' && i' <= j - 1 < j';
    assert i' < j' ==> i <= i' < j && i <= j' - 1 < j;
  }

  lemma RangeOfTrim(r: string, s: string) returns (i: nat, j: nat)
    requires IsTrimOf(r, s)
    ensures TrimRange(s, i, j) && s[i..j] == r
  {
    hide IsSpace;
    var before, after :| s == before + r + after && AllSpace(before) && AllSpace(after);
    i, j := |before|, |before| + |r|;
    assert s[..i] == before && s[i..j] == r && s[j..] == after;
    assert forall k :: 0 <= k < i ==> s[k] == before[k];
    assert forall k :: j <= k < |s| ==> s[k] == after[k - j];
  }
}
