// The two content types a managed response can leave with, in terms of the header's text.

module ContentTypes {
  import opened Text
  import opened OutcomeStore

  // Letter for letter the same up to the case of letters; two letters beyond ASCII fold into it.
  predicate SameLetters(text: string, name: string) {
    && |text| == |name|
    && forall i :: 0 <= i < |name| ==> FoldsTo(text[i], name[i])
  }

  predicate FoldsTo(c: char, lower: char) {
    || (c == lower && !('A' <= c <= 'Z') && c != '\U{130}' && c != '\U{212A}')
    || ('A' <= c <= 'Z' && c as int + 32 == lower as int)
    || (c == '\U{130}' && lower == 'i') || (c == '\U{212A}' && lower == 'k')
  }

  // Before its first semicolon, if any, the value reads as this name, apart from case and outer white space.
  ghost predicate NamesType(value: string, name: string) {
    exists before, text, after, rest ::
      && value == before + text + after + rest
      && AllSpace(before) && AllSpace(after) && SameLetters(text, name)
      && ';' !in before + text + after && (rest == "" || rest[0] == ';')
  }

  // Of all content types two are let out: problem details exactly when named, and plain JSON for everything else.
  lemma ContentTypeIff(value: string)
    ensures SafeContentType(value)
            == if NamesType(value, "application/problem+json") then "application/problem+json" else "application/json"
  {
    BaseTypeIff(value, "application/problem+json");
    assert "application/json"[12] != "application/problem+json"[12];
  }

  lemma BaseTypeIff(value: string, name: string)
    requires TrimmedText(name) && ';' !in name && name == "application/problem+json"
    ensures ToLower(TrimSpace(SplitOn(value, ';')[0])) == name <==> NamesType(value, name)
  {
    var piece := SplitOn(value, ';')[0];
    if ToLower(TrimSpace(piece)) == name {
      var text := TrimSpace(piece);
      TrimSpaceIff(piece, text);
      var before, after :| piece == before + text + after && AllSpace(before) && AllSpace(after);
      var rest := AfterFirstPiece(value);
      FoldedIff(text, name);
      assert value == before + text + after + rest;
    }
    if NamesType(value, name) {
      var before, text, after, rest :|
        value == before + text + after + rest && AllSpace(before) && AllSpace(after) && SameLetters(text, name)
        && ';' !in before + text + after && (rest == "" || rest[0] == ';');
      FirstPiece(before + text + after, rest);
      FoldedIff(text, name);
      FoldedIsTrimmed(text, name);
      assert IsTrimOf(text, piece);
      TrimSpaceIff(piece, text);
    }
  }

  lemma AfterFirstPiece(value: string) returns (rest: string)
    ensures value == SplitOn(value, ';')[0] + rest && (rest == "" || rest[0] == ';') && ';' !in SplitOn(value, ';')[0]
  {
    var parts := SplitOn(value, ';');
    JoinOfSplit(value, ';');
    SplitPiecesFree(value, ';');
    rest := if |parts| == 1 then "" else [';'] + JoinWith(parts[1..], ';');
  }

  lemma FirstPiece(first: string, rest: string)
    requires ';' !in first && (rest == "" || rest[0] == ';')
    ensures SplitOn(first + rest, ';')[0] == first
  {
    if rest == "" {
      assert first + rest == first;
      SplitWhole(first, ';');
    } else {
      assert first + rest == first + [';'] + rest[1..];
      SplitPrefix(first, rest[1..], ';');
    }
  }

  lemma FoldedIff(text: string, name: string)
    ensures ToLower(text) == name <==> SameLetters(text, name)
  {
    assert forall c, d :: LowerChar(c) == d <==> FoldsTo(c, d);
  }

  lemma FoldedIsTrimmed(text: string, name: string)
    requires SameLetters(text, name) && name == "application/problem+json"
    ensures TrimmedText(text)
  {
    assert FoldsTo(text[0], 'a') && FoldsTo(text[|text| - 1], 'n');
  }

  lemma TypeIsNoLonger(value: string, name: string)
    ensures NamesType(value, name) ==> |value| >= |name|
  {
    if NamesType(value, name) {
      var before, text, after, rest :|
        value == before + text + after + rest && AllSpace(before) && AllSpace(after) && SameLetters(text, name)
        && ';' !in before + text + after && (rest == "" || rest[0] == ';');
      assert |value| == |before| + |text| + |after| + |rest|;
    }
  }
}
