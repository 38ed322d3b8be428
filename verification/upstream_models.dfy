// Reconciling a channel's model list with what the upstream offers: detecting the
// pending changes and applying a selection of them.

module UpstreamModels {
  import opened Options
  import opened Text

  function Names(s: seq<string>): set<string> {
    set x | x in s
  }

  // The elements of a list that are in a set, in the list's order.
  function Pick(s: seq<string>, keep: set<string>): (r: seq<string>)
    ensures forall x :: x in r <==> x in s && x in keep
  {
    if s == [] then []
    else Pick(s[..|s| - 1], keep) + if s[|s| - 1] in keep then [s[|s| - 1]] else []
  }

  predicate Distinct(s: seq<string>) {
    forall i, j :: 0 <= i < j < |s| ==> s[i] != s[j]
  }

  // Trimmed, non-empty and without duplicates.
  predicate Normal(s: seq<string>) {
    Distinct(s) && forall x :: x in s ==> TrimmedText(x)
  }

  function Normalize(models: seq<string>): seq<string> {
    if models == [] then []
    else
      var front, last := Normalize(models[..|models| - 1]), TrimSpace(models[|models| - 1]);
      if last == "" || last in front then front else front + [last]
  }

  function Subtract(base: seq<string>, removed: seq<string>): seq<string> {
    Pick(Normalize(base), Names(Normalize(base)) - Names(Normalize(removed)))
  }

  function Intersect(base: seq<string>, allowed: seq<string>): seq<string> {
    Pick(Normalize(base), Names(Normalize(allowed)))
  }

  function Merge(base: seq<string>, appended: seq<string>): seq<string> {
    Normalize(base) + Subtract(appended, base)
  }

  // Adding wins when the same model is also selected for removal.
  function ApplySelected(origin: seq<string>, add: seq<string>, remove: seq<string>): seq<string> {
    Subtract(Merge(origin, Normalize(add)), Subtract(Normalize(remove), Normalize(add)))
  }

  // A stored list is one string with commas.
  function TrimCommas(s: string): string {
    TrimBy(s, (c: char) => c == ',')
  }

  function NonEmptyTrimmed(parts: seq<string>): seq<string> {
    if parts == [] then []
    else
      var part := TrimSpace(parts[0]);
      (if part == "" then [] else [part]) + NonEmptyTrimmed(parts[1..])
  }

  function GetModels(models: string): seq<string> {
    if models == "" then [] else NonEmptyTrimmed(SplitOn(TrimCommas(models), ','))
  }

  const REGEX_PREFIX := "regex:"

  predicate IsPattern(name: string) {
    REGEX_PREFIX <= name
  }

  // One ignore entry: a pattern, decided by the given matcher, or a literal name.
  predicate IgnoreEntryMatches(entry: string, model: string, matches: (string, string) -> bool) {
    if IsPattern(entry) then matches(TrimSpace(entry[|REGEX_PREFIX|..]), model) else entry == model
  }

  predicate Ignores(entries: seq<string>, model: string, matches: (string, string) -> bool) {
    exists e :: e in entries && IgnoreEntryMatches(e, model, matches)
  }

  function IgnoredOf(upstream: seq<string>, ignored: seq<string>, matches: (string, string) -> bool): set<string> {
    set x | x in upstream && Ignores(Normalize(ignored), x, matches)
  }

  datatype Pending = Pending(add: seq<string>, remove: seq<string>)

  function Detect(local: seq<string>, upstream: seq<string>, ignored: seq<string>, mapping: map<string, string>,
                  matches: (string, string) -> bool): Pending {
    var locals, upstreams := Normalize(local), Normalize(upstream);
    Pending(
      Normalize(Pick(upstreams, Names(upstreams) - Names(locals) - mapping.Values - IgnoredOf(upstreams, ignored, matches))),
      Normalize(Pick(locals, Names(locals) - mapping.Keys - Names(upstreams))))
  }

  datatype Settings = Settings(
    ignored: seq<string>,
    detected: seq<string>,
    removed: seq<string>,
    lastCheckTime: int,
    autoSync: bool)

  // What the two operations read and write of a channel.
  datatype State = State(models: string, settings: Settings)

  function DetectIn(state: State, upstream: seq<string>, mapping: map<string, string>, matches: (string, string) -> bool): Pending {
    Detect(GetModels(state.models), upstream, state.settings.ignored, mapping, matches)
  }

  // What a request selects of the stored pending lists.
  datatype Selection = Selection(add: seq<string>, ignore: seq<string>, remove: seq<string>)

  function SelectPending(state: State, addInput: seq<string>, ignoreInput: seq<string>, removeInput: seq<string>): Selection {
    var pendingAdd, pendingRemove := Normalize(state.settings.detected), Normalize(state.settings.removed);
    var add := Intersect(addInput, pendingAdd);
    Selection(add, Intersect(ignoreInput, pendingAdd), Subtract(Intersect(removeInput, pendingRemove), add))
  }

  function AppliedModels(state: State, selection: Selection): string {
    var origin := Normalize(GetModels(state.models));
    var next := ApplySelected(origin, selection.add, selection.remove);
    if origin == next then state.models else JoinWith(next, ',')
  }

  function AppliedIgnored(ignored: seq<string>, selection: Selection): seq<string> {
    var merged := Merge(ignored, selection.ignore);
    if selection.add != [] then Subtract(merged, selection.add) else merged
  }

  function Applied(state: State, selection: Selection, now: int): State {
    State(AppliedModels(state, selection),
          state.settings.(
            ignored := AppliedIgnored(state.settings.ignored, selection),
            detected := Subtract(Normalize(state.settings.detected), selection.add + selection.ignore),
            removed := Subtract(Normalize(state.settings.removed), selection.remove),
            lastCheckTime := now))
  }

  // ----- lists -----

  lemma {:induction false} PickPick(s: seq<string>, a: set<string>, b: set<string>)
    ensures Pick(Pick(s, a), b) == Pick(s, a * b)
  {
    if s != [] {
      var front := s[..|s| - 1];
      PickPick(front, a, b);
      if s[|s| - 1] in a {
        assert Pick(s, a)[..|Pick(s, a)| - 1] == Pick(front, a);
      } else {
        assert Pick(s, a) == Pick(front, a);
      }
    }
  }

  lemma {:induction false} PickSame(s: seq<string>, a: set<string>, b: set<string>)
    requires forall x :: x in s ==> (x in a <==> x in b)
    ensures Pick(s, a) == Pick(s, b)
  {
    if s != [] {
      assert s == s[..|s| - 1] + [s[|s| - 1]];
      assert s[|s| - 1] in s;
      PickSame(s[..|s| - 1], a, b);
    }
  }

  lemma {:induction false} PickAll(s: seq<string>, keep: set<string>)
    requires forall x :: x in s ==> x in keep
    ensures Pick(s, keep) == s
  {
    if s != [] {
      assert s == s[..|s| - 1] + [s[|s| - 1]];
      assert s[|s| - 1] in s;
      PickAll(s[..|s| - 1], keep);
    }
  }

  lemma {:induction false} PickNone(s: seq<string>, keep: set<string>)
    requires forall x :: x in s ==> x !in keep
    ensures Pick(s, keep) == []
  {
    if s != [] {
      assert s == s[..|s| - 1] + [s[|s| - 1]];
      assert s[|s| - 1] in s;
      PickNone(s[..|s| - 1], keep);
    }
  }

  lemma {:induction false} PickAppend(s: seq<string>, t: seq<string>, keep: set<string>)
    ensures Pick(s + t, keep) == Pick(s, keep) + Pick(t, keep)
  {
    if t == [] {
      assert s + t == s;
    } else {
      assert (s + t)[..|s + t| - 1] == s + t[..|t| - 1];
      PickAppend(s, t[..|t| - 1], keep);
    }
  }

  lemma {:induction false} PickNormal(s: seq<string>, keep: set<string>)
    requires Normal(s)
    ensures Normal(Pick(s, keep))
  {
    if s != [] {
      var front := s[..|s| - 1];
      assert forall x :: x in front ==> x in s;
      PickNormal(front, keep);
      assert s[|s| - 1] !in Pick(front, keep);
    }
  }

  lemma {:induction false} NormalizeNormal(models: seq<string>)
    ensures Normal(Normalize(models))
  {
    hide TrimSpace, IsSpace;
    if models != [] {
      NormalizeNormal(models[..|models| - 1]);
      TrimSpaceIsTrimmed(models[|models| - 1]);
    }
  }

  lemma {:induction false} NormalizeFixed(models: seq<string>)
    requires Normal(models)
    ensures Normalize(models) == models
  {
    hide TrimSpace, IsSpace;
    if models != [] {
      var front := models[..|models| - 1];
      assert forall x :: x in front ==> x in models;
      assert models[|models| - 1] in models;
      NormalizeFixed(front);
      TrimmedIsFixed(models[|models| - 1]);
    }
  }

  // On normal lists the operations are what their names say.
  lemma SubtractNormal(base: seq<string>, removed: seq<string>)
    requires Normal(base) && Normal(removed)
    ensures Subtract(base, removed) == Pick(base, Names(base) - Names(removed)) && Normal(Subtract(base, removed))
  {
    NormalizeFixed(base);
    NormalizeFixed(removed);
    PickNormal(base, Names(base) - Names(removed));
  }

  lemma MergeNormal(base: seq<string>, appended: seq<string>)
    requires Normal(base) && Normal(appended)
    ensures Merge(base, appended) == base + Pick(appended, Names(appended) - Names(base)) && Normal(Merge(base, appended))
  {
    NormalizeFixed(base);
    SubtractNormal(appended, base);
    NormalAppend(base, Subtract(appended, base));
  }

  lemma NormalAppend(s: seq<string>, t: seq<string>)
    requires Normal(s) && Normal(t) && Names(s) !! Names(t)
    ensures Normal(s + t)
  {
    forall i, j | 0 <= i < j < |s + t| ensures (s + t)[i] != (s + t)[j] {
      if i < |s| <= j {
        assert (s + t)[i] in Names(s) && (s + t)[j] in Names(t);
      }
    }
  }

  // ----- the stored list -----

  predicate CommaFree(names: seq<string>) {
    forall x :: x in names ==> ',' !in x
  }

  lemma {:induction false} ParsedIsCommaFree(parts: seq<string>)
    requires CommaFree(parts)
    ensures CommaFree(NonEmptyTrimmed(parts))
  {
    if parts != [] {
      assert parts[0] in parts && forall x :: x in parts[1..] ==> x in parts;
      ParsedIsCommaFree(parts[1..]);
      TrimSpaceIsTrimmed(parts[0]);
    }
  }

  lemma {:induction false} NormalizeCommaFree(models: seq<string>)
    requires CommaFree(models)
    ensures CommaFree(Normalize(models))
  {
    if models != [] {
      var front := models[..|models| - 1];
      assert models[|models| - 1] in models && forall x :: x in front ==> x in models;
      NormalizeCommaFree(front);
      TrimSpaceIsTrimmed(models[|models| - 1]);
    }
  }

  lemma StoredIsCommaFree(models: string)
    ensures CommaFree(Normalize(GetModels(models)))
  {
    if models != "" {
      SplitPiecesFree(TrimCommas(models), ',');
      ParsedIsCommaFree(SplitOn(TrimCommas(models), ','));
    }
    NormalizeCommaFree(GetModels(models));
  }

  lemma {:induction false} ParseFixed(parts: seq<string>)
    requires forall x :: x in parts ==> TrimmedText(x)
    ensures NonEmptyTrimmed(parts) == parts
  {
    if parts != [] {
      assert parts[0] in parts && forall x :: x in parts[1..] ==> x in parts;
      TrimmedIsFixed(parts[0]);
      ParseFixed(parts[1..]);
    }
  }

  // A normal list is read back as stored exactly when no name holds a comma.
  lemma StoredListIff(names: seq<string>)
    requires Normal(names)
    ensures Normalize(GetModels(JoinWith(names, ','))) == names <==> CommaFree(names)
  {
    StoredIsCommaFree(JoinWith(names, ','));
    if CommaFree(names) && names != [] {
      StoredIsRead(names);
    }
  }

  lemma StoredIsRead(names: seq<string>)
    requires names != [] && Normal(names) && CommaFree(names)
    ensures Normalize(GetModels(JoinWith(names, ','))) == names
  {
    hide TrimSpace, IsSpace;
    assert names[0] in names && names[|names| - 1] in names;
    JoinEnds(names, ',');
    assert TrimCommas(JoinWith(names, ',')) == JoinWith(names, ',');
    hide TrimCommas, JoinWith;
    SplitOfFreeJoin(names, ',');
    ParseFixed(names);
    NormalizeFixed(names);
  }

  // ----- what the lists hold -----

  predicate Increasing(at: seq<nat>) {
    forall i, j :: 0 <= i < j < |at| ==> at[i] < at[j]
  }

  // The names are the non-empty ones among the trimmed pieces, in order; `at` tells where each comes from.
  predicate ReadsAll(names: seq<string>, pieces: seq<string>, at: seq<nat>) {
    && |at| == |names| && Increasing(at)
    && (forall i :: 0 <= i < |at| ==> at[i] < |pieces| && names[i] == TrimSpace(pieces[at[i]]) && names[i] != "")
    && (forall k :: 0 <= k < |pieces| && TrimSpace(pieces[k]) != "" ==> k in at)
  }

  // The same with each name only where it occurs first.
  predicate ReadsOnce(names: seq<string>, models: seq<string>, at: seq<nat>) {
    && |at| == |names| && Increasing(at)
    && (forall i :: 0 <= i < |at| ==> at[i] < |models| && names[i] == TrimSpace(models[at[i]]) && names[i] != "")
    && (forall i, k :: 0 <= i < |at| && 0 <= k < at[i] ==> TrimSpace(models[k]) != names[i])
    && (forall k :: 0 <= k < |models| && TrimSpace(models[k]) != "" ==> TrimSpace(models[k]) in names)
  }

  // For every stored text the names are exactly the non-empty trimmed pieces between its commas, in order.
  lemma GetModelsReadsAll(models: string) returns (at: seq<nat>)
    ensures ReadsAll(GetModels(models), SplitOn(models, ','), at)
  {
    hide TrimSpace, ReadsAll;
    WithoutOuterCommas(models);
    at := TrimmedReadsAll(SplitOn(models, ','));
  }

  // For every list the normal form holds exactly its non-empty trimmed elements, each once, in the order of
  // first occurrence.
  lemma {:induction false} NormalizeReadsOnce(models: seq<string>) returns (at: seq<nat>)
    ensures ReadsOnce(Normalize(models), models, at)
  {
    hide TrimSpace, ReadsOnce;
    at := [];
    if models == [] {
      ReadsNothing();
    } else {
      var n := |models| - 1;
      at := NormalizeReadsOnce(models[..n]);
      var front, last := Normalize(models[..n]), TrimSpace(models[n]);
      assert models == models[..n] + [models[n]];
      if last == "" || last in front {
        NothingNew(front, models[..n], models[n], at);
      } else {
        OneNew(front, models[..n], models[n], at);
        at := at + [n];
      }
    }
  }

  lemma ReadsNothing()
    ensures ReadsOnce([], [], [])
  {}

  lemma NothingNew(names: seq<string>, models: seq<string>, x: string, at: seq<nat>)
    requires ReadsOnce(names, models, at) && (TrimSpace(x) == "" || TrimSpace(x) in names)
    ensures ReadsOnce(names, models + [x], at)
  {
    hide TrimSpace;
  }

  lemma OneNew(names: seq<string>, models: seq<string>, x: string, at: seq<nat>)
    requires ReadsOnce(names, models, at) && TrimSpace(x) != "" && TrimSpace(x) !in names
    ensures ReadsOnce(names + [TrimSpace(x)], models + [x], at + [|models|])
  {
    hide TrimSpace;
    var names', models', at' := names + [TrimSpace(x)], models + [x], at + [|models|];
    forall i, k | 0 <= i < |at'| && 0 <= k < at'[i] ensures TrimSpace(models'[k]) != names'[i] {
      assert models'[k] == models[k];
      if i == |at| && TrimSpace(models[k]) != "" {
        assert TrimSpace(models[k]) in names;
      }
    }
    forall k | 0 <= k < |models'| && TrimSpace(models'[k]) != "" ensures TrimSpace(models'[k]) in names' {
      if k < |models| {
        assert TrimSpace(models[k]) in names;
      } else {
        assert names'[|names|] == TrimSpace(x);
      }
    }
  }

  // The models a channel serves are the pieces of its stored text, each once, in the order of first occurrence.
  lemma LocalReadsOnce(state: State) returns (at: seq<nat>)
    ensures ReadsOnce(LocalOf(state), SplitOn(state.models, ','), at)
  {
    WithoutOuterCommas(state.models);
    NormalizeOfTrimmed(SplitOn(state.models, ','));
    at := NormalizeReadsOnce(SplitOn(state.models, ','));
  }

  lemma {:induction false} NonEmptyAppend(s: seq<string>, t: seq<string>)
    ensures NonEmptyTrimmed(s + t) == NonEmptyTrimmed(s) + NonEmptyTrimmed(t)
  {
    hide TrimSpace;
    if s == [] {
      assert s + t == t;
    } else {
      assert (s + t)[1..] == s[1..] + t;
      NonEmptyAppend(s[1..], t);
    }
  }

  lemma {:induction false} NormalizeOfTrimmed(parts: seq<string>)
    ensures Normalize(NonEmptyTrimmed(parts)) == Normalize(parts)
  {
    hide TrimSpace, IsSpace;
    if parts != [] {
      var front, last := parts[..|parts| - 1], parts[|parts| - 1];
      assert parts == front + [last];
      NonEmptyAppend(front, [last]);
      NormalizeOfTrimmed(front);
      TrimSpaceIsTrimmed(last);
      TrimmedIsFixed(TrimSpace(last));
      assert NonEmptyTrimmed([last]) == if TrimSpace(last) == "" then [] else [TrimSpace(last)];
      if TrimSpace(last) != "" {
        assert NonEmptyTrimmed(parts)[..|NonEmptyTrimmed(parts)| - 1] == NonEmptyTrimmed(front);
      } else {
        assert NonEmptyTrimmed(parts) == NonEmptyTrimmed(front);
      }
    }
  }

  lemma {:induction false} TrimmedReadsAll(pieces: seq<string>) returns (at: seq<nat>)
    ensures ReadsAll(NonEmptyTrimmed(pieces), pieces, at)
  {
    hide TrimSpace;
    at := [];
    if pieces != [] {
      var n := |pieces| - 1;
      var front, last := pieces[..n], TrimSpace(pieces[n]);
      at := TrimmedReadsAll(front);
      assert pieces == front + [pieces[n]];
      NonEmptyAppend(front, [pieces[n]]);
      assert NonEmptyTrimmed([pieces[n]]) == if last == "" then [] else [last];
      if last != "" {
        assert forall k :: k in at ==> k in at + [n];
        assert (at + [n])[|at|] == n;
        at := at + [n];
      }
    }
  }

  // Commas around the text only make empty pieces.
  lemma WithoutOuterCommas(models: string)
    ensures GetModels(models) == NonEmptyTrimmed(SplitOn(models, ','))
  {
    if models == "" {
      assert NonEmptyTrimmed([""]) == [];
    } else {
      var cut := (c: char) => c == ',';
      WithoutLeftCommas(models, cut);
      WithoutRightCommas(TrimLeft(models, cut), cut);
    }
  }

  lemma {:induction false} WithoutLeftCommas(s: string, cut: char -> bool)
    requires forall c :: cut(c) <==> c == ','
    ensures NonEmptyTrimmed(SplitOn(TrimLeft(s, cut), ',')) == NonEmptyTrimmed(SplitOn(s, ','))
  {
    if s != "" && cut(s[0]) {
      WithoutLeftCommas(s[1..], cut);
      assert ([""] + SplitOn(s[1..], ','))[1..] == SplitOn(s[1..], ',');
    }
  }

  lemma {:induction false} WithoutRightCommas(s: string, cut: char -> bool)
    requires forall c :: cut(c) <==> c == ','
    ensures NonEmptyTrimmed(SplitOn(TrimRight(s, cut), ',')) == NonEmptyTrimmed(SplitOn(s, ','))
  {
    if s != "" && cut(s[|s| - 1]) {
      var front := s[..|s| - 1];
      WithoutRightCommas(front, cut);
      assert s == front + [','];
      SplitAtEnd(front, ',');
      NonEmptyAppend(SplitOn(front, ','), [""]);
      assert NonEmptyTrimmed([""]) == [];
    }
  }

  lemma {:induction false} SplitAtEnd(s: string, c: char)
    ensures SplitOn(s + [c], c) == SplitOn(s, c) + [""]
  {
    if s == "" {
      assert s + [c] == [c];
    } else {
      assert (s + [c])[1..] == s[1..] + [c];
      SplitAtEnd(s[1..], c);
    }
  }

  // x stands in the list, apart from white space around it.
  predicate Holds(list: seq<string>, x: string) {
    x != "" && exists k :: 0 <= k < |list| && TrimSpace(list[k]) == x
  }

  lemma NormalizeHolds(list: seq<string>, x: string)
    ensures x in Normalize(list) <==> Holds(list, x)
  {
    hide TrimSpace;
    var at := NormalizeReadsOnce(list);
    if x in Normalize(list) {
      var i :| 0 <= i < |at| && Normalize(list)[i] == x;
      assert TrimSpace(list[at[i]]) == x;
    }
  }

  // An ignore entry that starts with "regex:" hands the rest to the matcher; any other one is the name itself.
  predicate EntryHides(entry: string, x: string, matches: (string, string) -> bool) {
    if "regex:" <= entry then matches(TrimSpace(entry[6..]), x) else entry == x
  }

  // Detection on the lists as they are: an offered name is missing unless it is served, redirected to or hidden
  // by an ignore entry; a served name is gone unless it is offered or an alias. Both keep their list's order.
  lemma DetectMeans(local: seq<string>, upstream: seq<string>, ignored: seq<string>, mapping: map<string, string>,
                    matches: (string, string) -> bool, x: string)
    ensures var d := Detect(local, upstream, ignored, mapping, matches);
            && (x in d.add <==> Holds(upstream, x) && !Holds(local, x) && (forall alias :: alias in mapping ==> mapping[alias] != x)
                                && forall e :: Holds(ignored, e) ==> !EntryHides(e, x, matches))
            && (x in d.remove <==> Holds(local, x) && !Holds(upstream, x) && x !in mapping)
            && d.add == Pick(Normalize(upstream), Names(d.add)) && d.remove == Pick(Normalize(local), Names(d.remove))
  {
    hide TrimSpace, Normalize, Holds;
    DetectNormal(local, upstream, ignored, mapping, matches);
    forall y ensures y in Normalize(local) <==> Holds(local, y) { NormalizeHolds(local, y); }
    forall y ensures y in Normalize(upstream) <==> Holds(upstream, y) { NormalizeHolds(upstream, y); }
    forall y ensures y in Normalize(ignored) <==> Holds(ignored, y) { NormalizeHolds(ignored, y); }
    forall e ensures IgnoreEntryMatches(e, x, matches) <==> EntryHides(e, x, matches) {}
    assert Ignores(Normalize(ignored), x, matches) <==> exists e :: Holds(ignored, e) && EntryHides(e, x, matches);
    assert x in mapping.Values <==> exists alias :: alias in mapping && mapping[alias] == x;
    var d := Detect(local, upstream, ignored, mapping, matches);
    var u, l := Normalize(upstream), Normalize(local);
    PickSame(u, Names(u) - Names(l) - mapping.Values - IgnoredOf(u, ignored, matches), Names(d.add));
    PickSame(l, Names(l) - mapping.Keys - Names(u), Names(d.remove));
  }

  // A request selects, in its own order, the pending names it holds.
  lemma SelectionKeepsOrder(state: State, addInput: seq<string>, ignoreInput: seq<string>, removeInput: seq<string>)
    ensures var s := SelectPending(state, addInput, ignoreInput, removeInput);
            && s.add == Pick(Normalize(addInput), Names(s.add))
            && s.ignore == Pick(Normalize(ignoreInput), Names(s.ignore))
            && s.remove == Pick(Normalize(removeInput), Names(s.remove))
  {
    hide Normalize, Pick, Intersect, Subtract;
    var pendingAdd, pendingRemove := Normalize(state.settings.detected), Normalize(state.settings.removed);
    NormalizeNormal(state.settings.detected);
    NormalizeNormal(state.settings.removed);
    SelectionIsNormal(state, addInput, ignoreInput, removeInput);
    IntersectKeepsOrder(addInput, pendingAdd);
    IntersectKeepsOrder(ignoreInput, pendingAdd);
    RemovalKeepsOrder(removeInput, pendingRemove, Intersect(addInput, pendingAdd));
  }

  lemma IntersectKeepsOrder(input: seq<string>, pending: seq<string>)
    requires Normal(pending)
    ensures var r := Intersect(input, pending); r == Pick(Normalize(input), Names(r))
  {
    NormalizeFixed(pending);
    PickSame(Normalize(input), Names(pending), Names(Intersect(input, pending)));
  }

  lemma RemovalKeepsOrder(removeInput: seq<string>, pending: seq<string>, add: seq<string>)
    requires Normal(pending) && Normal(add)
    ensures var r := Subtract(Intersect(removeInput, pending), add);
            r == Pick(Normalize(removeInput), Names(r))
  {
    var wanted := Normalize(removeInput);
    NormalizeNormal(removeInput);
    NormalizeFixed(pending);
    var both := Intersect(removeInput, pending);
    PickNormal(wanted, Names(pending));
    SubtractNormal(both, add);
    PickPick(wanted, Names(pending), Names(both) - Names(add));
    PickSame(wanted, Names(pending) * (Names(both) - Names(add)), Names(Subtract(both, add)));
  }

  // ----- applying -----

  lemma SelectionIsNormal(state: State, addInput: seq<string>, ignoreInput: seq<string>, removeInput: seq<string>)
    ensures var s := SelectPending(state, addInput, ignoreInput, removeInput);
            var pendingAdd, pendingRemove := Normalize(state.settings.detected), Normalize(state.settings.removed);
            && Normal(s.add) && Normal(s.ignore) && Normal(s.remove)
            && Names(s.add) <= Names(pendingAdd) && Names(s.ignore) <= Names(pendingAdd) && Names(s.remove) <= Names(pendingRemove)
            && Names(s.add) !! Names(s.remove)
  {
    var pendingAdd, pendingRemove := Normalize(state.settings.detected), Normalize(state.settings.removed);
    NormalizeNormal(state.settings.detected);
    NormalizeNormal(state.settings.removed);
    NormalizeFixed(pendingAdd);
    NormalizeFixed(pendingRemove);
    NormalizeNormal(addInput);
    NormalizeNormal(ignoreInput);
    NormalizeNormal(removeInput);
    PickNormal(Normalize(addInput), Names(pendingAdd));
    PickNormal(Normalize(ignoreInput), Names(pendingAdd));
    PickNormal(Normalize(removeInput), Names(pendingRemove));
    SubtractNormal(Intersect(removeInput, pendingRemove), Intersect(addInput, pendingAdd));
  }

  lemma NextModels(origin: seq<string>, add: seq<string>, remove: seq<string>)
    requires Normal(origin) && Normal(add) && Normal(remove) && Names(add) !! Names(remove)
    ensures var next := ApplySelected(origin, add, remove);
            next == Pick(origin, Names(origin) - Names(remove)) + Pick(add, Names(add) - Names(origin)) && Normal(next)
  {
    NormalizeFixed(add);
    NormalizeFixed(remove);
    SubtractNormal(remove, add);
    PickAll(remove, Names(remove) - Names(add));
    MergeNormal(origin, add);
    var gained := Pick(add, Names(add) - Names(origin));
    var merged := origin + gained;
    SubtractNormal(merged, remove);
    PickAppend(origin, gained, Names(merged) - Names(remove));
    PickSame(origin, Names(merged) - Names(remove), Names(origin) - Names(remove));
    PickAll(gained, Names(merged) - Names(remove));
  }

  function LocalOf(state: State): seq<string> {
    Normalize(GetModels(state.models))
  }

  lemma AppliedLocal(state: State, selection: Selection, now: int)
    requires Normal(selection.add) && Normal(selection.remove) && Names(selection.add) !! Names(selection.remove)
    requires CommaFree(Pick(selection.add, Names(selection.add) - Names(LocalOf(state))))
    ensures LocalOf(Applied(state, selection, now)) == ApplySelected(LocalOf(state), selection.add, selection.remove)
  {
    var origin := LocalOf(state);
    var next := ApplySelected(origin, selection.add, selection.remove);
    NormalizeNormal(GetModels(state.models));
    NextModels(origin, selection.add, selection.remove);
    StoredIsCommaFree(state.models);
    StoredListIff(next);
  }

  // What an apply may do to the models: gain only the selected pending ones, lose only those selected for
  // removal, and keep the rest in order.
  predicate OnlySelectedChanges(before: seq<string>, after: seq<string>, s: Selection) {
    && Names(after) - Names(before) == Names(s.add) - Names(before)
    && Names(before) - Names(after) == Names(before) * Names(s.remove)
    && Pick(after, Names(before)) == Pick(before, Names(after))
  }

  // Whatever the stored lists are, the selection lies in the pending lists, nothing is duplicated, and the
  // models change as selected, exactly when no name that is new to the channel holds a comma: otherwise
  // the channel gains the pieces of that name, which never were pending.
  lemma ApplyStaysWithinPendingIff(state: State, addInput: seq<string>, ignoreInput: seq<string>, removeInput: seq<string>, now: int)
    ensures var s := SelectPending(state, addInput, ignoreInput, removeInput);
            var before, after := LocalOf(state), LocalOf(Applied(state, s, now));
            && Normal(after)
            && Names(s.add) == Names(Normalize(state.settings.detected)) * Names(Normalize(addInput))
            && Names(s.remove) == (Names(Normalize(state.settings.removed)) * Names(Normalize(removeInput))) - Names(s.add)
            && (OnlySelectedChanges(before, after, s) <==> CommaFree(Pick(s.add, Names(s.add) - Names(before))))
  {
    hide SelectPending, Applied, LocalOf, ApplySelected, Normal;
    var s := SelectPending(state, addInput, ignoreInput, removeInput);
    var before, after := LocalOf(state), LocalOf(Applied(state, s, now));
    SelectionIsNormal(state, addInput, ignoreInput, removeInput);
    RemovedSelection(state, addInput, ignoreInput, removeInput);
    LocalIsNormal(state);
    LocalIsNormal(Applied(state, s, now));
    if CommaFree(Pick(s.add, Names(s.add) - Names(before))) {
      AppliedLocal(state, s, now);
      ListChange(before, s.add, s.remove);
    } else {
      var x :| x in Pick(s.add, Names(s.add) - Names(before)) && ',' in x;
      LocalIsCommaFree(Applied(state, s, now));
      assert x in Names(s.add) - Names(before) && x !in Names(after);
    }
  }

  lemma LocalIsCommaFree(state: State)
    ensures CommaFree(LocalOf(state))
  {
    StoredIsCommaFree(state.models);
  }

  lemma LocalIsNormal(state: State)
    ensures Normal(LocalOf(state))
  {
    NormalizeNormal(GetModels(state.models));
  }

  lemma ListChange(before: seq<string>, add: seq<string>, remove: seq<string>)
    requires Normal(before) && Normal(add) && Normal(remove) && Names(add) !! Names(remove)
    ensures var after := ApplySelected(before, add, remove);
            && Normal(after)
            && Names(after) - Names(before) == Names(add) - Names(before)
            && Names(before) - Names(after) == Names(before) * Names(remove)
            && Pick(after, Names(before)) == Pick(before, Names(after))
  {
    hide ApplySelected, Normal;
    var after := ApplySelected(before, add, remove);
    NextModels(before, add, remove);
    var kept, gained := Pick(before, Names(before) - Names(remove)), Pick(add, Names(add) - Names(before));
    PickAppend(kept, gained, Names(before));
    PickAll(kept, Names(before));
    PickNone(gained, Names(before));
    PickSame(before, Names(before) - Names(remove), Names(after));
  }

  lemma RemovedSelection(state: State, addInput: seq<string>, ignoreInput: seq<string>, removeInput: seq<string>)
    ensures var s := SelectPending(state, addInput, ignoreInput, removeInput);
            && Names(s.add) == Names(Normalize(state.settings.detected)) * Names(Normalize(addInput))
            && Names(s.ignore) == Names(Normalize(state.settings.detected)) * Names(Normalize(ignoreInput))
            && Names(s.remove) == (Names(Normalize(state.settings.removed)) * Names(Normalize(removeInput))) - Names(s.add)
  {
    NormalizeNormal(state.settings.detected);
    NormalizeNormal(state.settings.removed);
    NormalizeFixed(Normalize(state.settings.detected));
    NormalizeFixed(Normalize(state.settings.removed));
    SelectionIsNormal(state, addInput, ignoreInput, removeInput);
    NormalizeNormal(removeInput);
    PickNormal(Normalize(removeInput), Names(Normalize(state.settings.removed)));
    SubtractNormal(Intersect(removeInput, Normalize(state.settings.removed)), Intersect(addInput, Normalize(state.settings.detected)));
  }

  // Pending-add splits into added, newly ignored and remaining; adding wins over ignoring and over removing.
  lemma ApplySplitsPending(state: State, addInput: seq<string>, ignoreInput: seq<string>, removeInput: seq<string>, now: int)
    ensures var s := SelectPending(state, addInput, ignoreInput, removeInput);
            var after := Applied(state, s, now).settings; var pendingAdd := Normalize(state.settings.detected);
            && Names(pendingAdd) == Names(s.add) + (Names(s.ignore) - Names(s.add)) + Names(after.detected)
            && Names(after.detected) !! Names(s.add) + Names(s.ignore)
            && after.detected == Pick(pendingAdd, Names(after.detected))
            && after.removed == Pick(Normalize(state.settings.removed), Names(Normalize(state.settings.removed)) - Names(s.remove))
            && Names(after.ignored) == Names(Normalize(state.settings.ignored)) + Names(s.ignore) - Names(s.add)
  {
    var s := SelectPending(state, addInput, ignoreInput, removeInput);
    var pendingAdd, pendingRemove := Normalize(state.settings.detected), Normalize(state.settings.removed);
    SelectionIsNormal(state, addInput, ignoreInput, removeInput);
    NormalizeNormal(state.settings.detected);
    NormalizeNormal(state.settings.removed);
    RemainingList(pendingAdd, s.add, s.ignore);
    SubtractNormal(pendingRemove, s.remove);
    var remaining := Subtract(pendingAdd, s.add + s.ignore);
    PickSame(pendingAdd, Names(pendingAdd) - (Names(s.add) + Names(s.ignore)), Names(remaining));
    IgnoredAfter(state.settings.ignored, s);
  }

  lemma {:induction false} NormalizeNames(models: seq<string>)
    requires forall x :: x in models ==> TrimmedText(x)
    ensures Names(Normalize(models)) == Names(models)
  {
    hide TrimSpace, IsSpace;
    if models != [] {
      var front := models[..|models| - 1];
      assert models == front + [models[|models| - 1]];
      assert models[|models| - 1] in models;
      NormalizeNames(front);
      TrimmedIsFixed(models[|models| - 1]);
      assert Names(models) == Names(front) + {models[|models| - 1]};
      assert Names(Normalize(models)) == Names(Normalize(front)) + {models[|models| - 1]};
    }
  }

  lemma RemainingList(pending: seq<string>, add: seq<string>, ignore: seq<string>)
    requires Normal(pending) && Normal(add) && Normal(ignore)
    ensures Subtract(pending, add + ignore) == Pick(pending, Names(pending) - (Names(add) + Names(ignore)))
    ensures Normal(Subtract(pending, add + ignore))
  {
    NormalizeNames(add + ignore);
    NormalizeFixed(pending);
    assert Names(add + ignore) == Names(add) + Names(ignore);
    PickSame(pending, Names(pending) - Names(add + ignore), Names(pending) - (Names(add) + Names(ignore)));
    PickNormal(pending, Names(pending) - (Names(add) + Names(ignore)));
  }

  lemma IgnoredAfter(ignored: seq<string>, s: Selection)
    requires Normal(s.add) && Normal(s.ignore)
    ensures var after := AppliedIgnored(ignored, s);
            Normal(after) && Names(after) == Names(Normalize(ignored)) + Names(s.ignore) - Names(s.add)
  {
    hide Normalize;
    var merged := Merge(ignored, s.ignore);
    NormalizeNormal(ignored);
    NormalizeFixed(Normalize(ignored));
    NormalizeFixed(s.ignore);
    MergeNormal(Normalize(ignored), s.ignore);
    assert Merge(ignored, s.ignore) == Merge(Normalize(ignored), s.ignore);
    if s.add != [] {
      SubtractNormal(merged, s.add);
    }
  }

  // ----- detecting again -----

  // The stored lists are what a detection now would find.
  predicate UpToDate(state: State, upstream: seq<string>, mapping: map<string, string>, matches: (string, string) -> bool) {
    DetectIn(state, upstream, mapping, matches) == Pending(state.settings.detected, state.settings.removed)
  }

  // Names that read like patterns, taken as patterns, match nothing that is offered.
  predicate PatternsInert(entries: seq<string>, upstream: seq<string>, matches: (string, string) -> bool) {
    forall e, x :: e in entries && IsPattern(e) && x in Normalize(upstream) ==> !IgnoreEntryMatches(e, x, matches)
  }

  predicate NoneIsPattern(names: set<string>) {
    forall x :: x in names ==> !IsPattern(x)
  }

  lemma DetectNormal(local: seq<string>, upstream: seq<string>, ignored: seq<string>, mapping: map<string, string>, matches: (string, string) -> bool)
    ensures var l, u := Normalize(local), Normalize(upstream);
            var d := Detect(local, upstream, ignored, mapping, matches);
            && d.add == Pick(u, Names(u) - Names(l) - mapping.Values - IgnoredOf(u, ignored, matches))
            && d.remove == Pick(l, Names(l) - mapping.Keys - Names(u))
            && Normal(l) && Normal(u) && Normal(d.add) && Normal(d.remove)
  {
    var l, u := Normalize(local), Normalize(upstream);
    NormalizeNormal(local);
    NormalizeNormal(upstream);
    PickNormal(u, Names(u) - Names(l) - mapping.Values - IgnoredOf(u, ignored, matches));
    PickNormal(l, Names(l) - mapping.Keys - Names(u));
    NormalizeFixed(Pick(u, Names(u) - Names(l) - mapping.Values - IgnoredOf(u, ignored, matches)));
    NormalizeFixed(Pick(l, Names(l) - mapping.Keys - Names(u)));
  }

  // Nothing is pending exactly when every offered model is served, redirected to or ignored, and every
  // served model is offered or an alias.
  lemma NothingPendingIff(state: State, upstream: seq<string>, mapping: map<string, string>, matches: (string, string) -> bool)
    ensures DetectIn(state, upstream, mapping, matches) == Pending([], [])
            <==> (forall x :: x in Normalize(upstream) ==>
                    x in LocalOf(state) || (exists alias :: alias in mapping && mapping[alias] == x)
                    || Ignores(Normalize(state.settings.ignored), x, matches))
                 && (forall x :: x in LocalOf(state) ==> x in mapping || x in Normalize(upstream))
  {
    hide Normalize, Ignores;
    DetectNormal(GetModels(state.models), upstream, state.settings.ignored, mapping, matches);
    NoNames(DetectIn(state, upstream, mapping, matches).add);
    NoNames(DetectIn(state, upstream, mapping, matches).remove);
    assert forall x :: x in mapping.Values <==> exists alias :: alias in mapping && mapping[alias] == x;
  }

  // What the ignore list does after the selection was applied.
  lemma IgnoresAfter(ignored: seq<string>, s: Selection, upstream: seq<string>, x: string, matches: (string, string) -> bool)
    requires Normal(s.add) && Normal(s.ignore) && PatternsInert(s.add + s.ignore, upstream, matches) && x in Normalize(upstream)
    requires x in s.add ==> !Ignores(Normalize(ignored), x, matches)
    ensures Ignores(Normalize(AppliedIgnored(ignored, s)), x, matches)
            <==> Ignores(Normalize(ignored), x, matches) || (x in s.ignore && x !in s.add && !IsPattern(x))
  {
    var after := AppliedIgnored(ignored, s);
    IgnoredAfter(ignored, s);
    NormalizeFixed(after);
    assert forall e :: e in after <==> e in Names(after);
    assert forall e :: e in Names(after) <==> (e in Normalize(ignored) || e in s.ignore) && e !in s.add;
    assert forall e :: e in s.add || e in s.ignore ==> e in s.add + s.ignore;
    if Ignores(Normalize(ignored), x, matches) {
      var e :| e in Normalize(ignored) && IgnoreEntryMatches(e, x, matches);
      assert e in after;
    }
    if x in s.ignore && x !in s.add && !IsPattern(x) {
      assert x in after && IgnoreEntryMatches(x, x, matches);
    }
  }

  // What applying needs to know about an up-to-date state.
  predicate Selected(state: State, s: Selection) {
    && Normal(s.add) && Normal(s.ignore) && Normal(s.remove)
    && Names(s.add) <= Names(state.settings.detected) && Names(s.ignore) <= Names(state.settings.detected)
    && Names(s.remove) <= Names(state.settings.removed)
  }

  lemma SelectionOfUpToDate(state: State, upstream: seq<string>, mapping: map<string, string>, matches: (string, string) -> bool,
                            addInput: seq<string>, ignoreInput: seq<string>, removeInput: seq<string>)
    requires UpToDate(state, upstream, mapping, matches)
    ensures Selected(state, SelectPending(state, addInput, ignoreInput, removeInput))
    ensures Normal(state.settings.detected) && Normal(state.settings.removed)
  {
    DetectNormal(GetModels(state.models), upstream, state.settings.ignored, mapping, matches);
    NormalizeFixed(state.settings.detected);
    NormalizeFixed(state.settings.removed);
    SelectionIsNormal(state, addInput, ignoreInput, removeInput);
  }

  // The upstream names that count as missing.
  function Missing(state: State, upstream: seq<string>, mapping: map<string, string>, matches: (string, string) -> bool): set<string> {
    var u := Normalize(upstream);
    Names(u) - Names(LocalOf(state)) - mapping.Values - IgnoredOf(u, state.settings.ignored, matches)
  }

  lemma RemovedIsNotOffered(state: State, upstream: seq<string>, mapping: map<string, string>, matches: (string, string) -> bool, s: Selection, x: string)
    requires UpToDate(state, upstream, mapping, matches) && Selected(state, s) && x in Normalize(upstream)
    ensures x !in s.remove
  {
    hide Normalize, IgnoredOf;
    DetectNormal(GetModels(state.models), upstream, state.settings.ignored, mapping, matches);
    assert x in s.remove ==> x in Names(s.remove) && x in Names(state.settings.removed);
  }

  lemma PendingIsMissing(state: State, upstream: seq<string>, mapping: map<string, string>, matches: (string, string) -> bool)
    ensures DetectIn(state, upstream, mapping, matches).add == Pick(Normalize(upstream), Missing(state, upstream, mapping, matches))
    ensures Normal(DetectIn(state, upstream, mapping, matches).add)
  {
    DetectNormal(GetModels(state.models), upstream, state.settings.ignored, mapping, matches);
  }

  lemma RemoveAgain(state: State, upstream: seq<string>, mapping: map<string, string>, matches: (string, string) -> bool, s: Selection, now: int)
    requires UpToDate(state, upstream, mapping, matches) && Selected(state, s) && CommaFree(s.add)
    ensures DetectIn(Applied(state, s, now), upstream, mapping, matches).remove == Applied(state, s, now).settings.removed
  {
    var after := Applied(state, s, now);
    var l, l', u := LocalOf(state), LocalOf(after), Normalize(upstream);
    DetectNormal(GetModels(state.models), upstream, state.settings.ignored, mapping, matches);
    DetectNormal(GetModels(after.models), upstream, after.settings.ignored, mapping, matches);
    assert Names(s.add) !! Names(s.remove);
    AppliedLocal(state, s, now);
    NextModels(l, s.add, s.remove);
    NormalizeFixed(state.settings.removed);
    SubtractNormal(state.settings.removed, s.remove);
    var gone := Names(l) - mapping.Keys - Names(u);
    var gone' := Names(l') - mapping.Keys - Names(u);
    var kept, gained := Pick(l, Names(l) - Names(s.remove)), Pick(s.add, Names(s.add) - Names(l));
    PickAppend(kept, gained, gone');
    forall x | x in gained ensures x in u {
      assert x in Names(s.add);
    }
    PickNone(gained, gone');
    PickPick(l, Names(l) - Names(s.remove), gone');
    PickPick(l, gone, Names(state.settings.removed) - Names(s.remove));
    PickSame(l, (Names(l) - Names(s.remove)) * gone', gone * (Names(state.settings.removed) - Names(s.remove)));
  }

  // A model name with a comma is stored as two names, so it is found missing again, unless a name that is
  // ignored with the same request matches it as a pattern.
  lemma CommaComesBack(state: State, upstream: seq<string>, mapping: map<string, string>, matches: (string, string) -> bool,
                       s: Selection, now: int, x: string)
    requires UpToDate(state, upstream, mapping, matches) && Selected(state, s)
    requires x in s.add && ',' in x && !HiddenByIgnored(s, x, matches)
    ensures DetectIn(Applied(state, s, now), upstream, mapping, matches).add != Applied(state, s, now).settings.detected
  {
    var after := Applied(state, s, now);
    PendingIsMissing(state, upstream, mapping, matches);
    PendingIsMissing(after, upstream, mapping, matches);
    assert x in Names(s.add) && x in Names(state.settings.detected);
    StillNotIgnored(state.settings.ignored, s, x, matches);
    LocalIsCommaFree(after);
    NormalizeFixed(state.settings.detected);
    RemainingList(state.settings.detected, s.add, s.ignore);
  }

  // An entry that stays on the ignore list because of this selection matches the name.
  predicate HiddenByIgnored(s: Selection, x: string, matches: (string, string) -> bool) {
    exists e :: e in s.ignore && e !in s.add && IgnoreEntryMatches(e, x, matches)
  }

  lemma StillNotIgnored(ignored: seq<string>, s: Selection, x: string, matches: (string, string) -> bool)
    requires Normal(s.add) && Normal(s.ignore)
    requires !Ignores(Normalize(ignored), x, matches) && !HiddenByIgnored(s, x, matches)
    ensures !Ignores(Normalize(AppliedIgnored(ignored, s)), x, matches)
  {
    hide Normalize, IgnoreEntryMatches;
    var after := AppliedIgnored(ignored, s);
    IgnoredAfter(ignored, s);
    NormalizeFixed(after);
    forall e | e in after ensures !IgnoreEntryMatches(e, x, matches) {
      assert e in Names(after);
    }
  }

  // The ignore list hides what it hid before and the newly ignored names, and nothing else, among the
  // offered models that are not served, redirected to or added.
  predicate IgnoresAsSelected(state: State, s: Selection, upstream: seq<string>, mapping: map<string, string>, matches: (string, string) -> bool) {
    forall x :: x in Normalize(upstream) && x !in LocalOf(state) && x !in mapping.Values && x !in s.add ==>
      (Ignores(Normalize(AppliedIgnored(state.settings.ignored, s)), x, matches)
       <==> Ignores(Normalize(state.settings.ignored), x, matches) || x in s.ignore)
  }

  lemma LocalAfter(state: State, upstream: seq<string>, mapping: map<string, string>, matches: (string, string) -> bool, s: Selection, now: int, x: string)
    requires UpToDate(state, upstream, mapping, matches) && Selected(state, s) && CommaFree(s.add) && x in Normalize(upstream)
    ensures x in LocalOf(Applied(state, s, now)) <==> x in LocalOf(state) || x in s.add
  {
    hide Normalize, Applied, ApplySelected, IgnoredOf;
    assert Names(s.add) !! Names(s.remove) by {
      DetectNormal(GetModels(state.models), upstream, state.settings.ignored, mapping, matches);
    }
    AppliedLocal(state, s, now);
    LocalIsNormal(state);
    NextModels(LocalOf(state), s.add, s.remove);
    RemovedIsNotOffered(state, upstream, mapping, matches, s, x);
  }

  lemma MissingMeans(state: State, upstream: seq<string>, mapping: map<string, string>, matches: (string, string) -> bool, x: string)
    requires x in Normalize(upstream)
    ensures x in Missing(state, upstream, mapping, matches)
            <==> x !in LocalOf(state) && x !in mapping.Values && !Ignores(Normalize(state.settings.ignored), x, matches)
  {
    hide Normalize, Ignores, LocalOf;
  }

  lemma AddAgainIff(state: State, upstream: seq<string>, mapping: map<string, string>, matches: (string, string) -> bool, s: Selection, now: int)
    requires UpToDate(state, upstream, mapping, matches) && Selected(state, s) && CommaFree(s.add)
    ensures DetectIn(Applied(state, s, now), upstream, mapping, matches).add == Applied(state, s, now).settings.detected
            <==> IgnoresAsSelected(state, s, upstream, mapping, matches)
  {
    var after := Applied(state, s, now);
    var u, pending := Normalize(upstream), state.settings.detected;
    assert after.settings.ignored == AppliedIgnored(state.settings.ignored, s);
    PendingIsMissing(state, upstream, mapping, matches);
    PendingIsMissing(after, upstream, mapping, matches);
    NormalizeFixed(pending);
    RemainingList(pending, s.add, s.ignore);
    hide AppliedIgnored, AppliedModels, Ignores, Normalize, Missing, LocalOf;
    var open, open' := Missing(state, upstream, mapping, matches), Missing(after, upstream, mapping, matches);
    var remaining := Names(pending) - (Names(s.add) + Names(s.ignore));
    PickPick(u, open, remaining);
    SamePickIff(u, open', open * remaining);
    forall x | x in u ensures (x in open' <==> x in open * remaining) <==>
        (x !in LocalOf(state) && x !in mapping.Values && x !in s.add ==>
          (Ignores(Normalize(AppliedIgnored(state.settings.ignored, s)), x, matches)
           <==> Ignores(Normalize(state.settings.ignored), x, matches) || x in s.ignore))
    {
      MissingMeans(state, upstream, mapping, matches, x);
      MissingMeans(after, upstream, mapping, matches, x);
      LocalAfter(state, upstream, mapping, matches, s, now, x);
    }
  }

  lemma SamePickIff(s: seq<string>, a: set<string>, b: set<string>)
    ensures Pick(s, a) == Pick(s, b) <==> forall x :: x in s ==> (x in a <==> x in b)
  {
    if forall x :: x in s ==> (x in a <==> x in b) {
      PickSame(s, a, b);
    } else {
      var x :| x in s && !(x in a <==> x in b);
      assert x in Pick(s, a) <==> x in a;
    }
  }

  // After any selection is applied, detecting again finds exactly the stored remaining lists, in order,
  // precisely when no added name holds a comma and the ignore list works as selected; names that read like
  // patterns may match whatever they like, short of hiding an added name with a comma.
  lemma RedetectIff(state: State, upstream: seq<string>, mapping: map<string, string>, matches: (string, string) -> bool,
                    addInput: seq<string>, ignoreInput: seq<string>, removeInput: seq<string>, now: int)
    requires UpToDate(state, upstream, mapping, matches)
    requires var s := SelectPending(state, addInput, ignoreInput, removeInput);
             forall x :: x in s.add && ',' in x ==> !HiddenByIgnored(s, x, matches)
    ensures var s := SelectPending(state, addInput, ignoreInput, removeInput);
            UpToDate(Applied(state, s, now), upstream, mapping, matches)
            <==> CommaFree(s.add) && IgnoresAsSelected(state, s, upstream, mapping, matches)
  {
    hide Applied, DetectIn, SelectPending, HiddenByIgnored, IgnoresAsSelected;
    var s := SelectPending(state, addInput, ignoreInput, removeInput);
    SelectionOfUpToDate(state, upstream, mapping, matches, addInput, ignoreInput, removeInput);
    if CommaFree(s.add) {
      AddAgainIff(state, upstream, mapping, matches, s, now);
      RemoveAgain(state, upstream, mapping, matches, s, now);
    } else {
      var x :| x in s.add && ',' in x;
      CommaComesBack(state, upstream, mapping, matches, s, now, x);
    }
  }

  // Names that match nothing on offer as patterns neither hide a model nor uncover one.
  lemma InertIgnores(state: State, upstream: seq<string>, mapping: map<string, string>, matches: (string, string) -> bool, s: Selection)
    requires UpToDate(state, upstream, mapping, matches) && Selected(state, s) && PatternsInert(s.add + s.ignore, upstream, matches)
    ensures forall x :: x in s.add ==> !HiddenByIgnored(s, x, matches)
    ensures IgnoresAsSelected(state, s, upstream, mapping, matches) <==> NoneIsPattern(Names(s.ignore) - Names(s.add))
  {
    hide Normalize, AppliedIgnored, LocalOf, Missing, Ignores, IgnoreEntryMatches;
    PendingIsMissing(state, upstream, mapping, matches);
    forall x | x in s.add ensures !HiddenByIgnored(s, x, matches) {
      assert x in Names(s.add) && x in Names(state.settings.detected);
      forall e | e in s.ignore && e !in s.add ensures !IgnoreEntryMatches(e, x, matches) {
        LiteralMatches(e, x, matches);
        assert e in s.add + s.ignore;
      }
    }
    forall x | x in Normalize(upstream) && x !in s.add
      ensures Ignores(Normalize(AppliedIgnored(state.settings.ignored, s)), x, matches)
              <==> Ignores(Normalize(state.settings.ignored), x, matches) || (x in s.ignore && !IsPattern(x))
    {
      IgnoresAfter(state.settings.ignored, s, upstream, x, matches);
    }
    if x :| x in Names(s.ignore) - Names(s.add) && IsPattern(x) {
      assert x in Names(state.settings.detected);
      MissingMeans(state, upstream, mapping, matches, x);
    }
  }

  lemma LiteralMatches(e: string, x: string, matches: (string, string) -> bool)
    ensures !IsPattern(e) ==> (IgnoreEntryMatches(e, x, matches) <==> e == x)
  {}

  // In particular, if names that read like patterns match nothing on offer: precisely when no added name
  // holds a comma and no name that was only ignored reads like a pattern.
  lemma RedetectPlainIff(state: State, upstream: seq<string>, mapping: map<string, string>, matches: (string, string) -> bool,
                         addInput: seq<string>, ignoreInput: seq<string>, removeInput: seq<string>, now: int)
    requires UpToDate(state, upstream, mapping, matches)
    requires var s := SelectPending(state, addInput, ignoreInput, removeInput); PatternsInert(s.add + s.ignore, upstream, matches)
    ensures var s := SelectPending(state, addInput, ignoreInput, removeInput);
            UpToDate(Applied(state, s, now), upstream, mapping, matches)
            <==> CommaFree(s.add) && NoneIsPattern(Names(s.ignore) - Names(s.add))
  {
    hide Applied, DetectIn, SelectPending, HiddenByIgnored, IgnoresAsSelected, PatternsInert;
    var s := SelectPending(state, addInput, ignoreInput, removeInput);
    SelectionOfUpToDate(state, upstream, mapping, matches, addInput, ignoreInput, removeInput);
    InertIgnores(state, upstream, mapping, matches, s);
    RedetectIff(state, upstream, mapping, matches, addInput, ignoreInput, removeInput, now);
  }

  // Applying everything leaves nothing to do exactly when no pending name holds a comma and none was an
  // ignore pattern still in use; for names that match nothing as patterns the comma alone decides.
  lemma ApplyAllSettlesIff(state: State, upstream: seq<string>, mapping: map<string, string>, matches: (string, string) -> bool, now: int)
    requires UpToDate(state, upstream, mapping, matches)
    ensures var s := SelectPending(state, state.settings.detected, [], state.settings.removed);
            var settled := DetectIn(Applied(state, s, now), upstream, mapping, matches) == Pending([], []);
            && (settled <==> CommaFree(state.settings.detected) && IgnoresAsSelected(state, s, upstream, mapping, matches))
            && (PatternsInert(state.settings.detected, upstream, matches) ==> (settled <==> CommaFree(state.settings.detected)))
  {
    var add, remove := state.settings.detected, state.settings.removed;
    var s := SelectPending(state, add, [], remove);
    SelectionOfUpToDate(state, upstream, mapping, matches, add, [], remove);
    PendingDisjoint(state, upstream, mapping, matches);
    EverythingSelected(state);
    hide SelectPending, Applied, DetectIn, IgnoresAsSelected, PatternsInert;
    RedetectIff(state, upstream, mapping, matches, add, [], remove, now);
    NothingRemains(state, s, now);
    if PatternsInert(add, upstream, matches) {
      assert s.add + s.ignore == add;
      InertIgnores(state, upstream, mapping, matches, s);
    }
  }

  // A name is never pending on both sides.
  lemma PendingDisjoint(state: State, upstream: seq<string>, mapping: map<string, string>, matches: (string, string) -> bool)
    requires UpToDate(state, upstream, mapping, matches)
    ensures Names(state.settings.detected) !! Names(state.settings.removed)
  {
    DetectNormal(GetModels(state.models), upstream, state.settings.ignored, mapping, matches);
  }

  lemma EverythingSelected(state: State)
    requires Normal(state.settings.detected) && Normal(state.settings.removed)
    requires Names(state.settings.detected) !! Names(state.settings.removed)
    ensures SelectPending(state, state.settings.detected, [], state.settings.removed)
            == Selection(state.settings.detected, [], state.settings.removed)
  {
    var add, remove := state.settings.detected, state.settings.removed;
    NormalizeFixed(add);
    NormalizeFixed(remove);
    PickAll(add, Names(add));
    PickAll(remove, Names(remove));
    SubtractNormal(remove, add);
    PickAll(remove, Names(remove) - Names(add));
  }

  lemma NothingRemains(state: State, s: Selection, now: int)
    requires Normal(state.settings.detected) && Normal(state.settings.removed)
    requires s == Selection(state.settings.detected, [], state.settings.removed)
    ensures Applied(state, s, now).settings.detected == [] && Applied(state, s, now).settings.removed == []
  {
    NormalizeFixed(state.settings.detected);
    NormalizeFixed(state.settings.removed);
    RemainingList(s.add, s.add, s.ignore);
    PickNone(s.add, Names(s.add) - (Names(s.add) + Names(s.ignore)));
    SubtractNormal(s.remove, s.remove);
    PickNone(s.remove, Names(s.remove) - Names(s.remove));
  }

  const PATTERN_NAME := "regex:m"
  const HIDDEN := ["regex:m", "m"]

  function PatternState(): State {
    State("", Settings([PATTERN_NAME], [PATTERN_NAME], [], 0, false))
  }

  function SameText(p: string, x: string): bool { p == x }

  lemma PatternStateIsUpToDate()
    ensures UpToDate(PatternState(), HIDDEN, map[], SameText)
  {
    PatternNameIsTrimmed();
    assert GetModels("") == [] && Normalize([]) == [];
    hide Normalize, Ignores, TrimmedText, GetModels;
    TwoNames(PATTERN_NAME, "m");
    PatternMatchesItself(SameText);
    DetectNormal([], HIDDEN, [PATTERN_NAME], map[], SameText);
    var empty: map<string, string> := map[];
    var open := Names(HIDDEN) - Names([]) - empty.Values - IgnoredOf(HIDDEN, [PATTERN_NAME], SameText);
    assert "m" !in open && PATTERN_NAME in open;
    PickTwo(PATTERN_NAME, "m", open);
    PickNone([], Names([]) - empty.Keys - Names(HIDDEN));
  }

  // Adding a model whose name is also an ignore pattern drops the pattern, and what it hid turns up:
  // the condition of RedetectIff does not help when a selected name works as a pattern.
  lemma PatternNameMisfires()
    ensures var s := SelectPending(PatternState(), [PATTERN_NAME], [], []);
            var after := Applied(PatternState(), s, 1);
            && UpToDate(PatternState(), HIDDEN, map[], SameText)
            && CommaFree(s.add) && s.ignore == []
            && after.settings.detected == [] && "m" in DetectIn(after, HIDDEN, map[], SameText).add
  {
    hide PatternState, SelectPending, Applied, UpToDate, DetectIn;
    PatternStateIsUpToDate();
    var s := SelectPending(PatternState(), [PATTERN_NAME], [], []);
    PatternSelection();
    PatternDropped(s);
  }

  lemma PatternSelection()
    ensures SelectPending(PatternState(), [PATTERN_NAME], [], []) == Selection([PATTERN_NAME], [], [])
  {
    NormalizeFixed([PATTERN_NAME]);
    PickAll([PATTERN_NAME], Names([PATTERN_NAME]));
  }

  lemma PatternDropped(s: Selection)
    requires s == Selection([PATTERN_NAME], [], [])
    ensures var after := Applied(PatternState(), s, 1);
            after.settings.detected == [] && "m" in DetectIn(after, HIDDEN, map[], SameText).add
  {
    PatternRemaining(s);
    PatternLocal(s);
    var after := Applied(PatternState(), s, 1);
    hide *;
    TwoNames(PATTERN_NAME, "m");
    UnknownIsMissing(GetModels(after.models), HIDDEN, SameText, "m");
  }

  lemma PatternRemaining(s: Selection)
    requires s == Selection([PATTERN_NAME], [], [])
    ensures var after := Applied(PatternState(), s, 1).settings; after.detected == [] && after.ignored == []
  {
    NormalizeFixed([PATTERN_NAME]);
    RemainingList([PATTERN_NAME], s.add, s.ignore);
    PickNone([PATTERN_NAME], Names([PATTERN_NAME]) - (Names(s.add) + Names(s.ignore)));
    IgnoredAfter([PATTERN_NAME], s);
    NoNames(AppliedIgnored([PATTERN_NAME], s));
  }

  lemma NoNames(s: seq<string>)
    ensures Names(s) == {} <==> s == []
  {
    if s != [] {
      assert s[0] in Names(s);
    }
  }

  lemma UnknownIsMissing(local: seq<string>, upstream: seq<string>, matches: (string, string) -> bool, x: string)
    requires x in Normalize(upstream) && x !in Normalize(local)
    ensures x in Detect(local, upstream, [], map[], matches).add
  {
    DetectNormal(local, upstream, [], map[], matches);
    assert x in Names(Normalize(upstream));
  }

  lemma PatternLocal(s: Selection)
    requires s == Selection([PATTERN_NAME], [], [])
    ensures "m" !in LocalOf(Applied(PatternState(), s, 1))
  {
    hide AppliedModels, AppliedIgnored;
    assert LocalOf(PatternState()) == [];
    AppliedLocal(PatternState(), s, 1);
    NextModels([], s.add, s.remove);
    assert "m" !in [PATTERN_NAME];
  }

  lemma TwoNames(a: string, b: string)
    requires a != b && TrimmedText(a) && TrimmedText(b)
    ensures Normalize([a, b]) == [a, b] && Names([a, b]) == {a, b}
  {
    NormalizeFixed([a, b]);
  }

  lemma PickTwo(a: string, b: string, keep: set<string>)
    ensures Pick([a, b], keep) == (if a in keep then [a] else []) + (if b in keep then [b] else [])
  {
    assert [a, b][..1] == [a] && [a][..0] == [];
    assert Pick([a], keep) == if a in keep then [a] else [];
  }

  lemma PatternMatchesItself(matches: (string, string) -> bool)
    requires forall p, x :: matches(p, x) <==> p == x
    ensures Ignores(Normalize([PATTERN_NAME]), "m", matches) && !Ignores(Normalize([PATTERN_NAME]), PATTERN_NAME, matches)
  {
    PatternNameIsTrimmed();
    hide TrimSpace, TrimmedText, Normalize;
    assert Normal([PATTERN_NAME]);
    NormalizeFixed([PATTERN_NAME]);
    assert PATTERN_NAME[|REGEX_PREFIX|..] == "m";
    TrimmedIsFixed("m");
    assert PATTERN_NAME in [PATTERN_NAME] && IgnoreEntryMatches(PATTERN_NAME, "m", matches);
  }

  lemma PatternNameIsTrimmed()
    ensures TrimmedText(PATTERN_NAME) && TrimmedText("m")
  {}

  // ----- the stored check -----

  function CheckedModels(state: State, pending: Pending, autoApply: bool): string {
    var origin := Normalize(GetModels(state.models));
    var merged := Merge(origin, pending.add);
    if autoApply && pending.add != [] && |merged| > |origin| then JoinWith(merged, ',') else state.models
  }

  function Checked(state: State, pending: Pending, autoApply: bool, now: int): State {
    State(CheckedModels(state, pending, autoApply),
          state.settings.(
            detected := if autoApply && pending.add != [] then [] else pending.add,
            removed := pending.remove,
            lastCheckTime := now))
  }

  // A check leaves the stored lists up to date, whether it stages the changes or, with
  // automatic synchronisation, adopts them behind the models that are served; the latter exactly when no
  // adopted name holds a comma.
  lemma CheckIsUpToDateIff(state: State, upstream: seq<string>, mapping: map<string, string>, matches: (string, string) -> bool, autoApply: bool, now: int)
    ensures var pending := DetectIn(state, upstream, mapping, matches);
            && (UpToDate(Checked(state, pending, autoApply, now), upstream, mapping, matches)
                <==> !autoApply || CommaFree(pending.add))
            && (CommaFree(pending.add) ==>
                  LocalOf(Checked(state, pending, autoApply, now)) == LocalOf(state) + if autoApply then pending.add else [])
  {
    var pending := DetectIn(state, upstream, mapping, matches);
    DetectNormal(GetModels(state.models), upstream, state.settings.ignored, mapping, matches);
    if autoApply && pending.add != [] {
      AdoptedIsUpToDateIff(state, upstream, mapping, matches, now);
    }
  }

  lemma AdoptedIsUpToDateIff(state: State, upstream: seq<string>, mapping: map<string, string>, matches: (string, string) -> bool, now: int)
    requires DetectIn(state, upstream, mapping, matches).add != []
    ensures var pending := DetectIn(state, upstream, mapping, matches);
            var again := DetectIn(Checked(state, pending, true, now), upstream, mapping, matches);
            && (again == Pending([], pending.remove) <==> CommaFree(pending.add))
            && (CommaFree(pending.add) ==> LocalOf(Checked(state, pending, true, now)) == LocalOf(state) + pending.add)
  {
    var pending := DetectIn(state, upstream, mapping, matches);
    var after := Checked(state, pending, true, now);
    var l, u := LocalOf(state), Normalize(upstream);
    DetectNormal(GetModels(state.models), upstream, state.settings.ignored, mapping, matches);
    DetectNormal(GetModels(after.models), upstream, after.settings.ignored, mapping, matches);
    MergeNormal(l, pending.add);
    PickAll(pending.add, Names(pending.add) - Names(l));
    var merged := l + pending.add;
    assert Merge(l, pending.add) == merged;
    StoredIsCommaFree(state.models);
    StoredIsCommaFree(after.models);
    StoredListIff(merged);
    if CommaFree(pending.add) {
      assert LocalOf(after) == merged;
      PickNone(u, Names(u) - Names(merged) - mapping.Values - IgnoredOf(u, after.settings.ignored, matches));
      var gone' := Names(merged) - mapping.Keys - Names(u);
      PickAppend(l, pending.add, gone');
      PickNone(pending.add, gone');
      PickSame(l, gone', Names(l) - mapping.Keys - Names(u));
    } else {
      var x :| x in pending.add && ',' in x;
      assert x in DetectIn(after, upstream, mapping, matches).add;
    }
  }

  class Channel {
    var models: string
    var settings: Settings

    constructor (models: string, settings: Settings)
      ensures this.models == models && this.settings == settings
    {
      this.models := models;
      this.settings := settings;
    }

    function Stored(): State
      reads this
    {
      State(models, settings)
    }

    // `fetched` is None when the upstream list could not be read.
    method CheckAndPersist(fetched: Option<seq<string>>, mapping: map<string, string>, matches: (string, string) -> bool,
                           force: bool, allowAutoApply: bool, minimumInterval: int, now: int)
        returns (modelsChanged: bool, autoAdded: nat, ok: bool)
      modifies this
      ensures var skipped := !force && old(settings.lastCheckTime) > 0 && now - old(settings.lastCheckTime) < minimumInterval;
              ok == (skipped || fetched.Some?) &&
              if skipped then Stored() == old(Stored()) && !modelsChanged && autoAdded == 0
              else if fetched.None? then Stored() == State(old(models), old(settings).(lastCheckTime := now)) && !modelsChanged && autoAdded == 0
              else
                var pending := DetectIn(old(Stored()), fetched.value, mapping, matches);
                var autoApply := allowAutoApply && old(settings.autoSync);
                && Stored() == Checked(old(Stored()), pending, autoApply, now)
                && autoAdded == (if autoApply then |pending.add| else 0) && modelsChanged == (autoAdded > 0)
                && (UpToDate(Stored(), fetched.value, mapping, matches) <==> !autoApply || CommaFree(pending.add))
    {
      if !force && settings.lastCheckTime > 0 && now - settings.lastCheckTime < minimumInterval {
        return false, 0, true;
      }
      if fetched.None? {
        settings := settings.(lastCheckTime := now);
        return false, 0, false;
      }
      ghost var before := Stored();
      var pending := DetectIn(Stored(), fetched.value, mapping, matches);
      CheckIsUpToDateIff(before, fetched.value, mapping, matches, allowAutoApply && settings.autoSync, now);
      AdoptionGrows(before, fetched.value, mapping, matches);
      settings := settings.(lastCheckTime := now);
      modelsChanged, autoAdded := false, 0;
      if allowAutoApply && settings.autoSync && pending.add != [] {
        var origin := Normalize(GetModels(models));
        var merged := Merge(origin, pending.add);
        if |merged| > |origin| {
          models := JoinWith(merged, ',');
          autoAdded := |merged| - |origin|;
          modelsChanged := true;
        }
        settings := settings.(detected := []);
      } else {
        settings := settings.(detected := pending.add);
      }
      settings := settings.(removed := pending.remove);
      ok := true;
    }

    lemma AdoptionGrows(state: State, upstream: seq<string>, mapping: map<string, string>, matches: (string, string) -> bool)
      ensures var pending := DetectIn(state, upstream, mapping, matches);
              |Merge(LocalOf(state), pending.add)| == |LocalOf(state)| + |pending.add|
    {
      var pending := DetectIn(state, upstream, mapping, matches);
      DetectNormal(GetModels(state.models), upstream, state.settings.ignored, mapping, matches);
      MergeNormal(LocalOf(state), pending.add);
      PickAll(pending.add, Names(pending.add) - Names(LocalOf(state)));
    }

    method ApplyUpdates(addInput: seq<string>, ignoreInput: seq<string>, removeInput: seq<string>, now: int)
        returns (selection: Selection, modelsChanged: bool)
      modifies this
      ensures selection == SelectPending(old(Stored()), addInput, ignoreInput, removeInput)
      ensures Stored() == Applied(old(Stored()), selection, now)
      ensures modelsChanged == (Normalize(GetModels(old(models))) != ApplySelected(Normalize(GetModels(old(models))), selection.add, selection.remove))
    {
      var pendingAdd := Normalize(settings.detected);
      var pendingRemove := Normalize(settings.removed);
      var add := Intersect(addInput, pendingAdd);
      var ignore := Intersect(ignoreInput, pendingAdd);
      var remove := Intersect(removeInput, pendingRemove);
      remove := Subtract(remove, add);
      selection := Selection(add, ignore, remove);

      var origin := Normalize(GetModels(models));
      var next := ApplySelected(origin, add, remove);
      modelsChanged := origin != next;
      if modelsChanged {
        models := JoinWith(next, ',');
      }
      settings := settings.(ignored := Merge(settings.ignored, ignore));
      if |add| > 0 {
        settings := settings.(ignored := Subtract(settings.ignored, add));
      }
      var remaining := Subtract(pendingAdd, add + ignore);
      var remainingRemove := Subtract(pendingRemove, remove);
      settings := settings.(detected := remaining, removed := remainingRemove, lastCheckTime := now);
    }
  }
}
