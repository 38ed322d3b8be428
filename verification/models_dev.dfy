// Choosing one provider's price per model from the models.dev listing: a fold over
// the sorted providers whose "nearly equal" test is not transitive.

module ModelsDev {
  import opened Options
  import opened PricingDiff

  // A JSON number decoded into a float: anything that is not finite is rejected.
  datatype Price = Finite(amount: real) | NotFinite

  datatype Cost = Cost(input: Option<Price>, output: Option<Price>, cacheRead: Option<Price>)

  datatype Candidate = Candidate(provider: string, input: real, output: Option<real>, cacheRead: Option<real>)

  type Listing = map<string, map<string, Cost>>

  predicate Valid(price: Price) {
    price.Finite? && price.amount >= 0.0
  }

  function BuildCandidate(provider: string, cost: Cost): Option<Candidate> {
    if cost.input.None? || !Valid(cost.input.value) then None
    else if cost.output.Some? && !Valid(cost.output.value) then None
    else
      var input := cost.input.value.amount;
      var output := if cost.output.Some? then Some(cost.output.value.amount) else None;
      if input == 0.0 && output.Some? && output.value > 0.0 then None
      else
        var cacheRead := if cost.cacheRead.Some? && Valid(cost.cacheRead.value) then Some(cost.cacheRead.value.amount) else None;
        Some(Candidate(provider, input, output, cacheRead))
  }

  // Bytewise order of strings, as sorting uses it.
  predicate Before(a: string, b: string) {
    if b == "" then false
    else if a == "" then true
    else a[0] < b[0] || (a[0] == b[0] && Before(a[1..], b[1..]))
  }

  predicate ShouldReplace(current: Candidate, next: Candidate) {
    if (current.input > 0.0) != (next.input > 0.0) then next.input > 0.0
    else if next.input > 0.0 && !NearlyEqual(next.input, current.input) then next.input < current.input
    else Before(next.provider, current.provider)
  }

  function OfferOf(data: Listing, provider: string, model: string): Option<Candidate> {
    if provider in data && model in data[provider] then BuildCandidate(provider, data[provider][model]) else None
  }

  function Better(current: Option<Candidate>, offer: Option<Candidate>): Option<Candidate> {
    if offer.None? then current
    else if current.None? || ShouldReplace(current.value, offer.value) then offer
    else current
  }

  // The fold for one model over providers in the given order.
  function Select(providers: seq<string>, data: Listing, model: string): Option<Candidate> {
    if providers == [] then None
    else Better(Select(providers[..|providers| - 1], data, model), OfferOf(data, providers[|providers| - 1], model))
  }

  predicate Sorted(names: seq<string>) {
    forall i, j :: 0 <= i < j < |names| ==> Before(names[i], names[j])
  }

  ghost predicate ListsInOrder(names: seq<string>, keys: set<string>) {
    Sorted(names) && forall name :: name in names <==> name in keys
  }

  lemma {:induction false} BeforeIsStrict(a: string)
    ensures !Before(a, a)
  {
    if a != "" { BeforeIsStrict(a[1..]); }
  }

  lemma {:induction false} BeforeIsTransitive(a: string, b: string, c: string)
    requires Before(a, b) && Before(b, c)
    ensures Before(a, c)
  {
    if a != "" && a[0] == b[0] && b[0] == c[0] {
      BeforeIsTransitive(a[1..], b[1..], c[1..]);
    }
  }

  lemma {:induction false} BeforeIsTotal(a: string, b: string)
    ensures a == b || Before(a, b) || Before(b, a)
  {
    if a != "" && b != "" && a[0] == b[0] {
      BeforeIsTotal(a[1..], b[1..]);
      assert a == [a[0]] + a[1..] && b == [b[0]] + b[1..];
    }
  }

  lemma {:induction false} OrderIsUnique(names: seq<string>, names': seq<string>, keys: set<string>)
    requires ListsInOrder(names, keys) && ListsInOrder(names', keys)
    ensures names == names'
  {
    assert names != [] <==> keys != {} by {
      if names != [] { assert names[0] in keys; }
      if key :| key in keys { assert key in names; }
    }
    assert names' != [] <==> keys != {} by {
      if names' != [] { assert names'[0] in keys; }
      if key :| key in keys { assert key in names'; }
    }
    if keys != {} {
      assert names[0] in names && names'[0] in names';
      var first := names[0];
      if names'[0] != first {
        var i :| 0 <= i < |names| && names[i] == names'[0];
        var j :| 0 <= j < |names'| && names'[j] == first;
        assert Before(first, names'[0]) && Before(names'[0], first);
        BeforeIsTransitive(first, names'[0], first);
        BeforeIsStrict(first);
      }
      BeforeIsStrict(first);
      RestInOrder(names, keys);
      RestInOrder(names', keys);
      OrderIsUnique(names[1..], names'[1..], keys - {first});
      assert names == [first] + names[1..] && names' == [first] + names'[1..];
    }
  }

  lemma RestInOrder(names: seq<string>, keys: set<string>)
    requires ListsInOrder(names, keys) && names != []
    ensures ListsInOrder(names[1..], keys - {names[0]})
  {
    forall name ensures name in names[1..] <==> name in keys - {names[0]} {
      if name in names[1..] {
        var i :| 0 <= i < |names[1..]| && names[1..][i] == name;
        assert names[i + 1] == name && Before(names[0], names[i + 1]);
        BeforeIsStrict(name);
      }
      if name in keys && name != names[0] {
        var i :| 0 <= i < |names| && names[i] == name;
        assert names[1..][i - 1] == name;
      }
    }
  }

  lemma {:induction false} SelectedIsOffered(providers: seq<string>, data: Listing, model: string)
    ensures var chosen := Select(providers, data, model);
            && (chosen.Some? ==> chosen.value.provider in providers && OfferOf(data, chosen.value.provider, model) == chosen)
            && (chosen.Some? <==> exists p :: p in providers && OfferOf(data, p, model).Some?)
  {
    if providers != [] {
      var front, last := providers[..|providers| - 1], providers[|providers| - 1];
      assert providers == front + [last];
      SelectedIsOffered(front, data, model);
      assert OfferOf(data, last, model).Some? ==> last in providers;
    }
  }

  // Later providers sort after the chosen one, so only a price that is lower by the tolerance replaces it.
  lemma SortedReplacement(providers: seq<string>, data: Listing, model: string)
    requires Sorted(providers) && providers != []
    ensures var current := Select(providers[..|providers| - 1], data, model);
            var offer := OfferOf(data, providers[|providers| - 1], model);
            current.Some? && offer.Some? ==>
              (ShouldReplace(current.value, offer.value) <==>
                 offer.value.input > 0.0 && (current.value.input > 0.0 ==> offer.value.input + EPSILON <= current.value.input))
  {
    var front, last := providers[..|providers| - 1], providers[|providers| - 1];
    var current := Select(front, data, model);
    if current.Some? {
      SelectedIsOffered(front, data, model);
      var i :| 0 <= i < |front| && front[i] == current.value.provider;
      assert Before(providers[i], last);
      if Before(last, providers[i]) {
        BeforeIsTransitive(last, providers[i], last);
        BeforeIsStrict(last);
      }
    }
  }

  // The chosen price is less than the tolerance above every valid non-zero price, and zero only if there is none.
  lemma {:induction false} SelectedIsNearlyCheapest(providers: seq<string>, data: Listing, model: string, provider: string)
    requires Sorted(providers) && provider in providers && OfferOf(data, provider, model).Some?
    ensures var chosen := Select(providers, data, model); var offer := OfferOf(data, provider, model).value;
            && chosen.Some?
            && (offer.input > 0.0 ==> 0.0 < chosen.value.input < offer.input + EPSILON)
  {
    var front, last := providers[..|providers| - 1], providers[|providers| - 1];
    SortedReplacement(providers, data, model);
    SelectedIsOffered(providers, data, model);
    if provider in front {
      SelectedIsNearlyCheapest(front, data, model, provider);
    } else {
      assert provider == last;
    }
  }

  // It is cheaper than every valid non-zero price of a provider that sorts before it; a zero price comes from the first valid provider.
  lemma {:induction false} SelectedBeatsEarlier(providers: seq<string>, data: Listing, model: string, provider: string)
    requires Sorted(providers) && provider in providers && OfferOf(data, provider, model).Some?
    requires Select(providers, data, model).Some? && Before(provider, Select(providers, data, model).value.provider)
    ensures var chosen := Select(providers, data, model).value; var offer := OfferOf(data, provider, model).value;
            chosen.input > 0.0 && (offer.input > 0.0 ==> chosen.input < offer.input)
  {
    var front, last := providers[..|providers| - 1], providers[|providers| - 1];
    SortedReplacement(providers, data, model);
    var i :| 0 <= i < |providers| && providers[i] == provider;
    if Select(providers, data, model) == Select(front, data, model) {
      SelectedIsOffered(front, data, model);
      if i == |front| {
        var chosen := Select(front, data, model).value.provider;
        var k :| 0 <= k < |front| && front[k] == chosen;
        assert Before(providers[k], last);
        BeforeIsTransitive(last, chosen, last);
        BeforeIsStrict(last);
      } else {
        assert front[i] == provider;
        SelectedBeatsEarlier(front, data, model, provider);
      }
    } else {
      SelectedIsOffered(providers, data, model);
      BeforeIsStrict(last);
      assert front[i] == provider;
      SelectedIsNearlyCheapest(front, data, model, provider);
    }
  }

  // What is selected can be turned into ratios: prices are not negative, and a zero input price comes with
  // no output price to divide by it.
  lemma SelectedIsConvertible(providers: seq<string>, data: Listing, model: string)
    ensures var chosen := Select(providers, data, model);
            chosen.Some? ==>
              && chosen.value.input >= 0.0
              && (chosen.value.output.Some? ==> chosen.value.output.value >= 0.0)
              && (chosen.value.cacheRead.Some? ==> chosen.value.cacheRead.value >= 0.0)
              && (chosen.value.input == 0.0 ==> chosen.value.output.None? || chosen.value.output.value == 0.0)
  {
    SelectedIsOffered(providers, data, model);
  }

  // An offer as the listing states it: a non-negative input price, the output price, which is absent or not
  // negative and zero where the input price is, and the cache price where it is a non-negative number.
  predicate StatedBy(cost: Cost, candidate: Candidate) {
    && cost.input == Some(Finite(candidate.input)) && candidate.input >= 0.0
    && (match candidate.output
        case None => cost.output == None
        case Some(output) => cost.output == Some(Finite(output)) && output >= 0.0 && (candidate.input == 0.0 ==> output == 0.0))
    && (match cost.cacheRead
        case Some(Finite(amount)) => candidate.cacheRead == if amount >= 0.0 then Some(amount) else None
        case _ => candidate.cacheRead == None)
  }

  // A provider offers a model at a price exactly when its listing states that price.
  lemma OfferIff(data: Listing, provider: string, model: string, candidate: Candidate)
    ensures OfferOf(data, provider, model) == Some(candidate)
            <==> provider in data && model in data[provider] && candidate.provider == provider && StatedBy(data[provider][model], candidate)
  {}

  // The order is that of the first character in which two names differ; a name comes before its extensions.
  lemma {:induction false} BeforeIff(a: string, b: string)
    ensures Before(a, b) <==> exists k: nat :: FirstDiffersAt(a, b, k)
  {
    forall k: nat | k > 0 && FirstDiffersAt(a, b, k) ensures a != "" && b != "" && a[0] == b[0] {
      HeadsAgree(a, b, k);
    }
    if a != "" && b != "" && a[0] == b[0] {
      BeforeIff(a[1..], b[1..]);
      if Before(a, b) {
        var k: nat :| FirstDiffersAt(a[1..], b[1..], k);
        assert a[..k + 1] == [a[0]] + a[1..][..k] && b[..k + 1] == [b[0]] + b[1..][..k];
        assert FirstDiffersAt(a, b, k + 1);
      }
      if k: nat :| FirstDiffersAt(a, b, k) {
        assert k > 0;
        assert a[1..][..k - 1] == a[..k][1..] && b[1..][..k - 1] == b[..k][1..];
        assert FirstDiffersAt(a[1..], b[1..], k - 1);
      }
    } else if Before(a, b) {
      assert FirstDiffersAt(a, b, 0);
    }
  }

  lemma HeadsAgree(a: string, b: string, k: nat)
    requires k > 0 && FirstDiffersAt(a, b, k)
    ensures a != "" && b != "" && a[0] == b[0]
  {
    assert a[..k][0] == a[0] && b[..k][0] == b[0];
  }

  predicate FirstDiffersAt(a: string, b: string, k: nat) {
    k <= |a| && k < |b| && a[..k] == b[..k] && (k < |a| ==> a[k] < b[k])
  }

  lemma NearlyEqualIsNotTransitive()
    ensures NearlyEqual(1.0, 1.0 + 0.75 * EPSILON) && NearlyEqual(1.0 + 0.75 * EPSILON, 1.0 + 1.5 * EPSILON)
    ensures !NearlyEqual(1.0, 1.0 + 1.5 * EPSILON)
  {}

  function Offering(input: real): map<string, Cost> {
    map["m" := Cost(Some(Finite(input)), None, None)]
  }

  // Walked backwards the same listing yields a price more than the tolerance above the cheapest, so the sorting is needed.
  lemma OrderMattersWithoutSorting()
    ensures var data := map["a" := Offering(1.0 + 1.5 * EPSILON), "b" := Offering(1.0 + 0.75 * EPSILON), "c" := Offering(1.0)];
            && Select(["a", "b", "c"], data, "m") == OfferOf(data, "c", "m") == Some(Candidate("c", 1.0, None, None))
            && Select(["c", "b", "a"], data, "m") == OfferOf(data, "a", "m") == Some(Candidate("a", 1.0 + 1.5 * EPSILON, None, None))
  {
    var data := map["a" := Offering(1.0 + 1.5 * EPSILON), "b" := Offering(1.0 + 0.75 * EPSILON), "c" := Offering(1.0)];
    LastStep("a", "b", "c", data);
    LastStep("c", "b", "a", data);
  }

  lemma LastStep(first: string, second: string, third: string, data: Listing)
    ensures Select([first, second, third], data, "m")
            == Better(Better(Better(None, OfferOf(data, first, "m")), OfferOf(data, second, "m")), OfferOf(data, third, "m"))
  {
    hide Better, OfferOf;
    assert Select([], data, "m") == None;
    assert [first][..0] == [];
    assert Select([first], data, "m") == Better(None, OfferOf(data, first, "m"));
    assert [first, second][..1] == [first];
    assert Select([first, second], data, "m") == Better(Select([first], data, "m"), OfferOf(data, second, "m"));
    assert [first, second, third][..2] == [first, second];
  }

  // Insertion of one name into a sorted list of others.
  method InsertInOrder(names: seq<string>, name: string) returns (r: seq<string>)
    requires Sorted(names) && name !in names
    ensures Sorted(r) && forall n :: n in r <==> n in names || n == name
  {
    var i := 0;
    while i < |names| && Before(names[i], name)
      invariant 0 <= i <= |names| && forall k :: 0 <= k < i ==> Before(names[k], name)
    {
      i := i + 1;
    }
    r := names[..i] + [name] + names[i..];
    forall k | i <= k < |names| ensures Before(name, names[k]) {
      BeforeIsTotal(name, names[i]);
      assert names[i] in names;
      if k > i { BeforeIsTransitive(name, names[i], names[k]); }
    }
    assert names == names[..i] + names[i..];
  }

  method SortKeys(keys: set<string>) returns (names: seq<string>)
    ensures ListsInOrder(names, keys)
  {
    names := [];
    var left := keys;
    while left != {}
      invariant left <= keys && Sorted(names) && forall name :: name in names <==> name in keys && name !in left
      decreases |left|
    {
      var key :| key in left;
      left := left - {key};
      names := InsertInOrder(names, key);
    }
  }

  function ChosenFor(selected: map<string, Candidate>, model: string): Option<Candidate> {
    if model in selected then Some(selected[model]) else None
  }

  // The selection over all models, in the order of the sorted providers and the sorted models of each.
  method SelectCandidates(data: Listing) returns (selected: map<string, Candidate>)
    ensures forall providers, model :: ListsInOrder(providers, data.Keys) ==> ChosenFor(selected, model) == Select(providers, data, model)
  {
    hide Better, BuildCandidate;
    selected := map[];
    var providers := SortKeys(data.Keys);
    for i := 0 to |providers|
      invariant forall model :: ChosenFor(selected, model) == Select(providers[..i], data, model)
    {
      var provider := providers[i];
      assert providers[..i + 1][..i] == providers[..i];
      assert provider in data.Keys;
      var names := SortKeys(data[provider].Keys);
      ghost var before := selected;
      for j := 0 to |names|
        invariant forall model :: ChosenFor(selected, model) ==
                    if model in names[..j] then Better(ChosenFor(before, model), OfferOf(data, provider, model)) else ChosenFor(before, model)
      {
        var model := names[j];
        assert names[..j + 1] == names[..j] + [model];
        NotYet(names, j);
        assert model in data[provider].Keys;
        selected := Consider(selected, model, BuildCandidate(provider, data[provider][model]));
      }
      assert names[..|names|] == names;
      forall model ensures ChosenFor(selected, model) == Select(providers[..i + 1], data, model) {
        NoOfferKeeps(ChosenFor(before, model));
        assert providers[..i + 1][i] == provider;
      }
    }
    assert providers[..|providers|] == providers;
    forall providers', model | ListsInOrder(providers', data.Keys) ensures ChosenFor(selected, model) == Select(providers', data, model) {
      OrderIsUnique(providers, providers', data.Keys);
    }
  }

  lemma NoOfferKeeps(current: Option<Candidate>)
    ensures Better(current, None) == current
  {}

  lemma NotYet(names: seq<string>, j: nat)
    requires Sorted(names) && j < |names|
    ensures names[j] !in names[..j]
  {
    BeforeIsStrict(names[j]);
    forall k | 0 <= k < j ensures names[..j][k] != names[j] {
      assert Before(names[k], names[j]);
    }
  }

  method Consider(selected: map<string, Candidate>, model: string, offer: Option<Candidate>) returns (r: map<string, Candidate>)
    ensures forall m :: ChosenFor(r, m) == if m == model then Better(ChosenFor(selected, model), offer) else ChosenFor(selected, m)
  {
    r := selected;
    match offer
    case None =>
    case Some(candidate) =>
      if model !in selected || ShouldReplace(selected[model], candidate) {
        r := selected[model := candidate];
      }
  }
}
