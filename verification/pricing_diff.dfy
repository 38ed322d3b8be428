// The price comparison between the local settings and several upstream channels:
// three phases that fill maps and then prune them, against a declarative report.

module PricingDiff {
  import opened Options

  datatype Field =
    | ModelRatio | CompletionRatio | CacheRatio | CreateCacheRatio | ImageRatio
    | AudioRatio | AudioCompletionRatio | ModelPrice | BillingMode | BillingExpr

  const PRICING_SYNC_FIELDS: seq<Field> :=
    [ModelRatio, CompletionRatio, CacheRatio, CreateCacheRatio, ImageRatio,
     AudioRatio, AudioCompletionRatio, ModelPrice, BillingMode, BillingExpr]

  predicate Numeric(field: Field) {
    field != BillingMode && field != BillingExpr
  }

  // A dynamically typed value; Whole stands for every integer type, Null for nil.
  datatype Value = Null | Num(amount: real) | Whole(count: int) | Text(text: string) | Flag(flag: bool)

  // The marker for "equal to the local value" is an ordinary string.
  const Same: Value := Text("same")

  // A field either holds a table by model name or something that is not a table.
  datatype Entry = Table(values: map<string, Value>) | NotATable

  type Pricing = map<Field, Entry>

  datatype Channel = Channel(name: string, data: Pricing)

  datatype Item = Item(current: Value, upstreams: map<string, Value>, confidence: map<string, bool>)

  type Differences = map<string, map<Field, Item>>

  const EPSILON: real := 0.000000001

  predicate NearlyEqual(a: real, b: real) {
    if a > b then a - b < EPSILON else b - a < EPSILON
  }

  predicate ValuesEqual(a: Value, b: Value) {
    if a.Num? && b.Num? then NearlyEqual(a.amount, b.amount) else a == b
  }

  function AsFloat64(value: Value): Option<real> {
    match value
    case Num(amount) => Some(amount)
    case Whole(count) => Some(count as real)
    case _ => None
  }

  function Normalize(field: Field, value: Value): Value {
    if Numeric(field) && AsFloat64(value).Some? then Num(AsFloat64(value).value) else value
  }

  function ValueMap(data: Pricing, field: Field): map<string, Value> {
    if field in data && data[field].Table? then data[field].values else map[]
  }

  function Offer(data: Pricing, model: string, field: Field): Option<Value> {
    var values := ValueMap(data, field);
    if model in values then Some(Normalize(field, values[model])) else None
  }

  function LocalValue(local: Pricing, model: string, field: Field): Value {
    var offer := Offer(local, model, field);
    if offer.Some? then offer.value else Null
  }

  // What the table shows for one channel.
  function Cell(current: Value, offer: Option<Value>): Value {
    match offer
    case None => if current == Null then Same else Null
    case Some(value) => if ValuesEqual(current, value) then Same else value
  }

  // The channels are keyed by name; a later one of the same name replaces an earlier one.
  function Row(local: Pricing, channels: seq<Channel>, model: string, field: Field): map<string, Value> {
    if channels == [] then map[]
    else
      var last := channels[|channels| - 1];
      Row(local, channels[..|channels| - 1], model, field)[last.name := Cell(LocalValue(local, model, field), Offer(last.data, model, field))]
  }

  // 37.5 with a completion ratio of 1 is what an endpoint reports when it knows nothing.
  predicate Trusted(data: Pricing, model: string) {
    var ratios, completions := ValueMap(data, ModelRatio), ValueMap(data, CompletionRatio);
    model in ratios && model in completions ==>
      var ratio, completion := AsFloat64(ratios[model]), AsFloat64(completions[model]);
      !(ratio.Some? && completion.Some? && NearlyEqual(ratio.value, 37.5) && NearlyEqual(completion.value, 1.0))
  }

  function Confidences(channels: seq<Channel>, model: string): map<string, bool> {
    if channels == [] then map[]
    else
      var last := channels[|channels| - 1];
      Confidences(channels[..|channels| - 1], model)[last.name := Trusted(last.data, model)]
  }

  // One channel gives a value here that is not the local one.
  predicate ChannelDiffers(local: Pricing, channel: Channel, model: string, field: Field) {
    var offer := Offer(channel.data, model, field);
    offer.Some? && !ValuesEqual(LocalValue(local, model, field), offer.value)
  }

  predicate Differs(local: Pricing, channels: seq<Channel>, model: string, field: Field) {
    exists c :: c in channels && ChannelDiffers(local, c, model, field)
  }

  predicate Offered(channels: seq<Channel>, model: string, field: Field) {
    exists c :: c in channels && Offer(c.data, model, field).Some?
  }

  // What the comparison phase keeps before pruning.
  predicate Included(local: Pricing, channels: seq<Channel>, model: string, field: Field) {
    if LocalValue(local, model, field) != Null then Differs(local, channels, model, field) else Offered(channels, model, field)
  }

  predicate Tells(value: Value) {
    value != Null && value != Same
  }

  predicate RowTells(row: map<string, Value>, name: string) {
    name in row && Tells(row[name])
  }

  // The channel shows a difference somewhere.
  ghost predicate Informative(local: Pricing, channels: seq<Channel>, name: string) {
    exists model, field :: RowTells(Row(local, channels, model, field), name)
  }

  ghost predicate Shows(local: Pricing, channels: seq<Channel>, model: string, field: Field, name: string) {
    var row := Row(local, channels, model, field);
    name in row && row[name] != Same && Informative(local, channels, name)
  }

  ghost predicate Reported(local: Pricing, channels: seq<Channel>, model: string, field: Field) {
    Included(local, channels, model, field) && exists name :: Shows(local, channels, model, field, name)
  }

  ghost function ReportedItem(local: Pricing, channels: seq<Channel>, model: string, field: Field): Item {
    var row := Row(local, channels, model, field);
    var trust := Confidences(channels, model);
    Item(LocalValue(local, model, field),
         map name | name in row && Informative(local, channels, name) :: row[name],
         map name | name in trust && Informative(local, channels, name) :: trust[name])
  }

  function At(d: Differences, model: string, field: Field): Option<Item> {
    if model in d && field in d[model] then Some(d[model][field]) else None
  }

  predicate NoEmptyModel(d: Differences) {
    forall model :: model in d ==> d[model] != map[]
  }

  ghost predicate IsReport(d: Differences, local: Pricing, channels: seq<Channel>) {
    && NoEmptyModel(d)
    && forall model, field :: At(d, model, field) == if Reported(local, channels, model, field)
                                                     then Some(ReportedItem(local, channels, model, field)) else None
  }

  lemma SameDifferences(d: Differences, d': Differences)
    requires forall model, field :: At(d, model, field) == At(d', model, field)
    requires NoEmptyModel(d) && NoEmptyModel(d')
    ensures d == d'
  {
    SameModels(d, d');
    SameModels(d', d);
    forall model | model in d ensures d[model] == d'[model] {
      forall field ensures field in d[model] <==> field in d'[model] {
        assert At(d, model, field) == At(d', model, field);
      }
      forall field | field in d[model] ensures d[model][field] == d'[model][field] {
        assert At(d, model, field) == At(d', model, field);
      }
    }
  }

  lemma SameModels(d: Differences, d': Differences)
    requires forall model, field :: At(d, model, field) == At(d', model, field)
    requires NoEmptyModel(d)
    ensures d.Keys <= d'.Keys
  {
    forall model | model in d ensures model in d' {
      var field :| field in d[model];
      assert At(d, model, field) == At(d', model, field);
    }
  }

  // The report is determined by its inputs: no order in which maps are walked can change it.
  lemma ReportIsUnique(d: Differences, d': Differences, local: Pricing, channels: seq<Channel>)
    requires IsReport(d, local, channels) && IsReport(d', local, channels)
    ensures d == d'
  {
    hide Reported, ReportedItem, At, NoEmptyModel;
    SameDifferences(d, d');
  }

  lemma {:induction false} RowHolds(local: Pricing, channels: seq<Channel>, model: string, field: Field, name: string)
    ensures name in Row(local, channels, model, field) <==> exists c :: c in channels && c.name == name
    ensures name in Row(local, channels, model, field) ==>
              exists c :: c in channels && c.name == name
                          && Row(local, channels, model, field)[name] == Cell(LocalValue(local, model, field), Offer(c.data, model, field))
    ensures name in Confidences(channels, model) <==> name in Row(local, channels, model, field)
  {
    if channels != [] {
      var front := channels[..|channels| - 1];
      RowHolds(local, front, model, field, name);
      assert channels == front + [channels[|channels| - 1]];
      assert channels[|channels| - 1] in channels;
    }
  }

  // A cell that tells something stands for a difference, so its model and field are included.
  lemma TellingIsIncluded(local: Pricing, channels: seq<Channel>, model: string, field: Field, name: string)
    requires RowTells(Row(local, channels, model, field), name)
    ensures Differs(local, channels, model, field) && Included(local, channels, model, field)
  {
    RowHolds(local, channels, model, field, name);
    var c :| c in channels && c.name == name
             && Row(local, channels, model, field)[name] == Cell(LocalValue(local, model, field), Offer(c.data, model, field));
    assert ChannelDiffers(local, c, model, field);
  }

  predicate DistinctNames(channels: seq<Channel>) {
    forall i, j :: 0 <= i < j < |channels| ==> channels[i].name != channels[j].name
  }

  lemma RowOfChannel(local: Pricing, channels: seq<Channel>, model: string, field: Field, c: Channel)
    requires DistinctNames(channels) && c in channels
    ensures c.name in Row(local, channels, model, field)
    ensures Row(local, channels, model, field)[c.name] == Cell(LocalValue(local, model, field), Offer(c.data, model, field))
  {
    RowHolds(local, channels, model, field, c.name);
  }

  // No null and no value that reads like the marker, in any channel.
  ghost predicate PlainValues(channels: seq<Channel>) {
    forall c, model, field :: c in channels && Offer(c.data, model, field).Some? ==> Tells(Offer(c.data, model, field).value)
  }

  // Nothing is ever reported that does not differ.
  lemma ReportedDiffers(local: Pricing, channels: seq<Channel>, model: string, field: Field)
    requires Reported(local, channels, model, field)
    ensures Differs(local, channels, model, field)
  {
    var name :| Shows(local, channels, model, field, name);
    RowHolds(local, channels, model, field, name);
    var c :| c in channels && c.name == name
             && Row(local, channels, model, field)[name] == Cell(LocalValue(local, model, field), Offer(c.data, model, field));
    if LocalValue(local, model, field) == Null {
      assert ChannelDiffers(local, c, model, field);
    }
  }

  // For plain values and distinct names a model and field is reported exactly when some channel differs there.
  lemma ReportedIffDiffers(local: Pricing, channels: seq<Channel>, model: string, field: Field)
    requires DistinctNames(channels) && PlainValues(channels)
    ensures Reported(local, channels, model, field) <==> Differs(local, channels, model, field)
  {
    if Reported(local, channels, model, field) {
      ReportedDiffers(local, channels, model, field);
    }
    if Differs(local, channels, model, field) {
      var c :| c in channels && ChannelDiffers(local, c, model, field);
      RowOfChannel(local, channels, model, field, c);
      assert Tells(Offer(c.data, model, field).value);
      assert RowTells(Row(local, channels, model, field), c.name);
      assert Shows(local, channels, model, field, c.name);
      TellingIsIncluded(local, channels, model, field, c.name);
    }
  }

  ghost predicate DiffersSomewhere(local: Pricing, c: Channel) {
    exists model, field :: ChannelDiffers(local, c, model, field)
  }

  // An item lists exactly the channels that differ somewhere, each with its own value, the marker, or nothing.
  lemma ItemListsDifferingChannels(local: Pricing, channels: seq<Channel>, model: string, field: Field, c: Channel)
    requires DistinctNames(channels) && PlainValues(channels) && c in channels
    ensures var item := ReportedItem(local, channels, model, field);
            && (c.name in item.upstreams <==> DiffersSomewhere(local, c))
            && (c.name in item.confidence <==> DiffersSomewhere(local, c))
            && (c.name in item.upstreams ==>
                  item.upstreams[c.name] == Cell(LocalValue(local, model, field), Offer(c.data, model, field)))
  {
    RowOfChannel(local, channels, model, field, c);
    RowHolds(local, channels, model, field, c.name);
    if DiffersSomewhere(local, c) {
      var m, f :| ChannelDiffers(local, c, m, f);
      RowOfChannel(local, channels, m, f, c);
      assert Tells(Offer(c.data, m, f).value);
      assert RowTells(Row(local, channels, m, f), c.name);
    }
    if Informative(local, channels, c.name) {
      var m, f :| RowTells(Row(local, channels, m, f), c.name);
      RowOfChannel(local, channels, m, f, c);
      assert ChannelDiffers(local, c, m, f);
    }
  }

  // The channel says nothing new here: it gives the local value, the literal marker, or nothing where
  // nothing is set locally.
  predicate SaysNothingNew(local: Pricing, c: Channel, model: string, field: Field) {
    var current, offer := LocalValue(local, model, field), Offer(c.data, model, field);
    if offer.None? then current == Null else ValuesEqual(current, offer.value) || offer.value == Same
  }

  // In general a difference is lost exactly when every channel that gives a differing value other than null
  // and the marker anywhere says nothing new here.
  lemma DifferenceLostIff(local: Pricing, channels: seq<Channel>, model: string, field: Field)
    requires DistinctNames(channels) && Differs(local, channels, model, field)
    ensures !Reported(local, channels, model, field) <==>
            forall c :: c in channels && (exists m, f :: ChannelTells(local, c, m, f)) ==> SaysNothingNew(local, c, model, field)
  {
    forall c | c in channels ensures (exists m, f :: ChannelTells(local, c, m, f)) <==> Informative(local, channels, c.name) {
      if m, f :| ChannelTells(local, c, m, f) {
        RowOfChannel(local, channels, m, f, c);
        assert RowTells(Row(local, channels, m, f), c.name);
      }
      if Informative(local, channels, c.name) {
        var m, f :| RowTells(Row(local, channels, m, f), c.name);
        RowOfChannel(local, channels, m, f, c);
        assert ChannelTells(local, c, m, f);
      }
    }
    forall c | c in channels
      ensures Shows(local, channels, model, field, c.name) <==>
              !SaysNothingNew(local, c, model, field) && Informative(local, channels, c.name)
    {
      RowOfChannel(local, channels, model, field, c);
    }
    forall name | Shows(local, channels, model, field, name) ensures exists c :: c in channels && c.name == name {
      RowHolds(local, channels, model, field, name);
    }
    assert Included(local, channels, model, field);
  }

  predicate ChannelTells(local: Pricing, c: Channel, model: string, field: Field) {
    ChannelDiffers(local, c, model, field) && Tells(Offer(c.data, model, field).value)
  }

  // A single channel whose expression is literally "same" differs from the local one and is not reported.
  lemma LiteralMarkerIsLost()
    ensures var local := map[BillingExpr := Table(map["m" := Text("tiered")])];
            var channels := [Channel("c", map[BillingExpr := Table(map["m" := Same])])];
            Differs(local, channels, "m", BillingExpr) && !Reported(local, channels, "m", BillingExpr)
  {
    var local := map[BillingExpr := Table(map["m" := Text("tiered")])];
    var c := Channel("c", map[BillingExpr := Table(map["m" := Same])]);
    assert "tiered"[0] != "same"[0];
    assert c in [c] && ChannelDiffers(local, c, "m", BillingExpr);
    forall m, f ensures !ChannelTells(local, c, m, f) {}
    DifferenceLostIff(local, [c], "m", BillingExpr);
  }

  // ----- the report on the tables as they are -----

  // The table of the field gives the model this value.
  predicate Gives(data: Pricing, model: string, field: Field, value: Value) {
    field in data && data[field].Table? && model in data[field].values && data[field].values[model] == value
  }

  predicate GivesNothing(data: Pricing, model: string, field: Field) {
    field in data && data[field].Table? ==> model !in data[field].values
  }

  // The amount of a number, however it is typed.
  function AmountOf(value: Value): real
    requires value.Num? || value.Whole?
  {
    if value.Num? then value.amount else value.count as real
  }

  predicate Apart(x: real, y: real) {
    x - y >= 0.000000001 || y - x >= 0.000000001
  }

  // The item of a model and field shows this channel with this value against the local one.
  ghost predicate ShowsAgainst(local: Pricing, channels: seq<Channel>, model: string, field: Field, name: string, current: Value, value: Value) {
    && Reported(local, channels, model, field)
    && ReportedItem(local, channels, model, field).current == current
    && name in ReportedItem(local, channels, model, field).upstreams
    && ReportedItem(local, channels, model, field).upstreams[name] == value
  }

  // Two numbers in a numeric field: the item holds both amounts exactly when they are at least the tolerance
  // apart, and the marker is all that can stand there otherwise.
  lemma NumbersReportedIff(local: Pricing, channels: seq<Channel>, model: string, field: Field, c: Channel, a: Value, b: Value)
    requires DistinctNames(channels) && c in channels && field != BillingMode && field != BillingExpr
    requires (a.Num? || a.Whole?) && (b.Num? || b.Whole?)
    requires Gives(local, model, field, a) && Gives(c.data, model, field, b)
    ensures ShowsAgainst(local, channels, model, field, c.name, Num(AmountOf(a)), Num(AmountOf(b))) <==> Apart(AmountOf(a), AmountOf(b))
    ensures !Apart(AmountOf(a), AmountOf(b)) && c.name in ReportedItem(local, channels, model, field).upstreams ==>
              ReportedItem(local, channels, model, field).upstreams[c.name] == Text("same")
    ensures channels == [c] ==> (Reported(local, channels, model, field) <==> Apart(AmountOf(a), AmountOf(b)))
  {
    hide Reported, ReportedItem;
    TellingIsShown(local, channels, model, field, c);
    OnlyChannelDiffers(local, channels, model, field, c);
    assert NearlyEqual(AmountOf(a), AmountOf(b)) <==> !Apart(AmountOf(a), AmountOf(b));
  }

  // Numbers are shown as amounts in the numeric fields.
  function Shown(field: Field, value: Value): Value {
    if (value.Num? || value.Whole?) && field != BillingMode && field != BillingExpr then Num(AmountOf(value)) else value
  }

  // Every other pair of values, texts and flags first of all: exactly when they are unequal, as amounts of the
  // same type by the tolerance, and the offered one does not read like the marker.
  lemma OthersReportedIff(local: Pricing, channels: seq<Channel>, model: string, field: Field, c: Channel, a: Value, b: Value)
    requires DistinctNames(channels) && c in channels && a != Null
    requires field == BillingMode || field == BillingExpr || !((a.Num? || a.Whole?) && (b.Num? || b.Whole?))
    requires Gives(local, model, field, a) && Gives(c.data, model, field, b)
    ensures var unequal := if a.Num? && b.Num? then Apart(a.amount, b.amount) else a != b;
            && (b != Null && b != Text("same") ==>
                  (ShowsAgainst(local, channels, model, field, c.name, Shown(field, a), Shown(field, b)) <==> unequal))
            && (channels == [c] && b != Null ==> (Reported(local, channels, model, field) <==> unequal && b != Text("same")))
            && (!unequal && c.name in ReportedItem(local, channels, model, field).upstreams ==>
                  ReportedItem(local, channels, model, field).upstreams[c.name] == Text("same"))
  {
    hide Reported, ReportedItem;
    TellingIsShown(local, channels, model, field, c);
    OnlyChannelDiffers(local, channels, model, field, c);
  }

  // A value for a model that has none locally: exactly when it is neither null nor the marker.
  lemma NewValueReportedIff(local: Pricing, channels: seq<Channel>, model: string, field: Field, c: Channel, b: Value)
    requires DistinctNames(channels) && c in channels && GivesNothing(local, model, field) && Gives(c.data, model, field, b)
    ensures channels == [c] ==> (Reported(local, channels, model, field) <==> b != Null && b != Text("same"))
    ensures b != Null && b != Text("same") ==>
              ShowsAgainst(local, channels, model, field, c.name, Null, Shown(field, b))
  {
    hide Reported, ReportedItem;
    TellingIsShown(local, channels, model, field, c);
    OnlyChannelDiffers(local, channels, model, field, c);
  }

  // A channel without a value never makes a difference by itself.
  lemma NoValueIsNotReported(local: Pricing, model: string, field: Field, c: Channel)
    requires GivesNothing(c.data, model, field)
    ensures !Reported(local, [c], model, field)
  {
    if Reported(local, [c], model, field) {
      ReportedDiffers(local, [c], model, field);
    }
  }

  // A channel is distrusted for a model exactly when it gives it a ratio of 37.5 and a completion ratio of 1,
  // both up to the tolerance.
  lemma DistrustedIff(local: Pricing, channels: seq<Channel>, model: string, field: Field, c: Channel)
    requires DistinctNames(channels) && c in channels && c.name in ReportedItem(local, channels, model, field).upstreams
    ensures var trust := ReportedItem(local, channels, model, field).confidence;
            c.name in trust && (!trust[c.name] <==> exists r, q :: DefaultRatios(c.data, model, r, q))
  {
    assert c.name in Confidences(channels, model) && ReportedItem(local, channels, model, field).confidence[c.name] == Trusted(c.data, model) by {
      hide Trusted;
      ConfidenceOfChannel(channels, model, c);
    }
    hide ReportedItem;
    UntrustedIff(c.data, model);
  }

  // What an endpoint reports that knows nothing: 37.5 with a completion ratio of 1, up to the tolerance.
  predicate DefaultRatios(data: Pricing, model: string, ratio: Value, completion: Value) {
    && Gives(data, model, ModelRatio, ratio) && (ratio.Num? || ratio.Whole?) && !Apart(AmountOf(ratio), 37.5)
    && Gives(data, model, CompletionRatio, completion) && (completion.Num? || completion.Whole?) && !Apart(AmountOf(completion), 1.0)
  }

  lemma UntrustedIff(data: Pricing, model: string)
    ensures !Trusted(data, model) <==> exists r, q :: DefaultRatios(data, model, r, q)
  {
    if !Trusted(data, model) {
      var r, q := data[ModelRatio].values[model], data[CompletionRatio].values[model];
      assert DefaultRatios(data, model, r, q);
    }
  }

  lemma {:induction false} ConfidenceOfChannel(channels: seq<Channel>, model: string, c: Channel)
    requires DistinctNames(channels) && c in channels
    ensures c.name in Confidences(channels, model) && Confidences(channels, model)[c.name] == Trusted(c.data, model)
  {
    var front := channels[..|channels| - 1];
    if c != channels[|channels| - 1] {
      ConfidenceOfChannel(front, model, c);
    }
  }

  // A difference that tells something is reported with the value, whatever else is.
  lemma TellingIsShown(local: Pricing, channels: seq<Channel>, model: string, field: Field, c: Channel)
    requires DistinctNames(channels) && c in channels
    ensures ChannelTells(local, c, model, field) ==>
              ShowsAgainst(local, channels, model, field, c.name, LocalValue(local, model, field), Offer(c.data, model, field).value)
    ensures c.name in ReportedItem(local, channels, model, field).upstreams ==>
              ReportedItem(local, channels, model, field).upstreams[c.name] == Cell(LocalValue(local, model, field), Offer(c.data, model, field))
    ensures ReportedItem(local, channels, model, field).current == LocalValue(local, model, field)
  {
    hide Offer, LocalValue, ValuesEqual;
    RowOfChannel(local, channels, model, field, c);
    if ChannelTells(local, c, model, field) {
      assert RowTells(Row(local, channels, model, field), c.name);
      assert Informative(local, channels, c.name);
      assert Shows(local, channels, model, field, c.name);
      TellingIsIncluded(local, channels, model, field, c.name);
    }
  }

  lemma OnlyChannelDiffers(local: Pricing, channels: seq<Channel>, model: string, field: Field, c: Channel)
    requires c in channels
    ensures channels == [c] && Reported(local, channels, model, field) ==>
              ChannelDiffers(local, c, model, field) && (LocalValue(local, model, field) != Null || Offer(c.data, model, field).value != Null)
    ensures channels == [c] && Reported(local, channels, model, field) ==> Offer(c.data, model, field).value != Same
  {
    hide Offer, LocalValue, NearlyEqual;
    if channels == [c] && Reported(local, channels, model, field) {
      ReportedDiffers(local, channels, model, field);
      var name :| Shows(local, channels, model, field, name);
      RowHolds(local, channels, model, field, name);
    }
  }

  lemma EveryFieldIsSynced(field: Field)
    ensures field in PRICING_SYNC_FIELDS
  {
    match field
    case ModelRatio => assert PRICING_SYNC_FIELDS[0] == field;
    case CompletionRatio => assert PRICING_SYNC_FIELDS[1] == field;
    case CacheRatio => assert PRICING_SYNC_FIELDS[2] == field;
    case CreateCacheRatio => assert PRICING_SYNC_FIELDS[3] == field;
    case ImageRatio => assert PRICING_SYNC_FIELDS[4] == field;
    case AudioRatio => assert PRICING_SYNC_FIELDS[5] == field;
    case AudioCompletionRatio => assert PRICING_SYNC_FIELDS[6] == field;
    case ModelPrice => assert PRICING_SYNC_FIELDS[7] == field;
    case BillingMode => assert PRICING_SYNC_FIELDS[8] == field;
    case BillingExpr => assert PRICING_SYNC_FIELDS[9] == field;
  }

  method ModelsOf(data: Pricing) returns (models: set<string>)
    ensures forall model, field :: model in ValueMap(data, field) ==> model in models
  {
    models := {};
    for i := 0 to |PRICING_SYNC_FIELDS|
      invariant forall model, k :: 0 <= k < i && model in ValueMap(data, PRICING_SYNC_FIELDS[k]) ==> model in models
    {
      models := models + ValueMap(data, PRICING_SYNC_FIELDS[i]).Keys;
    }
    forall model, field | model in ValueMap(data, field) ensures model in models {
      EveryFieldIsSynced(field);
      var k :| 0 <= k < |PRICING_SYNC_FIELDS| && PRICING_SYNC_FIELDS[k] == field;
    }
  }

  method AllModels(local: Pricing, channels: seq<Channel>) returns (models: set<string>)
    ensures forall model, field :: Included(local, channels, model, field) ==> model in models
  {
    models := ModelsOf(local);
    for i := 0 to |channels|
      invariant forall c, model, field :: c in channels[..i] && model in ValueMap(c.data, field) ==> model in models
    {
      var more := ModelsOf(channels[i].data);
      models := models + more;
    }
    assert channels[..|channels|] == channels;
  }

  // The confidence of every model, by channel name.
  method CheckConfidence(channels: seq<Channel>, models: set<string>) returns (confidence: map<string, map<string, bool>>)
    ensures forall model, name :: model in models && name in Confidences(channels, model) ==>
              name in confidence && model in confidence[name] && confidence[name][model] == Confidences(channels, model)[name]
  {
    confidence := map[];
    for i := 0 to |channels|
      invariant forall model, name :: model in models && name in Confidences(channels[..i], model) ==>
                  name in confidence && model in confidence[name] && confidence[name][model] == Confidences(channels[..i], model)[name]
    {
      var trust := map model | model in models :: Trusted(channels[i].data, model);
      confidence := confidence[channels[i].name := trust];
      assert channels[..i + 1][..i] == channels[..i];
    }
    assert channels[..|channels|] == channels;
  }

  lemma OneMoreChannel(local: Pricing, channels: seq<Channel>, i: nat, model: string, field: Field)
    requires i < |channels|
    ensures var c := channels[i]; var current := LocalValue(local, model, field); var offer := Offer(c.data, model, field);
            && Row(local, channels[..i + 1], model, field) == Row(local, channels[..i], model, field)[c.name := Cell(current, offer)]
            && Confidences(channels[..i + 1], model).Keys == Confidences(channels[..i], model).Keys + {c.name}
            && (Offered(channels[..i + 1], model, field) <==> Offered(channels[..i], model, field) || offer.Some?)
            && (Differs(local, channels[..i + 1], model, field) <==>
                  Differs(local, channels[..i], model, field) || ChannelDiffers(local, c, model, field))
            && c.name in Confidences(channels, model)
  {
    assert channels[..i + 1][..i] == channels[..i];
    assert channels[..i + 1] == channels[..i] + [channels[i]];
    ConfidenceHolds(channels, model, channels[i]);
  }

  // One model and field over all channels.
  method CompareChannels(local: Pricing, channels: seq<Channel>, model: string, field: Field, confidence: map<string, map<string, bool>>)
      returns (item: Item, included: bool)
    requires forall name :: name in Confidences(channels, model) ==>
               name in confidence && model in confidence[name] && confidence[name][model] == Confidences(channels, model)[name]
    ensures included == Included(local, channels, model, field)
    ensures item == Item(LocalValue(local, model, field), Row(local, channels, model, field), Confidences(channels, model))
  {
    hide Row, Confidences, Offered, Differs, Offer, LocalValue, ValuesEqual;
    var localValue := LocalValue(local, model, field);
    var upstreamValues: map<string, Value> := map[];
    var confidenceValues: map<string, bool> := map[];
    var hasUpstreamValue, hasDifference := false, false;
    NoChannelYet(local, channels, model, field);
    for i := 0 to |channels|
      invariant upstreamValues == Row(local, channels[..i], model, field)
      invariant confidenceValues.Keys == Confidences(channels[..i], model).Keys
      invariant forall name :: name in confidenceValues ==>
                  name in Confidences(channels, model) && confidenceValues[name] == Confidences(channels, model)[name]
      invariant hasUpstreamValue == Offered(channels[..i], model, field)
      invariant localValue != Null ==> hasDifference == Differs(local, channels[..i], model, field)
    {
      var channel := channels[i];
      var upstreamValue := Null;
      OneMoreChannel(local, channels, i, model, field);
      var offer := Offer(channel.data, model, field);
      if offer.Some? {
        upstreamValue := offer.value;
        hasUpstreamValue := true;
        if localValue != Null && !ValuesEqual(localValue, upstreamValue) {
          hasDifference := true;
        } else if ValuesEqual(localValue, upstreamValue) {
          upstreamValue := Same;
        }
      }
      NullEqualsNullOnly(upstreamValue);
      if upstreamValue == Null && localValue == Null {
        upstreamValue := Same;
      }
      if localValue == Null && upstreamValue != Null && upstreamValue != Same {
        hasDifference := true;
      }
      upstreamValues := upstreamValues[channel.name := upstreamValue];
      confidenceValues := confidenceValues[channel.name := confidence[channel.name][model]];
    }
    assert channels[..|channels|] == channels;
    item := Item(localValue, upstreamValues, confidenceValues);
    included := if localValue != Null then hasDifference else hasUpstreamValue;
  }

  lemma NoChannelYet(local: Pricing, channels: seq<Channel>, model: string, field: Field)
    ensures Row(local, channels[..0], model, field) == map[] && Confidences(channels[..0], model) == map[]
    ensures !Offered(channels[..0], model, field) && !Differs(local, channels[..0], model, field)
  {}

  lemma NullEqualsNullOnly(value: Value)
    ensures ValuesEqual(Null, value) <==> value == Null
  {}

  lemma ConfidenceHolds(channels: seq<Channel>, model: string, c: Channel)
    requires c in channels
    ensures c.name in Confidences(channels, model)
  {
    RowHolds(map[], channels, model, ModelRatio, c.name);
  }

  ghost predicate IsComparison(d: Differences, local: Pricing, channels: seq<Channel>) {
    && NoEmptyModel(d)
    && forall model, field :: At(d, model, field) == ComparedAt(local, channels, model, field)
  }

  function ComparedAt(local: Pricing, channels: seq<Channel>, model: string, field: Field): Option<Item> {
    if Included(local, channels, model, field) then Some(FullItem(local, channels, model, field)) else None
  }

  function FullItem(local: Pricing, channels: seq<Channel>, model: string, field: Field): Item {
    Item(LocalValue(local, model, field), Row(local, channels, model, field), Confidences(channels, model))
  }

  // All fields of one model.
  method CompareModel(local: Pricing, channels: seq<Channel>, model: string, confidence: map<string, map<string, bool>>)
      returns (items: map<Field, Item>)
    requires forall name :: name in Confidences(channels, model) ==>
               name in confidence && model in confidence[name] && confidence[name][model] == Confidences(channels, model)[name]
    ensures forall field :: field in items <==> Included(local, channels, model, field)
    ensures forall field :: field in items ==> items[field] == FullItem(local, channels, model, field)
  {
    hide Included, FullItem;
    items := map[];
    for i := 0 to |PRICING_SYNC_FIELDS|
      invariant forall field :: field in items <==> field in PRICING_SYNC_FIELDS[..i] && Included(local, channels, model, field)
      invariant forall field :: field in items ==> items[field] == FullItem(local, channels, model, field)
    {
      var field := PRICING_SYNC_FIELDS[i];
      var item, included := CompareChannels(local, channels, model, field, confidence);
      FullItemIs(local, channels, model, field);
      if included {
        items := items[field := item];
      }
      assert PRICING_SYNC_FIELDS[..i + 1] == PRICING_SYNC_FIELDS[..i] + [field];
    }
    forall field ensures field in PRICING_SYNC_FIELDS[..|PRICING_SYNC_FIELDS|] {
      EveryFieldIsSynced(field);
      assert PRICING_SYNC_FIELDS[..|PRICING_SYNC_FIELDS|] == PRICING_SYNC_FIELDS;
    }
  }

  lemma FullItemIs(local: Pricing, channels: seq<Channel>, model: string, field: Field)
    ensures FullItem(local, channels, model, field)
            == Item(LocalValue(local, model, field), Row(local, channels, model, field), Confidences(channels, model))
  {}

  lemma AtUpdate(d: Differences, model: string, items: map<Field, Item>, m: string, f: Field)
    ensures At(d[model := items], m, f)
            == if m != model then At(d, m, f) else if f in items then Some(items[f]) else None
  {}

  method CompareAll(local: Pricing, channels: seq<Channel>) returns (differences: Differences)
    ensures IsComparison(differences, local, channels)
  {
    hide Included, FullItem;
    var models := AllModels(local, channels);
    var confidence := CheckConfidence(channels, models);
    differences := map[];
    var left := models;
    while left != {}
      invariant left <= models && NoEmptyModel(differences) && differences.Keys <= models - left
      invariant forall model, field :: model in models && model !in left ==> At(differences, model, field) == ComparedAt(local, channels, model, field)
      decreases |left|
    {
      var model :| model in left;
      left := left - {model};
      var items := CompareModel(local, channels, model, confidence);
      if items != map[] {
        differences := differences[model := items];
      }
    }
  }

  ghost predicate ToldIn(d: Differences, name: string) {
    exists model, field :: TellsAt(d, model, field, name)
  }

  predicate TellsAt(d: Differences, model: string, field: Field, name: string) {
    At(d, model, field).Some? && RowTells(At(d, model, field).value.upstreams, name)
  }

  // The channels that tell something anywhere in the comparison.
  method DifferingChannels(d: Differences) returns (names: set<string>)
    ensures forall name :: name in names <==> ToldIn(d, name)
  {
    names := {};
    var models := d.Keys;
    while models != {}
      invariant models <= d.Keys
      invariant forall name :: name in names ==> ToldIn(d, name)
      invariant forall model, field, name :: model !in models && TellsAt(d, model, field, name) ==> name in names
      decreases |models|
    {
      var model :| model in models;
      models := models - {model};
      var more := DifferingIn(d[model]);
      forall name | name in more ensures ToldIn(d, name) {
        var field :| field in d[model] && RowTells(d[model][field].upstreams, name);
        assert TellsAt(d, model, field, name);
      }
      names := names + more;
    }
  }

  method DifferingIn(items: map<Field, Item>) returns (names: set<string>)
    ensures forall name :: name in names <==> exists field :: field in items && RowTells(items[field].upstreams, name)
  {
    names := {};
    var fields := items.Keys;
    while fields != {}
      invariant fields <= items.Keys
      invariant forall name :: name in names ==> exists field :: field in items && RowTells(items[field].upstreams, name)
      invariant forall field, name :: field in items && field !in fields && RowTells(items[field].upstreams, name) ==> name in names
      decreases |fields|
    {
      var field :| field in fields;
      fields := fields - {field};
      var row := items[field].upstreams;
      names := names + set name | name in row && Tells(row[name]);
    }
  }

  function Kept<T>(row: map<string, T>, names: set<string>): map<string, T> {
    map name | name in row && name in names :: row[name]
  }

  function PrunedItem(item: Item, names: set<string>): Item {
    Item(item.current, Kept(item.upstreams, names), Kept(item.confidence, names))
  }

  predicate Survives(item: Item, names: set<string>) {
    exists name :: name in item.upstreams && name in names && item.upstreams[name] != Same
  }

  method PruneItem(item: Item, names: set<string>) returns (pruned: Item, survives: bool)
    requires item.confidence.Keys == item.upstreams.Keys
    ensures pruned == PrunedItem(item, names) && survives == Survives(item, names)
  {
    var upstreams, confidence := item.upstreams, item.confidence;
    var left := item.upstreams.Keys;
    while left != {}
      invariant left <= item.upstreams.Keys && upstreams.Keys == confidence.Keys
      invariant upstreams.Keys <= item.upstreams.Keys
      invariant forall name :: name in item.upstreams ==> (name in upstreams <==> name in left || name in names)
      invariant forall name :: name in upstreams ==> upstreams[name] == item.upstreams[name] && confidence[name] == item.confidence[name]
      decreases |left|
    {
      var name :| name in left;
      left := left - {name};
      if name !in names {
        upstreams := upstreams - {name};
        confidence := confidence - {name};
      }
    }
    pruned := Item(item.current, upstreams, confidence);
    var allSame := true;
    left := upstreams.Keys;
    while left != {}
      invariant left <= upstreams.Keys
      invariant allSame && forall name :: name in upstreams && name !in left ==> upstreams[name] == Same
      decreases |left|
    {
      var name :| name in left;
      left := left - {name};
      if upstreams[name] != Same {
        allSame := false;
        break;
      }
    }
    survives := !(|upstreams| == 0 || allSame);
  }

  predicate Aligned(items: map<Field, Item>) {
    forall field :: field in items ==> items[field].confidence.Keys == items[field].upstreams.Keys
  }

  method PruneModel(items: map<Field, Item>, names: set<string>) returns (pruned: map<Field, Item>)
    requires Aligned(items)
    ensures forall field :: field in pruned <==> field in items && Survives(items[field], names)
    ensures forall field :: field in pruned ==> pruned[field] == PrunedItem(items[field], names)
  {
    hide Survives, PrunedItem;
    pruned := items;
    var fields := items.Keys;
    while fields != {}
      invariant fields <= items.Keys && pruned.Keys <= items.Keys
      invariant forall field :: field in fields ==> field in pruned && pruned[field] == items[field]
      invariant forall field :: field in items && field !in fields ==> (field in pruned <==> Survives(items[field], names))
      invariant forall field :: field in pruned && field !in fields ==> pruned[field] == PrunedItem(items[field], names)
      decreases |fields|
    {
      var field :| field in fields;
      fields := fields - {field};
      var item, survives := PruneItem(pruned[field], names);
      if survives {
        pruned := pruned[field := item];
      } else {
        pruned := pruned - {field};
      }
    }
  }

  function PrunedAt(d: Differences, names: set<string>, model: string, field: Field): Option<Item> {
    match At(d, model, field)
    case None => None
    case Some(item) => if Survives(item, names) then Some(PrunedItem(item, names)) else None
  }

  method PruneAll(d: Differences, names: set<string>) returns (pruned: Differences)
    requires forall model :: model in d ==> Aligned(d[model])
    ensures NoEmptyModel(pruned)
    ensures forall model, field :: At(pruned, model, field) == PrunedAt(d, names, model, field)
  {
    hide Survives, PrunedItem, Aligned;
    pruned := d;
    var models := d.Keys;
    while models != {}
      invariant models <= pruned.Keys <= d.Keys
      invariant forall model :: model in models ==> pruned[model] == d[model]
      invariant forall model, field :: model !in models ==> At(pruned, model, field) == PrunedAt(d, names, model, field)
      invariant forall model :: model in pruned && model !in models ==> pruned[model] != map[]
      decreases |models|
    {
      var model :| model in models;
      models := models - {model};
      var items := PruneModel(pruned[model], names);
      ghost var before := pruned;
      forall field ensures (if field in items then Some(items[field]) else None) == PrunedAt(d, names, model, field) {}
      if items == map[] {
        pruned := pruned - {model};
        forall m, f | m !in models ensures At(pruned, m, f) == PrunedAt(d, names, m, f) {
          assert m != model ==> At(pruned, m, f) == At(before, m, f);
        }
      } else {
        pruned := pruned[model := items];
        forall m, f | m !in models ensures At(pruned, m, f) == PrunedAt(d, names, m, f) {
          AtUpdate(before, model, items, m, f);
        }
      }
    }
  }

  lemma InformativeIsTold(d: Differences, local: Pricing, channels: seq<Channel>, name: string)
    requires IsComparison(d, local, channels)
    ensures Informative(local, channels, name) <==> ToldIn(d, name)
  {
    hide Included, Row;
    if Informative(local, channels, name) {
      var model, field :| RowTells(Row(local, channels, model, field), name);
      TellingIsIncluded(local, channels, model, field, name);
      assert At(d, model, field) == ComparedAt(local, channels, model, field);
      assert TellsAt(d, model, field, name);
    }
    if ToldIn(d, name) {
      var model, field :| TellsAt(d, model, field, name);
      assert At(d, model, field) == ComparedAt(local, channels, model, field);
      assert RowTells(Row(local, channels, model, field), name);
    }
  }

  lemma SurvivorsAreReported(local: Pricing, channels: seq<Channel>, model: string, field: Field, names: set<string>)
    requires forall name :: name in names <==> Informative(local, channels, name)
    ensures Survives(FullItem(local, channels, model, field), names)
            <==> exists name :: Shows(local, channels, model, field, name)
    ensures PrunedItem(FullItem(local, channels, model, field), names) == ReportedItem(local, channels, model, field)
  {
    hide Row, Informative;
    if name :| Shows(local, channels, model, field, name) {
      assert name in names;
    }
    if Survives(FullItem(local, channels, model, field), names) {
      var name :| name in Row(local, channels, model, field) && name in names && Row(local, channels, model, field)[name] != Same;
      assert Shows(local, channels, model, field, name);
    }
  }

  lemma SameKeys(local: Pricing, channels: seq<Channel>, model: string, field: Field)
    ensures FullItem(local, channels, model, field).confidence.Keys == FullItem(local, channels, model, field).upstreams.Keys
  {
    hide Row, Confidences;
    forall name ensures name in Confidences(channels, model) <==> name in Row(local, channels, model, field) {
      RowHolds(local, channels, model, field, name);
    }
  }

  lemma ComparisonIsAligned(d: Differences, local: Pricing, channels: seq<Channel>, model: string)
    requires IsComparison(d, local, channels) && model in d
    ensures Aligned(d[model])
  {
    hide Included, FullItem;
    forall field | field in d[model] ensures d[model][field].confidence.Keys == d[model][field].upstreams.Keys {
      assert At(d, model, field) == ComparedAt(local, channels, model, field);
      SameKeys(local, channels, model, field);
    }
  }

  lemma PruningReports(d: Differences, local: Pricing, channels: seq<Channel>, names: set<string>, model: string, field: Field)
    requires IsComparison(d, local, channels) && (forall name :: name in names <==> Informative(local, channels, name))
    ensures PrunedAt(d, names, model, field)
            == if Reported(local, channels, model, field) then Some(ReportedItem(local, channels, model, field)) else None
  {
    hide Included, FullItem, ReportedItem, Shows, Survives, PrunedItem, Informative;
    assert At(d, model, field) == ComparedAt(local, channels, model, field);
    SurvivorsAreReported(local, channels, model, field, names);
  }

  // The three phases compute the declarative report.
  method BuildDifferences(local: Pricing, channels: seq<Channel>) returns (differences: Differences)
    ensures IsReport(differences, local, channels)
  {
    hide IsComparison, Informative, ToldIn, PrunedAt, Reported, ReportedItem, At, NoEmptyModel, Aligned;
    var compared := CompareAll(local, channels);
    var names := DifferingChannels(compared);
    forall name ensures name in names <==> Informative(local, channels, name) {
      InformativeIsTold(compared, local, channels, name);
    }
    forall model | model in compared ensures Aligned(compared[model]) {
      ComparisonIsAligned(compared, local, channels, model);
    }
    differences := PruneAll(compared, names);
    forall model, field ensures At(differences, model, field)
          == if Reported(local, channels, model, field) then Some(ReportedItem(local, channels, model, field)) else None
    {
      PruningReports(compared, local, channels, names, model, field);
    }
  }
}
