// A channel with several keys: a key list stored as one string and three sparse
// maps by index, managed as if they were one table of rows.

module MultiKey {
  import opened Options
  import opened Text

  const ENABLED := 1
  const MANUALLY_DISABLED := 2
  const AUTO_DISABLED := 3

  datatype Row = Row(key: string, status: int, time: Option<int>, reason: Option<string>)

  // The stored channel, as far as its keys are concerned.
  datatype Record = Record(key: string, size: nat, status: map<int, int>, time: map<int, int>, reason: map<int, string>)

  // Reads a text as a JSON array and gives its elements as raw texts.
  type ArrayReader = string -> Option<seq<string>>

  function AsArray(key: string, asArray: ArrayReader): Option<seq<string>> {
    var trimmed := TrimSpace(key);
    if "[" <= trimmed then asArray(trimmed) else None
  }

  function Lines(key: string): seq<string> {
    SplitOn(TrimBy(key, (c: char) => c == '\n'), '\n')
  }

  function KeysOf(key: string, asArray: ArrayReader): seq<string> {
    if key == "" then []
    else match AsArray(key, asArray)
      case Some(keys) => keys
      case None => Lines(key)
  }

  // The update counts keys on its own: an empty array falls back to the lines.
  function CountedKeys(key: string, asArray: ArrayReader): seq<string> {
    if key == "" then []
    else
      var elements := AsArray(key, asArray);
      if elements.Some? && elements.value != [] then elements.value else Lines(key)
  }

  lemma CountsAgreeIff(key: string, asArray: ArrayReader)
    ensures |CountedKeys(key, asArray)| == |KeysOf(key, asArray)| <==> !(key != "" && AsArray(key, asArray) == Some([]))
    ensures |CountedKeys(key, asArray)| == |KeysOf(key, asArray)| ==> CountedKeys(key, asArray) == KeysOf(key, asArray)
  {}

  function Lookup<T>(m: map<int, T>, i: int): Option<T> {
    if i in m then Some(m[i]) else None
  }

  function StatusAt(status: map<int, int>, i: int): int {
    if i in status then status[i] else ENABLED
  }

  function RowAt(key: string, status: map<int, int>, time: map<int, int>, reason: map<int, string>, i: int): Row {
    Row(key, StatusAt(status, i), Lookup(time, i), Lookup(reason, i))
  }

  function Table(keys: seq<string>, status: map<int, int>, time: map<int, int>, reason: map<int, string>): seq<Row> {
    seq(|keys|, i requires 0 <= i < |keys| => RowAt(keys[i], status, time, reason, i))
  }

  function RowsOf(r: Record, asArray: ArrayReader): seq<Row> {
    Table(KeysOf(r.key, asArray), r.status, r.time, r.reason)
  }

  predicate Within<T>(m: map<int, T>, size: nat) {
    forall i :: i in m ==> 0 <= i < size
  }

  predicate SparseMaps(status: map<int, int>, time: map<int, int>, reason: map<int, string>, size: nat) {
    && Within(status, size) && Within(time, size) && Within(reason, size)
    && (forall i :: i in status ==> status[i] != ENABLED)
  }

  // Maps and key list are aligned, and both ways of counting the keys agree.
  predicate Aligned(r: Record, asArray: ArrayReader) {
    && r.size == |KeysOf(r.key, asArray)| == |CountedKeys(r.key, asArray)|
    && SparseMaps(r.status, r.time, r.reason, r.size)
  }

  // The rows say everything the maps say.
  lemma RowsDetermineMaps(r: Record, r': Record, asArray: ArrayReader)
    requires Aligned(r, asArray) && Aligned(r', asArray) && RowsOf(r, asArray) == RowsOf(r', asArray)
    ensures KeysOf(r.key, asArray) == KeysOf(r'.key, asArray)
    ensures r.size == r'.size && r.status == r'.status && r.time == r'.time && r.reason == r'.reason
  {
    var rows, rows' := RowsOf(r, asArray), RowsOf(r', asArray);
    assert |rows| == r.size && |rows'| == r'.size;
    forall i | 0 <= i < r.size
      ensures KeysOf(r.key, asArray)[i] == KeysOf(r'.key, asArray)[i]
      ensures Lookup(r.status, i) == Lookup(r'.status, i) && Lookup(r.time, i) == Lookup(r'.time, i) && Lookup(r.reason, i) == Lookup(r'.reason, i)
    {
      assert rows[i] == rows'[i];
    }
    SameMap(r.status, r'.status, r.size);
    SameMap(r.time, r'.time, r.size);
    SameMap(r.reason, r'.reason, r.size);
  }

  lemma SameMap<T>(m: map<int, T>, m': map<int, T>, size: nat)
    requires Within(m, size) && Within(m', size)
    requires forall i :: 0 <= i < size ==> Lookup(m, i) == Lookup(m', i)
    ensures m == m'
  {
    forall i | i in m || i in m' ensures i in m && i in m' && m[i] == m'[i] {
      assert Lookup(m, i) == Lookup(m', i);
    }
  }

  // ----- storing a list of keys as one string -----

  // What a caller can check: the joined text is not read as an array (or as this very one), no key
  // holds a line break, and the outer keys are not empty.
  predicate Storable(keys: seq<string>, asArray: ArrayReader) {
    keys != [] &&
    var joined := JoinWith(keys, '\n');
    match AsArray(joined, asArray)
    case Some(elements) => joined != "" && elements == keys
    case None => (forall k :: k in keys ==> '\n' !in k) && keys[0] != "" && keys[|keys| - 1] != ""
  }

  lemma {:induction false} LastPiece(s: string, c: char)
    ensures var parts := SplitOn(s, c); parts[|parts| - 1] == "" ==> s == "" || s[|s| - 1] == c
  {
    if s != "" {
      LastPiece(s[1..], c);
      var rest := SplitOn(s[1..], c);
      assert s[0] == c ==> SplitOn(s, c) == [""] + rest;
      assert s[0] != c ==> SplitOn(s, c) == [[s[0]] + rest[0]] + rest[1..];
      assert s[1..] != "" ==> s[|s| - 1] == s[1..][|s[1..]| - 1];
    }
  }

  lemma TrimmedLines(key: string)
    ensures var lines := Lines(key);
            && (forall k :: k in lines ==> '\n' !in k)
            && (lines == [""] || (lines[0] != "" && lines[|lines| - 1] != ""))
  {
    var cut := (c: char) => c == '\n';
    var s := TrimBy(key, cut);
    assert s == TrimRight(TrimLeft(key, cut), cut);
    TrimLeftFacts(key, cut);
    TrimRightFacts(TrimLeft(key, cut), cut);
    assert Lines(key) == SplitOn(s, '\n');
    SplitPiecesFree(s, '\n');
    LastPiece(s, '\n');
  }

  predicate AllBreaks(s: string) {
    forall i :: 0 <= i < |s| ==> s[i] == '\n'
  }

  // The keys of a stored text: those of its array if it starts with a bracket, apart from white space, and
  // reads as one; otherwise the pieces between its line breaks, but for breaks around the whole.
  lemma KeysMean(key: string, asArray: ArrayReader)
    ensures var keys := KeysOf(key, asArray); var trimmed := TrimSpace(key);
            if key == "" then keys == []
            else if trimmed != "" && trimmed[0] == '[' && asArray(trimmed).Some? then keys == asArray(trimmed).value
            else
              && (exists before, after :: key == before + JoinWith(keys, '\n') + after && AllBreaks(before) && AllBreaks(after))
              && (forall k :: k in keys ==> '\n' !in k)
              && (keys == [""] || (keys != [] && keys[0] != "" && keys[|keys| - 1] != ""))
  {
    var trimmed := TrimSpace(key);
    assert "[" <= trimmed <==> trimmed != "" && trimmed[0] == '[';
    LinesMean(key);
    TrimmedLines(key);
  }

  lemma LinesMean(key: string)
    ensures exists before, after :: key == before + JoinWith(Lines(key), '\n') + after && AllBreaks(before) && AllBreaks(after)
  {
    var cut := (c: char) => c == '\n';
    TrimMeans(key, cut);
    JoinOfSplit(TrimBy(key, cut), '\n');
    var before, after :| key == before + TrimBy(key, cut) + after && AllCut(before, cut) && AllCut(after, cut);
    assert AllBreaks(before) && AllBreaks(after);
  }

  // A key list is read back from its stored text exactly when it is storable.
  lemma StorableIff(keys: seq<string>, asArray: ArrayReader)
    requires keys != []
    ensures KeysOf(JoinWith(keys, '\n'), asArray) == keys <==> Storable(keys, asArray)
  {
    var joined := JoinWith(keys, '\n');
    if AsArray(joined, asArray).None? {
      if KeysOf(joined, asArray) == keys {
        TrimmedLines(joined);
        assert keys != [""];
      }
      if Storable(keys, asArray) {
        JoinEnds(keys, '\n');
        SplitOfFreeJoin(keys, '\n');
      }
    }
  }

  // ----- what the actions mean on the table -----

  function RemoveAt(rows: seq<Row>, i: nat): seq<Row>
    requires i < |rows|
  {
    rows[..i] + rows[i + 1..]
  }

  function Cleared(row: Row): Row {
    Row(row.key, ENABLED, None, None)
  }

  function AllCleared(rows: seq<Row>): seq<Row> {
    seq(|rows|, i requires 0 <= i < |rows| => Cleared(rows[i]))
  }

  function Disabled(row: Row): Row {
    if row.status == ENABLED then row.(status := MANUALLY_DISABLED) else row
  }

  function AllDisabled(rows: seq<Row>): seq<Row> {
    seq(|rows|, i requires 0 <= i < |rows| => Disabled(rows[i]))
  }

  // Auto-disabled rows go; an enabled row keeps no time and no reason.
  function Survivors(rows: seq<Row>): seq<Row> {
    if rows == [] then []
    else
      var last := rows[|rows| - 1];
      Survivors(rows[..|rows| - 1]) +
      if last.status == AUTO_DISABLED then [] else [if last.status == ENABLED then Cleared(last) else last]
  }

  lemma {:induction false} SurvivorsCount(rows: seq<Row>)
    ensures |Survivors(rows)| <= |rows|
    ensures |Survivors(rows)| == |rows| <==> forall i :: 0 <= i < |rows| ==> rows[i].status != AUTO_DISABLED
    ensures Survivors(rows) == [] <==> forall i :: 0 <= i < |rows| ==> rows[i].status == AUTO_DISABLED
  {
    if rows != [] {
      SurvivorsCount(rows[..|rows| - 1]);
    }
  }

  function KeysIn(rows: seq<Row>): seq<string> {
    seq(|rows|, i requires 0 <= i < |rows| => rows[i].key)
  }

  // What writing a working copy leaves stored: an empty key field is not written, the size is counted
  // from the text that will be stored, and statuses beyond it are dropped.
  function Written(working: Record, stored: Record, asArray: ArrayReader): Record {
    var key := if working.key == "" then stored.key else working.key;
    var size := |CountedKeys(key, asArray)|;
    Record(key, size, map i | i in working.status && i < size :: working.status[i], working.time, working.reason)
  }

  // An empty key field leaves the old keys, now without any status.
  lemma NothingLeftRevives(working: Record, stored: Record, asArray: ArrayReader)
    requires Aligned(stored, asArray) && working.key == "" && SparseMaps(working.status, working.time, working.reason, 0)
    ensures var written := Written(working, stored, asArray);
            RowsOf(written, asArray) == AllCleared(RowsOf(stored, asArray)) && |RowsOf(written, asArray)| == stored.size
            && Aligned(written, asArray)
  {
    hide AsArray, Lines;
  }

  lemma StorableIsWritten(working: Record, stored: Record, remaining: seq<string>, asArray: ArrayReader)
    requires remaining != [] && Storable(remaining, asArray) && working.key == JoinWith(remaining, '\n')
    requires SparseMaps(working.status, working.time, working.reason, |remaining|)
    ensures var written := Written(working, stored, asArray);
            && RowsOf(written, asArray) == Table(remaining, working.status, working.time, working.reason)
            && Aligned(written, asArray)
  {
    hide AsArray, Lines, Storable, Table;
    StorableIff(remaining, asArray);
    CountsAgreeIff(working.key, asArray);
    assert Written(working, stored, asArray).status == working.status;
  }

  // Rewriting a list of rows stores that list exactly when its keys are storable.
  lemma RewriteIff(working: Record, stored: Record, remaining: seq<string>, asArray: ArrayReader)
    requires Aligned(stored, asArray)
    requires working.key == JoinWith(remaining, '\n') && SparseMaps(working.status, working.time, working.reason, |remaining|)
    requires |remaining| < stored.size
    ensures var rows := Table(remaining, working.status, working.time, working.reason);
            && (RowsOf(Written(working, stored, asArray), asArray) == rows <==> Storable(remaining, asArray))
            && (Storable(remaining, asArray) ==> Aligned(Written(working, stored, asArray), asArray))
            && (remaining == [] ==> RowsOf(Written(working, stored, asArray), asArray) == AllCleared(RowsOf(stored, asArray))
                                    && Aligned(Written(working, stored, asArray), asArray))
  {
    hide KeysOf, CountedKeys, Table, Aligned;
    var written := Written(working, stored, asArray);
    TableKeys(remaining, working.status, working.time, working.reason);
    if remaining == [] {
      NothingLeftRevives(working, stored, asArray);
    } else if Storable(remaining, asArray) {
      StorableIsWritten(working, stored, remaining, asArray);
    } else {
      TableKeys(KeysOf(written.key, asArray), written.status, written.time, written.reason);
      StorableIff(remaining, asArray);
      assert stored.size == |KeysOf(stored.key, asArray)| by { AlignedSize(stored, asArray); }
    }
  }

  lemma AlignedSize(r: Record, asArray: ArrayReader)
    requires Aligned(r, asArray)
    ensures r.size == |KeysOf(r.key, asArray)|
  {}

  lemma TableKeys(keys: seq<string>, status: map<int, int>, time: map<int, int>, reason: map<int, string>)
    ensures KeysIn(Table(keys, status, time, reason)) == keys && |Table(keys, status, time, reason)| == |keys|
  {}

  // One more row at the end of a table under construction.
  lemma TableGrows(keys: seq<string>, status: map<int, int>, time: map<int, int>, reason: map<int, string>, row: Row,
                   status': map<int, int>, time': map<int, int>, reason': map<int, string>)
    requires SparseMaps(status, time, reason, |keys|)
    requires status' == (if row.status == ENABLED then status else status[|keys| := row.status])
    requires time' == (if row.time.None? then time else time[|keys| := row.time.value])
    requires reason' == (if row.reason.None? then reason else reason[|keys| := row.reason.value])
    ensures Table(keys + [row.key], status', time', reason') == Table(keys, status, time, reason) + [row]
    ensures SparseMaps(status', time', reason', |keys| + 1)
  {}

  lemma RowOf(keys: seq<string>, status: map<int, int>, time: map<int, int>, reason: map<int, string>, i: nat)
    requires i < |keys|
    ensures Table(keys, status, time, reason)[i] == RowAt(keys[i], status, time, reason, i)
  {}

  // The rows before i but for one.
  function Copied(rows: seq<Row>, index: nat, i: nat): seq<Row>
    requires i <= |rows| && index < |rows|
  {
    if i <= index then rows[..i] else RemoveAt(rows, index)[..i - 1]
  }

  lemma CopiedNext(rows: seq<Row>, index: nat, i: nat)
    requires i < |rows| && index < |rows|
    ensures Copied(rows, index, i + 1) == Copied(rows, index, i) + if i == index then [] else [rows[i]]
  {}

  lemma CopiedEnds(rows: seq<Row>, index: nat)
    requires index < |rows|
    ensures Copied(rows, index, 0) == [] && Copied(rows, index, |rows|) == RemoveAt(rows, index)
  {}

  lemma SparseNothing()
    ensures SparseMaps(map[], map[], map[], 0)
  {}

  // The loop of "delete_key": copy every row but one, with new indexes.
  method CopyWithout(keys: seq<string>, status: map<int, int>, time: map<int, int>, reason: map<int, string>, index: nat)
      returns (remainingKeys: seq<string>, newStatus: map<int, int>, newTime: map<int, int>, newReason: map<int, string>)
    requires index < |keys|
    ensures Table(remainingKeys, newStatus, newTime, newReason) == RemoveAt(Table(keys, status, time, reason), index)
    ensures SparseMaps(newStatus, newTime, newReason, |remainingKeys|)
  {
    hide Table, Copied, RemoveAt, SparseMaps;
    SparseNothing();
    remainingKeys, newStatus, newTime, newReason := [], map[], map[], map[];
    ghost var rows := Table(keys, status, time, reason);
    assert |rows| == |keys| && Table([], map[], map[], map[]) == [] by { TableKeys(keys, status, time, reason); TableKeys([], map[], map[], map[]); }
    assert Copied(rows, index, 0) == [] && Copied(rows, index, |rows|) == RemoveAt(rows, index) by { CopiedEnds(rows, index); }
    for i := 0 to |keys|
      invariant SparseMaps(newStatus, newTime, newReason, |remainingKeys|)
      invariant Table(remainingKeys, newStatus, newTime, newReason) == Copied(rows, index, i)
    {
      CopiedNext(rows, index, i);
      if i == index {
        continue;
      }
      RowOf(keys, status, time, reason, i);
      ghost var status0, time0, reason0 := newStatus, newTime, newReason;
      var newIndex := |remainingKeys|;
      if i in status && status[i] != ENABLED {
        newStatus := newStatus[newIndex := status[i]];
      }
      if i in time {
        newTime := newTime[newIndex := time[i]];
      }
      if i in reason {
        newReason := newReason[newIndex := reason[i]];
      }
      TableGrows(remainingKeys, status0, time0, reason0, rows[i], newStatus, newTime, newReason);
      remainingKeys := remainingKeys + [keys[i]];
    }
  }

  // The loop of "delete_disabled_keys": copy the rows that are not auto-disabled, with new indexes.
  method CopySurvivors(keys: seq<string>, status: map<int, int>, time: map<int, int>, reason: map<int, string>)
      returns (remainingKeys: seq<string>, newStatus: map<int, int>, newTime: map<int, int>, newReason: map<int, string>, deletedCount: nat)
    ensures Table(remainingKeys, newStatus, newTime, newReason) == Survivors(Table(keys, status, time, reason))
    ensures SparseMaps(newStatus, newTime, newReason, |remainingKeys|)
    ensures deletedCount == |keys| - |remainingKeys|
  {
    hide Table;
    remainingKeys, newStatus, newTime, newReason, deletedCount := [], map[], map[], map[], 0;
    ghost var rows := Table(keys, status, time, reason);
    assert |rows| == |keys| && Table([], map[], map[], map[]) == [] by { TableKeys(keys, status, time, reason); TableKeys([], map[], map[], map[]); }
    for i := 0 to |keys|
      invariant SparseMaps(newStatus, newTime, newReason, |remainingKeys|)
      invariant Table(remainingKeys, newStatus, newTime, newReason) == Survivors(rows[..i])
      invariant deletedCount == i - |remainingKeys|
    {
      assert rows[..i + 1][..i] == rows[..i];
      RowOf(keys, status, time, reason, i);
      var current := StatusAt(status, i);
      if current == AUTO_DISABLED {
        deletedCount := deletedCount + 1;
      } else {
        ghost var status0, time0, reason0 := newStatus, newTime, newReason;
        var newIndex := |remainingKeys|;
        if current != ENABLED {
          newStatus := newStatus[newIndex := current];
          if i in time {
            newTime := newTime[newIndex := time[i]];
          }
          if i in reason {
            newReason := newReason[newIndex := reason[i]];
          }
        }
        TableGrows(remainingKeys, status0, time0, reason0, if current == ENABLED then Cleared(rows[i]) else rows[i],
                   newStatus, newTime, newReason);
        remainingKeys := remainingKeys + [keys[i]];
      }
    }
    assert rows[..|keys|] == rows;
  }

  // The loop of "disable_all_keys".
  method DisableEnabled(before: map<int, int>, size: nat) returns (status: map<int, int>, disabledCount: nat)
    ensures forall k :: StatusAt(status, k) == if 0 <= k < size && StatusAt(before, k) == ENABLED then MANUALLY_DISABLED else StatusAt(before, k)
    ensures disabledCount == |set k | 0 <= k < size && StatusAt(before, k) == ENABLED|
    ensures Within(before, size) ==> Within(status, size)
    ensures (forall k :: k in before ==> before[k] != ENABLED) ==> (forall k :: k in status ==> status[k] != ENABLED)
  {
    status := before;
    disabledCount := 0;
    for i := 0 to size
      invariant forall k :: StatusAt(status, k) == if 0 <= k < i && StatusAt(before, k) == ENABLED then MANUALLY_DISABLED else StatusAt(before, k)
      invariant disabledCount == |set k | 0 <= k < i && StatusAt(before, k) == ENABLED|
      invariant Within(before, size) ==> Within(status, size)
      invariant (forall k :: k in before ==> before[k] != ENABLED) ==> (forall k :: k in status ==> status[k] != ENABLED)
    {
      assert (set k | 0 <= k < i + 1 && StatusAt(before, k) == ENABLED)
             == (set k | 0 <= k < i && StatusAt(before, k) == ENABLED) + if StatusAt(before, i) == ENABLED then {i} else {};
      if StatusAt(status, i) == ENABLED {
        status := status[i := MANUALLY_DISABLED];
        disabledCount := disabledCount + 1;
      }
    }
  }

  lemma NoneEnabled(rows: seq<Row>)
    ensures |set i | 0 <= i < |rows| && rows[i].status == ENABLED| == 0 <==> forall i :: 0 <= i < |rows| ==> rows[i].status != ENABLED
  {
    var enabled := set i | 0 <= i < |rows| && rows[i].status == ENABLED;
    if i :| 0 <= i < |rows| && rows[i].status == ENABLED {
      assert i in enabled;
    }
  }

  // ----- runs of actions -----

  datatype Sheet = Sheet(rows: seq<Row>, channelStatus: int)

  datatype Action =
    | DisableOne(index: int)
    | EnableOne(index: int)
    | EnableAll
    | DisableAll
    | DeleteOne(index: int)
    | DeleteDisabled
    | SetStatus(usingKey: string, status: int, why: string, now: int)

  // The index of the first row of a key, or the number of rows.
  function FirstOf(rows: seq<Row>, key: string): (i: nat)
    ensures i <= |rows|
  {
    if rows == [] || rows[0].key == key then 0 else 1 + FirstOf(rows[1..], key)
  }

  lemma {:induction false} FirstOfIs(rows: seq<Row>, key: string, i: nat)
    requires i <= |rows| && (forall k :: 0 <= k < i ==> rows[k].key != key) && (i < |rows| ==> rows[i].key == key)
    ensures FirstOf(rows, key) == i
  {
    if i > 0 {
      FirstOfIs(rows[1..], key, i - 1);
    }
  }

  // An enabled row keeps its old time and reason.
  function Marked(row: Row, status: int, why: string, now: int): Row {
    if status == ENABLED then row.(status := ENABLED) else Row(row.key, status, Some(now), Some(why))
  }

  predicate AnyEnabled(rows: seq<Row>) {
    exists i :: 0 <= i < |rows| && rows[i].status == ENABLED
  }

  function StatusSet(sheet: Sheet, usingKey: string, status: int, why: string, now: int): Sheet {
    var i := FirstOf(sheet.rows, usingKey);
    if sheet.channelStatus == status then sheet
    else if sheet.rows == [] then sheet.(channelStatus := status)
    else if i == |sheet.rows| then if usingKey == "" then sheet.(channelStatus := status) else sheet
    else
      var rows := sheet.rows[i := Marked(sheet.rows[i], status, why, now)];
      Sheet(rows, if !AnyEnabled(rows) then AUTO_DISABLED else if status == ENABLED then ENABLED else sheet.channelStatus)
  }

  // Enabling one disabled key has an effect exactly while the channel as a whole is not enabled.
  lemma EnableTakesEffectIff(sheet: Sheet, usingKey: string, why: string, now: int)
    requires var i := FirstOf(sheet.rows, usingKey); i < |sheet.rows| && sheet.rows[i].status != ENABLED
    ensures StatusSet(sheet, usingKey, ENABLED, why, now).rows[FirstOf(sheet.rows, usingKey)].status == ENABLED
            <==> sheet.channelStatus != ENABLED
  {}

  // What an action does to the table.
  function After(sheet: Sheet, action: Action): Sheet {
    var rows := sheet.rows;
    match action
    case DisableOne(i) => if 0 <= i < |rows| then sheet.(rows := rows[i := rows[i].(status := MANUALLY_DISABLED)]) else sheet
    case EnableOne(i) => if 0 <= i < |rows| then sheet.(rows := rows[i := Cleared(rows[i])]) else sheet
    case EnableAll => sheet.(rows := AllCleared(rows))
    case DisableAll => sheet.(rows := AllDisabled(rows))
    case DeleteOne(i) => if 0 <= i < |rows| && |rows| > 1 then sheet.(rows := RemoveAt(rows, i)) else sheet
    case DeleteDisabled =>
      var survivors := Survivors(rows);
      if |survivors| == |rows| then sheet
      else if survivors == [] then sheet.(rows := AllCleared(rows))
      else sheet.(rows := survivors)
    case SetStatus(usingKey, status, why, now) => StatusSet(sheet, usingKey, status, why, now)
  }

  // The same in the numbers that are stored: 1 for enabled, 2 for disabled by hand, 3 for disabled automatically.
  lemma InStoredNumbers(sheet: Sheet, i: nat, usingKey: string, status: int, why: string, now: int)
    requires i < |sheet.rows|
    ensures var row := sheet.rows[i];
            && After(sheet, DisableOne(i)).rows[i] == row.(status := 2)
            && After(sheet, EnableOne(i)).rows[i] == Row(row.key, 1, None, None)
            && After(sheet, EnableAll).rows[i] == Row(row.key, 1, None, None)
            && After(sheet, DisableAll).rows[i] == (if row.status == 1 then row.(status := 2) else row)
            && (row.status == 3 ==> After(sheet, DeleteDisabled) != sheet)
            && ((forall k :: 0 <= k < |sheet.rows| ==> sheet.rows[k].status != 3) ==> After(sheet, DeleteDisabled) == sheet)
    ensures var t := After(sheet, SetStatus(usingKey, status, why, now));
            sheet.channelStatus != status && (exists k :: 0 <= k < |sheet.rows| && sheet.rows[k].key == usingKey) ==>
              t.channelStatus == if (forall k :: 0 <= k < |t.rows| ==> t.rows[k].status != 1) then 3
                                 else if status == 1 then 1 else sheet.channelStatus
  {
    SurvivorsCount(sheet.rows);
    FirstIsFound(sheet.rows, usingKey);
    if sheet.rows[i].status == 3 && Survivors(sheet.rows) == [] {
      assert After(sheet, DeleteDisabled).rows[i].status == 1;
    }
  }

  lemma {:induction false} FirstIsFound(rows: seq<Row>, key: string)
    ensures (exists k :: 0 <= k < |rows| && rows[k].key == key) ==> FirstOf(rows, key) < |rows|
  {
    if rows != [] && rows[0].key != key {
      FirstIsFound(rows[1..], key);
      if k :| 0 <= k < |rows| && rows[k].key == key {
        assert rows[1..][k - 1].key == key;
      }
    }
  }

  function AfterAll(sheet: Sheet, actions: seq<Action>): Sheet {
    if actions == [] then sheet else After(AfterAll(sheet, actions[..|actions| - 1]), actions[|actions| - 1])
  }

  // A key that no neighbour and no trimming can change: no line break, and neither space nor bracket in front.
  predicate PlainKey(key: string) {
    key != "" && '\n' !in key && !IsSpace(key[0]) && key[0] != '['
  }

  predicate PlainRows(rows: seq<Row>) {
    forall i :: 0 <= i < |rows| ==> PlainKey(rows[i].key)
  }

  lemma FirstStays(s: string, cut: char -> bool)
    requires s != "" && !cut(s[0])
    ensures TrimBy(s, cut) != "" && TrimBy(s, cut)[0] == s[0]
  {
    RightTrimKeepsFirst(s, cut);
  }

  lemma {:induction false} RightTrimKeepsFirst(s: string, cut: char -> bool)
    requires s != "" && !cut(s[0])
    ensures TrimRight(s, cut) != "" && TrimRight(s, cut)[0] == s[0]
  {
    if cut(s[|s| - 1]) {
      RightTrimKeepsFirst(s[..|s| - 1], cut);
    }
  }

  // Plain keys are storable, whatever texts are read as arrays.
  lemma PlainIsStorable(rows: seq<Row>, asArray: ArrayReader)
    requires rows != [] && PlainRows(rows)
    ensures Storable(KeysIn(rows), asArray)
  {
    var keys := KeysIn(rows);
    assert forall k :: k in keys ==> PlainKey(k);
    assert keys[0] in keys && keys[|keys| - 1] in keys;
    JoinEnds(keys, '\n');
    FirstStays(JoinWith(keys, '\n'), (c: char) => IsSpace(c));
  }

  lemma {:induction false} SurvivorsPlain(rows: seq<Row>)
    requires PlainRows(rows)
    ensures PlainRows(Survivors(rows))
  {
    if rows != [] {
      SurvivorsPlain(rows[..|rows| - 1]);
    }
  }

  // Every action keeps the keys plain.
  lemma PlainStays(sheet: Sheet, action: Action, asArray: ArrayReader)
    requires PlainRows(sheet.rows)
    ensures PlainRows(After(sheet, action).rows)
    ensures After(sheet, action).rows != [] ==> Storable(KeysIn(After(sheet, action).rows), asArray)
  {
    hide PlainKey, Storable;
    SurvivorsPlain(sheet.rows);
    if After(sheet, action).rows != [] {
      PlainIsStorable(After(sheet, action).rows, asArray);
    }
  }

  // Not so in general: what is storable need not be after a key is removed from it.
  lemma RemovalExposesEmptyKey(asArray: ArrayReader)
    ensures Storable(["a", "", "b"], asArray) && !Storable(["", "b"], asArray)
  {
    assert JoinWith(["", "b"], '\n') == "\nb" && JoinWith(["a", "", "b"], '\n') == "a\n\nb";
    FirstStays("a\n\nb", (c: char) => IsSpace(c));
    assert TrimSpace("\nb") == "b" by {
      assert TrimLeft("\nb", (c: char) => IsSpace(c)) == TrimLeft("b", (c: char) => IsSpace(c));
    }
  }

  // Marking one key in the maps marks one row and keeps the maps sparse.
  lemma MapsMarked(r: Record, asArray: ArrayReader, i: nat, status: int, why: string, now: int)
    requires Aligned(r, asArray) && i < r.size
    ensures var r' := if status == ENABLED then r.(status := r.status - {i})
                      else r.(status := r.status[i := status], time := r.time[i := now], reason := r.reason[i := why]);
            && Aligned(r', asArray) && |RowsOf(r, asArray)| == r.size == |RowsOf(r', asArray)|
            && RowsOf(r', asArray) == RowsOf(r, asArray)[i := Marked(RowsOf(r, asArray)[i], status, why, now)]
            && (forall k :: 0 <= k < r.size ==> RowsOf(r', asArray)[k].status == StatusAt(r'.status, k))
  {
    hide KeysOf, CountedKeys;
  }

  lemma RowKeys(r: Record, asArray: ArrayReader)
    ensures KeysIn(RowsOf(r, asArray)) == KeysOf(r.key, asArray) && |RowsOf(r, asArray)| == |KeysOf(r.key, asArray)|
    ensures forall k :: 0 <= k < |RowsOf(r, asArray)| ==> RowsOf(r, asArray)[k].key == KeysOf(r.key, asArray)[k]
  {}

  method HasEnabledKey(count: nat, status: map<int, int>) returns (found: bool)
    ensures found <==> exists i :: 0 <= i < count && StatusAt(status, i) == ENABLED
  {
    for i := 0 to count
      invariant forall k :: 0 <= k < i ==> StatusAt(status, k) != ENABLED
    {
      if StatusAt(status, i) == ENABLED { return true; }
    }
    found := false;
  }

  lemma SomeIndex(indexes: set<int>)
    ensures indexes == {} || exists i :: i in indexes
  {
    if forall i :: i !in indexes {
      assert indexes == {};
    }
  }

  // The loop that deletes statuses of indexes that no longer exist.
  method DropBeyond(before: map<int, int>, size: nat) returns (status: map<int, int>)
    ensures status == map i | i in before && i < size :: before[i]
  {
    status := before;
    var indexes := before.Keys;
    while indexes != {}
      invariant indexes <= status.Keys <= before.Keys
      invariant forall i :: i in status ==> status[i] == before[i]
      invariant forall i :: i in before && i !in indexes ==> (i in status <==> i < size)
      decreases |indexes|
    {
      SomeIndex(indexes);
      var index :| index in indexes;
      indexes := indexes - {index};
      if index >= size {
        status := status - {index};
      }
    }
    assert status.Keys == set i | i in before && i < size;
  }

  class Channel {
    var key: string
    var size: nat
    var status: map<int, int>
    var time: map<int, int>
    var reason: map<int, string>
    var stored: Record
    var channelStatus: int
    const asArray: ArrayReader

    function Current(): Record
      reads this
    {
      Record(key, size, status, time, reason)
    }

    // Between requests the working copy is what is stored.
    predicate Valid()
      reads this
    {
      Current() == stored && Aligned(stored, asArray)
    }

    function Rows(): seq<Row>
      reads this
    {
      RowsOf(stored, asArray)
    }

    // The table and the status of the channel as a whole.
    function Contents(): Sheet
      reads this
    {
      Sheet(Rows(), channelStatus)
    }

    constructor (record: Record, channelStatus: int, asArray: ArrayReader)
      requires Aligned(record, asArray)
      ensures Valid() && stored == record && this.channelStatus == channelStatus && this.asArray == asArray
    {
      key, size, status, time, reason := record.key, record.size, record.status, record.time, record.reason;
      stored := record;
      this.channelStatus := channelStatus;
      this.asArray := asArray;
    }

    method Update()
      modifies this`key, this`size, this`status, this`stored
      ensures stored == Written(old(Current()), old(stored), asArray) && Current() == stored
    {
      var keyString := key;
      if keyString == "" {
        keyString := stored.key;
      }
      size := |CountedKeys(keyString, asArray)|;
      status := DropBeyond(status, size);
      stored := Record(if key == "" then stored.key else key, size, status, time, reason);
      key := stored.key;
    }

    lemma UnchangedKeyIsKept(working: Record)
      requires Aligned(stored, asArray) && working.key == stored.key
      requires SparseMaps(working.status, working.time, working.reason, stored.size)
      ensures Written(working, stored, asArray) == working.(size := stored.size) && Aligned(Written(working, stored, asArray), asArray)
    {
      assert (map i | i in working.status && i < stored.size :: working.status[i]) == working.status;
    }

    method DisableKey(index: int) returns (ok: bool)
      requires Valid()
      modifies this`key, this`size, this`status, this`time, this`reason, this`stored
      ensures Valid() && key == old(key) && ok == (0 <= index < |old(Rows())|)
      ensures Rows() == if ok then old(Rows())[index := old(Rows())[index].(status := MANUALLY_DISABLED)] else old(Rows())
    {
      if index < 0 || index >= size { return false; }
      UnchangedKeyIsKept(Current().(status := status[index := MANUALLY_DISABLED]));
      status := status[index := MANUALLY_DISABLED];
      Update();
      ok := true;
    }

    method EnableKey(index: int) returns (ok: bool)
      requires Valid()
      modifies this`key, this`size, this`status, this`time, this`reason, this`stored
      ensures Valid() && key == old(key) && ok == (0 <= index < |old(Rows())|)
      ensures Rows() == if ok then old(Rows())[index := Cleared(old(Rows())[index])] else old(Rows())
    {
      if index < 0 || index >= size { return false; }
      UnchangedKeyIsKept(Current().(status := status - {index}, time := time - {index}, reason := reason - {index}));
      status := status - {index};
      time := time - {index};
      reason := reason - {index};
      Update();
      ok := true;
    }

    method EnableAllKeys() returns (enabledCount: nat)
      requires Valid()
      modifies this`key, this`size, this`status, this`time, this`reason, this`stored
      ensures Valid() && key == old(key) && Rows() == AllCleared(old(Rows()))
      ensures enabledCount == |set i | 0 <= i < |old(Rows())| && old(Rows())[i].status != ENABLED|
    {
      enabledCount := |status|;
      assert status.Keys == set i | 0 <= i < |Rows()| && Rows()[i].status != ENABLED;
      UnchangedKeyIsKept(Current().(status := map[], time := map[], reason := map[]));
      status := map[];
      time := map[];
      reason := map[];
      Update();
    }

    method DisableAllKeys() returns (disabledCount: nat)
      requires Valid()
      modifies this`key, this`size, this`status, this`time, this`reason, this`stored
      ensures Valid() && key == old(key) && Rows() == AllDisabled(old(Rows()))
      ensures disabledCount == |set i | 0 <= i < |old(Rows())| && old(Rows())[i].status == ENABLED|
    {
      var newStatus;
      newStatus, disabledCount := DisableEnabled(status, size);
      ghost var rows := Rows();
      NoneEnabled(rows);
      assert (set k | 0 <= k < size && StatusAt(status, k) == ENABLED) == (set i | 0 <= i < |rows| && rows[i].status == ENABLED);
      assert forall k :: 0 <= k < size ==> rows[k].status == StatusAt(status, k);
      if disabledCount == 0 { return; }
      UnchangedKeyIsKept(Current().(status := newStatus));
      status := newStatus;
      Update();
    }

    // Deleting one key removes one row, exactly when the remaining keys can be stored; the last key stays.
    method DeleteKey(index: int) returns (ok: bool)
      requires Valid()
      modifies this`key, this`size, this`status, this`time, this`reason, this`stored
      ensures ok == (0 <= index < |old(Rows())| && |old(Rows())| > 1)
      ensures !ok ==> Valid() && stored == old(stored)
      ensures ok ==> var remaining := RemoveAt(old(Rows()), index);
                (Rows() == remaining <==> Storable(KeysIn(remaining), asArray)) && (Storable(KeysIn(remaining), asArray) ==> Valid())
    {
      hide AsArray, Lines, Storable, Table;
      TableKeys(KeysOf(key, asArray), status, time, reason);
      if index < 0 || index >= size { return false; }
      var remainingKeys, newStatus, newTime, newReason := CopyWithout(KeysOf(key, asArray), status, time, reason, index);
      TableKeys(remainingKeys, newStatus, newTime, newReason);
      if |remainingKeys| == 0 { return false; }
      RewriteIff(Record(JoinWith(remainingKeys, '\n'), |remainingKeys|, newStatus, newTime, newReason), stored, remainingKeys, asArray);
      key := JoinWith(remainingKeys, '\n');
      size := |remainingKeys|;
      status := newStatus;
      time := newTime;
      reason := newReason;
      Update();
      ok := true;
    }

    // Deleting the auto-disabled keys filters the table, exactly when the other keys can be stored;
    // if there are no others, nothing is deleted and every key is enabled again.
    method DeleteDisabledKeys() returns (deletedCount: nat)
      requires Valid()
      modifies this`key, this`size, this`status, this`time, this`reason, this`stored
      ensures deletedCount == |old(Rows())| - |Survivors(old(Rows()))|
      ensures deletedCount == 0 ==> Valid() && stored == old(stored)
      ensures deletedCount > 0 ==> var survivors := Survivors(old(Rows()));
                && (Rows() == survivors <==> Storable(KeysIn(survivors), asArray))
                && (Storable(KeysIn(survivors), asArray) ==> Valid())
                && (survivors == [] ==> Valid() && Rows() == AllCleared(old(Rows())))
    {
      hide AsArray, Lines, Storable, Table;
      TableKeys(KeysOf(key, asArray), status, time, reason);
      var remainingKeys, newStatus, newTime, newReason;
      ghost var rows := Rows();
      remainingKeys, newStatus, newTime, newReason, deletedCount := CopySurvivors(KeysOf(key, asArray), status, time, reason);
      TableKeys(remainingKeys, newStatus, newTime, newReason);
      SurvivorsCount(rows);
      if deletedCount == 0 { return; }
      RewriteIff(Record(JoinWith(remainingKeys, '\n'), |remainingKeys|, newStatus, newTime, newReason), stored, remainingKeys, asArray);
      key := JoinWith(remainingKeys, '\n');
      size := |remainingKeys|;
      status := newStatus;
      time := newTime;
      reason := newReason;
      Update();
    }

    // The step from outside: a failing request disables the key it used, a working one enables it again.
    // Nothing happens if the channel as a whole already has the wanted status.
    method UpdateStatus(usingKey: string, newStatus: int, why: string, now: int) returns (ok: bool)
      requires Valid()
      modifies this`status, this`time, this`reason, this`stored, this`channelStatus
      ensures Valid() && key == old(key) && ok == (old(channelStatus) != newStatus)
      ensures Contents() == StatusSet(old(Contents()), usingKey, newStatus, why, now)
    {
      hide KeysOf, CountedKeys, RowsOf, SparseMaps;
      if channelStatus == newStatus { return false; }
      ok := true;
      RowKeys(stored, asArray);
      var keys := KeysOf(key, asArray);
      if |keys| == 0 {
        channelStatus := newStatus;
        return;
      }
      ghost var rows := Rows();
      var keyIndex := 0;
      while keyIndex < |keys| && keys[keyIndex] != usingKey
        invariant 0 <= keyIndex <= |keys| && forall k :: 0 <= k < keyIndex ==> rows[k].key != usingKey
      {
        keyIndex := keyIndex + 1;
      }
      FirstOfIs(rows, usingKey, keyIndex);
      if keyIndex == |keys| {
        if usingKey == "" {
          channelStatus := newStatus;
        }
        return;
      }
      MapsMarked(stored, asArray, keyIndex, newStatus, why, now);
      if newStatus == ENABLED {
        status := status - {keyIndex};
      } else {
        status := status[keyIndex := newStatus];
        reason := reason[keyIndex := why];
        time := time[keyIndex := now];
      }
      stored := Current();
      var hasEnabled := HasEnabledKey(|keys|, status);
      if !hasEnabled {
        channelStatus := AUTO_DISABLED;
      } else if newStatus == ENABLED {
        channelStatus := ENABLED;
      }
    }

    method Perform(action: Action)
      requires Valid() && PlainRows(Rows())
      modifies this
      ensures Valid() && PlainRows(Rows())
      ensures Contents() == After(old(Contents()), action)
    {
      ghost var rows := Rows();
      PlainStays(Contents(), action, asArray);
      match action {
        case DisableOne(index) => var _ := DisableKey(index);
        case EnableOne(index) => var _ := EnableKey(index);
        case EnableAll => var _ := EnableAllKeys();
        case DisableAll => var _ := DisableAllKeys();
        case DeleteOne(index) => var _ := DeleteKey(index);
        case DeleteDisabled =>
          SurvivorsCount(rows);
          var _ := DeleteDisabledKeys();
        case SetStatus(usingKey, newStatus, why, now) => var _ := UpdateStatus(usingKey, newStatus, why, now);
      }
    }

    // Over any run of the actions the key list, its size and the three maps are one table of rows, and each
    // action does to the table what its name says, if the keys are plain to begin with.
    method PerformAll(actions: seq<Action>)
      requires Valid() && PlainRows(Rows())
      modifies this
      ensures Valid() && PlainRows(Rows())
      ensures Contents() == AfterAll(old(Contents()), actions)
    {
      for i := 0 to |actions|
        invariant Valid() && PlainRows(Rows())
        invariant Contents() == AfterAll(old(Contents()), actions[..i])
      {
        Perform(actions[i]);
        assert actions[..i + 1][..i] == actions[..i];
      }
      assert actions[..|actions|] == actions;
    }
  }
}
