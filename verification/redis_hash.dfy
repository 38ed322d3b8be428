// Storing a record as a hash of texts and reading it back into a blank record.

module RedisHash {
  import opened Options
  import opened Decimal
  import opened Integers

  // A struct is known by its content and its printed form; `zero` is the printed form of the blank one.
  datatype Base = TextBase | IntBase | BoolBase | StructBase(zero: string) | OtherBase

  // The type of a field; SoftDelete is the deletion mark that is never stored.
  datatype Kind = Plain(base: Base) | Pointer(base: Base) | SoftDelete

  // Other stands for any further kind (floats, slices, maps and so on), known only by its printed form.
  datatype Scalar = TextValue(text: string) | IntValue(number: int) | BoolValue(flag: bool) | StructValue(content: int, printed: string) | OtherValue(printed: string)

  datatype Value = Direct(scalar: Scalar) | Nil | Pointee(scalar: Scalar) | Deleted(at: Option<int>)

  datatype Field = Field(name: string, kind: Kind, value: Value)

  datatype Problem = NotFound | BadNumber | BadFlag | Unsupported | NoFields

  datatype Result<T> = Ok(value: T) | Err(problem: Problem)

  predicate ScalarOf(scalar: Scalar, base: Base) {
    match base
    case TextBase => scalar.TextValue?
    case IntBase => scalar.IntValue? && MinInt64 <= scalar.number <= MaxInt64
    case BoolBase => scalar.BoolValue?
    case StructBase(zero) => scalar.StructValue? && (scalar.content == 0 ==> scalar.printed == zero)
    case OtherBase => scalar.OtherValue?
  }

  predicate Typed(f: Field) {
    match f.kind
    case Plain(base) => f.value.Direct? && ScalarOf(f.value.scalar, base)
    case Pointer(base) => f.value.Nil? || (f.value.Pointee? && ScalarOf(f.value.scalar, base))
    case SoftDelete => f.value.Deleted?
  }

  predicate ValidRecord(fields: seq<Field>) {
    && (forall i :: 0 <= i < |fields| ==> Typed(fields[i]))
    && (forall i, j :: 0 <= i < j < |fields| ==> fields[i].name != fields[j].name)
  }

  function FormatFlag(flag: bool): string { if flag then "true" else "false" }

  function ParseFlag(s: string): Option<bool> {
    if s in ["1", "t", "T", "TRUE", "true", "True"] then Some(true)
    else if s in ["0", "f", "F", "FALSE", "false", "False"] then Some(false)
    else None
  }

  function Format(scalar: Scalar): string {
    match scalar
    case TextValue(text) => text
    case IntValue(number) => Print(number)
    case BoolValue(flag) => FormatFlag(flag)
    case StructValue(_, printed) => printed
    case OtherValue(printed) => printed
  }

  // The stored text of a field, or None for one that is not stored.
  function Stored(value: Value): Option<string> {
    match value
    case Direct(scalar) => Some(Format(scalar))
    case Nil => Some("")
    case Pointee(scalar) => Some(Format(scalar))
    case Deleted(_) => None
  }

  // A text is never read into a struct: the field is left as it is, without an error.
  function ParseScalar(text: string, base: Base): Result<Scalar> {
    match base
    case TextBase => Ok(TextValue(text))
    case IntBase =>
      (match Parse(text)
       case Some(number) => Ok(IntValue(number))
       case None => Err(BadNumber))
    case BoolBase =>
      (match ParseFlag(text)
       case Some(flag) => Ok(BoolValue(flag))
       case None => Err(BadFlag))
    case StructBase(zero) => Ok(StructValue(0, zero))
    case OtherBase => Err(Unsupported)
  }

  function BlankScalar(base: Base): Scalar {
    match base
    case TextBase => TextValue("")
    case IntBase => IntValue(0)
    case BoolBase => BoolValue(false)
    case StructBase(zero) => StructValue(0, zero)
    case OtherBase => OtherValue("")
  }

  function Blank(f: Field): Field {
    match f.kind
    case Plain(base) => f.(value := Direct(BlankScalar(base)))
    case Pointer(base) => f.(value := Nil)
    case SoftDelete => f.(value := Deleted(None))
  }

  function BlankRecord(fields: seq<Field>): seq<Field> {
    seq(|fields|, i requires 0 <= i < |fields| => Blank(fields[i]))
  }

  // One field set from its text.  A stored deletion mark cannot occur: none is ever written.
  function Restored(blank: Field, text: string): Result<Field> {
    match blank.kind
    case SoftDelete => Ok(blank)
    case Plain(base) =>
      (match ParseScalar(text, base)
       case Ok(scalar) => Ok(blank.(value := Direct(scalar)))
       case Err(problem) => Err(problem))
    case Pointer(base) =>
      if text == "" then Ok(blank)
      else (match ParseScalar(text, base)
            case Ok(scalar) => Ok(blank.(value := Pointee(scalar)))
            case Err(problem) => Err(problem))
  }

  // What survives being stored: everything but a pointer to something that prints as the empty text, a
  // struct that is not blank, a deletion mark that is set, and values of unsupported kinds.
  predicate Survives(f: Field) {
    match f.value
    case Direct(scalar) => Readable(scalar)
    case Nil => true
    case Pointee(scalar) => Readable(scalar) && Format(scalar) != ""
    case Deleted(at) => at.None?
  }

  predicate Readable(scalar: Scalar) {
    !scalar.OtherValue? && (scalar.StructValue? ==> scalar.content == 0)
  }

  // The stored texts: a text as it is, a number in decimal with its sign if negative, a flag as a word, anything
  // else as it prints, a nil pointer as the empty text, and a deletion mark not at all.
  lemma StoredTexts(scalar: Scalar)
    ensures Stored(Direct(scalar)) == Stored(Pointee(scalar)) && Stored(Nil) == Some("") && forall at :: Stored(Deleted(at)) == None
    ensures match scalar
            case TextValue(text) => Stored(Direct(scalar)) == Some(text)
            case IntValue(number) =>
              && (number >= 0 ==> Stored(Direct(scalar)) == Some(Digits(number)))
              && (number < 0 ==> Stored(Direct(scalar)) == Some("-" + Digits(-number)))
            case BoolValue(flag) => Stored(Direct(scalar)) == if flag then Some("true") else Some("false")
            case StructValue(_, printed) => Stored(Direct(scalar)) == Some(printed)
            case OtherValue(printed) => Stored(Direct(scalar)) == Some(printed)
  {}

  // A flag is read from a digit, a letter or a word in lower, upper or title case, and from nothing else.
  lemma FlagTexts(text: string, flag: bool)
    ensures ParseFlag(text) == Some(flag)
            <==> if flag then text == "1" || text == "t" || text == "T" || text == "true" || text == "TRUE" || text == "True"
                 else text == "0" || text == "f" || text == "F" || text == "false" || text == "FALSE" || text == "False"
  {}

  predicate NoFlag(text: string) {
    text !in ["1", "t", "T", "true", "TRUE", "True", "0", "f", "F", "false", "FALSE", "False"]
  }

  // A blank field is its type's zero, and reading fails exactly on a number or flag that cannot be read and on
  // an unsupported type, with the problem that says so; an empty text for a pointer never fails.
  lemma ReadingFailsIff(f: Field, text: string)
    ensures var blank := Blank(f);
            && blank.name == f.name && blank.kind == f.kind
            && (match f.kind
                case Plain(TextBase) => blank.value == Direct(TextValue(""))
                case Plain(IntBase) => blank.value == Direct(IntValue(0))
                case Plain(BoolBase) => blank.value == Direct(BoolValue(false))
                case Plain(StructBase(zero)) => blank.value == Direct(StructValue(0, zero))
                case Plain(OtherBase) => blank.value == Direct(OtherValue(""))
                case Pointer(_) => blank.value == Nil
                case SoftDelete => blank.value == Deleted(None))
            && (Restored(blank, text).Err? <==>
                  && !f.kind.SoftDelete? && (f.kind.Pointer? ==> text != "")
                  && ((f.kind.base == IntBase && Parse(text).None?) || (f.kind.base == BoolBase && NoFlag(text)) || f.kind.base == OtherBase))
            && (Restored(blank, text).Err? ==>
                  Restored(blank, text).problem == if f.kind.base == IntBase then BadNumber else if f.kind.base == BoolBase then BadFlag else Unsupported)
  {}

  lemma FieldSurvivesIff(f: Field)
    requires Typed(f)
    ensures Stored(f.value).Some? ==> (Restored(Blank(f), Stored(f.value).value) == Ok(f) <==> Survives(f))
    ensures Stored(f.value).None? ==> (Blank(f) == f <==> Survives(f))
  {
    if f.value.Direct? || f.value.Pointee? {
      if f.value.scalar.IntValue? {
        ParsePrintIff(f.value.scalar.number);
        DigitsRoundTrip(if f.value.scalar.number < 0 then -f.value.scalar.number else f.value.scalar.number);
        assert Format(f.value.scalar) != "";
      }
    }
  }

  predicate Encodes(hash: map<string, string>, fields: seq<Field>) {
    && (forall i :: 0 <= i < |fields| ==>
          match Stored(fields[i].value)
          case Some(text) => fields[i].name in hash && hash[fields[i].name] == text
          case None => fields[i].name !in hash)
    && (forall name :: name in hash ==> exists i :: 0 <= i < |fields| && fields[i].name == name)
  }

  function DecodeField(blank: Field, hash: map<string, string>): Result<Field> {
    if blank.name in hash then Restored(blank, hash[blank.name]) else Ok(blank)
  }

  // Fields are read in order; the first one that cannot be read ends it.
  function Decode(blanks: seq<Field>, hash: map<string, string>): Result<seq<Field>> {
    if hash == map[] then Err(NotFound) else DecodeAll(blanks, hash)
  }

  function DecodeAll(blanks: seq<Field>, hash: map<string, string>): Result<seq<Field>> {
    if blanks == [] then Ok([])
    else match DecodeAll(blanks[..|blanks| - 1], hash)
      case Err(problem) => Err(problem)
      case Ok(front) =>
        match DecodeField(blanks[|blanks| - 1], hash)
        case Err(problem) => Err(problem)
        case Ok(last) => Ok(front + [last])
  }

  lemma {:induction false} DecodeIsPointwise(blanks: seq<Field>, hash: map<string, string>, fields: seq<Field>)
    requires |fields| == |blanks|
    ensures DecodeAll(blanks, hash) == Ok(fields) <==> forall i :: 0 <= i < |blanks| ==> DecodeField(blanks[i], hash) == Ok(fields[i])
  {
    if blanks != [] {
      var n := |blanks| - 1;
      DecodeIsPointwise(blanks[..n], hash, fields[..n]);
      assert fields == fields[..n] + [fields[n]];
      assert forall i :: 0 <= i < n ==> blanks[..n][i] == blanks[i] && fields[..n][i] == fields[i];
      if DecodeAll(blanks, hash) == Ok(fields) {
        assert DecodeAll(blanks[..n], hash).value == fields[..n];
      }
    }
  }

  // A record comes back as it was exactly when every field survives and something was stored at all.
  lemma RoundTripIff(fields: seq<Field>, hash: map<string, string>)
    requires ValidRecord(fields) && Encodes(hash, fields)
    ensures Decode(BlankRecord(fields), hash) == Ok(fields)
            <==> hash != map[] && forall i :: 0 <= i < |fields| ==> Survives(fields[i])
  {
    var blanks := BlankRecord(fields);
    DecodeIsPointwise(blanks, hash, fields);
    forall i | 0 <= i < |fields| ensures DecodeField(blanks[i], hash) == Ok(fields[i]) <==> Survives(fields[i]) {
      FieldSurvivesIff(fields[i]);
      assert blanks[i].name == fields[i].name;
    }
  }

  lemma NothingEncoded(fields: seq<Field>)
    ensures Encodes(map[], fields[..0])
  {}

  lemma OneMoreField(hash: map<string, string>, fields: seq<Field>, i: nat, hash': map<string, string>)
    requires i < |fields| && ValidRecord(fields) && Encodes(hash, fields[..i])
    requires match Stored(fields[i].value)
             case Some(text) => hash' == hash[fields[i].name := text]
             case None => hash' == hash
    ensures Encodes(hash', fields[..i + 1])
  {
    hide Stored, Typed;
    var field := fields[i];
    assert field.name !in hash by {
      assert forall k :: 0 <= k < i ==> fields[..i][k] == fields[k] && fields[k].name != field.name;
    }
    var part := fields[..i + 1];
    forall k | 0 <= k < |part|
      ensures match Stored(part[k].value)
              case Some(text) => part[k].name in hash' && hash'[part[k].name] == text
              case None => part[k].name !in hash'
    {
      if k < i {
        assert fields[..i][k] == fields[k] && fields[k].name != field.name;
      }
    }
    forall name | name in hash' ensures exists k :: 0 <= k < |part| && part[k].name == name {
      if name == field.name {
        assert part[i].name == name;
      } else {
        var k :| 0 <= k < |fields[..i]| && fields[..i][k].name == name;
        assert part[k].name == name;
      }
    }
  }

  // The hash to store; storing no field at all is refused by the server.
  method HSetObj(fields: seq<Field>) returns (r: Result<map<string, string>>)
    requires ValidRecord(fields)
    ensures r.Ok? ==> r.value != map[] && Encodes(r.value, fields)
    ensures r.Err? <==> forall i :: 0 <= i < |fields| ==> fields[i].kind == SoftDelete
  {
    hide Encodes, Format;
    var data: map<string, string> := map[];
    assert Encodes(data, fields[..0]) by { NothingEncoded(fields); }
    for i := 0 to |fields|
      invariant Encodes(data, fields[..i])
      invariant data == map[] <==> forall k :: 0 <= k < i ==> fields[k].kind == SoftDelete
    {
      var field := fields[i];
      assert Typed(fields[i]);
      if field.kind == SoftDelete {
        OneMoreField(data, fields, i, data);
        continue;
      }
      var text := if field.value.Nil? then "" else Format(field.value.scalar);
      OneMoreField(data, fields, i, data[field.name := text]);
      data := data[field.name := text];
      assert field.name in data;
    }
    assert fields[..|fields|] == fields;
    r := if data == map[] then Err(NoFields) else Ok(data);
  }

  method HGetObj(hash: map<string, string>, blanks: seq<Field>) returns (r: Result<seq<Field>>)
    ensures r == Decode(blanks, hash)
  {
    if |hash| == 0 { return Err(NotFound); }
    var fields: seq<Field> := [];
    for i := 0 to |blanks|
      invariant DecodeAll(blanks[..i], hash) == Ok(fields)
    {
      assert blanks[..i + 1][..i] == blanks[..i];
      var field := blanks[i];
      if field.name in hash {
        var restored := Restored(field, hash[field.name]);
        if restored.Err? {
          FailureStays(blanks, hash, i + 1);
          return Err(restored.problem);
        }
        field := restored.value;
      }
      fields := fields + [field];
    }
    assert blanks[..|blanks|] == blanks;
    r := Ok(fields);
  }

  lemma {:induction false} FailureStays(blanks: seq<Field>, hash: map<string, string>, k: nat)
    requires k <= |blanks| && DecodeAll(blanks[..k], hash).Err?
    ensures DecodeAll(blanks, hash) == Err(DecodeAll(blanks[..k], hash).problem)
    decreases |blanks| - k
  {
    if k == |blanks| {
      assert blanks[..k] == blanks;
    } else {
      assert blanks[..k + 1][..k] == blanks[..k];
      FailureStays(blanks, hash, k + 1);
    }
  }
}
