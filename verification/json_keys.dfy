// The validator that rejects duplicate object names at any depth, over the token
// stream of a JSON decoder.

module JsonKeys {
  import opened Options

  datatype Delimiter = Brace | Bracket

  // What the decoder finds next; Malformed stands for text that is no token.
  datatype Token = Open(delimiter: Delimiter) | Close(delimiter: Delimiter) | Text(text: string) | Literal(id: int) | Malformed

  datatype Error = EndOfInput | SyntaxError | DuplicateKey | InvalidStructure

  datatype Outcome = Accepted(rest: seq<Token>) | Rejected(error: Error)

  datatype Json = TextValue(text: string) | LiteralValue(id: int) | Array(elements: Elements) | Object(members: Members)
  datatype Elements = NoElements | Element(head: Json, tail: Elements)
  datatype Members = NoMembers | Member(name: string, value: Json, others: Members)

  function Tokens(v: Json): seq<Token> {
    match v
    case TextValue(text) => [Text(text)]
    case LiteralValue(id) => [Literal(id)]
    case Array(elements) => [Open(Bracket)] + ElementTokens(elements) + [Close(Bracket)]
    case Object(members) => [Open(Brace)] + MemberTokens(members) + [Close(Brace)]
  }

  function ElementTokens(es: Elements): seq<Token> {
    match es
    case NoElements => []
    case Element(head, tail) => Tokens(head) + ElementTokens(tail)
  }

  function MemberTokens(ms: Members): seq<Token> {
    match ms
    case NoMembers => []
    case Member(name, value, others) => [Text(name)] + Tokens(value) + MemberTokens(others)
  }

  function NamesOf(ms: Members): set<string> {
    match ms
    case NoMembers => {}
    case Member(name, _, others) => {name} + NamesOf(others)
  }

  // Every object at every depth has pairwise distinct names.
  predicate Unique(v: Json) {
    match v
    case Array(elements) => UniqueElements(elements)
    case Object(members) => UniqueMembers(members)
    case _ => true
  }

  predicate UniqueElements(es: Elements) {
    es.Element? ==> Unique(es.head) && UniqueElements(es.tail)
  }

  predicate UniqueMembers(ms: Members) {
    ms.Member? ==> ms.name !in NamesOf(ms.others) && Unique(ms.value) && UniqueMembers(ms.others)
  }

  // What the validator makes of a stream, the decoder seeing to it that delimiters match.
  function Value(tokens: seq<Token>): (r: Outcome)
    ensures r.Accepted? ==> |r.rest| < |tokens|
    decreases |tokens|, 0
  {
    if tokens == [] then Rejected(EndOfInput)
    else match tokens[0]
      case Text(_) => Accepted(tokens[1..])
      case Literal(_) => Accepted(tokens[1..])
      case Open(Brace) => MembersFrom(tokens[1..], {})
      case Open(Bracket) => ElementsFrom(tokens[1..])
      case Close(_) => Rejected(SyntaxError)
      case Malformed => Rejected(SyntaxError)
  }

  function MembersFrom(tokens: seq<Token>, seen: set<string>): (r: Outcome)
    ensures r.Accepted? ==> |r.rest| < |tokens|
    decreases |tokens|, 1
  {
    if tokens == [] then Rejected(EndOfInput)
    else match tokens[0]
      case Close(delimiter) => if delimiter == Brace then Accepted(tokens[1..]) else Rejected(SyntaxError)
      case Malformed => Rejected(SyntaxError)
      case Text(name) =>
        if name in seen then Rejected(DuplicateKey)
        else
          var value := Value(tokens[1..]);
          (match value
           case Rejected(error) => Rejected(error)
           case Accepted(rest) => MembersFrom(rest, seen + {name}))
      case _ => Rejected(SyntaxError)
  }

  function ElementsFrom(tokens: seq<Token>): (r: Outcome)
    ensures r.Accepted? ==> |r.rest| < |tokens|
    decreases |tokens|, 1
  {
    if tokens == [] then Rejected(EndOfInput)
    else if tokens[0].Close? then if tokens[0].delimiter == Bracket then Accepted(tokens[1..]) else Rejected(SyntaxError)
    else match Value(tokens)
      case Rejected(error) => Rejected(error)
      case Accepted(rest) => ElementsFrom(rest)
  }

  // On the tokens of any value, followed by anything, the validator accepts exactly when the value
  // is free of duplicates, having consumed exactly the value, and otherwise reports the duplicate.
  lemma {:induction false} ValueAccepted(v: Json, rest: seq<Token>)
    ensures Value(Tokens(v) + rest) == if Unique(v) then Accepted(rest) else Rejected(DuplicateKey)
    decreases v, 0
  {
    var tokens := Tokens(v) + rest;
    match v
    case TextValue(text) =>
      assert tokens[1..] == rest;
    case LiteralValue(id) =>
      assert tokens[1..] == rest;
    case Array(elements) =>
      assert tokens[1..] == ElementTokens(elements) + ([Close(Bracket)] + rest);
      ElementsAccepted(elements, rest);
    case Object(members) =>
      assert tokens[1..] == MemberTokens(members) + ([Close(Brace)] + rest);
      MembersAccepted(members, rest, {});
  }

  lemma {:induction false} FirstToken(v: Json, rest: seq<Token>)
    ensures var tokens := Tokens(v) + rest; tokens != [] && !tokens[0].Close?
  {}

  lemma {:induction false} ElementsAccepted(es: Elements, rest: seq<Token>)
    ensures ElementsFrom(ElementTokens(es) + ([Close(Bracket)] + rest)) == if UniqueElements(es) then Accepted(rest) else Rejected(DuplicateKey)
    decreases es, 1
  {
    var tail := [Close(Bracket)] + rest;
    match es
    case NoElements =>
      assert ElementTokens(es) + tail == tail && tail[1..] == rest;
    case Element(head, others) =>
      assert ElementTokens(es) + tail == Tokens(head) + (ElementTokens(others) + tail);
      FirstToken(head, ElementTokens(others) + tail);
      ValueAccepted(head, ElementTokens(others) + tail);
      ElementsAccepted(others, rest);
  }

  lemma {:induction false} MembersAccepted(ms: Members, rest: seq<Token>, seen: set<string>)
    ensures MembersFrom(MemberTokens(ms) + ([Close(Brace)] + rest), seen)
            == if UniqueMembers(ms) && NamesOf(ms) !! seen then Accepted(rest) else Rejected(DuplicateKey)
    decreases ms, 1
  {
    var tail := [Close(Brace)] + rest;
    match ms
    case NoMembers =>
      assert MemberTokens(ms) + tail == tail && tail[1..] == rest;
    case Member(name, value, others) =>
      var tokens := MemberTokens(ms) + tail;
      assert tokens == [Text(name)] + (Tokens(value) + (MemberTokens(others) + tail));
      assert tokens[1..] == Tokens(value) + (MemberTokens(others) + tail);
      if name !in seen {
        ValueAccepted(value, MemberTokens(others) + tail);
        MembersAccepted(others, rest, seen + {name});
        assert NamesOf(ms) !! seen && name !in NamesOf(others) <==> NamesOf(others) !! seen + {name};
      }
  }

  // Nothing else is accepted: an accepted stream starts with the tokens of such a value.
  lemma {:induction false} AcceptedIsValue(tokens: seq<Token>)
    requires Value(tokens).Accepted?
    ensures exists v :: Unique(v) && tokens == Tokens(v) + Value(tokens).rest
    decreases |tokens|, 0
  {
    hide MembersFrom, ElementsFrom, MemberTokens, ElementTokens;
    var rest := Value(tokens).rest;
    assert tokens == [tokens[0]] + tokens[1..];
    match tokens[0]
    case Text(text) =>
      assert Unique(TextValue(text)) && tokens == Tokens(TextValue(text)) + rest;
    case Literal(id) =>
      assert Unique(LiteralValue(id)) && tokens == Tokens(LiteralValue(id)) + rest;
    case Open(delimiter) =>
      if delimiter == Brace {
        var ms := AcceptedMembers(tokens[1..], {});
        assert Unique(Object(ms)) && tokens == Tokens(Object(ms)) + rest;
      } else {
        var es := AcceptedElements(tokens[1..]);
        assert Unique(Array(es)) && tokens == Tokens(Array(es)) + rest;
      }
  }

  lemma {:induction false} AcceptedElements(tokens: seq<Token>) returns (es: Elements)
    requires ElementsFrom(tokens).Accepted?
    ensures UniqueElements(es) && tokens == ElementTokens(es) + ([Close(Bracket)] + ElementsFrom(tokens).rest)
    decreases |tokens|, 1
  {
    hide Value, MembersFrom, Tokens, MemberTokens, Unique;
    if tokens[0].Close? {
      es := NoElements;
      assert tokens == [tokens[0]] + tokens[1..];
    } else {
      AcceptedIsValue(tokens);
      var head :| Unique(head) && tokens == Tokens(head) + Value(tokens).rest;
      var tail := AcceptedElements(Value(tokens).rest);
      es := Element(head, tail);
    }
  }

  lemma {:induction false} AcceptedMembers(tokens: seq<Token>, seen: set<string>) returns (ms: Members)
    requires MembersFrom(tokens, seen).Accepted?
    ensures UniqueMembers(ms) && NamesOf(ms) !! seen
    ensures tokens == MemberTokens(ms) + ([Close(Brace)] + MembersFrom(tokens, seen).rest)
    decreases |tokens|, 1
  {
    hide Value, ElementsFrom, Tokens, ElementTokens, Unique;
    assert tokens == [tokens[0]] + tokens[1..];
    if tokens[0].Close? {
      ms := NoMembers;
    } else {
      var name := tokens[0].text;
      AcceptedIsValue(tokens[1..]);
      var value :| Unique(value) && tokens[1..] == Tokens(value) + Value(tokens[1..]).rest;
      var others := AcceptedMembers(Value(tokens[1..]).rest, seen + {name});
      ms := Member(name, value, others);
    }
  }

  // The whole text is accepted exactly when it is one value free of duplicates and nothing after it.
  function ValidateDocument(tokens: seq<Token>): Outcome {
    match Value(tokens)
    case Rejected(error) => Rejected(error)
    case Accepted(rest) =>
      if rest == [] then Accepted([])
      else if rest[0].Close? || rest[0].Malformed? then Rejected(SyntaxError)
      else Rejected(InvalidStructure)
  }

  lemma DocumentAcceptedIff(tokens: seq<Token>)
    ensures ValidateDocument(tokens).Accepted? <==> exists v :: Unique(v) && Tokens(v) == tokens
  {
    if ValidateDocument(tokens).Accepted? {
      AcceptedIsValue(tokens);
      var v :| Unique(v) && tokens == Tokens(v) + Value(tokens).rest;
      assert Tokens(v) + [] == Tokens(v);
    }
    if v :| Unique(v) && Tokens(v) == tokens {
      ValueAccepted(v, []);
      assert Tokens(v) + [] == tokens;
    }
  }

  datatype TokenResult = Found(token: Token) | Failed(error: Error)

  // The streaming decoder: it returns closing delimiters only where they match, and only texts as names.
  class Decoder {
    var tokens: seq<Token>
    var open: seq<Delimiter>
    var afterName: bool

    constructor (tokens: seq<Token>)
      ensures this.tokens == tokens && open == [] && !afterName
    {
      this.tokens := tokens;
      open := [];
      afterName := false;
    }

    predicate InObject()
      reads this
    {
      open != [] && open[|open| - 1] == Brace
    }

    predicate MayClose(delimiter: Delimiter)
      reads this
    {
      open != [] && open[|open| - 1] == delimiter && !afterName
    }

    predicate Fits(token: Token)
      reads this
    {
      match token
      case Malformed => false
      case Close(delimiter) => MayClose(delimiter)
      case Text(_) => true
      case _ => ExpectsValue()
    }

    method Token() returns (r: TokenResult)
      modifies this
      ensures r.Failed? <==> old(tokens) == [] || !old(Fits(tokens[0]))
      ensures r.Failed? ==> tokens == old(tokens)
      ensures r.Failed? ==> r.error == (if old(tokens) == [] then EndOfInput else SyntaxError)
      ensures r.Found? ==> r.token == old(tokens)[0] && tokens == old(tokens)[1..]
      ensures r.Found? ==> open == match r.token
                                   case Open(delimiter) => old(open) + [delimiter]
                                   case Close(_) => old(open)[..|old(open)| - 1]
                                   case _ => old(open)
      ensures r.Found? ==> (afterName <==> r.token.Text? && old(InObject()) && !old(afterName))
    {
      if tokens == [] { return Failed(EndOfInput); }
      var token := tokens[0];
      if !Fits(token) { return Failed(SyntaxError); }
      afterName := token.Text? && InObject() && !afterName;
      match token {
        case Open(delimiter) => open := open + [delimiter];
        case Close(_) => open := open[..|open| - 1];
        case _ =>
      }
      tokens := tokens[1..];
      r := Found(token);
    }

    predicate More()
      reads this
    {
      tokens != [] && !tokens[0].Close?
    }

    // A value is expected: after a name, in an array, or at the start.
    predicate ExpectsValue()
      reads this
    {
      InObject() ==> afterName
    }

    method ValidateValue() returns (error: Option<Error>)
      requires ExpectsValue() && (tokens != [] && tokens[0].Close? ==> !MayClose(tokens[0].delimiter))
      modifies this
      ensures |tokens| <= |old(tokens)|
      ensures match Value(old(tokens))
              case Accepted(rest) => error == None && tokens == rest && open == old(open) && !afterName
              case Rejected(e) => error == Some(e)
      decreases |tokens|
    {
      var found := Token();
      if found.Failed? { return Some(found.error); }
      match found.token {
        case Open(delimiter) =>
          if delimiter == Brace {
            var seenKeys: set<string> := {};
            ghost var start, nesting := tokens, open;
            while More()
              invariant open == nesting && !afterName && |tokens| <= |start|
              invariant MembersFrom(start, {}) == MembersFrom(tokens, seenKeys)
              decreases |tokens|
            {
              var key := Token();
              if key.Failed? { return Some(key.error); }
              if !key.token.Text? || key.token.text in seenKeys { return Some(DuplicateKey); }
              seenKeys := seenKeys + {key.token.text};
              error := ValidateValue();
              if error.Some? { return; }
            }
            var close := Token();
            if close.Failed? { return Some(close.error); }
          } else {
            ghost var start, nesting := tokens, open;
            while More()
              invariant open == nesting && !afterName && |tokens| <= |start|
              invariant ElementsFrom(start) == ElementsFrom(tokens)
              decreases |tokens|
            {
              error := ValidateValue();
              if error.Some? { return; }
            }
            var close := Token();
            if close.Failed? { return Some(close.error); }
          }
          return None;
        case Close(_) =>
          // The decoder does not return a closing delimiter here.
          assert false;
        case _ =>
          return None;
      }
    }

    method ValidateUniqueObjectKeys() returns (error: Option<Error>)
      requires open == [] && !afterName
      modifies this
      ensures match ValidateDocument(old(tokens))
              case Accepted(_) => error == None
              case Rejected(e) => error == Some(e)
    {
      error := ValidateValue();
      if error.Some? { return; }
      var next := Token();
      if next.Found? { return Some(InvalidStructure); }
      if next.error != EndOfInput { return Some(next.error); }
    }
  }
}
