/**
 The strict JSON walk that refuses repeated object members at any depth (section 4 of
 RFC 8259 leaves their meaning open).

 The streaming decoder is modelled at the level of its tokens: it keeps a frame per open
 composite, returns matched delimiters and string keys only, and fails at a malformed
 token, which also stands for misplaced punctuation.
 */
module StrictJson {

  datatype Token = BeginObject | EndObject | BeginArray | EndArray | Text(s: string) | Scalar | Malformed

  datatype Frame = InArray | AtKey | AtValue

  datatype Error = EndOfInput | Syntax | InvalidMember | Duplicate | InvalidDelimiter | Trailing

  datatype Result<T> = Ok(value: T) | Err(error: Error)

  /** What the decoder has still to read, and the composites it is inside, innermost last. */
  datatype Cursor = Cursor(rest: seq<Token>, stack: seq<Frame>)

  predicate AwaitsKey(stack: seq<Frame>) {
    stack != [] && stack[|stack| - 1] == AtKey
  }

  predicate Inside(stack: seq<Frame>, f: Frame) {
    stack != [] && stack[|stack| - 1] == f
  }

  /** The stack once a value has been read in it. */
  function Ended(stack: seq<Frame>): seq<Frame> {
    if Inside(stack, AtValue) then stack[..|stack| - 1] + [AtKey] else stack
  }

  function Step(c: Cursor): Result<(Token, Cursor)> {
    if c.rest == [] then Err(EndOfInput)
    else
      var t, more, top := c.rest[0], c.rest[1..], |c.stack| - 1;
      match t
      case Malformed => Err(Syntax)
      case BeginObject => if AwaitsKey(c.stack) then Err(Syntax) else Ok((t, Cursor(more, c.stack + [AtKey])))
      case BeginArray => if AwaitsKey(c.stack) then Err(Syntax) else Ok((t, Cursor(more, c.stack + [InArray])))
      case EndObject => if AwaitsKey(c.stack) then Ok((t, Cursor(more, Ended(c.stack[..top])))) else Err(Syntax)
      case EndArray => if Inside(c.stack, InArray) then Ok((t, Cursor(more, Ended(c.stack[..top])))) else Err(Syntax)
      case Text(_) =>
        if AwaitsKey(c.stack) then Ok((t, Cursor(more, c.stack[..top] + [AtValue])))
        else Ok((t, Cursor(more, Ended(c.stack))))
      case Scalar => if AwaitsKey(c.stack) then Err(Syntax) else Ok((t, Cursor(more, Ended(c.stack))))
  }

  predicate More(c: Cursor) {
    c.rest != [] && c.rest[0] != EndArray && c.rest[0] != EndObject
  }

  // ---------------------------------------------------------------------
  // The walk as a function of the cursor
  // ---------------------------------------------------------------------

  function Value(c: Cursor): (r: Result<Cursor>)
    ensures r.Ok? ==> |r.value.rest| < |c.rest|
    decreases |c.rest|, 0
  {
    match Step(c)
    case Err(e) => Err(e)
    case Ok((BeginObject, d)) => Close(Members(d, {}))
    case Ok((BeginArray, d)) => Close(Elements(d))
    case Ok((t, d)) => if t == EndObject || t == EndArray then Err(InvalidDelimiter) else Ok(d)
  }

  /** The delimiter after the last member or element, which the decoder has matched. */
  function Close(r: Result<Cursor>): (r': Result<Cursor>)
    ensures r'.Ok? ==> r.Ok? && |r'.value.rest| < |r.value.rest|
  {
    match r
    case Err(e) => Err(e)
    case Ok(c) => match Step(c) case Err(e) => Err(e) case Ok((_, d)) => Ok(d)
  }

  function Members(c: Cursor, seen: set<string>): (r: Result<Cursor>)
    ensures r.Ok? ==> |r.value.rest| <= |c.rest|
    decreases |c.rest|, 1
  {
    if !More(c) then Ok(c)
    else
      match Step(c)
      case Err(e) => Err(e)
      case Ok((t, d)) =>
        if !t.Text? then Err(InvalidMember)
        else if t.s in seen then Err(Duplicate)
        else match Value(d) case Err(e) => Err(e) case Ok(d') => Members(d', seen + {t.s})
  }

  function Elements(c: Cursor): (r: Result<Cursor>)
    ensures r.Ok? ==> |r.value.rest| <= |c.rest|
    decreases |c.rest|, 1
  {
    if !More(c) then Ok(c)
    else match Value(c) case Err(e) => Err(e) case Ok(d) => Elements(d)
  }

  function RejectDuplicates(tokens: seq<Token>): Result<()> {
    match Value(Cursor(tokens, []))
    case Err(e) => Err(e)
    case Ok(c) => if c.rest == [] then Ok(()) else Err(Trailing)
  }

  // ---------------------------------------------------------------------
  // The walk as the program performs it
  // ---------------------------------------------------------------------

  class Decoder {
    var at: Cursor

    constructor (tokens: seq<Token>)
      ensures at == Cursor(tokens, [])
    {
      at := Cursor(tokens, []);
    }

    method NextToken() returns (r: Result<Token>)
      modifies this
      ensures match Step(old(at))
              case Err(e) => r == Err(e) && at == old(at)
              case Ok((t, c)) => r == Ok(t) && at == c
    {
      match Step(at) {
        case Err(e) => r := Err(e);
        case Ok((t, c)) => r, at := Ok(t), c;
      }
    }

    /** Walks one value; on success the cursor is just after it. */
    method UniqueValue() returns (r: Result<()>)
      modifies this
      ensures match Value(old(at)) case Err(e) => r == Err(e) case Ok(c) => r == Ok(()) && at == c
      decreases |at.rest|, 0
    {
      var token := NextToken();
      if token.Err? {
        return Err(token.error);
      }
      match token.value {
        case BeginObject =>
          r := UniqueMembers();
        case BeginArray =>
          r := UniqueElements();
        case EndObject =>
          return Err(InvalidDelimiter);
        case EndArray =>
          return Err(InvalidDelimiter);
        case _ =>
          return Ok(());
      }
      if r.Err? {
        return;
      }
      token := NextToken();
      r := if token.Err? then Err(token.error) else Ok(());
    }

    method UniqueMembers() returns (r: Result<()>)
      modifies this
      ensures match Members(old(at), {}) case Err(e) => r == Err(e) case Ok(c) => r == Ok(()) && at == c
      decreases |at.rest|, 1
    {
      var seen: set<string> := {};
      while More(at)
        invariant |at.rest| <= |old(at.rest)|
        invariant Members(at, seen) == Members(old(at), {})
        decreases |at.rest|
      {
        var key := NextToken();
        if key.Err? {
          return Err(key.error);
        }
        if !key.value.Text? {
          return Err(InvalidMember);
        }
        var name := key.value.s;
        if name in seen {
          return Err(Duplicate);
        }
        seen := seen + {name};
        var inner := UniqueValue();
        if inner.Err? {
          return inner;
        }
      }
      return Ok(());
    }

    method UniqueElements() returns (r: Result<()>)
      modifies this
      ensures match Elements(old(at)) case Err(e) => r == Err(e) case Ok(c) => r == Ok(()) && at == c
      decreases |at.rest|, 1
    {
      while More(at)
        invariant |at.rest| <= |old(at.rest)|
        invariant Elements(at) == Elements(old(at))
        decreases |at.rest|
      {
        var inner := UniqueValue();
        if inner.Err? {
          return inner;
        }
      }
      return Ok(());
    }
  }

  method RejectDuplicateJSON(tokens: seq<Token>) returns (r: Result<()>)
    ensures r == RejectDuplicates(tokens)
  {
    var decoder := new Decoder(tokens);
    r := decoder.UniqueValue();
    if r.Err? {
      return;
    }
    if decoder.at.rest != [] {
      return Err(Trailing);
    }
  }

  // ---------------------------------------------------------------------
  // Trees
  // ---------------------------------------------------------------------

  datatype Json = Number | String(s: string) | Array(items: Items) | Object(members: Fields)
  datatype Items = Nil | Cons(head: Json, tail: Items)
  datatype Fields = NoFields | Field(name: string, value: Json, more: Fields)

  function Tokens(v: Json): (ts: seq<Token>)
    ensures ts != [] && ts[0] != EndArray && ts[0] != EndObject
  {
    match v
    case Number => [Scalar]
    case String(s) => [Text(s)]
    case Array(items) => [BeginArray] + ItemTokens(items) + [EndArray]
    case Object(members) => [BeginObject] + FieldTokens(members) + [EndObject]
  }

  function ItemTokens(items: Items): seq<Token> {
    match items case Nil => [] case Cons(v, tail) => Tokens(v) + ItemTokens(tail)
  }

  function FieldTokens(fields: Fields): seq<Token> {
    match fields case NoFields => [] case Field(n, v, more) => [Text(n)] + (Tokens(v) + FieldTokens(more))
  }

  function Names(fields: Fields): set<string> {
    match fields case NoFields => {} case Field(n, _, more) => {n} + Names(more)
  }

  predicate NoRepeats(fields: Fields) {
    match fields case NoFields => true case Field(n, _, more) => n !in Names(more) && NoRepeats(more)
  }

  /** No object anywhere in the tree repeats a member name. */
  predicate Unique(v: Json) {
    match v
    case Number => true
    case String(_) => true
    case Array(items) => AllUnique(items)
    case Object(members) => NoRepeats(members) && ValuesUnique(members)
  }

  predicate AllUnique(items: Items) {
    match items case Nil => true case Cons(v, tail) => Unique(v) && AllUnique(tail)
  }

  predicate ValuesUnique(fields: Fields) {
    match fields case NoFields => true case Field(_, v, more) => Unique(v) && ValuesUnique(more)
  }

  // ---------------------------------------------------------------------
  // On a tree's tokens the walk consumes exactly them, or names the duplicate
  // ---------------------------------------------------------------------

  function Verdict(unique: bool, c: Cursor): Result<Cursor> {
    if unique then Ok(c) else Err(Duplicate)
  }

  lemma {:induction false} WalkValue(v: Json, rest: seq<Token>, stack: seq<Frame>)
    requires !AwaitsKey(stack)
    ensures Value(Cursor(Tokens(v) + rest, stack)) == Verdict(Unique(v), Cursor(rest, Ended(stack)))
    decreases v, 1
  {
    match v {
      case Number => assert ([Scalar] + rest)[1..] == rest;
      case String(s) => assert ([Text(s)] + rest)[1..] == rest;
      case Array(_) => WalkArray(v, rest, stack);
      case Object(_) => WalkObject(v, rest, stack);
    }
  }

  lemma {:induction false} WalkArray(v: Json, rest: seq<Token>, stack: seq<Frame>)
    requires v.Array? && !AwaitsKey(stack)
    ensures Value(Cursor(Tokens(v) + rest, stack)) == Verdict(Unique(v), Cursor(rest, Ended(stack)))
    decreases v, 0
  {
    var inner := ItemTokens(v.items) + ([EndArray] + rest);
    assert Tokens(v) + rest == [BeginArray] + inner;
    assert ([BeginArray] + inner)[1..] == inner;
    WalkItems(v.items, [EndArray] + rest, stack + [InArray]);
    assert ([EndArray] + rest)[1..] == rest && (stack + [InArray])[..|stack|] == stack;
  }

  lemma {:induction false} WalkObject(v: Json, rest: seq<Token>, stack: seq<Frame>)
    requires v.Object? && !AwaitsKey(stack)
    ensures Value(Cursor(Tokens(v) + rest, stack)) == Verdict(Unique(v), Cursor(rest, Ended(stack)))
    decreases v, 0
  {
    var inner := FieldTokens(v.members) + ([EndObject] + rest);
    assert Tokens(v) + rest == [BeginObject] + inner;
    assert ([BeginObject] + inner)[1..] == inner;
    WalkFields(v.members, {}, [EndObject] + rest, stack);
    assert ([EndObject] + rest)[1..] == rest && (stack + [AtKey])[..|stack|] == stack;
  }

  lemma {:induction false} WalkItems(items: Items, rest: seq<Token>, stack: seq<Frame>)
    requires Inside(stack, InArray) && rest != [] && rest[0] == EndArray
    ensures Elements(Cursor(ItemTokens(items) + rest, stack)) == Verdict(AllUnique(items), Cursor(rest, stack))
    decreases items, 0
  {
    match items {
      case Nil => assert ItemTokens(items) + rest == rest;
      case Cons(v, tail) =>
        assert ItemTokens(items) + rest == Tokens(v) + (ItemTokens(tail) + rest);
        WalkValue(v, ItemTokens(tail) + rest, stack);
        WalkItems(tail, rest, stack);
    }
  }

  lemma {:induction false} WalkFields(fields: Fields, seen: set<string>, rest: seq<Token>, stack: seq<Frame>)
    requires rest != [] && rest[0] == EndObject
    ensures Members(Cursor(FieldTokens(fields) + rest, stack + [AtKey]), seen) ==
            Verdict(NoRepeats(fields) && Names(fields) !! seen && ValuesUnique(fields), Cursor(rest, stack + [AtKey]))
    decreases fields, 0
  {
    match fields {
      case NoFields => assert FieldTokens(fields) + rest == rest;
      case Field(n, v, more) =>
        var after := FieldTokens(more) + rest;
        assert FieldTokens(fields) + rest == [Text(n)] + (Tokens(v) + after);
        assert ([Text(n)] + (Tokens(v) + after))[1..] == Tokens(v) + after;
        assert (stack + [AtKey])[..|stack|] == stack;
        WalkValue(v, after, stack + [AtValue]);
        assert (stack + [AtValue])[..|stack|] == stack;
        WalkFields(more, seen + {n}, rest, stack);
    }
  }

  // ---------------------------------------------------------------------
  // Whatever the walk accepts is a tree's tokens
  // ---------------------------------------------------------------------

  /** After the last member or element only the matching delimiter is accepted. */
  lemma {:induction false} Closed(c: Cursor, stack: seq<Frame>, f: Frame)
    requires c.stack == stack + [f] && f != AtValue && !More(c) && Close(Ok(c)).Ok?
    ensures var end := if f == InArray then EndArray else EndObject;
            c.rest == [end] + Close(Ok(c)).value.rest && Close(Ok(c)).value.stack == Ended(stack)
  {
    assert c.stack[..|stack|] == stack;
    assert c.rest == [c.rest[0]] + c.rest[1..];
  }

  lemma {:induction false} Glue(a: seq<Token>, b: seq<Token>, c: seq<Token>, rest: seq<Token>,
                                whole: seq<Token>, afterA: seq<Token>, afterB: seq<Token>)
    requires whole == a + afterA && afterA == b + afterB && afterB == c + rest
    ensures whole == a + b + c + rest
    ensures whole == a + (b + c) + rest
  {
  }

  lemma {:induction false} Join(a: seq<Token>, b: seq<Token>, rest: seq<Token>, whole: seq<Token>, afterA: seq<Token>)
    requires whole == a + afterA && afterA == b + rest
    ensures whole == (a + b) + rest
  {
  }

  /** `v` accounts for what the walk of one value consumed. */
  ghost predicate Consumed(v: Json, c: Cursor, d: Cursor) {
    Unique(v) && c.rest == Tokens(v) + d.rest && d.stack == Ended(c.stack)
  }

  lemma {:induction false} AcceptedValue(c: Cursor) returns (v: Json)
    requires Value(c).Ok? && !AwaitsKey(c.stack)
    ensures Consumed(v, c, Value(c).value)
    decreases |c.rest|, 0
  {
    var t, d := Step(c).value.0, Step(c).value.1;
    assert c.rest == [t] + d.rest;
    match t {
      case Text(s) => v := String(s);
      case Scalar => v := Number;
      case BeginArray => v := AcceptedArray(c, d);
      case BeginObject => v := AcceptedObject(c, d);
    }
  }

  lemma {:induction false} AcceptedArray(c: Cursor, d: Cursor) returns (v: Json)
    requires Step(c) == Ok((BeginArray, d)) && Value(c).Ok?
    ensures Consumed(v, c, Value(c).value)
    decreases |d.rest|, 2
  {
    var items := AcceptedItems(d);
    v := Array(items);
    ArrayConsumed(c, d, Elements(d).value, Value(c).value, items);
  }

  lemma {:induction false} ArrayConsumed(c: Cursor, d: Cursor, e: Cursor, r: Cursor, items: Items)
    requires Step(c) == Ok((BeginArray, d)) && AllUnique(items)
    requires d.rest == ItemTokens(items) + e.rest && e.stack == d.stack && !More(e) && Close(Ok(e)) == Ok(r)
    ensures Consumed(Array(items), c, r)
  {
    Closed(e, c.stack, InArray);
    assert c.rest == [BeginArray] + d.rest;
    Glue([BeginArray], ItemTokens(items), [EndArray], r.rest, c.rest, d.rest, e.rest);
  }

  lemma {:induction false} ObjectConsumed(c: Cursor, d: Cursor, e: Cursor, r: Cursor, fields: Fields)
    requires Step(c) == Ok((BeginObject, d)) && NoRepeats(fields) && ValuesUnique(fields)
    requires d.rest == FieldTokens(fields) + e.rest && e.stack == d.stack && !More(e) && Close(Ok(e)) == Ok(r)
    ensures Consumed(Object(fields), c, r)
  {
    Closed(e, c.stack, AtKey);
    assert c.rest == [BeginObject] + d.rest;
    Glue([BeginObject], FieldTokens(fields), [EndObject], r.rest, c.rest, d.rest, e.rest);
  }

  lemma {:induction false} AcceptedObject(c: Cursor, d: Cursor) returns (v: Json)
    requires Step(c) == Ok((BeginObject, d)) && Value(c).Ok?
    ensures Consumed(v, c, Value(c).value)
    decreases |d.rest|, 2
  {
    var fields := AcceptedFields(d, {}, c.stack);
    v := Object(fields);
    ObjectConsumed(c, d, Members(d, {}).value, Value(c).value, fields);
  }

  lemma {:induction false} AcceptedItems(c: Cursor) returns (items: Items)
    requires Elements(c).Ok? && Inside(c.stack, InArray)
    ensures AllUnique(items) && c.rest == ItemTokens(items) + Elements(c).value.rest
            && Elements(c).value.stack == c.stack
    ensures !More(Elements(c).value)
    decreases |c.rest|, 1
  {
    if !More(c) {
      items := Nil;
    } else {
      var v := AcceptedValue(c);
      var d := Value(c).value;
      var tail := AcceptedItems(d);
      items := Cons(v, tail);
      Join(Tokens(v), ItemTokens(tail), Elements(c).value.rest, c.rest, d.rest);
    }
  }

  lemma {:induction false} AcceptedFields(c: Cursor, seen: set<string>, stack: seq<Frame>) returns (fields: Fields)
    requires Members(c, seen).Ok? && c.stack == stack + [AtKey]
    ensures NoRepeats(fields) && Names(fields) !! seen && ValuesUnique(fields)
    ensures c.rest == FieldTokens(fields) + Members(c, seen).value.rest && Members(c, seen).value.stack == c.stack
    ensures !More(Members(c, seen).value)
    decreases |c.rest|, 1
  {
    if !More(c) {
      fields := NoFields;
    } else {
      var n, d := ReadKey(c, seen, stack);
      var v := AcceptedValue(d);
      var e := Value(d).value;
      assert e.stack == stack + [AtKey] by { assert d.stack[..|stack|] == stack; }
      var more := AcceptedFields(e, seen + {n}, stack);
      fields := Field(n, v, more);
      Glue([Text(n)], Tokens(v), FieldTokens(more), Members(c, seen).value.rest, c.rest, d.rest, e.rest);
    }
  }

  lemma {:induction false} ReadKey(c: Cursor, seen: set<string>, stack: seq<Frame>) returns (n: string, d: Cursor)
    requires Members(c, seen).Ok? && c.stack == stack + [AtKey] && More(c)
    ensures n !in seen && c.rest == [Text(n)] + d.rest && d.stack == stack + [AtValue]
    ensures Value(d).Ok? && Members(c, seen) == Members(Value(d).value, seen + {n})
  {
    n, d := Step(c).value.0.s, Step(c).value.1;
    assert c.rest == [Text(n)] + c.rest[1..];
    assert c.stack[..|stack|] == stack;
  }

  /**
   The check accepts a token stream exactly when it is one value, complete and alone, in
   which no object at any depth repeats a member name.
   */
  lemma {:induction false} AcceptsExactlyUnique(tokens: seq<Token>)
    ensures RejectDuplicates(tokens).Ok? <==> exists v :: Unique(v) && tokens == Tokens(v)
  {
    if RejectDuplicates(tokens).Ok? {
      var v := AcceptedValue(Cursor(tokens, []));
      assert tokens == Tokens(v);
    }
    forall v | Unique(v) && tokens == Tokens(v)
      ensures RejectDuplicates(tokens).Ok?
    {
      assert Tokens(v) + [] == Tokens(v);
      WalkValue(v, [], []);
    }
  }

  /** A well-formed value is refused only for a repeated name, and then the error says so. */
  lemma {:induction false} RefusesDuplicates(v: Json)
    ensures RejectDuplicates(Tokens(v)) == if Unique(v) then Ok(()) else Err(Duplicate)
  {
    assert Tokens(v) + [] == Tokens(v);
    WalkValue(v, [], []);
  }
}
