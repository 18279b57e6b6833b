/**
 The canonical payment instruction: eleven members in ascending key order, no
 insignificant whitespace, null for an absent reference, strings escaped as section 7
 of RFC 8259 requires of printable ASCII. Its hash is the fingerprint an authority
 decision is bound to, so the encoding must be readable back.
 */
module InstructionEncoding {
  import opened Common
  import opened Decimal
  import T = Text

  datatype Instruction = Instruction(
    operationClass: string, operationReference: string, tenant: string, organisation: string, market: string,
    currency: string, amountMinor: int, paymentReference: string, parentReference: Option<string>,
    merchantProfile: string, destinationReference: Option<string>)

  datatype Value = Number(n: int) | Null | Text(s: string)

  const KEYS := [
    "amount_minor", "currency", "destination_reference", "market", "merchant_profile_reference",
    "operating_organisation_id", "operation_class", "operation_reference", "parent_reference",
    "payment_reference", "tenant_id"]

  predicate Printable(s: string) {
    forall i :: 0 <= i < |s| ==> ' ' <= s[i] <= '~'
  }

  predicate PrintableOption(o: Option<string>) {
    o.None? || Printable(o.value)
  }

  /** What the request schema admits. */
  predicate Encodable(x: Instruction) {
    && Printable(x.operationClass) && Printable(x.operationReference) && Printable(x.tenant)
    && Printable(x.organisation) && Printable(x.market) && Printable(x.currency)
    && Printable(x.paymentReference) && Printable(x.merchantProfile)
    && PrintableOption(x.parentReference) && PrintableOption(x.destinationReference)
    && -0x8000_0000_0000_0000 <= x.amountMinor < 0x8000_0000_0000_0000
  }

  // ---------------------------------------------------------------------
  // Printing
  // ---------------------------------------------------------------------

  function Escape(s: string): string {
    if s == "" then ""
    else (if s[0] == '"' || s[0] == '\\' then ['\\', s[0]] else [s[0]]) + Escape(s[1..])
  }

  function Quote(s: string): string {
    "\"" + Escape(s) + "\""
  }

  function EncodeValue(v: Value): (r: string)
    ensures r != ""
  {
    match v
    case Number(n) => FormatInt(n)
    case Null => "null"
    case Text(s) => Quote(s)
  }

  function Member(key: string, v: Value): string {
    Quote(key) + ":" + EncodeValue(v)
  }

  function EncodeMembers(keys: seq<string>, values: seq<Value>): string
    requires |keys| == |values| > 0
  {
    if |keys| == 1 then Member(keys[0], values[0])
    else Member(keys[0], values[0]) + "," + EncodeMembers(keys[1..], values[1..])
  }

  function EncodeObject(keys: seq<string>, values: seq<Value>): string
    requires |keys| == |values| > 0
  {
    "{" + EncodeMembers(keys, values) + "}"
  }

  function Reference(o: Option<string>): Value {
    if o.None? then Null else Text(o.value)
  }

  function Fields(x: Instruction): (values: seq<Value>)
    ensures |values| == |KEYS|
  {
    [Number(x.amountMinor), Text(x.currency), Reference(x.destinationReference), Text(x.market),
     Text(x.merchantProfile), Text(x.organisation), Text(x.operationClass), Text(x.operationReference),
     Reference(x.parentReference), Text(x.paymentReference), Text(x.tenant)]
  }

  function Encode(x: Instruction): string
    requires Encodable(x)
  {
    EncodeObject(KEYS, Fields(x))
  }

  // ---------------------------------------------------------------------
  // Reading back
  // ---------------------------------------------------------------------

  /** The string up to its closing quote, and what follows. */
  function Unquote(s: string): Option<(string, string)> {
    if s == "" then None
    else if s[0] == '"' then Some(("", s[1..]))
    else if s[0] == '\\' then
      if |s| < 2 then None
      else match Unquote(s[2..]) case None => None case Some((x, rest)) => Some(([s[1]] + x, rest))
    else match Unquote(s[1..]) case None => None case Some((x, rest)) => Some(([s[0]] + x, rest))
  }

  /** The leading digits, and what follows. */
  function Span(s: string): (r: (string, string))
    ensures AllDigits(r.0)
  {
    if s == "" || !IsDigit(s[0]) then ("", s)
    else
      var (d, rest) := Span(s[1..]);
      ([s[0]] + d, rest)
  }

  function After(prefix: string, s: string): Option<string> {
    if prefix <= s then Some(s[|prefix|..]) else None
  }

  function ReadNumber(s: string): Option<(Value, string)> {
    var negative := s != "" && s[0] == '-';
    var (d, rest) := Span(if negative then s[1..] else s);
    var n: int := Decimal.Value(d);
    if d == "" then None else Some((Number(if negative then -n else n), rest))
  }

  function ReadText(s: string): Option<(Value, string)> {
    match Unquote(s) case None => None case Some((x, rest)) => Some((Text(x), rest))
  }

  function ReadNull(s: string): Option<(Value, string)> {
    match After("null", s) case None => None case Some(rest) => Some((Null, rest))
  }

  function DecodeValue(s: string): Option<(Value, string)> {
    if s == "" then None
    else if s[0] == '"' then ReadText(s[1..])
    else if s[0] == 'n' then ReadNull(s)
    else ReadNumber(s)
  }

  function ReadMember(key: string, s: string): Option<(Value, string)> {
    match After(Quote(key) + ":", s)
    case None => None
    case Some(t) => DecodeValue(t)
  }

  function DecodeMembers(keys: seq<string>, s: string): (r: Option<(seq<Value>, string)>)
    ensures r.Some? ==> |r.value.0| == |keys|
    decreases |keys|
  {
    if keys == [] then Some(([], s))
    else
      match ReadMember(keys[0], s)
      case None => None
      case Some((v, u)) =>
        if |keys| == 1 then Some(([v], u))
        else
          match After(",", u)
          case None => None
          case Some(w) =>
            match DecodeMembers(keys[1..], w)
            case None => None
            case Some((vs, rest)) => Some(([v] + vs, rest))
  }

  function Dereference(v: Value): Option<string> {
    if v.Text? then Some(v.s) else None
  }

  function FromFields(v: seq<Value>): Option<Instruction>
    requires |v| == |KEYS|
  {
    if v[0].Number? && v[1].Text? && v[3].Text? && v[4].Text? && v[5].Text? && v[6].Text? && v[7].Text? && v[9].Text?
      && v[10].Text?
    then Some(Instruction(v[6].s, v[7].s, v[10].s, v[5].s, v[3].s, v[1].s, v[0].n, v[9].s, Dereference(v[8]), v[4].s,
                          Dereference(v[2])))
    else None
  }

  function DecodeObject(keys: seq<string>, s: string): (r: Option<seq<Value>>)
    ensures r.Some? ==> |r.value| == |keys|
  {
    match After("{", s)
    case None => None
    case Some(t) =>
      match DecodeMembers(keys, t)
      case None => None
      case Some((v, rest)) => if rest == "}" then Some(v) else None
  }

  function Decode(s: string): Option<Instruction> {
    match DecodeObject(KEYS, s)
    case None => None
    case Some(v) => FromFields(v)
  }

  // ---------------------------------------------------------------------
  // The round trip
  // ---------------------------------------------------------------------

  lemma {:induction false} UnquoteEscaped(x: string, rest: string)
    ensures Unquote(Escape(x) + "\"" + rest) == Some((x, rest))
  {
    if x == "" {
      assert Escape(x) + "\"" + rest == "\"" + rest;
    } else {
      UnquoteEscaped(x[1..], rest);
      var t := Escape(x[1..]) + "\"" + rest;
      EscapeFirst(x, rest);
      UnquoteFirst(x[0], t);
      assert x == [x[0]] + x[1..];
    }
  }

  predicate Special(c: char) {
    c == '"' || c == '\\'
  }

  lemma {:induction false} EscapeFirst(x: string, rest: string)
    requires x != ""
    ensures Escape(x) + "\"" + rest == (if Special(x[0]) then ['\\', x[0]] else [x[0]]) + (Escape(x[1..]) + "\"" + rest)
  {
  }

  lemma {:induction false} UnquoteFirst(c: char, t: string)
    requires Unquote(t).Some?
    ensures Unquote((if Special(c) then ['\\', c] else [c]) + t) == Some(([c] + Unquote(t).value.0, Unquote(t).value.1))
  {
    if Special(c) {
      assert (['\\', c] + t)[2..] == t;
    } else {
      assert ([c] + t)[1..] == t;
    }
  }

  lemma {:induction false} SpanDigits(d: string, rest: string)
    requires AllDigits(d) && (rest == "" || !IsDigit(rest[0]))
    ensures Span(d + rest) == (d, rest)
  {
    if d == "" {
      assert d + rest == rest;
    } else {
      SpanDigits(d[1..], rest);
      assert (d + rest)[1..] == d[1..] + rest;
      assert d == [d[0]] + d[1..];
    }
  }

  lemma {:induction false} AfterPrefix(prefix: string, rest: string)
    ensures After(prefix, prefix + rest) == Some(rest)
  {
    assert (prefix + rest)[|prefix|..] == rest;
  }

  lemma {:induction false} ReadDigits(d: string, rest: string)
    requires AllDigits(d) && d != "" && (rest == "" || !IsDigit(rest[0]))
    ensures ReadNumber(d + rest) == Some((Number(Decimal.Value(d)), rest))
    ensures ReadNumber("-" + d + rest) == Some((Number(0 - Decimal.Value(d)), rest))
  {
    SpanDigits(d, rest);
    assert IsDigit(d[0]) && (d + rest)[0] == d[0];
    assert ("-" + d + rest)[1..] == d + rest;
  }

  lemma {:induction false} ReadNumberOf(n: int, rest: string)
    requires rest == "" || !IsDigit(rest[0])
    ensures ReadNumber(FormatInt(n) + rest) == Some((Number(n), rest))
  {
    var m := if n < 0 then -n else n;
    ValueOfDigits(m);
    ReadDigits(Digits(m), rest);
  }

  lemma {:induction false} FirstOfNumber(n: int)
    ensures FormatInt(n) != "" && FormatInt(n)[0] != '"' && FormatInt(n)[0] != 'n'
  {
    var d := Digits(if n < 0 then -n else n);
    assert IsDigit(d[0]);
  }

  lemma {:induction false} DecodeValueOf(v: Value, rest: string)
    requires rest != "" && !IsDigit(rest[0])
    ensures DecodeValue(EncodeValue(v) + rest) == Some((v, rest))
  {
    match v {
      case Number(n) =>
        FirstOfNumber(n);
        ReadNumberOf(n, rest);
        DecodeNumber(FormatInt(n), rest);
      case Null =>
        AfterPrefix("null", rest);
      case Text(x) =>
        UnquoteEscaped(x, rest);
        QuoteTail(x, rest);
    }
  }

  lemma {:induction false} QuoteTail(x: string, rest: string)
    ensures (Quote(x) + rest)[0] == '"' && (Quote(x) + rest)[1..] == Escape(x) + "\"" + rest
  {
  }

  lemma {:induction false} DecodeNumber(numeral: string, rest: string)
    requires numeral != "" && numeral[0] != '"' && numeral[0] != 'n'
    ensures DecodeValue(numeral + rest) == ReadNumber(numeral + rest)
  {
    assert (numeral + rest)[0] == numeral[0];
  }

  lemma {:induction false} ReadMemberOf(key: string, v: Value, rest: string)
    requires rest != "" && !IsDigit(rest[0])
    ensures ReadMember(key, Member(key, v) + rest) == Some((v, rest))
  {
    var t := EncodeValue(v) + rest;
    assert Member(key, v) + rest == Quote(key) + ":" + t;
    AfterPrefix(Quote(key) + ":", t);
    DecodeValueOf(v, rest);
  }

  lemma {:induction false} EncodeFirst(keys: seq<string>, values: seq<Value>, rest: string)
    requires |keys| == |values| > 1
    ensures EncodeMembers(keys, values) + rest ==
            Member(keys[0], values[0]) + ("," + (EncodeMembers(keys[1..], values[1..]) + rest))
  {
    var m, more := Member(keys[0], values[0]), EncodeMembers(keys[1..], values[1..]);
    Reassociate(m, ",", more, rest);
  }

  lemma {:induction false} Reassociate(a: string, b: string, c: string, d: string)
    ensures a + b + c + d == a + (b + (c + d))
  {
  }

  lemma {:induction false} DecodeFirst(keys: seq<string>, s: string, v: Value, more: string, vs: seq<Value>,
                                       rest: string)
    requires |keys| > 1 && ReadMember(keys[0], s) == Some((v, "," + more))
    requires DecodeMembers(keys[1..], more) == Some((vs, rest))
    ensures DecodeMembers(keys, s) == Some(([v] + vs, rest))
  {
    AfterPrefix(",", more);
  }

  lemma {:induction false} DecodeOnly(key: string, v: Value, rest: string)
    requires rest != "" && !IsDigit(rest[0])
    ensures DecodeMembers([key], Member(key, v) + rest) == Some(([v], rest))
  {
    ReadMemberOf(key, v, rest);
  }

  lemma {:induction false} DecodeMembersOf(keys: seq<string>, values: seq<Value>, rest: string)
    requires |keys| == |values| > 0 && rest != "" && !IsDigit(rest[0])
    ensures DecodeMembers(keys, EncodeMembers(keys, values) + rest) == Some((values, rest))
  {
    if |keys| == 1 {
      assert keys == [keys[0]] && values == [values[0]];
      DecodeOnly(keys[0], values[0], rest);
    } else {
      var more := EncodeMembers(keys[1..], values[1..]) + rest;
      EncodeFirst(keys, values, rest);
      ReadMemberOf(keys[0], values[0], "," + more);
      DecodeMembersOf(keys[1..], values[1..], rest);
      DecodeFirst(keys, EncodeMembers(keys, values) + rest, values[0], more, values[1..], rest);
      assert values == [values[0]] + values[1..];
    }
  }

  lemma {:induction false} DecodeObjectOf(keys: seq<string>, values: seq<Value>)
    requires |keys| == |values| > 0
    ensures DecodeObject(keys, EncodeObject(keys, values)) == Some(values)
  {
    var body := EncodeMembers(keys, values) + "}";
    assert EncodeObject(keys, values) == "{" + body;
    AfterPrefix("{", body);
    DecodeMembersOf(keys, values, "}");
  }

  lemma {:induction false} FieldsBack(x: Instruction)
    ensures FromFields(Fields(x)) == Some(x)
  {
  }

  /** The encoding has a left inverse. */
  lemma {:induction false} DecodeEncode(x: Instruction)
    requires Encodable(x)
    ensures Decode(Encode(x)) == Some(x)
  {
    DecodeObjectOf(KEYS, Fields(x));
    FieldsBack(x);
  }

  // ---------------------------------------------------------------------
  // The bytes themselves
  // ---------------------------------------------------------------------

  function Escaped(c: char): string {
    if c == '"' then ['\\', '"'] else if c == '\\' then ['\\', '\\'] else [c]
  }

  lemma {:induction false} EscapeCons(c: char, rest: string)
    ensures Escape([c] + rest) == Escaped(c) + Escape(rest)
  {
    assert ([c] + rest)[1..] == rest;
  }

  lemma {:induction false} Regroup(a: string, b: string, c: string)
    ensures a + (b + c) == (a + b) + c
  {
  }

  lemma {:induction false} EscapeJoins(a: string, b: string)
    ensures Escape(a + b) == Escape(a) + Escape(b)
  {
    if a == "" {
      assert a + b == b;
    } else {
      EscapeJoins(a[1..], b);
      EscapeJoinsCons(a[0], a[1..], b);
      assert a == [a[0]] + a[1..];
    }
  }

  lemma {:induction false} EscapeJoinsCons(c: char, rest: string, b: string)
    requires Escape(rest + b) == Escape(rest) + Escape(b)
    ensures Escape(([c] + rest) + b) == Escape([c] + rest) + Escape(b)
  {
    var e, f, g, h := Escaped(c), Escape(rest), Escape(b), Escape(([c] + rest) + b);
    Regroup([c], rest, b);
    EscapeCons(c, rest);
    EscapeCons(c, rest + b);
    assert h == e + (f + g);
    Regroup(e, f, g);
  }

  /** Quotes and backslashes take a backslash before them, and every other character stands for itself. */
  lemma {:induction false} EscapesEach(a: string, c: char, b: string)
    ensures Escape(a + [c] + b) == Escape(a) + Escaped(c) + Escape(b)
    ensures Escape("") == ""
  {
    EscapeJoins(a + [c], b);
    EscapeJoins(a, [c]);
    EscapeCons(c, "");
    assert [c] + "" == [c] && Escaped(c) + "" == Escaped(c);
  }

  /** Nothing in it takes a backslash. */
  predicate Plain(s: string) {
    forall j :: 0 <= j < |s| ==> !Special(s[j])
  }

  lemma {:induction false} PlainEscape(s: string)
    requires Plain(s)
    ensures Escape(s) == s
  {
    if s != "" {
      PlainEscape(s[1..]);
    }
  }

  lemma {:induction false} MembersJoined(keys: seq<string>, values: seq<Value>, ms: seq<string>)
    requires |keys| == |values| == |ms| > 0 && forall i :: 0 <= i < |ms| ==> ms[i] == Member(keys[i], values[i])
    ensures EncodeMembers(keys, values) == T.Join(ms, ',')
  {
    if |keys| > 1 {
      MembersJoined(keys[1..], values[1..], ms[1..]);
    }
  }

  function Printed(o: Option<string>): string {
    if o.None? then "null" else Quote(o.value)
  }

  function Line(key: string, text: string): string {
    "\"" + key + "\":" + text
  }

  /** The members as they are written, by name. */
  function Layout(x: Instruction): seq<string> {
    [ Line("amount_minor", FormatInt(x.amountMinor)), Line("currency", Quote(x.currency)),
      Line("destination_reference", Printed(x.destinationReference)), Line("market", Quote(x.market)),
      Line("merchant_profile_reference", Quote(x.merchantProfile)),
      Line("operating_organisation_id", Quote(x.organisation)), Line("operation_class", Quote(x.operationClass)),
      Line("operation_reference", Quote(x.operationReference)),
      Line("parent_reference", Printed(x.parentReference)), Line("payment_reference", Quote(x.paymentReference)),
      Line("tenant_id", Quote(x.tenant)) ]
  }

  lemma {:induction false} MemberOf(key: string, v: Value)
    requires Plain(key)
    ensures Member(key, v) == Line(key, EncodeValue(v))
  {
    PlainEscape(key);
    assert "\"" + key + "\"" + ":" == "\"" + key + "\":";
  }

  lemma {:induction false} PlainKey(i: nat)
    requires i < |KEYS|
    ensures Plain(KEYS[i])
  {
    if i < 5 {
      PlainKeyBefore(i);
    } else {
      PlainKeyAfter(i);
    }
  }

  lemma {:induction false} PlainKeyBefore(i: nat)
    requires i < 5
    ensures Plain(KEYS[i])
  {
    assert '"' !in KEYS[i] && '\\' !in KEYS[i];
  }

  lemma {:induction false} PlainKeyAfter(i: nat)
    requires 5 <= i < |KEYS|
    ensures Plain(KEYS[i])
  {
    assert '"' !in KEYS[i] && '\\' !in KEYS[i];
  }

  /** The encoding is these members between braces, separated by commas, and nothing more. */
  lemma {:induction false} EncodesLayout(x: Instruction)
    requires Encodable(x)
    ensures Encode(x) == "{" + T.Join(Layout(x), ',') + "}"
  {
    var ms, values := Layout(x), Fields(x);
    forall i | 0 <= i < |ms|
      ensures ms[i] == Member(KEYS[i], values[i])
    {
      PlainKey(i);
      MemberOf(KEYS[i], values[i]);
      LineAt(x, i);
    }
    MembersJoined(KEYS, values, ms);
  }

  lemma {:induction false} LineAt(x: Instruction, i: nat)
    requires i < |KEYS|
    ensures Layout(x)[i] == Line(KEYS[i], EncodeValue(Fields(x)[i]))
  {
  }

  /** Where each name first differs from the next. */
  const DIFFERS := [0, 0, 0, 1, 0, 7, 10, 0, 2, 0]

  /** The names are in ascending order. */
  lemma {:induction false} KeysAscend(i: nat)
    requires i + 1 < |KEYS|
    ensures T.Less(KEYS[i], KEYS[i + 1])
  {
    KeysDiffer(i);
    SamePrefix(KEYS[i], KEYS[i + 1], DIFFERS[i]);
    T.LessExactly(KEYS[i], KEYS[i + 1]);
    assert T.PrecedesAt(KEYS[i], KEYS[i + 1], DIFFERS[i]);
  }

  lemma {:induction false} KeysDiffer(i: nat)
    requires i < |DIFFERS|
    ensures var (a, b, k) := (KEYS[i], KEYS[i + 1], DIFFERS[i]);
            0 <= k < |a| && k < |b| && a[k] < b[k] && forall j :: 0 <= j < k ==> a[j] == b[j]
  {
  }

  lemma {:induction false} SamePrefix(a: string, b: string, k: nat)
    requires k <= |a| && k <= |b| && forall j :: 0 <= j < k ==> a[j] == b[j]
    ensures a[..k] == b[..k]
  {
  }

  ghost predicate Injective(hash: string -> string) {
    forall a, b :: hash(a) == hash(b) ==> a == b
  }

  function Fingerprint(x: Instruction, hash: string -> string): string
    requires Encodable(x)
  {
    hash(Encode(x))
  }

  /** Equal fingerprints mean the same instruction, in every field. */
  lemma {:induction false} FingerprintBinds(x: Instruction, y: Instruction, hash: string -> string)
    requires Encodable(x) && Encodable(y) && Injective(hash)
    ensures Fingerprint(x, hash) == Fingerprint(y, hash) <==> x == y
  {
    DecodeEncode(x);
    DecodeEncode(y);
  }
}
