/** The strict JSON profile, no null, integers only, no repeated key (maep/jsonprofile.go:13-127). */
module StrictJson {
  import opened Wrappers
  import opened Text

  /** What json.Decoder.Token yields with UseNumber; Bad is a token error, and the end of
      the sequence is io.EOF. */
  datatype Token =
    | OpenObject
    | CloseObject
    | OpenArray
    | CloseArray
    | StrTok(s: string)
    | NumTok(raw: string)
    | BoolTok(b: bool)
    | NullTok
    | Bad

  // ---- numbers ----

  /** The regular expression ^-?(0|[1-9][0-9]*)$ */
  predicate IntegerPattern(s: string) {
    var digits := if HasPrefix(s, "-") then s[1..] else s;
    Canonical(digits)
  }

  predicate Canonical(digits: string) {
    digits != "" && AllDigits(digits) && (digits[0] == '0' ==> |digits| == 1)
  }

  predicate IsStrictInteger(raw: string) {
    var s := Trim(raw);
    s != "" && '.' !in s && 'e' !in s && 'E' !in s && IntegerPattern(s)
  }

  function Decimal(i: int): string {
    if i < 0 then "-" + Itoa(-i) else Itoa(i)
  }

  lemma {:induction false} CanonicalIsItoa(s: string)
    requires Canonical(s)
    ensures Itoa(DigitsValue(s)) == s
    ensures s[0] != '0' ==> DigitsValue(s) > 0
  {
    var n := |s| - 1;
    var d := s[n] as int - '0' as int;
    assert s == s[..n] + [s[n]];
    assert DigitChar(d) == s[n];
    if n == 0 {
      assert DigitsValue(s[..0]) == 0;
    } else {
      CanonicalIsItoa(s[..n]);
      assert DigitsValue(s) == 10 * DigitsValue(s[..n]) + d;
      assert DigitsValue(s) / 10 == DigitsValue(s[..n]) && DigitsValue(s) % 10 == d;
    }
  }

  lemma {:induction false} ItoaIsCanonical(n: nat)
    ensures Canonical(Itoa(n))
    ensures n > 0 ==> Itoa(n)[0] != '0'
  {
    if n >= 10 {
      ItoaIsCanonical(n / 10);
    }
  }

  lemma PatternIsDecimal(s: string)
    requires IntegerPattern(s)
    ensures s == "-0" || exists i: int :: s == Decimal(i)
  {
    if HasPrefix(s, "-") {
      CanonicalIsItoa(s[1..]);
      var v: int := DigitsValue(s[1..]);
      assert s == "-" + s[1..];
      if v > 0 {
        assert s == Decimal(-v);
      } else {
        assert Itoa(0) == "0";
      }
    } else {
      CanonicalIsItoa(s);
      assert s == Decimal(DigitsValue(s));
    }
  }

  lemma DecimalIsPattern(i: int)
    ensures IntegerPattern(Decimal(i))
    ensures '.' !in Decimal(i) && 'e' !in Decimal(i) && 'E' !in Decimal(i)
  {
    var n := if i < 0 then -i else i;
    ItoaIsCanonical(n);
    assert i < 0 ==> Decimal(i)[1..] == Itoa(n);
    assert AllDigits(Itoa(n));
  }

  lemma PatternHasNoPoint(s: string)
    requires IntegerPattern(s)
    ensures '.' !in s && 'e' !in s && 'E' !in s
  {
    var digits := if HasPrefix(s, "-") then s[1..] else s;
    assert forall k :: 0 <= k < |s| ==> s[k] == '-' || IsDigit(s[k]) by {
      forall k | 0 <= k < |s| ensures s[k] == '-' || IsDigit(s[k]) {
        assert HasPrefix(s, "-") && k > 0 ==> s[k] == digits[k - 1];
      }
    }
  }

  /** A number token passes exactly when it spells an integer in plain decimal; the one
      other spelling let through is minus zero. */
  lemma StrictIntegerIsDecimal(raw: string)
    ensures IsStrictInteger(raw) <==> Trim(raw) == "-0" || exists i: int :: Trim(raw) == Decimal(i)
  {
    var s := Trim(raw);
    if IntegerPattern(s) {
      PatternIsDecimal(s);
      PatternHasNoPoint(s);
    }
    forall i: int | s == Decimal(i) ensures IntegerPattern(s) {
      DecimalIsPattern(i);
    }
    assert "-0"[1..] == "0";
    assert IntegerPattern("-0");
  }

  // ---- values and their token streams ----

  datatype Json =
    | JNull
    | JBool(b: bool)
    | JNum(raw: string)
    | JStr(s: string)
    | JArr(items: Items)
    | JObj(fields: Fields)

  datatype Items = NoItem | Item(head: Json, tail: Items)

  datatype Fields = NoField | Field(key: string, value: Json, rest: Fields)

  function Flatten(j: Json): seq<Token> {
    match j
    case JNull => [NullTok]
    case JBool(b) => [BoolTok(b)]
    case JNum(raw) => [NumTok(raw)]
    case JStr(s) => [StrTok(s)]
    case JArr(items) => [OpenArray] + FlattenItems(items) + [CloseArray]
    case JObj(fields) => [OpenObject] + FlattenFields(fields) + [CloseObject]
  }

  function FlattenItems(items: Items): seq<Token> {
    match items
    case NoItem => []
    case Item(head, tail) => Flatten(head) + FlattenItems(tail)
  }

  function FlattenFields(fields: Fields): seq<Token> {
    match fields
    case NoField => []
    case Field(key, value, rest) => [StrTok(key)] + Flatten(value) + FlattenFields(rest)
  }

  function Keys(fields: Fields): set<string> {
    if fields.NoField? then {} else {fields.key} + Keys(fields.rest)
  }

  /** No null, only integers, and no key twice in one object, at any depth. */
  predicate Strict(j: Json) {
    match j
    case JNull => false
    case JNum(raw) => IsStrictInteger(raw)
    case JArr(items) => StrictItems(items)
    case JObj(fields) => StrictFields(fields)
    case _ => true
  }

  predicate StrictItems(items: Items) {
    items.NoItem? || (Strict(items.head) && StrictItems(items.tail))
  }

  predicate StrictFields(fields: Fields) {
    fields.NoField?
    || (Strict(fields.value) && fields.key !in Keys(fields.rest) && StrictFields(fields.rest))
  }

  // ---- the validators as functions on the tokens left to read ----

  /** json.Decoder.More: something other than a closing bracket comes next. */
  predicate More(ts: seq<Token>) {
    ts != [] && ts[0] != CloseObject && ts[0] != CloseArray
  }

  /** The tokens left after one valid value; None is an error. */
  function ValueRest(ts: seq<Token>): (r: Option<seq<Token>>)
    ensures r.Some? ==> |r.value| < |ts|
    decreases |ts|, 0
  {
    if ts == [] then None
    else match ts[0]
      case OpenObject => FieldsRest(ts[1..], {})
      case OpenArray => ItemsRest(ts[1..])
      case NumTok(raw) => if IsStrictInteger(raw) then Some(ts[1..]) else None
      case StrTok(_) => Some(ts[1..])
      case BoolTok(_) => Some(ts[1..])
      case _ => None
  }

  function FieldsRest(ts: seq<Token>, seen: set<string>): (r: Option<seq<Token>>)
    ensures r.Some? ==> |r.value| < |ts|
    decreases |ts|, 1
  {
    if More(ts) then
      if !ts[0].StrTok? || ts[0].s in seen then None
      else match ValueRest(ts[1..])
        case None => None
        case Some(rest) => FieldsRest(rest, seen + {ts[0].s})
    else if ts != [] && ts[0] == CloseObject then Some(ts[1..])
    else None
  }

  function ItemsRest(ts: seq<Token>): (r: Option<seq<Token>>)
    ensures r.Some? ==> |r.value| < |ts|
    decreases |ts|, 1
  {
    if More(ts) then
      match ValueRest(ts)
      case None => None
      case Some(rest) => ItemsRest(rest)
    else if ts != [] && ts[0] == CloseArray then Some(ts[1..])
    else None
  }

  ghost predicate Accepted(ts: seq<Token>) {
    ValueRest(ts) == Some([])
  }

  // ---- completeness ----

  lemma {:induction false} FlattenStarts(j: Json)
    ensures Flatten(j) != [] && More(Flatten(j))
  {
  }

  /** Reading past the opening token of a bracketed group. */
  lemma Enclosed(open: Token, body: seq<Token>, close: Token, rest: seq<Token>)
    ensures var ts := ([open] + body + [close]) + rest;
      ts != [] && ts[0] == open && ts[1..] == body + ([close] + rest)
  {
  }

  lemma {:induction false} ValueComplete(j: Json, rest: seq<Token>)
    requires Strict(j)
    ensures ValueRest(Flatten(j) + rest) == Some(rest)
    decreases j
  {
    match j
    case JArr(items) =>
      ItemsComplete(items, rest);
      Enclosed(OpenArray, FlattenItems(items), CloseArray, rest);
    case JObj(fields) =>
      FieldsComplete(fields, {}, rest);
      Enclosed(OpenObject, FlattenFields(fields), CloseObject, rest);
    case JBool(_) =>
      assert (Flatten(j) + rest)[1..] == rest;
    case JNum(_) =>
      assert (Flatten(j) + rest)[1..] == rest;
    case JStr(_) =>
      assert (Flatten(j) + rest)[1..] == rest;
  }

  lemma {:induction false} ItemsComplete(items: Items, rest: seq<Token>)
    requires StrictItems(items)
    ensures ItemsRest(FlattenItems(items) + ([CloseArray] + rest)) == Some(rest)
    decreases items
  {
    var close := [CloseArray] + rest;
    ItemsHead(items, close);
    match items
    case NoItem =>
      assert close[1..] == rest;
    case Item(head, tail) =>
      ValueComplete(head, FlattenItems(tail) + close);
      ItemsComplete(tail, rest);
  }

  lemma {:induction false} FieldsComplete(fields: Fields, seen: set<string>, rest: seq<Token>)
    requires StrictFields(fields) && Keys(fields) !! seen
    ensures FieldsRest(FlattenFields(fields) + ([CloseObject] + rest), seen) == Some(rest)
    decreases fields
  {
    var close := [CloseObject] + rest;
    FieldsHead(fields, close);
    match fields
    case NoField =>
      assert close[1..] == rest;
    case Field(key, value, tail) =>
      ValueComplete(value, FlattenFields(tail) + close);
      FieldsComplete(tail, seen + {key}, rest);
  }

  // ---- soundness ----

  lemma {:induction false} ValueSound(ts: seq<Token>) returns (j: Json)
    requires ValueRest(ts).Some?
    ensures Strict(j) && ts == Flatten(j) + ValueRest(ts).value
    decreases |ts|, 0
  {
    match ts[0]
    case OpenObject =>
      var fields := FieldsSound(ts[1..], {});
      j := JObj(fields);
      assert ts[1..] == FlattenFields(fields) + [CloseObject] + ValueRest(ts).value;
      Reclose(ts, FlattenFields(fields), CloseObject, ValueRest(ts).value);
    case OpenArray =>
      var items := ItemsSound(ts[1..]);
      j := JArr(items);
      Reclose(ts, FlattenItems(items), CloseArray, ValueRest(ts).value);
    case NumTok(raw) => j := JNum(raw);
    case StrTok(s) => j := JStr(s);
    case BoolTok(b) => j := JBool(b);
  }

  lemma Reclose(ts: seq<Token>, body: seq<Token>, close: Token, rest: seq<Token>)
    requires ts != [] && ts[1..] == body + [close] + rest
    ensures ts == ([ts[0]] + body + [close]) + rest
  {
    assert ts == [ts[0]] + ts[1..];
  }

  lemma {:induction false} ItemsSound(ts: seq<Token>) returns (items: Items)
    requires ItemsRest(ts).Some?
    ensures StrictItems(items) && ts == FlattenItems(items) + [CloseArray] + ItemsRest(ts).value
    decreases |ts|, 1
  {
    if More(ts) {
      var head := ValueSound(ts);
      var tail := ItemsSound(ValueRest(ts).value);
      items := Item(head, tail);
    } else {
      items := NoItem;
    }
  }

  lemma {:induction false} FieldsSound(ts: seq<Token>, seen: set<string>) returns (fields: Fields)
    requires FieldsRest(ts, seen).Some?
    ensures StrictFields(fields) && Keys(fields) !! seen
    ensures ts == FlattenFields(fields) + ([CloseObject] + FieldsRest(ts, seen).value)
    decreases |ts|, 1
  {
    if More(ts) {
      var value := ValueSound(ts[1..]);
      var rest := FieldsSound(ValueRest(ts[1..]).value, seen + {ts[0].s});
      fields := Field(ts[0].s, value, rest);
      RejoinField(ts, Flatten(value), FlattenFields(rest), [CloseObject] + FieldsRest(ts, seen).value);
    } else {
      fields := NoField;
    }
  }

  lemma RejoinField(ts: seq<Token>, value: seq<Token>, rest: seq<Token>, close: seq<Token>)
    requires ts != [] && ts[1..] == value + (rest + close)
    ensures ts == ([ts[0]] + value + rest) + close
  {
    assert ts == [ts[0]] + ts[1..];
  }

  // ---- a token stream spells at most one value ----

  lemma {:induction false} FlattenUnique(a: Json, b: Json, ra: seq<Token>, rb: seq<Token>)
    requires Flatten(a) + ra == Flatten(b) + rb
    ensures a == b && ra == rb
    decreases a
  {
    assert (Flatten(a) + ra)[0] == Flatten(a)[0] && (Flatten(b) + rb)[0] == Flatten(b)[0];
    match a
    case JArr(items) =>
      Enclosed(OpenArray, FlattenItems(items), CloseArray, ra);
      Enclosed(OpenArray, FlattenItems(b.items), CloseArray, rb);
      FlattenItemsUnique(items, b.items, ra, rb);
    case JObj(fields) =>
      Enclosed(OpenObject, FlattenFields(fields), CloseObject, ra);
      Enclosed(OpenObject, FlattenFields(b.fields), CloseObject, rb);
      FlattenFieldsUnique(fields, b.fields, ra, rb);
    case _ =>
      assert (Flatten(a) + ra)[1..] == ra && (Flatten(b) + rb)[1..] == rb;
  }

  lemma {:induction false} FlattenItemsUnique(a: Items, b: Items, ra: seq<Token>, rb: seq<Token>)
    requires FlattenItems(a) + ([CloseArray] + ra) == FlattenItems(b) + ([CloseArray] + rb)
    ensures a == b && ra == rb
    decreases a
  {
    var ca, cb := [CloseArray] + ra, [CloseArray] + rb;
    ItemsHead(a, ca);
    ItemsHead(b, cb);
    if a.Item? {
      FlattenUnique(a.head, b.head, FlattenItems(a.tail) + ca, FlattenItems(b.tail) + cb);
      FlattenItemsUnique(a.tail, b.tail, ra, rb);
    } else {
      assert ca[1..] == ra && cb[1..] == rb;
    }
  }

  lemma ItemsHead(items: Items, close: seq<Token>)
    requires close != [] && close[0] == CloseArray
    ensures var ts := FlattenItems(items) + close;
      && ts != [] && (ts[0] == CloseArray <==> items.NoItem?)
      && (items.NoItem? ==> ts == close)
      && (items.Item? ==> More(ts) && ts == Flatten(items.head) + (FlattenItems(items.tail) + close))
  {
    match items
    case NoItem =>
      assert FlattenItems(items) + close == close;
    case Item(head, tail) =>
      FlattenStarts(head);
      HeadFirst(Flatten(head), FlattenItems(tail), close);
  }

  lemma HeadFirst(head: seq<Token>, tail: seq<Token>, close: seq<Token>)
    requires head != []
    ensures var ts := (head + tail) + close;
      ts != [] && ts[0] == head[0] && ts == head + (tail + close)
  {
  }

  lemma {:induction false} FlattenFieldsUnique(a: Fields, b: Fields, ra: seq<Token>, rb: seq<Token>)
    requires FlattenFields(a) + ([CloseObject] + ra) == FlattenFields(b) + ([CloseObject] + rb)
    ensures a == b && ra == rb
    decreases a
  {
    var ca, cb := [CloseObject] + ra, [CloseObject] + rb;
    FieldsHead(a, ca);
    FieldsHead(b, cb);
    assert ca[1..] == ra && cb[1..] == rb;
    if a.Field? {
      FlattenUnique(a.value, b.value, FlattenFields(a.rest) + ca, FlattenFields(b.rest) + cb);
      FlattenFieldsUnique(a.rest, b.rest, ra, rb);
    }
  }

  lemma SplitField(key: Token, value: seq<Token>, rest: seq<Token>, close: seq<Token>)
    ensures var ts := ([key] + value + rest) + close;
      ts != [] && ts[0] == key && ts[1..] == value + (rest + close)
  {
  }

  lemma FieldsHead(fields: Fields, close: seq<Token>)
    requires close != [] && close[0] == CloseObject
    ensures var ts := FlattenFields(fields) + close;
      && ts != [] && (ts[0] == CloseObject <==> fields.NoField?)
      && (fields.NoField? ==> ts == close)
      && (fields.Field? ==> ts[0] == StrTok(fields.key)
                            && ts[1..] == Flatten(fields.value) + (FlattenFields(fields.rest) + close))
  {
    match fields
    case NoField =>
      assert FlattenFields(fields) + close == close;
    case Field(key, value, rest) =>
      SplitField(StrTok(key), Flatten(value), FlattenFields(rest), close);
  }

  /** Main result: the validator accepts a stream exactly when it spells one strict value. */
  lemma AcceptedIffStrict(ts: seq<Token>)
    ensures Accepted(ts) <==> exists j :: Strict(j) && Flatten(j) == ts
  {
    if Accepted(ts) {
      var j := ValueSound(ts);
      assert Flatten(j) == ts;
    }
    forall j | Strict(j) && Flatten(j) == ts ensures Accepted(ts) {
      ValueComplete(j, []);
      assert Flatten(j) + [] == ts;
    }
  }

  /** The value is the only one the stream spells, strict or not. */
  lemma FlattenInjective(a: Json, b: Json)
    requires Flatten(a) == Flatten(b)
    ensures a == b
  {
    FlattenUnique(a, b, [], []);
  }

  // ---- the validators as they run on a decoder ----

  class Decoder {
    /** The tokens not read yet. */
    var left: seq<Token>

    constructor (tokens: seq<Token>)
      ensures left == tokens
    {
      left := tokens;
    }

    /** The next token, or None at the end of the input. */
    method Next() returns (tok: Option<Token>)
      modifies this
      ensures tok == if old(left) == [] then None else Some(old(left)[0])
      ensures left == if old(left) == [] then [] else old(left)[1..]
    {
      if left == [] {
        return None;
      }
      tok := Some(left[0]);
      left := left[1..];
    }
  }

  method ValidateStrictJSONProfile(tokens: seq<Token>) returns (ok: bool)
    ensures ok <==> exists j :: Strict(j) && Flatten(j) == tokens
  {
    AcceptedIffStrict(tokens);
    var dec := new Decoder(tokens);
    ok := ValidateJSONValue(dec);
    if ok {
      var trailing := dec.Next();
      ok := trailing.None?;
    }
  }

  method ValidateJSONValue(dec: Decoder) returns (ok: bool)
    modifies dec
    ensures ok <==> ValueRest(old(dec.left)).Some?
    ensures ok ==> dec.left == ValueRest(old(dec.left)).value
    decreases |dec.left|, 0
  {
    var tok := dec.Next();
    if tok.None? {
      return false;
    }
    ok := ValidateTokenValue(dec, tok.value);
  }

  method ValidateTokenValue(dec: Decoder, tok: Token) returns (ok: bool)
    modifies dec
    ensures ok <==> ValueRest([tok] + old(dec.left)).Some?
    ensures ok ==> dec.left == ValueRest([tok] + old(dec.left)).value
    decreases |dec.left|, 2
  {
    assert ([tok] + dec.left)[1..] == dec.left;
    match tok
    case OpenObject => ok := ValidateJSONObject(dec);
    case OpenArray => ok := ValidateJSONArray(dec);
    case NumTok(raw) => ok := IsStrictInteger(raw);
    case StrTok(_) => ok := true;
    case BoolTok(_) => ok := true;
    case _ => ok := false;
  }

  method ValidateJSONObject(dec: Decoder) returns (ok: bool)
    modifies dec
    ensures ok <==> FieldsRest(old(dec.left), {}).Some?
    ensures ok ==> dec.left == FieldsRest(old(dec.left), {}).value
    decreases |dec.left|, 1
  {
    var seen: set<string> := {};
    while More(dec.left)
      invariant FieldsRest(old(dec.left), {}) == FieldsRest(dec.left, seen)
      invariant |dec.left| <= |old(dec.left)|
      decreases |dec.left|
    {
      var keyTok := dec.Next();
      if !keyTok.value.StrTok? {
        return false;
      }
      var key := keyTok.value.s;
      if key in seen {
        return false;
      }
      seen := seen + {key};
      ok := ValidateJSONValue(dec);
      if !ok {
        return false;
      }
    }
    var endTok := dec.Next();
    ok := endTok == Some(CloseObject);
  }

  method ValidateJSONArray(dec: Decoder) returns (ok: bool)
    modifies dec
    ensures ok <==> ItemsRest(old(dec.left)).Some?
    ensures ok ==> dec.left == ItemsRest(old(dec.left)).value
    decreases |dec.left|, 1
  {
    while More(dec.left)
      invariant ItemsRest(old(dec.left)) == ItemsRest(dec.left)
      invariant |dec.left| <= |old(dec.left)|
      decreases |dec.left|
    {
      ok := ValidateJSONValue(dec);
      if !ok {
        return false;
      }
    }
    var endTok := dec.Next();
    ok := endTok == Some(CloseArray);
  }
}
