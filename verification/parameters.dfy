/**
 * Job parameters and the coercion of their JSON values to typed values
 * (rs_mcai_worker_sdk/src/parameter/mod.rs).
 */
module Parameters {
  import opened Wrappers
  import opened Strings
  import opened Json

  /** `std::num::IntErrorKind` as `str::parse::<i64>` reports it. */
  datatype IntErrorKind = Empty | InvalidDigit | PosOverflow | NegOverflow

  /**
   * The payload of `MessageError::ParameterValueError`, kept structured: the
   * source formats each of these with `{:?}`.
   */
  datatype ValueError =
    | ParseIntError(kind: IntErrorKind)
    | ParseBoolError
    | TypeMismatch(value: JsonValue, typeName: string)
    | CredentialType(content: JsonValue)
    | StoreError(message: string)

  /** The text after an optional leading sign. */
  function Unsigned(s: string): string
    requires s != ""
  {
    if s[0] == '-' || s[0] == '+' then s[1..] else s
  }

  /** The longest prefix of `s` made of decimal digits. */
  function Lead(s: string): (p: string)
    ensures AllDigits(p) && |p| <= |s| && p == s[..|p|]
    ensures |p| < |s| ==> !IsDigit(s[|p|])
    decreases |s|
  {
    if |s| == 0 || !IsDigit(s[0]) then [] else [s[0]] + Lead(s[1..])
  }

  /** The magnitude `n` with the sign the text asks for. */
  function Signed(n: nat, positive: bool): int {
    if positive then n else -(n as int)
  }

  function Overflow(positive: bool): IntErrorKind {
    if positive then PosOverflow else NegOverflow
  }

  /**
   * The digit loop of `i64::from_str_radix`, left to right: each character
   * must be a digit, and the running value, here its magnitude `n` with the
   * sign applied, must stay in range after every digit.
   */
  function Accumulate(digits: string, n: nat, positive: bool): Result<int, IntErrorKind>
    decreases |digits|
  {
    if |digits| == 0 then Ok(Signed(n, positive))
    else if !IsDigit(digits[0]) then Err(InvalidDigit)
    else
      var next := n * 10 + DigitValue(digits[0]);
      if !InI64(Signed(next, positive)) then Err(Overflow(positive))
      else Accumulate(digits[1..], next, positive)
  }

  /**
   * What reading the digits `q` gives, `complete` telling whether they are
   * the whole text: a value out of range overflows, a non-digit after
   * in-range digits is `InvalidDigit`, and otherwise the signed value.
   */
  function Reading(q: string, complete: bool, positive: bool): Result<int, IntErrorKind>
    requires AllDigits(q)
  {
    var v := Signed(ParseNat(q), positive);
    if !InI64(v) then Err(Overflow(positive))
    else if !complete then Err(InvalidDigit)
    else Ok(v)
  }

  /**
   * `str::parse::<i64>`: empty text is `Empty`; a lone sign is `InvalidDigit`;
   * otherwise the digits after the sign are read left to right, so whichever
   * of a non-digit or an out-of-range prefix comes first decides the error.
   * `Lead(body)` is the run of digits read before the first non-digit.
   */
  function ParseI64(s: string): (r: Result<int, IntErrorKind>)
    ensures s == "" <==> r == Err(Empty)
    ensures s != "" ==>
              var body, positive := Unsigned(s), s[0] != '-';
              var lead := Signed(ParseNat(Lead(body)), positive);
              && (r.Ok? <==> |body| > 0 && AllDigits(body) && InI64(Signed(ParseNat(body), positive)))
              && (r.Ok? ==> r.value == Signed(ParseNat(body), positive))
              && (r == Err(InvalidDigit) <==> |body| == 0 || (!AllDigits(body) && InI64(lead)))
              && (r == Err(Overflow(positive)) <==> |body| > 0 && !InI64(lead))
              && r != Err(Overflow(!positive))
  {
    if s == "" then Err(Empty)
    else
      var body, positive := Unsigned(s), s[0] != '-';
      if |body| == 0 then Err(InvalidDigit)
      else
        AccumulateMeaning("", body, positive);
        assert "" + Lead(body) == Lead(body);
        LeadAll(body);
        var r := Accumulate(body, 0, positive);
        assert r == Reading(Lead(body), Lead(body) == body, positive);
        r
  }

  /** The run of leading digits is the whole text exactly when the text is all digits. */
  lemma LeadAll(s: string)
    ensures Lead(s) == s <==> AllDigits(s)
  {
  }

  /** Appending a digit multiplies by ten and adds it. */
  lemma ParseNatSnoc(p: string, c: char)
    requires AllDigits(p) && IsDigit(c)
    ensures AllDigits(p + [c]) && ParseNat(p + [c]) == ParseNat(p) * 10 + DigitValue(c)
  {
    assert (p + [c])[..|p|] == p;
  }

  /** A longer run of digits never has a smaller value. */
  lemma {:induction false} ParseNatGrows(p: string, q: string)
    requires AllDigits(p + q)
    ensures AllDigits(p) && ParseNat(p) <= ParseNat(p + q)
    decreases |q|
  {
    assert (p + q)[..|p|] == p;
    if |q| == 0 {
      assert p + q == p;
    } else {
      var init := q[..|q| - 1];
      var whole := p + q;
      assert whole[..|whole| - 1] == p + init;
      assert ParseNat(whole) == ParseNat(p + init) * 10 + DigitValue(whole[|whole| - 1]);
      ParseNatGrows(p, init);
    }
  }

  /**
   * The digit loop, started on the value of the digits `p` already read,
   * ends as the reference reading of `p` followed by the leading digits of
   * the rest says: the value when the rest is all digits and the total is in
   * range, `InvalidDigit` when a non-digit is reached in range, and the
   * overflow of the sign as soon as the running value leaves the range.
   */
  lemma {:induction false} AccumulateMeaning(p: string, d: string, positive: bool)
    requires AllDigits(p) && InI64(Signed(ParseNat(p), positive))
    ensures AllDigits(p + Lead(d))
    ensures Accumulate(d, ParseNat(p), positive) == Reading(p + Lead(d), Lead(d) == d, positive)
    decreases |d|
  {
    if |d| == 0 || !IsDigit(d[0]) {
      AccumulateStops(p, d, positive);
    } else {
      var p' := p + [d[0]];
      ParseNatSnoc(p, d[0]);
      if InI64(Signed(ParseNat(p'), positive)) {
        AccumulateMeaning(p', d[1..], positive);
        AccumulateContinues(p, d, positive);
      } else {
        AccumulateOverflows(p, d, positive);
      }
    }
  }

  /** The loop stops at the end of the text or at a non-digit, with the value read so far in range. */
  lemma AccumulateStops(p: string, d: string, positive: bool)
    requires AllDigits(p) && InI64(Signed(ParseNat(p), positive))
    requires |d| == 0 || !IsDigit(d[0])
    ensures AllDigits(p + Lead(d))
    ensures Accumulate(d, ParseNat(p), positive) == Reading(p + Lead(d), Lead(d) == d, positive)
  {
    assert Lead(d) == [] && p + Lead(d) == p;
    assert (Lead(d) == d) == (|d| == 0);
  }

  /** A digit that keeps the value in range: the loop goes on as on the longer prefix. */
  lemma AccumulateContinues(p: string, d: string, positive: bool)
    requires AllDigits(p) && |d| > 0 && IsDigit(d[0])
    requires AllDigits(p + [d[0]]) && ParseNat(p + [d[0]]) == ParseNat(p) * 10 + DigitValue(d[0])
    requires InI64(Signed(ParseNat(p + [d[0]]), positive))
    requires AllDigits(p + [d[0]] + Lead(d[1..]))
    requires Accumulate(d[1..], ParseNat(p + [d[0]]), positive)
          == Reading(p + [d[0]] + Lead(d[1..]), Lead(d[1..]) == d[1..], positive)
    ensures AllDigits(p + Lead(d))
    ensures Accumulate(d, ParseNat(p), positive) == Reading(p + Lead(d), Lead(d) == d, positive)
  {
    var p', rest := p + [d[0]], Lead(d[1..]);
    AccumulateStep(d, ParseNat(p), positive);
    assert Accumulate(d, ParseNat(p), positive) == Accumulate(d[1..], ParseNat(p'), positive);
    LeadCons(d);
    var q := p + Lead(d);
    AppendAssoc(p, [d[0]], rest);
    var complete := Lead(d) == d;
    assert complete == (rest == d[1..]);
    assert Reading(q, complete, positive) == Reading(p' + rest, rest == d[1..], positive);
  }

  lemma AppendAssoc(a: string, b: string, c: string)
    ensures a + (b + c) == a + b + c
  {
  }

  /** A digit that takes the value out of range: the loop overflows, as the reading does. */
  lemma AccumulateOverflows(p: string, d: string, positive: bool)
    requires AllDigits(p) && |d| > 0 && IsDigit(d[0])
    requires AllDigits(p + [d[0]]) && ParseNat(p + [d[0]]) == ParseNat(p) * 10 + DigitValue(d[0])
    requires !InI64(Signed(ParseNat(p + [d[0]]), positive))
    ensures AllDigits(p + Lead(d))
    ensures Accumulate(d, ParseNat(p), positive) == Reading(p + Lead(d), Lead(d) == d, positive)
  {
    var p' := p + [d[0]];
    LeadCons(d);
    var q := p' + Lead(d[1..]);
    assert p + Lead(d) == q;
    AccumulateStep(d, ParseNat(p), positive);
    ParseNatGrows(p', Lead(d[1..]));
    OverflowPersists(ParseNat(p'), ParseNat(q), positive);
  }

  /** One step of the digit loop on a leading digit. */
  lemma AccumulateStep(d: string, n: nat, positive: bool)
    requires |d| > 0 && IsDigit(d[0])
    ensures var next := n * 10 + DigitValue(d[0]);
            Accumulate(d, n, positive)
            == if InI64(Signed(next, positive)) then Accumulate(d[1..], next, positive) else Err(Overflow(positive))
  {
  }

  lemma LeadCons(d: string)
    requires |d| > 0 && IsDigit(d[0])
    ensures Lead(d) == [d[0]] + Lead(d[1..])
    ensures Lead(d) == d <==> Lead(d[1..]) == d[1..]
  {
    assert d == [d[0]] + d[1..];
  }

  /** A magnitude out of range stays out of range as it grows. */
  lemma OverflowPersists(m: nat, n: nat, positive: bool)
    requires m <= n && !InI64(Signed(m, positive))
    ensures !InI64(Signed(n, positive))
  {
  }

  /** Rust reads left to right: twenty nines overflow before the trailing `x` is reached. */
  lemma OverflowBeforeInvalidDigit()
    ensures ParseI64("99999999999999999999x") == Err(PosOverflow)
  {
    var nines := "99999999999999999999";
    assert AllDigits(nines);
    assert "99999999999999999999x" == nines + ['x'];
    OverflowBeforeNonDigit(nines, 'x');
  }

  /** Twenty or more digits followed by a non-digit overflow: the non-digit is never reached. */
  lemma OverflowBeforeNonDigit(p: string, c: char)
    requires AllDigits(p) && |p| >= 20 && p[0] != '0' && !IsDigit(c)
    ensures ParseI64(p + [c]) == Err(PosOverflow)
  {
    var s := p + [c];
    assert s[0] == p[0];
    assert Unsigned(s) == s;
    LeadOfDigitsThen(p, c);
    LeadingDigitBound(p);
    PowerAbove(|p| - 1);
  }

  /** Ten to the nineteenth is above the i64 range. */
  lemma {:induction false} PowerAbove(k: nat)
    requires k >= 19
    ensures Pow10(k) > I64Max
  {
    if k == 19 {
      assert Pow10(1) == 10;
      Pow10Add(1, 1);
      Pow10Add(2, 2);
      Pow10Add(4, 4);
      Pow10Add(8, 8);
      Pow10Add(16, 2);
      Pow10Add(18, 1);
    } else {
      PowerAbove(k - 1);
    }
  }

  /** The leading digits of digits followed by a non-digit are those digits. */
  lemma {:induction false} LeadOfDigitsThen(p: string, c: char)
    requires AllDigits(p) && !IsDigit(c)
    ensures Lead(p + [c]) == p
    decreases |p|
  {
    if |p| > 0 {
      assert (p + [c])[1..] == p[1..] + [c];
      LeadOfDigitsThen(p[1..], c);
      assert p == [p[0]] + p[1..];
    }
  }

  /** A numeral of `k + 1` digits not starting with zero is at least ten to the `k`. */
  lemma {:induction false} LeadingDigitBound(s: string)
    requires AllDigits(s) && |s| >= 1 && s[0] != '0'
    ensures ParseNat(s) >= Pow10(|s| - 1)
    decreases |s|
  {
    if |s| > 1 {
      var init := s[..|s| - 1];
      LeadingDigitBound(init);
    }
  }

  lemma {:induction false} Pow10Add(a: nat, b: nat)
    ensures Pow10(a + b) == Pow10(a) * Pow10(b)
    decreases a
  {
    if a > 0 {
      Pow10Add(a - 1, b);
    }
  }

  function Pow10(k: nat): (r: nat)
    ensures r >= 1
  {
    if k == 0 then 1 else 10 * Pow10(k - 1)
  }

  /** Every `i64` parses back from its decimal rendering. */
  lemma ParseI64IntToString(i: int)
    requires InI64(i)
    ensures ParseI64(IntToString(i)) == Ok(i)
  {
    if i < 0 {
      ParseI64Negative(-i);
    } else {
      ParseI64NonNegative(i);
    }
  }

  lemma ParseI64Negative(n: nat)
    requires 0 < n && InI64(-(n as int))
    ensures ParseI64("-" + NatToString(n)) == Ok(-(n as int))
  {
    var s := "-" + NatToString(n);
    ParseNatToString(n);
    assert s[0] == '-' && Unsigned(s) == NatToString(n);
    SignedReading(s, n, false);
  }

  /** A sign-free numeral with value `n` in range reads as `n` with the text's sign. */
  lemma SignedReading(s: string, n: nat, positive: bool)
    requires s != "" && (s[0] != '-' <==> positive)
    requires |Unsigned(s)| > 0 && AllDigits(Unsigned(s)) && ParseNat(Unsigned(s)) == n
    requires InI64(Signed(n, positive))
    ensures ParseI64(s) == Ok(Signed(n, positive))
  {
  }

  lemma ParseI64NonNegative(n: nat)
    requires InI64(n)
    ensures ParseI64(NatToString(n)) == Ok(n)
  {
    var s := NatToString(n);
    ParseNatToString(n);
    assert IsDigit(s[0]);
    assert s[0] != '-' && s[0] != '+';
    SignedReading(s, n, true);
  }

  /** Text `Display` could have written for an integer: no `+`, no leading zero, no "-0". */
  predicate CanonicalInt(s: string) {
    || Canonical(s)
    || (|s| >= 2 && s[0] == '-' && Canonical(s[1..]) && s[1] != '0')
  }

  /** Parsing canonical text and printing the value gives the text back. */
  lemma ParseI64Canonical(s: string)
    requires CanonicalInt(s) && ParseI64(s).Ok?
    ensures IntToString(ParseI64(s).value) == s
  {
    if s[0] == '-' {
      NatToStringParse(s[1..]);
      LeadingDigitPositive(s[1..]);
      assert s == "-" + s[1..];
    } else {
      NatToStringParse(s);
    }
  }

  /** `i64::from_value`: a string is parsed, an `i64` number taken, anything else refused. */
  function FromValueI64(v: JsonValue): (r: Result<int, ValueError>)
    ensures r.Ok? ==> InI64(r.value)
    ensures v.JString? ==> (r.Ok? <==> ParseI64(v.s).Ok?)
    ensures v.JString? && ParseI64(v.s).Ok? ==> r.value == ParseI64(v.s).value
    ensures v.JString? && ParseI64(v.s).Err? ==> r == Err(ParseIntError(ParseI64(v.s).error))
    ensures v.JNumber? ==> (r.Ok? <==> AsI64(v.n).Some?) && (r.Ok? ==> r.value == v.n.value)
    ensures !v.JString? && !v.JNumber? ==> r == Err(TypeMismatch(v, "i64"))
  {
    match v
    case JString(s) =>
      (match ParseI64(s)
       case Ok(i) => Ok(i)
       case Err(kind) => Err(ParseIntError(kind)))
    case JNumber(n) =>
      (match AsI64(n)
       case Some(i) => Ok(i)
       case None => Err(TypeMismatch(v, "i64")))
    case _ => Err(TypeMismatch(v, "i64"))
  }

  /** An integer reads back the same whether sent as a number or as text. */
  lemma I64TextOrNumber(i: int)
    requires InI64(i)
    ensures FromValueI64(JString(IntToString(i))) == Ok(i)
    ensures FromValueI64(JNumber(IntNumber(i))) == Ok(i)
  {
    ParseI64IntToString(i);
  }

  /** `bool::from_value`: "true"/"false", a boolean, or a number taken as non-zero. */
  function FromValueBool(v: JsonValue): (r: Result<bool, ValueError>)
    ensures v.JString? ==> (r.Ok? <==> v.s == "true" || v.s == "false") && (r.Ok? ==> (r.value <==> v.s == "true"))
    ensures v.JBool? ==> r == Ok(v.b)
    ensures v.JNumber? && v.n.IntNumber? ==> r == Ok(v.n.value != 0)
    ensures v.JNumber? && v.n.FloatNumber? ==> r == Ok(v.n.truncated != 0)
    ensures v.JNull? || v.JArray? || v.JObject? ==> r == Err(TypeMismatch(v, "bool"))
  {
    match v
    case JString(s) =>
      if s == "true" then Ok(true) else if s == "false" then Ok(false) else Err(ParseBoolError)
    case JNumber(n) =>
      // `as_i64`, else `as_f64` cast to `i64` (toward zero, saturating): a
      // number is true exactly when that integer is non-zero.
      (match n
       case IntNumber(i) => Ok(i != 0)
       case FloatNumber(truncated, _) => Ok(truncated != 0))
    case JBool(b) => Ok(b)
    case _ => Err(TypeMismatch(v, "bool"))
  }

  /** A boolean reads back from its own text. */
  lemma BoolTextRoundTrip(b: bool)
    ensures FromValueBool(JString(BoolText(b))) == Ok(b)
  {
  }

  /**
   * `ParameterValue::parse_value` up to `from_value`: with a store set the
   * content must be a string, the key looked up in the store.
   */
  function ResolveContent(content: JsonValue, store: Option<string>, fromStore: (string, string) -> Result<JsonValue, string>): (r: Result<JsonValue, ValueError>)
    ensures store.None? ==> r == Ok(content)
    ensures store.Some? && !content.JString? ==> r == Err(CredentialType(content))
    ensures store.Some? && content.JString? ==>
              (fromStore(content.s, store.value).Ok? <==> r.Ok?)
              && (r.Ok? ==> r.value == fromStore(content.s, store.value).value)
    ensures store.Some? && content.JString? && fromStore(content.s, store.value).Err? ==>
              r == Err(StoreError(fromStore(content.s, store.value).error))
  {
    match store
    case None => Ok(content)
    case Some(code) =>
      if content.JString? then
        match fromStore(content.s, code)
        case Ok(value) => Ok(value)
        case Err(e) => Err(StoreError(e))
      else Err(CredentialType(content))
  }

  /** `parse_value` for an `i64` parameter. */
  function ParseValueI64(content: JsonValue, store: Option<string>, fromStore: (string, string) -> Result<JsonValue, string>): (r: Result<int, ValueError>)
    ensures store.Some? && !content.JString? ==> r == Err(CredentialType(content))
    ensures store.None? ==> r == FromValueI64(content)
    ensures store.Some? && content.JString? && fromStore(content.s, store.value).Ok? ==>
              r == FromValueI64(fromStore(content.s, store.value).value)
    ensures store.Some? && content.JString? && fromStore(content.s, store.value).Err? ==>
              r == Err(StoreError(fromStore(content.s, store.value).error))
  {
    match ResolveContent(content, store, fromStore)
    case Ok(resolved) => FromValueI64(resolved)
    case Err(e) => Err(e)
  }

  /** `parse_value` for a `bool` parameter. */
  function ParseValueBool(content: JsonValue, store: Option<string>, fromStore: (string, string) -> Result<JsonValue, string>): (r: Result<bool, ValueError>)
    ensures store.Some? && !content.JString? ==> r == Err(CredentialType(content))
    ensures store.None? ==> r == FromValueBool(content)
    ensures store.Some? && content.JString? && fromStore(content.s, store.value).Ok? ==>
              r == FromValueBool(fromStore(content.s, store.value).value)
    ensures store.Some? && content.JString? && fromStore(content.s, store.value).Err? ==>
              r == Err(StoreError(fromStore(content.s, store.value).error))
  {
    match ResolveContent(content, store, fromStore)
    case Ok(resolved) => FromValueBool(resolved)
    case Err(e) => Err(e)
  }

  /** `Parameter`: `kind` is the serialized `type` field. */
  datatype Parameter = Parameter(
    id: string,
    kind: string,
    store: Option<string>,
    value: Option<JsonValue>,
    default: Option<JsonValue>)

  predicate HasValueOrDefault(p: Parameter) {
    p.value.Some? || p.default.Some?
  }

  /** The value `to_string` renders: the value, else the default. */
  function Current(p: Parameter): (v: Option<JsonValue>)
    ensures v.Some? <==> HasValueOrDefault(p)
    ensures p.value.Some? ==> v == p.value
    ensures p.value.None? ==> v == p.default
  {
    if p.value.Some? then p.value else p.default
  }

  /**
   * The text of one JSON value: strings raw, booleans and numbers with
   * `Display`, `Null` with `Debug`, arrays and objects by the JSON
   * serializer `serialize`.
   */
  function ValueText(v: JsonValue, serialize: JsonValue -> string): string {
    match v
    case JNull => "Null"
    case JObject(_) => serialize(v)
    case JArray(_) => serialize(v)
    case JBool(b) => BoolText(b)
    case JNumber(n) => NumberText(n)
    case JString(s) => s
  }

  /** `Parameter::to_string`: the value, else the default, else "". */
  function ParameterToString(p: Parameter, serialize: JsonValue -> string): (s: string)
    ensures !HasValueOrDefault(p) ==> s == ""
    ensures p.value.Some? ==> s == ValueText(p.value.value, serialize)
    ensures p.value.None? && p.default.Some? ==> s == ValueText(p.default.value, serialize)
  {
    match Current(p)
    case None => ""
    case Some(v) => ValueText(v, serialize)
  }

  /** A string parameter renders as its text, whatever its default. */
  lemma StringParameterText(p: Parameter, serialize: JsonValue -> string)
    requires p.value.Some? && p.value.value.JString?
    ensures ParameterToString(p, serialize) == p.value.value.s
  {
  }

  /** An integer parameter's text reads back as the same integer. */
  lemma IntegerParameterRoundTrip(p: Parameter, serialize: JsonValue -> string)
    requires p.value.Some? && p.value.value.JNumber? && p.value.value.n.IntNumber?
    requires InI64(p.value.value.n.value)
    ensures FromValueI64(JString(ParameterToString(p, serialize))) == Ok(p.value.value.n.value)
  {
    ParseI64IntToString(p.value.value.n.value);
  }
}
