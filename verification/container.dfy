/**
 * Parameter containers: typed lookup by identifier and the identifier-to-text
 * map (rs_mcai_worker_sdk/src/parameter/container.rs), over the typed
 * parameter variants of src/parameter/mod.rs.
 */
module Container {
  import opened Wrappers
  import opened Strings
  import opened Json

  datatype Requirement = Requirement(paths: Option<seq<string>>)

  datatype Credential = Credential(key: string)

  /** One typed parameter: an identifier, an optional default and an optional value. */
  datatype TypedParameter =
    | ArrayOfStringsParam(id: string, arrayDefault: Option<seq<string>>, arrayValue: Option<seq<string>>)
    | BooleanParam(id: string, boolDefault: Option<bool>, boolValue: Option<bool>)
    | CredentialParam(id: string, credentialDefault: Option<string>, credentialValue: Option<string>)
    | IntegerParam(id: string, integerDefault: Option<int>, integerValue: Option<int>)
    | RequirementParam(id: string, requirementDefault: Option<Requirement>, requirementValue: Option<Requirement>)
    | StringParam(id: string, stringDefault: Option<string>, stringValue: Option<string>)

  /** The variant tag, serialized as the `type` field. */
  datatype Kind = ArrayOfStrings | Boolean | CredentialKind | Integer | RequirementKind | StringKind

  function KindOf(p: TypedParameter): Kind {
    match p
    case ArrayOfStringsParam(_, _, _) => ArrayOfStrings
    case BooleanParam(_, _, _) => Boolean
    case CredentialParam(_, _, _) => CredentialKind
    case IntegerParam(_, _, _) => Integer
    case RequirementParam(_, _, _) => RequirementKind
    case StringParam(_, _, _) => StringKind
  }

  predicate Matches(p: TypedParameter, key: string, kind: Kind) {
    KindOf(p) == kind && p.id == key
  }

  /**
   * The loop every getter runs: the first parameter of the requested variant
   * whose identifier is `key`; one of another variant is skipped even when
   * its identifier matches.
   */
  function Lookup(ps: seq<TypedParameter>, key: string, kind: Kind): (r: Option<nat>)
    ensures r.Some? ==> r.value < |ps| && Matches(ps[r.value], key, kind)
    ensures r.Some? ==> forall j :: 0 <= j < r.value ==> !Matches(ps[j], key, kind)
    ensures r.None? ==> forall j :: 0 <= j < |ps| ==> !Matches(ps[j], key, kind)
    decreases |ps|
  {
    if |ps| == 0 then None
    else if Matches(ps[0], key, kind) then Some(0)
    else
      match Lookup(ps[1..], key, kind)
      case None => None
      case Some(i) => Some(i + 1)
  }

  /** The value, else the default. */
  function ValueOr<T>(value: Option<T>, default: Option<T>): (r: Option<T>)
    ensures value.Some? ==> r == value
    ensures value.None? ==> r == default
  {
    if value.Some? then value else default
  }

  function GetBooleanParameter(ps: seq<TypedParameter>, key: string): (r: Option<bool>)
    ensures Lookup(ps, key, Boolean).None? ==> r.None?
    ensures Lookup(ps, key, Boolean).Some? ==>
              var p := ps[Lookup(ps, key, Boolean).value]; r == ValueOr(p.boolValue, p.boolDefault)
  {
    match Lookup(ps, key, Boolean)
    case None => None
    case Some(i) => ValueOr(ps[i].boolValue, ps[i].boolDefault)
  }

  function GetCredentialParameter(ps: seq<TypedParameter>, key: string): (r: Option<Credential>)
    ensures Lookup(ps, key, CredentialKind).None? ==> r.None?
    ensures Lookup(ps, key, CredentialKind).Some? ==>
              var p := ps[Lookup(ps, key, CredentialKind).value];
              (r.Some? <==> ValueOr(p.credentialValue, p.credentialDefault).Some?)
              && (r.Some? ==> r.value.key == ValueOr(p.credentialValue, p.credentialDefault).value)
  {
    match Lookup(ps, key, CredentialKind)
    case None => None
    case Some(i) =>
      match ValueOr(ps[i].credentialValue, ps[i].credentialDefault)
      case None => None
      case Some(k) => Some(Credential(k))
  }

  function GetIntegerParameter(ps: seq<TypedParameter>, key: string): (r: Option<int>)
    ensures Lookup(ps, key, Integer).None? ==> r.None?
    ensures Lookup(ps, key, Integer).Some? ==>
              var p := ps[Lookup(ps, key, Integer).value]; r == ValueOr(p.integerValue, p.integerDefault)
  {
    match Lookup(ps, key, Integer)
    case None => None
    case Some(i) => ValueOr(ps[i].integerValue, ps[i].integerDefault)
  }

  function GetStringParameter(ps: seq<TypedParameter>, key: string): (r: Option<string>)
    ensures Lookup(ps, key, StringKind).None? ==> r.None?
    ensures Lookup(ps, key, StringKind).Some? ==>
              var p := ps[Lookup(ps, key, StringKind).value]; r == ValueOr(p.stringValue, p.stringDefault)
  {
    match Lookup(ps, key, StringKind)
    case None => None
    case Some(i) => ValueOr(ps[i].stringValue, ps[i].stringDefault)
  }

  function GetArrayOfStringsParameter(ps: seq<TypedParameter>, key: string): (r: Option<seq<string>>)
    ensures Lookup(ps, key, ArrayOfStrings).None? ==> r.None?
    ensures Lookup(ps, key, ArrayOfStrings).Some? ==>
              var p := ps[Lookup(ps, key, ArrayOfStrings).value]; r == ValueOr(p.arrayValue, p.arrayDefault)
  {
    match Lookup(ps, key, ArrayOfStrings)
    case None => None
    case Some(i) => ValueOr(ps[i].arrayValue, ps[i].arrayDefault)
  }

  /** A parameter of another variant is skipped, even under the same identifier. */
  lemma OtherKindSkipped(p: TypedParameter, ps: seq<TypedParameter>, key: string)
    requires p.id == key && !p.StringParam?
    ensures GetStringParameter([p] + ps, key) == GetStringParameter(ps, key)
  {
    assert ([p] + ps)[1..] == ps;
  }

  /** The first match wins over any later parameter with the same identifier. */
  lemma FirstMatchWins(p: TypedParameter, ps: seq<TypedParameter>)
    requires p.StringParam?
    ensures GetStringParameter([p] + ps, p.id) == ValueOr(p.stringValue, p.stringDefault)
  {
  }

  /** An absent value falls back to the default, which may itself be absent. */
  lemma DefaultUsed(id: string, default: Option<int>, ps: seq<TypedParameter>)
    ensures GetIntegerParameter([IntegerParam(id, default, None)] + ps, id) == default
  {
  }

  /** `has_value_or_default`. */
  predicate HasValueOrDefault(p: TypedParameter) {
    match p
    case ArrayOfStringsParam(_, d, v) => v.Some? || d.Some?
    case BooleanParam(_, d, v) => v.Some? || d.Some?
    case CredentialParam(_, d, v) => v.Some? || d.Some?
    case IntegerParam(_, d, v) => v.Some? || d.Some?
    case RequirementParam(_, d, v) => v.Some? || d.Some?
    case StringParam(_, d, v) => v.Some? || d.Some?
  }

  /** The control characters (Unicode general category Cc). */
  predicate IsControl(c: char) {
    c as int < 0x20 || 0x7F <= c as int < 0xA0
  }

  /**
   * One character as Rust's `Debug` for `str` writes it inside quotes: the
   * short escapes, then any other control character as `\u{..}` in
   * lower-case hexadecimal; everything else as itself.
   */
  function EscapeChar(c: char): (e: string)
    ensures |e| >= 1
    ensures |e| == 1 <==> e == [c]
  {
    if c == '"' then "\\\""
    else if c == '\\' then "\\\\"
    else if c == '\n' then "\\n"
    else if c == '\r' then "\\r"
    else if c == '\t' then "\\t"
    else if c == '\0' then "\\0"
    else if IsControl(c) then "\\u{" + NatToHex(c as int) + "}"
    else [c]
  }

  function Escape(s: string): (r: string)
    ensures |r| >= |s|
  {
    if |s| == 0 then "" else EscapeChar(s[0]) + Escape(s[1..])
  }

  /** A Unicode scalar value: what a `char` can hold. */
  predicate IsScalar(n: int) {
    0 <= n < 0xD800 || 0xE000 <= n < 0x11_0000
  }

  /**
   * The escape at the front of `s`, which starts with a backslash: the
   * character it stands for and its length, or `None` when it is dangling
   * or unknown.
   */
  function EscapeAt(s: string): (r: Option<(char, nat)>)
    requires |s| >= 1 && s[0] == '\\'
    ensures r.Some? ==> 2 <= r.value.1 <= |s|
  {
    if |s| == 1 then None
    else
      var c := s[1];
      if c == '"' then Some(('"', 2)) else if c == '\\' then Some(('\\', 2))
      else if c == 'n' then Some(('\n', 2)) else if c == 'r' then Some(('\r', 2))
      else if c == 't' then Some(('\t', 2)) else if c == '0' then Some(('\0', 2))
      else if c == 'u' && |s| >= 3 && s[2] == '{' then
        match BracedScalar(s[3..])
        case None => None
        case Some((d, j)) => Some((d, j + 4))
      else None
  }

  /**
   * The body of a `\u{..}` escape, read from just after the opening brace:
   * the scalar value its hexadecimal digits up to the first `}` name, and
   * the number of those digits.
   */
  function BracedScalar(t: string): (r: Option<(char, nat)>)
    ensures r.Some? ==> r.value.1 < |t|
  {
    match IndexOf(t, "}")
    case None => None
    case Some(j) =>
      var hex := t[..j];
      if |hex| >= 1 && AllHex(hex) && IsScalar(ParseHex(hex)) then Some((ParseHex(hex) as char, j))
      else None
  }

  /** Reads escaped text back; `None` on a dangling or unknown escape. */
  function Unescape(s: string): Option<string>
    decreases |s|
  {
    if |s| == 0 then Some("")
    else if s[0] != '\\' then
      match Unescape(s[1..])
      case None => None
      case Some(rest) => Some([s[0]] + rest)
    else
      match EscapeAt(s)
      case None => None
      case Some((d, n)) =>
        match Unescape(s[n..])
        case None => None
        case Some(rest) => Some([d] + rest)
  }

  /** An escaped character, whatever follows it, is read back as that character. */
  lemma EscapeAtChar(c: char, rest: string)
    requires |EscapeChar(c)| > 1
    ensures var s := EscapeChar(c) + rest;
            s[0] == '\\' && EscapeAt(s) == Some((c, |EscapeChar(c)|))
  {
    var e := EscapeChar(c);
    var s := e + rest;
    if IsControl(c) && c != '\n' && c != '\r' && c != '\t' && c != '\0' {
      var hex := NatToHex(c as int);
      ParseHexToHex(c as int);
      UnicodeEscapeAt(hex, rest);
    }
  }

  /** A `\u{..}` escape of a scalar value is read back as that character. */
  lemma UnicodeEscapeAt(hex: string, rest: string)
    requires |hex| >= 1 && AllHex(hex) && IsScalar(ParseHex(hex))
    ensures var s := "\\u{" + hex + "}" + rest;
            EscapeAt(s) == Some((ParseHex(hex) as char, |hex| + 4))
  {
    var s := "\\u{" + hex + "}" + rest;
    assert s[3..] == hex + "}" + rest;
    BracedHex(hex, rest);
    UnicodeEscapeFront(s);
  }

  /** `EscapeAt` on a text that opens with `\u{` reads the braced scalar after it. */
  lemma UnicodeEscapeFront(s: string)
    requires |s| >= 3 && s[0] == '\\' && s[1] == 'u' && s[2] == '{'
    ensures EscapeAt(s) == match BracedScalar(s[3..]) case None => None case Some((d, j)) => Some((d, j + 4))
  {
  }

  lemma BracedHex(hex: string, rest: string)
    requires |hex| >= 1 && AllHex(hex) && IsScalar(ParseHex(hex))
    ensures BracedScalar(hex + "}" + rest) == Some((ParseHex(hex) as char, |hex|))
  {
    CharsFree(hex, "}");
    CutAtFirst(hex, "}", rest);
  }

  lemma {:induction false} UnescapeEscape(s: string)
    ensures Unescape(Escape(s)) == Some(s)
    decreases |s|
  {
    if |s| > 0 {
      UnescapeEscape(s[1..]);
      var e := Escape(s);
      var head := EscapeChar(s[0]);
      assert e == head + Escape(s[1..]);
      if |head| == 1 {
        assert e[1..] == Escape(s[1..]);
      } else {
        EscapeAtChar(s[0], Escape(s[1..]));
        assert e[|head|..] == Escape(s[1..]);
      }
      assert s == [s[0]] + s[1..];
    }
  }

  /** A control character without a short escape is written as `\u{..}`: U+0001 as `\u{1}`. */
  lemma ControlEscaped()
    ensures EscapeChar(1 as char) == "\\u{1}"
    ensures EscapeChar(0x7F as char) == "\\u{7f}"
  {
    assert NatToHex(0x7F) == NatToHex(7) + [HexDigitChar(15)];
  }

  /** `format!("{:?}", s)` for a string. */
  function DebugString(s: string): string {
    "\"" + Escape(s) + "\""
  }

  /** `format!("{:?}", v)` for a vector of strings. */
  function DebugStrings(items: seq<string>): string {
    "[" + Join(seq(|items|, k requires 0 <= k < |items| => DebugString(items[k])), ", ") + "]"
  }

  function DebugRequirement(r: Requirement): string {
    "Requirement { paths: "
    + (match r.paths case None => "None" case Some(paths) => "Some(" + DebugStrings(paths) + ")")
    + " }"
  }

  /** `to_string`: the value, else the default, else ""; vectors and requirements with `Debug`. */
  function TypedToString(p: TypedParameter): (s: string)
    ensures !HasValueOrDefault(p) ==> s == ""
  {
    match p
    case ArrayOfStringsParam(_, d, v) =>
      (match ValueOr(v, d) case None => "" case Some(x) => DebugStrings(x))
    case RequirementParam(_, d, v) =>
      (match ValueOr(v, d) case None => "" case Some(x) => DebugRequirement(x))
    case BooleanParam(_, d, v) =>
      (match ValueOr(v, d) case None => "" case Some(x) => BoolText(x))
    case CredentialParam(_, d, v) =>
      (match ValueOr(v, d) case None => "" case Some(x) => x)
    case IntegerParam(_, d, v) =>
      (match ValueOr(v, d) case None => "" case Some(x) => IntToString(x))
    case StringParam(_, d, v) =>
      (match ValueOr(v, d) case None => "" case Some(x) => x)
  }

  /** The last parameter with identifier `id` that has a value or default. */
  predicate LastWithText(ps: seq<TypedParameter>, id: string, i: nat) {
    && i < |ps| && ps[i].id == id && HasValueOrDefault(ps[i])
    && forall j :: i < j < |ps| ==> !(ps[j].id == id && HasValueOrDefault(ps[j]))
  }

  /**
   * `get_parameters_as_map`: every identifier with a value or default,
   * rendered with `to_string`; a later parameter with the same identifier
   * overwrites an earlier one.
   */
  function GetParametersAsMap(ps: seq<TypedParameter>): (m: map<string, string>)
    ensures AsMapOf(ps, m)
    decreases |ps|
  {
    if |ps| == 0 then map[]
    else
      var m := GetParametersAsMap(ps[..|ps| - 1]);
      AsMapStep(ps, m);
      var last := ps[|ps| - 1];
      if HasValueOrDefault(last) then m[last.id := TypedToString(last)] else m
  }

  /**
   * `m` holds exactly the identifiers with a value or default, each mapped to
   * the rendering of the last such parameter.
   */
  ghost predicate AsMapOf(ps: seq<TypedParameter>, m: map<string, string>) {
    && (forall id :: id in m <==> exists i :: 0 <= i < |ps| && ps[i].id == id && HasValueOrDefault(ps[i]))
    && (forall id :: id in m ==> exists i: nat :: LastWithText(ps, id, i) && m[id] == TypedToString(ps[i]))
  }

  lemma AsMapStep(ps: seq<TypedParameter>, m: map<string, string>)
    requires |ps| > 0 && AsMapOf(ps[..|ps| - 1], m)
    ensures var last := ps[|ps| - 1];
            AsMapOf(ps, if HasValueOrDefault(last) then m[last.id := TypedToString(last)] else m)
  {
    var last := ps[|ps| - 1];
    var r := if HasValueOrDefault(last) then m[last.id := TypedToString(last)] else m;
    AsMapKeysStep(ps, m, r);
    AsMapValuesStep(ps, m, r);
  }

  lemma AsMapKeysStep(ps: seq<TypedParameter>, m: map<string, string>, r: map<string, string>)
    requires |ps| > 0 && AsMapOf(ps[..|ps| - 1], m)
    requires var last := ps[|ps| - 1];
             r == if HasValueOrDefault(last) then m[last.id := TypedToString(last)] else m
    ensures forall id :: id in r <==> exists i :: 0 <= i < |ps| && ps[i].id == id && HasValueOrDefault(ps[i])
  {
    var init := ps[..|ps| - 1];
    forall id
      ensures id in r <==> exists i :: 0 <= i < |ps| && ps[i].id == id && HasValueOrDefault(ps[i])
    {
      if exists i :: 0 <= i < |ps| && ps[i].id == id && HasValueOrDefault(ps[i]) {
        var i :| 0 <= i < |ps| && ps[i].id == id && HasValueOrDefault(ps[i]);
        if i < |init| {
          assert init[i].id == id && HasValueOrDefault(init[i]);
        }
      }
      if id in m {
        var i :| 0 <= i < |init| && init[i].id == id && HasValueOrDefault(init[i]);
        assert ps[i] == init[i];
      }
    }
  }

  lemma AsMapValuesStep(ps: seq<TypedParameter>, m: map<string, string>, r: map<string, string>)
    requires |ps| > 0 && AsMapOf(ps[..|ps| - 1], m)
    requires var last := ps[|ps| - 1];
             r == if HasValueOrDefault(last) then m[last.id := TypedToString(last)] else m
    ensures forall id :: id in r ==> exists i: nat :: LastWithText(ps, id, i) && r[id] == TypedToString(ps[i])
  {
    var init, last := ps[..|ps| - 1], ps[|ps| - 1];
    forall id | id in r
      ensures exists i: nat :: LastWithText(ps, id, i) && r[id] == TypedToString(ps[i])
    {
      if HasValueOrDefault(last) && id == last.id {
        assert LastWithText(ps, id, |ps| - 1);
      } else {
        var i: nat :| LastWithText(init, id, i) && m[id] == TypedToString(init[i]);
        LastWithTextKept(ps, id, i);
      }
    }
  }

  /** The last parameter of `id` stays the last when a parameter of another identifier, or without text, follows. */
  lemma LastWithTextKept(ps: seq<TypedParameter>, id: string, i: nat)
    requires |ps| > 0 && LastWithText(ps[..|ps| - 1], id, i)
    requires !(ps[|ps| - 1].id == id && HasValueOrDefault(ps[|ps| - 1]))
    ensures LastWithText(ps, id, i)
  {
    var init := ps[..|ps| - 1];
    assert ps[i] == init[i];
    forall j | i < j < |ps| ensures !(ps[j].id == id && HasValueOrDefault(ps[j])) {
      if j < |init| {
        assert ps[j] == init[j];
      }
    }
  }
}
