/**
 * How the server's serializers validate a JSON request body field by field (the rules Django
 * REST framework applies to the fields the core's serializers declare): a field is absent,
 * `null` or given; a text field is whitespace-trimmed and checked for blankness and length; a
 * field with choices admits only those; integer and boolean fields accept their JSON type and
 * the strings that spell a value of it. Errors are collected per field, in field order.
 */
module Forms {
  import opened Wrappers
  import opened Text
  import opened Json

  /** A field of a request body: not sent, sent as `null`, or sent with a value. */
  datatype Field = Absent | Null | Given(value: Json)

  /** The field `key` of a body; a body that is not an object has no fields. */
  function FieldOf(body: Json, key: string): (f: Field)
    ensures f.Absent? <==> Get(body, key).None?
    ensures f.Null? <==> Get(body, key) == Some(JNull)
    ensures f.Given? ==> Get(body, key) == Some(f.value) && f.value != JNull
  {
    match Get(body, key)
    case None => Absent
    case Some(JNull) => Null
    case Some(v) => Given(v)
  }

  /** The outcome of validating one field: not sent and not required, a clean value, or errors. */
  datatype FieldResult<T> = Skipped | Clean(value: T) | Invalid(messages: seq<string>)

  /** The outcome of validating a whole body: the validated data, or the errors by field name. */
  datatype Checked<T> = Accepted(value: T) | Rejected(errors: seq<(string, seq<string>)>)

  const RequiredMessage: string := "This field is required."
  const NullMessage: string := "This field may not be null."
  const BlankMessage: string := "This field may not be blank."
  const NotAStringMessage: string := "Not a valid string."
  const NotAnIntegerMessage: string := "A valid integer is required."
  const NotABooleanMessage: string := "Must be a valid boolean."

  function MinLengthMessage(n: nat): string {
    "Ensure this field has at least " + NatToString(n) + " characters."
  }

  function MaxLengthMessage(n: nat): string {
    "Ensure this field has no more than " + NatToString(n) + " characters."
  }

  function MinValueMessage(n: int): string {
    "Ensure this value is greater than or equal to " + IntToString(n) + "."
  }

  function MaxValueMessage(n: int): string {
    "Ensure this value is less than or equal to " + IntToString(n) + "."
  }

  function InvalidChoiceMessage(input: string): string {
    "\"" + input + "\" is not a valid choice."
  }

  /** What an absent or `null` field gives, for a field that does not admit `null`. */
  function Missing<T>(f: Field, required: bool): (r: FieldResult<T>)
    requires !f.Given?
  {
    if f.Null? then Invalid([NullMessage]) else if required then Invalid([RequiredMessage]) else Skipped
  }

  /** Python's `str()` of a JSON scalar; arrays and objects are given their JavaScript form. */
  function PyStr(v: Json): string {
    match v
    case JNull => "None"
    case JBool(b) => if b then "True" else "False"
    case JNum(n) => IntToString(n)
    case JStr(s) => s
    case _ => JsString(v)
  }

  /** The rules a text field is declared with. */
  datatype TextRules = TextRules(required: bool, allowBlank: bool, minLength: Option<nat>, maxLength: Option<nat>)

  /** The length validators' messages for a trimmed value, the maximum's first as the field adds it first. */
  function LengthErrors(t: string, rules: TextRules): (r: seq<string>)
    ensures r == [] <==> (rules.minLength.None? || |t| >= rules.minLength.value)
                         && (rules.maxLength.None? || |t| <= rules.maxLength.value)
  {
    (if rules.maxLength.Some? && |t| > rules.maxLength.value then [MaxLengthMessage(rules.maxLength.value)] else [])
    + (if rules.minLength.Some? && |t| < rules.minLength.value then [MinLengthMessage(rules.minLength.value)] else [])
  }

  const NullCharactersMessage: string := "Null characters are not allowed."

  /**
   * The validators every text field adds after the length ones: null characters are refused.
   * The other, against surrogate code points, can never fire here, as a `char` is a Unicode
   * scalar value.
   */
  function CharacterErrors(t: string): (r: seq<string>)
    ensures r == [] <==> '\0' !in t
    ensures r != [] ==> r == [NullCharactersMessage]
  {
    if '\0' in t then [NullCharactersMessage] else []
  }

  /** All the messages the validators of a text field give a trimmed, non-blank value. */
  function TextErrors(t: string, rules: TextRules, extra: string -> seq<string>): (r: seq<string>)
    ensures r == [] <==> extra(t) == [] && LengthErrors(t, rules) == [] && '\0' !in t
  {
    extra(t) + LengthErrors(t, rules) + CharacterErrors(t)
  }

  /**
   * A text value, already read as a string: trimmed of whitespace; an empty result is accepted
   * only where blanks are allowed, and skips every validator; otherwise `extra` (the model's
   * own validators, such as uniqueness), the length validators and the null-character one
   * run, and all their messages are reported.
   */
  function TextValue(s: string, rules: TextRules, extra: string -> seq<string>): (r: FieldResult<string>)
    ensures !r.Skipped?
    ensures Strip(s) == [] ==> r == (if rules.allowBlank then Clean("") else Invalid([BlankMessage]))
    ensures r.Clean? ==> r.value == Strip(s)
    ensures r.Clean? && r.value != [] ==>
              extra(r.value) == []
              && (rules.minLength.None? || |r.value| >= rules.minLength.value)
              && (rules.maxLength.None? || |r.value| <= rules.maxLength.value)
              && '\0' !in r.value
    ensures Strip(s) != [] ==> (r.Clean? <==> TextErrors(Strip(s), rules, extra) == [])
    ensures Strip(s) != [] && r.Invalid? ==> r.messages == TextErrors(Strip(s), rules, extra)
  {
    var t := Strip(s);
    if t == [] then (if rules.allowBlank then Clean("") else Invalid([BlankMessage]))
    else
      var errors := TextErrors(t, rules, extra);
      if errors == [] then Clean(t) else Invalid(errors)
  }

  /** A `CharField`: a string, or a number in its decimal form; any other value is refused. */
  function TextField(f: Field, rules: TextRules, extra: string -> seq<string>): (r: FieldResult<string>)
    ensures !f.Given? ==> r == Missing(f, rules.required)
    ensures f.Given? && f.value.JStr? ==> r == TextValue(f.value.s, rules, extra)
    ensures f.Given? && !f.value.JStr? && !f.value.JNum? ==> r == Invalid([NotAStringMessage])
    ensures r.Skipped? ==> f.Absent? && !rules.required
    ensures r.Clean? ==> f.Given? && (f.value.JStr? || f.value.JNum?) && r.value == Strip(PyStr(f.value))
    ensures r.Clean? && r.value == [] ==> rules.allowBlank
    ensures r.Clean? && r.value != [] ==>
              extra(r.value) == []
              && (rules.minLength.None? || |r.value| >= rules.minLength.value)
              && (rules.maxLength.None? || |r.value| <= rules.maxLength.value)
              && '\0' !in r.value
  {
    match f
    case Given(JStr(s)) => TextValue(s, rules, extra)
    case Given(JNum(n)) => TextValue(IntToString(n), rules, extra)
    case Given(_) => Invalid([NotAStringMessage])
    case _ => Missing(f, rules.required)
  }

  /** The body's `key` holds a value a text field reads: a string or a number. */
  predicate Sent(body: Json, key: string) {
    FieldOf(body, key).Given? && (FieldOf(body, key).value.JStr? || FieldOf(body, key).value.JNum?)
  }

  /** The text a sent text field holds. */
  function SentText(body: Json, key: string): string
    requires Sent(body, key)
  {
    Strip(PyStr(FieldOf(body, key).value))
  }

  /** No model validators beyond the declared ones. */
  function NoExtra(t: string): seq<string> {
    []
  }

  /**
   * A `ChoiceField`: the value's string form must be one of the choices (or empty, where
   * blanks are allowed); it is not trimmed.
   */
  function ChoiceField(f: Field, required: bool, allowBlank: bool, choices: set<string>): (r: FieldResult<string>)
    ensures !f.Given? ==> r == Missing(f, required)
    ensures r.Skipped? ==> f.Absent?
    ensures f.Given? && r.Clean? ==> r.value == PyStr(f.value) && (r.value in choices || (allowBlank && f.value == JStr("")))
    ensures f.Given? && f.value.JStr? ==>
              r == (if f.value.s in choices || (allowBlank && f.value.s == "") then Clean(f.value.s)
                    else Invalid([InvalidChoiceMessage(f.value.s)]))
  {
    match f
    case Given(v) =>
      if v == JStr("") && allowBlank then Clean("")
      else if PyStr(v) in choices then Clean(PyStr(v))
      else Invalid([InvalidChoiceMessage(PyStr(v))])
    case _ => Missing(f, required)
  }

  /** The integer a JSON value spells: a number, or a string of digits around whitespace. */
  function IntOf(v: Json): Option<int> {
    match v
    case JNum(n) => Some(n)
    case JStr(s) => if Strip(s) != [] && AllDigits(Strip(s)) then Some(DigitsValue(Strip(s))) else None
    case _ => None
  }

  /** An `IntegerField` with optional bounds; `null` is the value `None` where admitted. */
  function IntegerField(f: Field, required: bool, allowNull: bool, min: Option<int>, max: Option<int>): (r: FieldResult<Option<int>>)
    ensures f.Absent? ==> r == (if required then Invalid([RequiredMessage]) else Skipped)
    ensures r.Skipped? ==> f.Absent?
    ensures f.Null? ==> r == (if allowNull then Clean(None) else Invalid([NullMessage]))
    ensures f.Given? && r.Clean? ==> IntOf(f.value).Some? && r.value == IntOf(f.value)
    ensures f.Given? && IntOf(f.value).None? ==> r == Invalid([NotAnIntegerMessage])
    ensures r.Clean? && r.value.Some? ==>
              (min.None? || r.value.value >= min.value) && (max.None? || r.value.value <= max.value)
  {
    match f
    case Absent => if required then Invalid([RequiredMessage]) else Skipped
    case Null => if allowNull then Clean(None) else Invalid([NullMessage])
    case Given(v) =>
      match IntOf(v)
      case None => Invalid([NotAnIntegerMessage])
      case Some(n) =>
        var errors := (if min.Some? && n < min.value then [MinValueMessage(min.value)] else [])
                      + (if max.Some? && n > max.value then [MaxValueMessage(max.value)] else []);
        if errors == [] then Clean(Some(n)) else Invalid(errors)
  }

  /** The strings DRF's `BooleanField` reads as true or as false. */
  const TrueStrings: set<string> := {"t", "T", "y", "Y", "yes", "Yes", "YES", "true", "True", "TRUE", "on", "On", "ON", "1"}
  const FalseStrings: set<string> := {"f", "F", "n", "N", "no", "No", "NO", "false", "False", "FALSE", "off", "Off", "OFF", "0"}

  /** A `BooleanField` that does not admit `null`: a boolean, `0`/`1`, or a string spelling one. */
  function BooleanField(f: Field, required: bool): (r: FieldResult<bool>)
    ensures !f.Given? ==> r == Missing(f, required)
    ensures r.Skipped? ==> f.Absent?
    ensures f.Given? && f.value.JBool? ==> r == Clean(f.value.b)
    ensures f.Given? && r.Clean? ==>
              (r.value <==> f.value in {JBool(true), JNum(1)} || (f.value.JStr? && f.value.s in TrueStrings))
  {
    match f
    case Given(JBool(b)) => Clean(b)
    case Given(JNum(n)) => if n == 1 then Clean(true) else if n == 0 then Clean(false) else Invalid([NotABooleanMessage])
    case Given(JStr(s)) =>
      if s in TrueStrings then Clean(true) else if s in FalseStrings then Clean(false) else Invalid([NotABooleanMessage])
    case Given(_) => Invalid([NotABooleanMessage])
    case _ => Missing(f, required)
  }

  /** The error entry a field contributes to the body's errors, if any. */
  function ErrorsOf<T>(name: string, r: FieldResult<T>): (e: seq<(string, seq<string>)>)
    ensures e == [] <==> !r.Invalid?
    ensures r.Invalid? ==> e == [(name, r.messages)]
  {
    if r.Invalid? then [(name, r.messages)] else []
  }

  /** The value a validated field contributes, or `default` when it was not sent. */
  function ValueOr<T>(r: FieldResult<T>, default: T): T
    requires !r.Invalid?
  {
    if r.Clean? then r.value else default
  }

  /** A 400 body: each field name mapped to its list of messages. */
  function ErrorsJson(errors: seq<(string, seq<string>)>): (j: Json)
    ensures j.JObj? && |j.entries| == |errors|
    ensures forall i :: 0 <= i < |errors| ==> j.entries[i] == (errors[i].0, StrArray(errors[i].1))
  {
    JObj(seq(|errors|, i requires 0 <= i < |errors| => (errors[i].0, StrArray(errors[i].1))))
  }

  /** An HTTP response: the status code and the JSON body. */
  datatype Response = Response(status: nat, body: Json)

  /** A body holding one message under `key`, as `{'error': ...}` or `{'message': ...}`. */
  function MessageBody(key: string, text: string): Json {
    JObj([(key, JStr(text))])
  }

  /** The 401 the `IsAuthenticated` permission answers an anonymous request with. */
  const NotAuthenticated: Response := Response(401, MessageBody("detail", "Authentication credentials were not provided."))

  /** The 400 answering a body whose validation failed. */
  function BadRequest(errors: seq<(string, seq<string>)>): Response {
    Response(400, ErrorsJson(errors))
  }

  /** A blank or whitespace-only string never passes a field that refuses blanks. */
  lemma BlankRefused(s: string, rules: TextRules, extra: string -> seq<string>)
    requires !rules.allowBlank && AllOf(IsPyWhitespace, s)
    ensures TextField(Given(JStr(s)), rules, extra) == Invalid([BlankMessage])
  {
    TrimEmptyIff(IsPyWhitespace, s);
  }

  /** A clean text value is already trimmed: validating it again gives it back. */
  lemma TextValueIdempotent(s: string, rules: TextRules, extra: string -> seq<string>)
    requires TextValue(s, rules, extra).Clean?
    ensures TextValue(TextValue(s, rules, extra).value, rules, extra) == TextValue(s, rules, extra)
  {
    TrimIdempotent(IsPyWhitespace, s);
  }
}
