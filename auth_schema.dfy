/**
 The request-body schemas of the login gateway (`loginSchema`, `registerSchema`)
 and joi's validation of a body against them with `abortEarly: false` (every
 violation is reported) and `stripUnknown: true` (undeclared keys are dropped
 from the cleaned value).

 Every field of both schemas is a required string with one further rule: an
 email format or a length range. For one field joi checks, in this order,
 presence, the string type and non-emptiness, and ends the field at the first
 of these that fails. Otherwise it runs every rule of the field, but `min` and
 `max` cannot both fail when the minimum is at most the maximum, as in both
 schemas, so a field yields at most one violation. Fields are checked in
 declaration order.
 */
module AuthSchema {
  import opened Wrappers

  /** A JSON value of the body, as far as a `joi.string()` field can tell:
      a string, or anything else (number, boolean, null, array, object). */
  datatype Json = JString(text: string) | NonString

  /** A parsed JSON object body. A key that is absent is `undefined` in the source. */
  type Body = map<string, Json>

  /** joi's email-format test, whose grammar is not part of this model. */
  type EmailCheck = string -> bool

  /** The rule a string field carries after `joi.string()` and `.required()`. */
  datatype Rule =
    | EmailFormat                       // .email()
    | LengthBetween(min: nat, max: nat) // .min(min).max(max)

  datatype Field = Field(key: string, rule: Rule)

  /** The fields of a `joi.object({...})`, in declaration order. */
  type Schema = seq<Field>

  /** The joi error types a string field can raise here. */
  datatype Kind =
    | Required           // any.required
    | NotAString         // string.base
    | Empty              // string.empty
    | NotAnEmail         // string.email
    | TooShort(limit: nat) // string.min
    | TooLong(limit: nat)  // string.max

  /** One entry of `error.details`. */
  datatype Violation = Violation(key: string, kind: Kind)

  /** The result of `schema.validate(body, options)`: the details (an error is
      reported exactly when there is at least one) and the cleaned value. */
  datatype Validation = Validation(details: seq<Violation>, value: Body)

  const MinPasswordLength: nat := 6
  const MaxPasswordLength: nat := 128

  const EmailField: Field := Field("email", EmailFormat)
  const PasswordField: Field := Field("password", LengthBetween(MinPasswordLength, MaxPasswordLength))
  const ConfirmPasswordField: Field := Field("confirmPassword", LengthBetween(MinPasswordLength, MaxPasswordLength))

  const LoginSchema: Schema := [EmailField, PasswordField]
  const RegisterSchema: Schema := [EmailField, PasswordField, ConfirmPasswordField]

  // ---------------------------------------------------------------------------
  // String length as JavaScript counts it

  /** `s.length` in JavaScript: the number of UTF-16 code units, so a character
      outside the Basic Multilingual Plane counts twice. */
  function Utf16Length(s: string): (n: nat)
    ensures |s| <= n <= 2 * |s|
  {
    if s == [] then 0 else (if s[0] as int >= 0x1_0000 then 2 else 1) + Utf16Length(s[1..])
  }

  /** Every character of `s` is a single UTF-16 code unit. */
  predicate InBmp(s: string) {
    forall i | 0 <= i < |s| :: s[i] as int < 0x1_0000
  }

  lemma {:induction false} Utf16LengthInBmp(s: string)
    ensures Utf16Length(s) == |s| <==> InBmp(s)
  {
    if s != [] {
      Utf16LengthInBmp(s[1..]);
      assert InBmp(s) <==> s[0] as int < 0x1_0000 && InBmp(s[1..]) by {
        if InBmp(s[1..]) && s[0] as int < 0x1_0000 {
          forall i | 0 <= i < |s| ensures s[i] as int < 0x1_0000 {
            if i > 0 { assert s[i] == s[1..][i - 1]; }
          }
        }
        if InBmp(s) {
          forall i | 0 <= i < |s[1..]| ensures s[1..][i] as int < 0x1_0000 {
            assert s[1..][i] == s[i + 1];
          }
        }
      }
    }
  }

  // ---------------------------------------------------------------------------
  // One field

  /** What the rule demands of a non-empty string. */
  predicate RuleHolds(rule: Rule, s: string, isEmail: EmailCheck) {
    match rule
    case EmailFormat => isEmail(s)
    case LengthBetween(lo, hi) => lo <= Utf16Length(s) <= hi
  }

  /** The body satisfies the field: the key is present, holds a non-empty
      string, and that string satisfies the field's rule. */
  predicate Accepts(field: Field, body: Body, isEmail: EmailCheck) {
    && field.key in body
    && body[field.key].JString?
    && body[field.key].text != ""
    && RuleHolds(field.rule, body[field.key].text, isEmail)
  }

  /** The rule's own check on a non-empty string. For a length range whose
      minimum exceeds its maximum, joi would report both bounds; this check
      reports only the minimum, and no schema here has such a range. */
  function CheckRule(rule: Rule, s: string, isEmail: EmailCheck): (r: Option<Kind>)
    ensures r.None? <==> RuleHolds(rule, s, isEmail)
    ensures r.Some? && rule.EmailFormat? ==> r.value == NotAnEmail
    ensures r.Some? && rule.LengthBetween? ==>
      (r.value == TooShort(rule.min) && Utf16Length(s) < rule.min) ||
      (r.value == TooLong(rule.max) && rule.min <= Utf16Length(s) && rule.max < Utf16Length(s))
  {
    match rule
    case EmailFormat => if isEmail(s) then None else Some(NotAnEmail)
    case LengthBetween(lo, hi) =>
      var n := Utf16Length(s);
      if n < lo then Some(TooShort(lo))
      else if hi < n then Some(TooLong(hi))
      else None
  }

  /** joi's check of one field: the first of presence, type, emptiness and
      the rule that fails, if any. */
  function CheckField(field: Field, body: Body, isEmail: EmailCheck): (r: Option<Violation>)
    ensures r.None? <==> Accepts(field, body, isEmail)
    ensures r.Some? ==> r.value.key == field.key
    ensures r.Some? && r.value.kind == Required <==> field.key !in body
    ensures r.Some? && r.value.kind == NotAString <==> field.key in body && body[field.key].NonString?
    ensures field.key in body && body[field.key] == JString("") ==> r == Some(Violation(field.key, Empty))
    ensures field.key in body && body[field.key].JString? && body[field.key].text != "" && r.Some? ==>
              r.value.kind == CheckRule(field.rule, body[field.key].text, isEmail).value
  {
    if field.key !in body then Some(Violation(field.key, Required))
    else match body[field.key]
      case NonString => Some(Violation(field.key, NotAString))
      case JString(s) =>
        if s == "" then Some(Violation(field.key, Empty))
        else match CheckRule(field.rule, s, isEmail)
          case None => None
          case Some(kind) => Some(Violation(field.key, kind))
  }

  // ---------------------------------------------------------------------------
  // A whole schema

  /** The keys a schema declares. */
  function Keys(schema: Schema): (ks: set<string>)
    ensures forall i | 0 <= i < |schema| :: schema[i].key in ks
    ensures forall k | k in ks :: exists i :: 0 <= i < |schema| && schema[i].key == k
  {
    set i | 0 <= i < |schema| :: schema[i].key
  }

  /** `error.details` under `abortEarly: false`: the violation of every field
      that has one, in declaration order. */
  function Violations(schema: Schema, body: Body, isEmail: EmailCheck): (vs: seq<Violation>)
    ensures |vs| <= |schema|
  {
    if schema == [] then []
    else
      var rest := Violations(schema[1..], body, isEmail);
      match CheckField(schema[0], body, isEmail)
      case None => rest
      case Some(v) => [v] + rest
  }

  /** The cleaned value under `stripUnknown: true`: the body with every key the
      schema does not declare removed. */
  function Strip(schema: Schema, body: Body): (clean: Body)
    ensures clean.Keys <= Keys(schema)
    ensures forall k | k in clean :: k in body && clean[k] == body[k]
    ensures forall k | k in body && k in Keys(schema) :: k in clean
  {
    if schema == [] then map[]
    else
      var rest := Strip(schema[1..], body);
      assert Keys(schema) == {schema[0].key} + Keys(schema[1..]) by {
        forall k | k in Keys(schema[1..]) ensures k in Keys(schema) {
          var i :| 0 <= i < |schema[1..]| && schema[1..][i].key == k;
          assert schema[i + 1].key == k;
        }
        forall k | k in Keys(schema) && k != schema[0].key ensures k in Keys(schema[1..]) {
          var i :| 0 <= i < |schema| && schema[i].key == k;
          assert schema[1..][i - 1].key == k;
        }
      }
      if schema[0].key in body then rest[schema[0].key := body[schema[0].key]] else rest
  }

  function Validate(schema: Schema, body: Body, isEmail: EmailCheck): (r: Validation)
    ensures r.value.Keys <= Keys(schema)
    ensures r.details == [] <==> forall i | 0 <= i < |schema| :: Accepts(schema[i], body, isEmail)
  {
    ViolationsEmptyIff(schema, body, isEmail);
    Validation(Violations(schema, body, isEmail), Strip(schema, body))
  }

  // ---------------------------------------------------------------------------
  // Properties of the validator

  /** No error is reported exactly when every declared field is accepted. */
  lemma {:induction false} ViolationsEmptyIff(schema: Schema, body: Body, isEmail: EmailCheck)
    ensures Violations(schema, body, isEmail) == [] <==>
            forall i | 0 <= i < |schema| :: Accepts(schema[i], body, isEmail)
  {
    if schema != [] {
      ViolationsEmptyIff(schema[1..], body, isEmail);
      if forall i | 0 <= i < |schema[1..]| :: Accepts(schema[1..][i], body, isEmail) {
        forall i | 1 <= i < |schema| ensures Accepts(schema[i], body, isEmail) {
          assert schema[i] == schema[1..][i - 1];
        }
      }
      if forall i | 0 <= i < |schema| :: Accepts(schema[i], body, isEmail) {
        forall i | 0 <= i < |schema[1..]| ensures Accepts(schema[1..][i], body, isEmail) {
          assert schema[1..][i] == schema[i + 1];
        }
      }
    }
  }

  /** The details of a schema made of two parts are those of the first part
      followed by those of the second: violations come in declaration order. */
  lemma {:induction false} ViolationsAppend(s1: Schema, s2: Schema, body: Body, isEmail: EmailCheck)
    ensures Violations(s1 + s2, body, isEmail) == Violations(s1, body, isEmail) + Violations(s2, body, isEmail)
  {
    if s1 == [] {
      assert s1 + s2 == s2;
    } else {
      assert (s1 + s2)[0] == s1[0];
      assert (s1 + s2)[1..] == s1[1..] + s2;
      ViolationsAppend(s1[1..], s2, body, isEmail);
    }
  }

  /** Every field that fails is reported: not only the first one. */
  lemma {:induction false} ViolationsComplete(schema: Schema, body: Body, isEmail: EmailCheck, i: nat)
    requires i < |schema|
    requires !Accepts(schema[i], body, isEmail)
    ensures CheckField(schema[i], body, isEmail).value in Violations(schema, body, isEmail)
  {
    if i > 0 {
      assert schema[i] == schema[1..][i - 1];
      ViolationsComplete(schema[1..], body, isEmail, i - 1);
    }
  }

  /** Every reported violation is that of some declared field. */
  lemma {:induction false} ViolationsSound(schema: Schema, body: Body, isEmail: EmailCheck, v: Violation)
    requires v in Violations(schema, body, isEmail)
    ensures exists i :: 0 <= i < |schema| && CheckField(schema[i], body, isEmail) == Some(v)
  {
    var rest := Violations(schema[1..], body, isEmail);
    if v in rest {
      ViolationsSound(schema[1..], body, isEmail, v);
      var i :| 0 <= i < |schema[1..]| && CheckField(schema[1..][i], body, isEmail) == Some(v);
      assert schema[1..][i] == schema[i + 1];
    } else {
      assert CheckField(schema[0], body, isEmail) == Some(v);
    }
  }

  /** Two bodies that agree on the declared keys get the same details: keys
      the schema does not declare have no effect on validation. */
  lemma {:induction false} ViolationsIgnoreUndeclared(schema: Schema, b1: Body, b2: Body, isEmail: EmailCheck)
    requires forall k | k in Keys(schema) :: (k in b1 <==> k in b2) && (k in b1 ==> b1[k] == b2[k])
    ensures Violations(schema, b1, isEmail) == Violations(schema, b2, isEmail)
  {
    if schema != [] {
      forall k | k in Keys(schema[1..]) ensures k in Keys(schema) {
        var i :| 0 <= i < |schema[1..]| && schema[1..][i].key == k;
        assert schema[i + 1].key == k;
      }
      ViolationsIgnoreUndeclared(schema[1..], b1, b2, isEmail);
      assert CheckField(schema[0], b1, isEmail) == CheckField(schema[0], b2, isEmail);
    }
  }

  /** Validating the cleaned value again reports the same details and keeps
      the same value: stripping is idempotent. */
  lemma ValidateCleanedValue(schema: Schema, body: Body, isEmail: EmailCheck)
    ensures var clean := Validate(schema, body, isEmail).value;
            Validate(schema, clean, isEmail) == Validate(schema, body, isEmail)
  {
    var clean := Strip(schema, body);
    ViolationsIgnoreUndeclared(schema, clean, body, isEmail);
    var again := Strip(schema, clean);
    assert again.Keys == clean.Keys;
    assert forall k | k in again :: again[k] == clean[k];
    assert again == clean;
  }

  // ---------------------------------------------------------------------------
  // Detail messages (joi's default English templates)

  function Quoted(key: string): (quoted: string) {
    "\"" + key + "\""
  }

  function Digit(d: nat): (c: char)
    requires d < 10
  {
    "0123456789"[d]
  }

  /** The decimal numeral of `n`, as the templates render a limit. */
  function Decimal(n: nat): (s: string)
    ensures |s| >= 1
    decreases n
  {
    if n < 10 then [Digit(n)] else Decimal(n / 10) + [Digit(n % 10)]
  }

  /** `detail.message` of a violation. */
  function Message(v: Violation): (m: string)
    ensures Quoted(v.key) <= m
  {
    Quoted(v.key) +
      match v.kind
      case Required => " is required"
      case NotAString => " must be a string"
      case Empty => " is not allowed to be empty"
      case NotAnEmail => " must be a valid email"
      case TooShort(limit) => " length must be at least " + Decimal(limit) + " characters long"
      case TooLong(limit) => " length must be less than or equal to " + Decimal(limit) + " characters long"
  }

  /** `error.details.map(detail => detail.message)`. */
  function Messages(vs: seq<Violation>): (ms: seq<string>)
    ensures |ms| == |vs|
    ensures forall i | 0 <= i < |vs| :: ms[i] == Message(vs[i])
  {
    if vs == [] then [] else [Message(vs[0])] + Messages(vs[1..])
  }

  // ---------------------------------------------------------------------------
  // The two schemas

  /** What `loginSchema` demands, field by field. */
  predicate LoginPayloadValid(body: Body, isEmail: EmailCheck) {
    && "email" in body && body["email"].JString? && body["email"].text != ""
    && isEmail(body["email"].text)
    && "password" in body && body["password"].JString?
    && MinPasswordLength <= Utf16Length(body["password"].text) <= MaxPasswordLength
  }

  /** A login body passes validation exactly when the email is a present,
      non-empty string in email format and the password is a present string
      of 6 to 128 characters. */
  lemma LoginValidation(body: Body, isEmail: EmailCheck)
    ensures Validate(LoginSchema, body, isEmail).details == [] <==> LoginPayloadValid(body, isEmail)
  {
    assert LoginSchema[0] == EmailField && LoginSchema[1] == PasswordField;
  }

  /** The cleaned login value holds at most `email` and `password`; the cleaned
      register value at most `email`, `password` and `confirmPassword`. */
  lemma CleanedKeysDeclared(body: Body, isEmail: EmailCheck)
    ensures Validate(LoginSchema, body, isEmail).value.Keys <= {"email", "password"}
    ensures Validate(RegisterSchema, body, isEmail).value.Keys <= {"email", "password", "confirmPassword"}
  {
  }

  /** An empty login body is reported with both missing fields, in order,
      not only with the first. */
  lemma EmptyLoginBodyReportsBothFields(isEmail: EmailCheck)
    ensures Validate(LoginSchema, map[], isEmail).details ==
            [Violation("email", Required), Violation("password", Required)]
    ensures Messages(Validate(LoginSchema, map[], isEmail).details) ==
            ["\"email\" is required", "\"password\" is required"]
  {
    assert LoginSchema[1..] == [PasswordField];
    assert LoginSchema[1..][1..] == [];
    assert Violations([PasswordField], map[], isEmail) == [Violation("password", Required)];
    var vs := Validate(LoginSchema, map[], isEmail).details;
    assert vs == [Violation("email", Required), Violation("password", Required)];
    assert Messages(vs) == [Message(vs[0]), Message(vs[1])];
    assert Message(vs[0]) == Quoted("email") + " is required" == "\"email\" is required";
    assert Message(vs[1]) == Quoted("password") + " is required" == "\"password\" is required";
  }

  /** The password check, on the length JavaScript reports. */
  lemma PasswordLengthBounds(body: Body, isEmail: EmailCheck)
    requires "password" in body && body["password"].JString?
    ensures var n := Utf16Length(body["password"].text);
            && (Accepts(PasswordField, body, isEmail) <==> 6 <= n <= 128)
            && (n == 0 ==> CheckField(PasswordField, body, isEmail) == Some(Violation("password", Empty)))
            && (0 < n < 6 ==> CheckField(PasswordField, body, isEmail) == Some(Violation("password", TooShort(6))))
            && (128 < n ==> CheckField(PasswordField, body, isEmail) == Some(Violation("password", TooLong(128))))
  {
  }

  /** The boundaries on plain (single code unit) characters: 5 and 129 are
      rejected, 6 and 128 accepted. */
  lemma PasswordLengthBoundaries(s: string, isEmail: EmailCheck)
    requires InBmp(s)
    ensures var body := map["password" := JString(s)];
            && (|s| == 5 ==> !Accepts(PasswordField, body, isEmail))
            && (|s| == 6 ==> Accepts(PasswordField, body, isEmail))
            && (|s| == 128 ==> Accepts(PasswordField, body, isEmail))
            && (|s| == 129 ==> !Accepts(PasswordField, body, isEmail))
  {
    Utf16LengthInBmp(s);
  }

  /** Three emoji make a password of length 6: joi counts UTF-16 code units,
      not characters. */
  lemma AstralPasswordCountsTwice(isEmail: EmailCheck)
    ensures Accepts(PasswordField, map["password" := JString("\U{1F600}\U{1F600}\U{1F600}")], isEmail)
  {
  }

  /** `registerSchema` is `loginSchema` with `confirmPassword` appended: its
      email and password rules are those of login, and its details are those
      of login followed by those of `confirmPassword`, which has the same
      6 to 128 bounds as the password. */
  lemma RegisterExtendsLogin(body: Body, isEmail: EmailCheck)
    ensures RegisterSchema == LoginSchema + [ConfirmPasswordField]
    ensures ConfirmPasswordField.rule == PasswordField.rule == LengthBetween(6, 128)
    ensures Violations(RegisterSchema, body, isEmail) ==
            Violations(LoginSchema, body, isEmail) + Violations([ConfirmPasswordField], body, isEmail)
  {
  }

  /** Neither schema relates `password` to `confirmPassword`: a body whose
      email is valid and whose two passwords differ but each meet the length
      bounds passes register validation. */
  lemma RegisterDoesNotCompareConfirmation(body: Body, isEmail: EmailCheck)
    requires "email" in body && body["email"].JString? && body["email"].text != ""
    requires isEmail(body["email"].text)
    requires "password" in body && body["password"].JString?
    requires "confirmPassword" in body && body["confirmPassword"].JString?
    requires body["password"].text != body["confirmPassword"].text
    requires MinPasswordLength <= Utf16Length(body["password"].text) <= MaxPasswordLength
    requires MinPasswordLength <= Utf16Length(body["confirmPassword"].text) <= MaxPasswordLength
    ensures Validate(RegisterSchema, body, isEmail).details == []
  {
    assert Utf16Length("") == 0;
    assert Accepts(EmailField, body, isEmail);
    assert Accepts(PasswordField, body, isEmail);
    assert Accepts(ConfirmPasswordField, body, isEmail);
    assert forall i | 0 <= i < |RegisterSchema| :: Accepts(RegisterSchema[i], body, isEmail) by {
      assert RegisterSchema[0] == EmailField;
      assert RegisterSchema[1] == PasswordField;
      assert RegisterSchema[2] == ConfirmPasswordField;
    }
  }

  /** The email field's reports: an empty string is "not allowed to be empty",
      a non-empty string in the wrong format "must be a valid email", and any
      other non-empty string is accepted. */
  lemma EmailFieldReports(body: Body, isEmail: EmailCheck)
    requires "email" in body && body["email"].JString?
    ensures var email := body["email"].text;
            && (email == "" ==> CheckField(EmailField, body, isEmail) == Some(Violation("email", Empty)))
            && (email != "" && !isEmail(email) ==>
                  CheckField(EmailField, body, isEmail) == Some(Violation("email", NotAnEmail)))
            && (email != "" && isEmail(email) ==> CheckField(EmailField, body, isEmail) == None)
  {
  }

  /** The 400 messages for the email field's format violations. */
  lemma EmailMessages()
    ensures Message(Violation("email", Empty)) == "\"email\" is not allowed to be empty"
    ensures Message(Violation("email", NotAnEmail)) == "\"email\" must be a valid email"
  {
    var quoted := Quoted("email");
    assert quoted == "\"email\"";
    calc {
      Message(Violation("email", Empty));
      quoted + " is not allowed to be empty";
      "\"email\"" + " is not allowed to be empty";
    }
    calc {
      Message(Violation("email", NotAnEmail));
      quoted + " must be a valid email";
      "\"email\"" + " must be a valid email";
    }
  }
}
