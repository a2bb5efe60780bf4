/**
  The api-service's request validators (Zod object schemas) as predicates over a
  parsed JSON body. A body is an object whose absent keys read as `undefined`;
  unknown keys are ignored. Numbers are finite (JSON carries no NaN or Infinity).
  The e-mail format check is a parameter.
*/
module Schemas {
  import opened Wrappers
  import opened JsStrings

  datatype JsValue = Undefined | Null | Num(n: real) | Str(s: string) | Bool(b: bool) | Compound

  type Body = map<string, JsValue>

  function Field(body: Body, key: string): JsValue {
    if key in body then body[key] else Undefined
  }

  const MaxSafeInteger: real := 9007199254740991.0

  /** `z.number().int().positive()`: a safe integer greater than zero. */
  predicate PositiveInt(v: JsValue) {
    v.Num? && v.n.Floor as real == v.n && 0.0 < v.n <= MaxSafeInteger
  }

  /** `.optional()` around a field rule. */
  predicate Optional(v: JsValue, rule: JsValue -> bool) {
    v == Undefined || rule(v)
  }

  /** `.optional().nullable()` around a field rule. */
  predicate OptionalNullable(v: JsValue, rule: JsValue -> bool) {
    v == Undefined || v == Null || rule(v)
  }

  /** `z.string().min(lo).max(hi)`, lengths in UTF-16 units. */
  predicate StringOfLength(v: JsValue, lo: nat, hi: nat) {
    v.Str? && lo <= Utf16Length(v.s) <= hi
  }

  // ----- polls -----

  predicate Question(v: JsValue) {
    StringOfLength(v, 1, 255)
  }

  /** `createPollSchema`: both fields required. */
  predicate CreatePoll(body: Body): (r: bool)
    ensures r ==> "question" in body && body["question"].Str? && body["question"].s != []
    ensures r ==> "created_by" in body && body["created_by"].Num? && 1.0 <= body["created_by"].n
    ensures Field(body, "question") == Null || Field(body, "created_by") == Null ==> !r
  {
    Question(Field(body, "question")) && PositiveInt(Field(body, "created_by"))
  }

  /** `updatePollSchema`: each field optional, constrained as in create when present. */
  predicate UpdatePoll(body: Body): (r: bool)
    ensures "question" !in body && "created_by" !in body ==> r
    ensures Field(body, "question") == Null || Field(body, "created_by") == Null ==> !r
    ensures r && Field(body, "created_by") != Undefined ==> body["created_by"].Num? && 1.0 <= body["created_by"].n
  {
    Optional(Field(body, "question"), Question) && Optional(Field(body, "created_by"), PositiveInt)
  }

  // ----- votes -----

  /** `createVoteSchema`: both ids required positive integers. */
  predicate CreateVote(body: Body): (r: bool)
    ensures r ==> "poll_option_id" in body && body["poll_option_id"].Num? && 1.0 <= body["poll_option_id"].n
    ensures r ==> "user_id" in body && body["user_id"].Num? && 1.0 <= body["user_id"].n
    ensures r ==> body["user_id"].n.Floor as real == body["user_id"].n
  {
    PositiveInt(Field(body, "poll_option_id")) && PositiveInt(Field(body, "user_id"))
  }

  /** `updateVoteSchema`: each id optional. */
  predicate UpdateVote(body: Body): (r: bool)
    ensures "poll_option_id" !in body && "user_id" !in body ==> r
    ensures Field(body, "poll_option_id") == Null || Field(body, "user_id") == Null ==> !r
    ensures r && Field(body, "user_id") != Undefined ==> body["user_id"].Num? && 1.0 <= body["user_id"].n
  {
    Optional(Field(body, "poll_option_id"), PositiveInt) && Optional(Field(body, "user_id"), PositiveInt)
  }

  // ----- users -----

  predicate IsWordChar(c: char) {
    ('a' <= c <= 'z') || ('A' <= c <= 'Z') || ('0' <= c <= '9') || c == '_'
  }

  /** `z.string().min(1).max(50).regex(/^[a-zA-Z0-9_]+$/)`. */
  predicate Username(v: JsValue) {
    StringOfLength(v, 1, 50) && forall i :: 0 <= i < |v.s| ==> IsWordChar(v.s[i])
  }

  /** `z.string().email().max(255)`. */
  predicate Email(v: JsValue, isEmail: string -> bool) {
    v.Str? && isEmail(v.s) && Utf16Length(v.s) <= 255
  }

  predicate FullName(v: JsValue) {
    StringOfLength(v, 0, 255)
  }

  /** `z.string().regex(/^\d+$/).max(20)`. */
  predicate TelegramId(v: JsValue) {
    v.Str? && v.s != [] && AllDigits(v.s) && Utf16Length(v.s) <= 20
  }

  /** `createUserSchema`: username and email required; full name and Telegram id may be
      absent or null. */
  predicate CreateUser(body: Body, isEmail: string -> bool): (r: bool)
    ensures r ==> "username" in body && body["username"].Str? && 1 <= |body["username"].s| <= 50
    ensures r ==> "email" in body && body["email"].Str? && isEmail(body["email"].s)
    ensures (Username(Field(body, "username")) && Email(Field(body, "email"), isEmail)
             && Field(body, "full_name") == Null && Field(body, "telegram_id") == Null) ==> r
    ensures Field(body, "telegram_id") == Str("") ==> !r
  {
    && Username(Field(body, "username"))
    && Email(Field(body, "email"), isEmail)
    && OptionalNullable(Field(body, "full_name"), FullName)
    && OptionalNullable(Field(body, "telegram_id"), TelegramId)
  }

  /** `updateUserSchema`: every field optional; username and email are not nullable. */
  predicate UpdateUser(body: Body, isEmail: string -> bool): (r: bool)
    ensures "username" !in body && "email" !in body && "full_name" !in body && "telegram_id" !in body ==> r
    ensures Field(body, "username") == Null || Field(body, "email") == Null ==> !r
    ensures ("username" !in body && "email" !in body && Field(body, "full_name") == Null
             && Field(body, "telegram_id") == Null) ==> r
    ensures r && Field(body, "email") != Undefined ==> body["email"].Str? && isEmail(body["email"].s)
  {
    && Optional(Field(body, "username"), Username)
    && Optional(Field(body, "email"), v => Email(v, isEmail))
    && OptionalNullable(Field(body, "full_name"), FullName)
    && OptionalNullable(Field(body, "telegram_id"), TelegramId)
  }

  // ----- route parameters -----

  /** `paramsSchema` (the same in polls, votes and users): `id` must match `/^\d+$/`
      and is turned into `parseInt(id, 10)`. */
  function ParamsId(params: map<string, JsValue>): (r: Option<nat>)
    ensures r.Some? <==> Field(params, "id").Str? && Field(params, "id").s != [] && AllDigits(Field(params, "id").s)
    ensures r.Some? ==> ParseInt(Field(params, "id").s) == Some(r.value)
  {
    var v := Field(params, "id");
    if v.Str? && v.s != [] && AllDigits(v.s) then
      ParseIntOfDigits(v.s);
      Some(DigitsValue(v.s))
    else None
  }

  /** Every id printed in decimal is accepted and read back. */
  lemma ParamsIdRoundTrip(n: nat)
    ensures ParamsId(map["id" := Str(NatToString(n))]) == Some(n)
  {
    assert Field(map["id" := Str(NatToString(n))], "id") == Str(NatToString(n));
  }

  /** Leading zeros are accepted ("007" is 7, "0" is 0); a sign or a letter is not. */
  lemma ParamsIdExamples()
    ensures ParamsId(map["id" := Str("007")]) == Some(7)
    ensures ParamsId(map["id" := Str("0")]) == Some(0)
    ensures ParamsId(map["id" := Str("invalid")]).None?
    ensures ParamsId(map["id" := Str("-1")]).None?
    ensures ParamsId(map["id" := Num(1.0)]).None?
  {
    assert Field(map["id" := Str("007")], "id") == Str("007");
    assert "0"[..0] == [];
    assert DigitsValue("0") == 0;
    assert "00"[..1] == "0";
    assert DigitsValue("00") == 0;
    assert "007"[..2] == "00";
    assert DigitsValue("007") == 7;
    assert Field(map["id" := Str("0")], "id") == Str("0");
    assert Field(map["id" := Num(1.0)], "id") == Num(1.0);
    assert Field(map["id" := Str("invalid")], "id") == Str("invalid");
    assert !IsDigit("invalid"[0]);
    assert Field(map["id" := Str("-1")], "id") == Str("-1");
    assert !IsDigit("-1"[0]);
  }

  /** A body valid for creation is valid for update: update only relaxes presence. */
  lemma CreateImpliesUpdate(body: Body, isEmail: string -> bool)
    ensures CreatePoll(body) ==> UpdatePoll(body)
    ensures CreateVote(body) ==> UpdateVote(body)
    ensures CreateUser(body, isEmail) ==> UpdateUser(body, isEmail)
  {
  }

  /** The empty body is a valid update and an invalid creation. */
  lemma EmptyBody(isEmail: string -> bool)
    ensures UpdatePoll(map[]) && UpdateVote(map[]) && UpdateUser(map[], isEmail)
    ensures !CreatePoll(map[]) && !CreateVote(map[]) && !CreateUser(map[], isEmail)
  {
  }

  /** A negative option id, a missing user id or a fractional id fails vote creation. */
  lemma CreateVoteRejects(body: Body)
    ensures Field(body, "poll_option_id") == Num(-1.0) ==> !CreateVote(body)
    ensures "user_id" !in body ==> !CreateVote(body)
    ensures Field(body, "user_id") == Num(1.5) ==> !CreateVote(body)
  {
    assert (1.5).Floor == 1;
  }

  /** A valid username is plain ASCII, so its UTF-16 length is its character count. */
  lemma UsernameIsAscii(v: JsValue)
    requires Username(v)
    ensures Utf16Length(v.s) == |v.s| && 1 <= |v.s| <= 50
  {
    assert forall i :: 0 <= i < |v.s| ==> v.s[i] as int <= 0xFFFF by {
      forall i | 0 <= i < |v.s| ensures v.s[i] as int <= 0xFFFF {
        assert IsWordChar(v.s[i]);
      }
    }
  }
}
