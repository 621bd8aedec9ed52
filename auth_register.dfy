/**
 * Registration (backend/src/routes/register.ts): the presence check on the
 * three fields, the duplicate-email check, user creation, token issue, and
 * the read-back of the created user; plus `generateAccessAndRefreshToken`,
 * which stores the new refresh token on the user document and saves it.
 *
 * Every awaited database, bcrypt or JWT call is a parameter holding what it
 * returned or that it threw.
 */
module AuthRegister {
  import opened JsValues
  import Text
  import opened Express

  // ---------------------------------------------------------------------
  // Token issue

  /** The one error `generateAccessAndRefreshToken` ever throws, whatever failed. */
  const TokenFailure := "Something went wrong generating tokens"

  /** A stored user, as far as token issue is concerned. */
  datatype UserRecord = UserRecord(name: string, email: string, password: string, refreshToken: Option<string>)

  /** A user document `findById` hydrated from the store; changes stay local until saved. */
  class UserDocument {
    const id: string
    var record: UserRecord

    constructor (id: string, record: UserRecord)
      ensures this.id == id && this.record == record
    {
      this.id := id;
      this.record := record;
    }
  }

  /** The users collection, keyed by `_id`. */
  class UserCollection {
    var records: map<string, UserRecord>

    constructor (records: map<string, UserRecord>)
      ensures this.records == records
    {
      this.records := records;
    }

    /**
     * `generateAccessAndRefreshToken(userId)`. The lookup may throw
     * (`findThrows`), the two signings may throw (a None token), and the save
     * may throw (`saveThrows`). Tokens are returned exactly when the user
     * exists and nothing threw, and then the store holds the new refresh
     * token on that user and nothing else changed; on any failure the store
     * is unchanged and the error is always the same message.
     */
    method GenerateAccessAndRefreshToken(
      userId: string, findThrows: bool,
      accessToken: Option<string>, refreshToken: Option<string>, saveThrows: bool)
      returns (r: Outcome<Tokens>)
      modifies this
      ensures r.Returned? <==>
        !findThrows && userId in old(records) && accessToken.Some? && refreshToken.Some? && !saveThrows
      ensures r.Returned? ==>
        && r.value == Tokens(accessToken.value, refreshToken.value)
        && records == old(records)[userId := old(records)[userId].(refreshToken := refreshToken)]
      ensures r.Threw? ==> r == Threw(TokenFailure) && records == old(records)
    {
      if findThrows || userId !in records {
        return Threw(TokenFailure);
      }
      var user := new UserDocument(userId, records[userId]);
      if accessToken.None? || refreshToken.None? {
        return Threw(TokenFailure);
      }
      user.record := user.record.(refreshToken := refreshToken);
      if saveThrows {
        return Threw(TokenFailure);
      }
      records := records[user.id := user.record];
      return Returned(Tokens(accessToken.value, refreshToken.value));
    }
  }

  // ---------------------------------------------------------------------
  // The presence check

  /** What `[name, email, password].some(field => !field || field.trim() === "")` does. */
  datatype FieldCheck = AllPresent | SomeMissing | CheckThrew

  /** A field the check lets through: a string with a non-whitespace character. */
  predicate Passes(v: JsValue)
  {
    v.Str? && !Text.IsBlank(v.s)
  }

  /** A field the check stops at: falsy, or a string of whitespace only. */
  predicate Missing(v: JsValue)
  {
    !Truthy(v) || (v.Str? && Text.IsBlank(v.s))
  }

  /** A truthy field that is not a string has no `trim`, and calling it throws. */
  predicate Throws(v: JsValue)
  {
    Truthy(v) && !v.Str?
  }

  /** The position of the first field that does not pass (`|fields|` when all pass). */
  function FirstFailure(fields: seq<JsValue>): (k: nat)
    ensures k <= |fields|
    ensures forall j :: 0 <= j < k ==> Passes(fields[j])
    ensures k < |fields| ==> !Passes(fields[k])
    decreases |fields|
  {
    if fields == [] || !Passes(fields[0]) then 0
    else
      var k := FirstFailure(fields[1..]);
      assert forall j :: 1 <= j < k + 1 ==> fields[j] == fields[1..][j - 1];
      1 + k
  }

  /**
   * The check runs left to right and stops at the first field that does not
   * pass: the outcome is decided by that field alone.
   */
  function CheckFields(fields: seq<JsValue>): (c: FieldCheck)
    ensures c.AllPresent? <==> FirstFailure(fields) == |fields|
    ensures c.SomeMissing? <==> FirstFailure(fields) < |fields| && Missing(fields[FirstFailure(fields)])
    ensures c.CheckThrew? <==> FirstFailure(fields) < |fields| && Throws(fields[FirstFailure(fields)])
    decreases |fields|
  {
    if fields == [] then AllPresent
    else if !Truthy(fields[0]) then SomeMissing
    else if !fields[0].Str? then CheckThrew
    else if Text.Trim(fields[0].s) == [] then SomeMissing
    else
      assert Passes(fields[0]);
      var k := FirstFailure(fields[1..]);
      assert FirstFailure(fields) == k + 1;
      assert k < |fields| - 1 ==> fields[1..][k] == fields[k + 1];
      CheckFields(fields[1..])
  }

  // ---------------------------------------------------------------------
  // The handler

  const FieldsRequired := "All fields are required"
  const UserExists := "User already exists"
  const CreateFailed := "Error creating user"
  const Created := "User created successfully"

  /** Whether every awaited step of a registration succeeded. */
  predicate Completes(
    name: JsValue, email: JsValue, password: JsValue,
    existing: Outcome<bool>, created: Outcome<string>,
    tokensFor: string -> Outcome<Tokens>, findById: string -> Outcome<Option<string>>)
  {
    && CheckFields([name, email, password]).AllPresent?
    && existing == Returned(false)
    && created.Returned?
    && tokensFor(created.value).Returned?
    && findById(created.value).Returned?
    && findById(created.value).value.Some?
  }

  /**
   * The registration handler. `existing` is whether `findOne({ email })`
   * found a user, `created` the `_id` of the user `create` made, `tokensFor`
   * the token issue for an id and `findById` the read-back of an id.
   * 201 exactly when every step succeeds, and then the reply carries the
   * created user and the access token only, with no cookie; 400 exactly when
   * the presence check stops at a missing field; 409 exactly when the email
   * is taken; every other path is 500.
   */
  function Register(
    name: JsValue, email: JsValue, password: JsValue,
    existing: Outcome<bool>, created: Outcome<string>,
    tokensFor: string -> Outcome<Tokens>, findById: string -> Outcome<Option<string>>): (r: Reply)
    ensures r.status in {201, 400, 409, 500}
    ensures r.cookies == [] && r.refreshToken == None
    ensures r.success <==> r.status == 201
    ensures r.status == 400 <==> CheckFields([name, email, password]).SomeMissing?
    ensures r.status == 409 <==> CheckFields([name, email, password]).AllPresent? && existing == Returned(true)
    ensures r.status == 201 <==> Completes(name, email, password, existing, created, tokensFor, findById)
    ensures r.status == 201 ==>
      && r.message == Created
      && r.user == findById(created.value).value
      && r.accessToken == Some(tokensFor(created.value).value.access)
    ensures r.status != 201 ==> r.user == None && r.accessToken == None
    ensures r.status == 400 ==> r == Failure(400, FieldsRequired)
    ensures r.status == 409 ==> r == Failure(409, UserExists)
    ensures r == Failure(500, CreateFailed) <==>
      && CheckFields([name, email, password]).AllPresent?
      && existing == Returned(false)
      && created.Returned?
      && tokensFor(created.value).Returned?
      && findById(created.value) == Returned(None)
    ensures r.status == 500 && r.message != CreateFailed ==> r == Failure(500, ServerError)
  {
    match CheckFields([name, email, password])
    case SomeMissing => Failure(400, FieldsRequired)
    case CheckThrew => Failure(500, ServerError)
    case AllPresent =>
      match existing
      case Threw(_) => Failure(500, ServerError)
      case Returned(true) => Failure(409, UserExists)
      case Returned(false) =>
        match created
        case Threw(_) => Failure(500, ServerError)
        case Returned(id) =>
          match tokensFor(id)
          case Threw(_) => Failure(500, ServerError)
          case Returned(tokens) =>
            match findById(id)
            case Threw(_) => Failure(500, ServerError)
            case Returned(None) => Failure(500, CreateFailed)
            case Returned(Some(user)) =>
              Reply(201, true, Created, Some(user), Some(tokens.access), None, [])
  }

  /** A request that fails the presence check is answered before the database is consulted. */
  lemma PresenceCheckedBeforeDatabase(
    name: JsValue, email: JsValue, password: JsValue,
    existing1: Outcome<bool>, created1: Outcome<string>,
    tokens1: string -> Outcome<Tokens>, find1: string -> Outcome<Option<string>>,
    existing2: Outcome<bool>, created2: Outcome<string>,
    tokens2: string -> Outcome<Tokens>, find2: string -> Outcome<Option<string>>)
    requires !CheckFields([name, email, password]).AllPresent?
    ensures Register(name, email, password, existing1, created1, tokens1, find1)
         == Register(name, email, password, existing2, created2, tokens2, find2)
  {
  }

  /** A taken email is answered 409 before any user is created or token issued. */
  lemma DuplicateStopsBeforeCreate(
    name: JsValue, email: JsValue, password: JsValue,
    created1: Outcome<string>, tokens1: string -> Outcome<Tokens>, find1: string -> Outcome<Option<string>>,
    created2: Outcome<string>, tokens2: string -> Outcome<Tokens>, find2: string -> Outcome<Option<string>>)
    requires CheckFields([name, email, password]).AllPresent?
    ensures Register(name, email, password, Returned(true), created1, tokens1, find1)
         == Register(name, email, password, Returned(true), created2, tokens2, find2)
         == Failure(409, UserExists)
  {
  }

  /**
   * When the first field that does not pass is a whitespace-only string, the
   * answer is 400, whichever field it is and whatever the database would do.
   */
  lemma BlankFieldRefused(
    name: JsValue, email: JsValue, password: JsValue,
    existing: Outcome<bool>, created: Outcome<string>,
    tokensFor: string -> Outcome<Tokens>, findById: string -> Outcome<Option<string>>)
    requires FirstFailure([name, email, password]) < 3
    requires [name, email, password][FirstFailure([name, email, password])].Str?
    requires Text.IsBlank([name, email, password][FirstFailure([name, email, password])].s)
    ensures Register(name, email, password, existing, created, tokensFor, findById) == Failure(400, FieldsRequired)
  {
    assert Missing([name, email, password][FirstFailure([name, email, password])]);
  }

  /**
   * When the first field that does not pass is a non-zero number, its `trim`
   * throws: the answer is 500 "Server error", not 400, whatever the database
   * would do.
   */
  lemma NumberFieldIsServerError(
    x: real, name: JsValue, email: JsValue, password: JsValue,
    existing: Outcome<bool>, created: Outcome<string>,
    tokensFor: string -> Outcome<Tokens>, findById: string -> Outcome<Option<string>>)
    requires x != 0.0
    requires FirstFailure([name, email, password]) < 3
    requires [name, email, password][FirstFailure([name, email, password])] == Number(x)
    ensures Register(name, email, password, existing, created, tokensFor, findById) == Failure(500, ServerError)
  {
    assert Throws(Number(x));
  }
}
