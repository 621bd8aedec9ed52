/**
 * The token check `GET /verify` (backend/src/routes/verify.ts): the token
 * comes from the `accessToken` cookie or else from the `Authorization`
 * header; a missing token, a token that does not verify, and a verified
 * token without a user are all 401, and only the last rung is 200.
 *
 * `jwt.verify` with the access-token secret is the parameter `jwtVerify`,
 * `User.findById(...).select(...)` the parameter `findUser`.
 */
module AuthVerify {
  import opened JsValues
  import Text
  import opened Express

  const BearerPrefix := "Bearer "

  /** What `jwt.verify` gives: the payload's `_id`, or a throw. */
  datatype JwtOutcome = Invalid | Decoded(userId: string)

  /**
   * `req.cookies?.accessToken || req.header("Authorization")?.replace("Bearer ", "")`.
   * A non-empty cookie wins; otherwise the header with its first "Bearer "
   * removed, wherever it occurs; without a header, nothing.
   */
  function RequestToken(cookie: Option<string>, authorization: Option<string>): (t: Option<string>)
    ensures PresentText(cookie) ==> t == cookie
    ensures !PresentText(cookie) && authorization.None? ==> t == None
    ensures !PresentText(cookie) && authorization.Some? ==>
      t == Some(Text.ReplaceFirst(authorization.value, BearerPrefix, ""))
    ensures !PresentText(cookie) && authorization.Some? && Text.OccursAt(authorization.value, BearerPrefix, 0) ==>
      t == Some(authorization.value[|BearerPrefix|..])
    ensures !PresentText(cookie) && authorization.Some? && (forall j :: !Text.OccursAt(authorization.value, BearerPrefix, j)) ==>
      t == authorization
  {
    if PresentText(cookie) then cookie
    else if authorization.None? then None
    else
      var h := authorization.value;
      assert Text.OccursAt(h, BearerPrefix, 0) ==> h[..0] + "" + h[|BearerPrefix|..] == h[|BearerPrefix|..];
      Some(Text.ReplaceFirst(h, BearerPrefix, ""))
  }

  /**
   * "Bearer " is removed where it first occurs, even in the middle of the
   * header: text in front of it that holds no 'B' is kept, and so is the rest.
   */
  lemma BearerRemovedWhereverItOccurs(front: string, back: string)
    requires forall i :: 0 <= i < |front| ==> front[i] != 'B'
    ensures RequestToken(None, Some(front + BearerPrefix + back)) == Some(front + back)
  {
    var h := front + BearerPrefix + back;
    var k := |front|;
    assert h[k .. k + |BearerPrefix|] == BearerPrefix;
    NoEarlierPrefix(front, back);
    FirstOccurrenceReplaced(h, BearerPrefix, k);
    assert h[..k] == front;
    assert h[k + |BearerPrefix|..] == back;
  }

  /** Text without a 'B' holds no start of "Bearer ". */
  lemma NoEarlierPrefix(front: string, back: string)
    requires forall i :: 0 <= i < |front| ==> front[i] != 'B'
    ensures forall j :: 0 <= j < |front| ==> !Text.OccursAt(front + BearerPrefix + back, BearerPrefix, j)
  {
    var h := front + BearerPrefix + back;
    forall j | 0 <= j < |front| ensures !Text.OccursAt(h, BearerPrefix, j) {
      assert h[j] == front[j];
      if j + |BearerPrefix| <= |h| {
        assert h[j .. j + |BearerPrefix|][0] == h[j];
      }
    }
  }

  /** Replacing the first occurrence, once it is known where it is. */
  lemma FirstOccurrenceReplaced(s: string, pat: string, k: nat)
    requires Text.OccursAt(s, pat, k)
    requires forall j :: 0 <= j < k ==> !Text.OccursAt(s, pat, j)
    ensures Text.ReplaceFirst(s, pat, "") == s[..k] + s[k + |pat|..]
  {
    assert Text.IndexOfFrom(s, pat, 0) == Some(k);
  }

  /** Only the first "Bearer " goes: a doubled prefix leaves one behind. */
  lemma DoubledPrefixLeavesOne(back: string)
    ensures RequestToken(None, Some(BearerPrefix + BearerPrefix + back)) == Some(BearerPrefix + back)
  {
    var h := BearerPrefix + BearerPrefix + back;
    assert h[..|BearerPrefix|] == BearerPrefix;
    assert Text.OccursAt(h, BearerPrefix, 0);
    assert h[|BearerPrefix|..] == BearerPrefix + back;
  }

  const TokenMissing := "Unauthorized: Token missing"
  const VerificationFailed := "Token verification failed"
  const InvalidToken := "Invalid access token"
  const TokenValid := "Token valid"

  /**
   * The handler. 200 exactly when a token is present, verifies, and names an
   * existing user; every other path is 401: a missing token before any
   * verification, a user lookup that finds nothing, and anything that
   * throws (verification or the database).
   */
  function Verify(cookie: Option<string>, authorization: Option<string>,
                  jwtVerify: string -> JwtOutcome, findUser: string -> Outcome<Option<string>>): (r: Reply)
    ensures r.status == 200 || r.status == 401
    ensures r.status == 200 <==>
      var t := RequestToken(cookie, authorization);
      && PresentText(t)
      && jwtVerify(t.value).Decoded?
      && findUser(jwtVerify(t.value).userId).Returned?
      && findUser(jwtVerify(t.value).userId).value.Some?
    ensures r.status == 200 ==>
      var t := RequestToken(cookie, authorization);
      r == Reply(200, true, TokenValid, findUser(jwtVerify(t.value).userId).value, None, None, [])
    ensures !PresentText(RequestToken(cookie, authorization)) ==> r == Failure(401, TokenMissing)
    ensures PresentText(RequestToken(cookie, authorization)) && jwtVerify(RequestToken(cookie, authorization).value).Invalid? ==>
      r == Failure(401, VerificationFailed)
    ensures
      var t := RequestToken(cookie, authorization);
      PresentText(t) && jwtVerify(t.value).Decoded? && findUser(jwtVerify(t.value).userId).Threw? ==>
        r == Failure(401, VerificationFailed)
    ensures
      var t := RequestToken(cookie, authorization);
      PresentText(t) && jwtVerify(t.value).Decoded? && findUser(jwtVerify(t.value).userId) == Returned(None) ==>
        r == Failure(401, InvalidToken)
  {
    var token := RequestToken(cookie, authorization);
    if !PresentText(token) then Failure(401, TokenMissing)
    else match jwtVerify(token.value)
      case Invalid => Failure(401, VerificationFailed)
      case Decoded(userId) =>
        match findUser(userId)
        case Threw(_) => Failure(401, VerificationFailed)
        case Returned(None) => Failure(401, InvalidToken)
        case Returned(Some(user)) => Reply(200, true, TokenValid, Some(user), None, None, [])
  }

  /** Without a token the answer is settled before verification: the oracles do not matter. */
  lemma MissingTokenNeedsNoVerification(
    cookie: Option<string>, authorization: Option<string>,
    jwt1: string -> JwtOutcome, find1: string -> Outcome<Option<string>>,
    jwt2: string -> JwtOutcome, find2: string -> Outcome<Option<string>>)
    requires !PresentText(RequestToken(cookie, authorization))
    ensures Verify(cookie, authorization, jwt1, find1) == Verify(cookie, authorization, jwt2, find2)
  {
  }

  /** A non-empty cookie takes precedence: the `Authorization` header is then irrelevant. */
  lemma CookieTakesPrecedence(
    cookie: string, header1: Option<string>, header2: Option<string>,
    jwtVerify: string -> JwtOutcome, findUser: string -> Outcome<Option<string>>)
    requires cookie != ""
    ensures Verify(Some(cookie), header1, jwtVerify, findUser) == Verify(Some(cookie), header2, jwtVerify, findUser)
  {
  }

  /**
   * A verified token whose user is gone gives 401 "Invalid access token",
   * wherever the token came from (cookie or `Authorization` header).
   */
  lemma VerifiedButNoUser(
    cookie: Option<string>, authorization: Option<string>,
    jwtVerify: string -> JwtOutcome, findUser: string -> Outcome<Option<string>>)
    requires PresentText(RequestToken(cookie, authorization))
    requires jwtVerify(RequestToken(cookie, authorization).value).Decoded?
    requires findUser(jwtVerify(RequestToken(cookie, authorization).value).userId) == Returned(None)
    ensures Verify(cookie, authorization, jwtVerify, findUser) == Failure(401, InvalidToken)
  {
  }

  /**
   * Without a cookie, a header "Bearer <t>" is answered as the cookie <t>
   * would be: the two ways of presenting a token are equivalent.
   */
  lemma BearerHeaderActsAsCookie(
    token: string, jwtVerify: string -> JwtOutcome, findUser: string -> Outcome<Option<string>>)
    requires token != ""
    ensures Verify(None, Some(BearerPrefix + token), jwtVerify, findUser) == Verify(Some(token), None, jwtVerify, findUser)
  {
    var h := BearerPrefix + token;
    assert h[..|BearerPrefix|] == BearerPrefix;
    assert Text.OccursAt(h, BearerPrefix, 0);
    assert h[|BearerPrefix|..] == token;
  }
}
