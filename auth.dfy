/**
 * The request authenticator: it takes the bearer credential out of the
 * `authorization` header, verifies it, and compares three fields of the
 * decoded payload with the reference identity `demoToken[0]`.
 */
module Auth {
  import opened Wrappers
  import opened JsValues
  import opened Strings

  /** The one message every rejection carries. */
  const InvalidToken: string := "Invalid token"

  /** The scheme marker removed from the header. */
  const BearerMarker: string := "Bearer "

  /** The part of a request the authenticator reads: its `authorization` header, if sent. */
  datatype Request = Request(authorization: Option<string>)

  /** The two outcomes: the decoded payload is returned, or the request is refused. */
  datatype AuthOutcome = Authorized(payload: JsValue) | Rejected(message: string)

  /** What the guarded block can throw. */
  datatype Thrown =
    | VerificationError    // `jwt.verify` refused the token
    | TypeError            // a property read on `undefined` or `null`
    | AuthenticationError(message: string)

  /**
   * Signature verification, `jwt.verify(token, secret)`: the decoded payload,
   * or `None` when it throws (malformed token, bad signature, missing secret).
   * The library is outside the model, so the authenticator is proved for
   * every such function.
   */
  type Verifier = (string, Option<string>) -> Option<JsValue>

  /** `req.headers.authorization || ''`: a missing header reads as the empty string. */
  function AuthHeader(req: Request): (h: string)
    ensures req.authorization.None? ==> h == ""
    ensures req.authorization.Some? ==> h == req.authorization.value
  {
    if Truthy(req.authorization) then req.authorization.value else ""
  }

  /** `authHeader.replace('Bearer ', '')`. */
  function BearerToken(req: Request): (token: string)
    ensures |token| == |AuthHeader(req)| || |token| == |AuthHeader(req)| - |BearerMarker|
  {
    RemoveFirst(AuthHeader(req), BearerMarker)
  }

  /**
   * The token handed to verification is the header with the first
   * occurrence of the marker, wherever it is, removed; a header without the
   * marker is passed on unchanged.
   */
  lemma BearerTokenRemovesFirstMarker(req: Request)
    ensures var h := AuthHeader(req);
      (forall i: nat :: !OccursAt(h, BearerMarker, i)) ==> BearerToken(req) == h
    ensures var h := AuthHeader(req);
      forall i: nat :: OccursAt(h, BearerMarker, i) && (forall j: nat :: j < i ==> !OccursAt(h, BearerMarker, j)) ==>
        BearerToken(req) == h[..i] + h[i + |BearerMarker|..]
  {
  }

  /** `a[i]` on an array: `undefined` past its end. */
  function ElementOrUndefined(a: seq<JsValue>, i: nat): JsValue {
    if i < |a| then a[i] else Undefined
  }

  /** A property read that throws a TypeError on `undefined` and `null`. */
  function Read(v: JsValue, key: string): Result<JsValue, Thrown> {
    match GetProperty(v, key)
    case None => Failure(TypeError)
    case Some(x) => Success(x)
  }

  /** `decoded[key] !== reference[key]`, reading the left operand first. */
  function Differs(decoded: JsValue, reference: JsValue, key: string): Result<bool, Thrown> {
    var a :- Read(decoded, key);
    var b :- Read(reference, key);
    Success(!StrictEquals(a, b))
  }

  /**
   * The guarded block: verify, then the three `!==` comparisons joined by a
   * short-circuiting `||`, throwing on the first mismatch.
   */
  function Guarded(token: string, secret: Option<string>, verify: Verifier, demoToken: seq<JsValue>): (r: Result<JsValue, Thrown>)
    ensures r.Success? ==> verify(token, secret) == Some(r.value)
    ensures r.Failure? ==> (r.error == VerificationError <==> verify(token, secret).None?)
    ensures r.Failure? && r.error.AuthenticationError? ==> r.error.message == InvalidToken
  {
    match verify(token, secret)
    case None => Failure(VerificationError)
    case Some(decoded) =>
      var reference := ElementOrUndefined(demoToken, 0);
      var userIdDiffers :- Differs(decoded, reference, "userId");
      if userIdDiffers then Failure(AuthenticationError(InvalidToken)) else
      var authTokenDiffers :- Differs(decoded, reference, "authToken");
      if authTokenDiffers then Failure(AuthenticationError(InvalidToken)) else
      var timeStampDiffers :- Differs(decoded, reference, "timeStamp");
      if timeStampDiffers then Failure(AuthenticationError(InvalidToken)) else
      Success(decoded)
  }

  /** Field `key` of two values that both have properties is strictly equal. */
  ghost predicate SameField(decoded: JsValue, reference: JsValue, key: string)
    requires HasProperties(decoded) && HasProperties(reference)
  {
    StrictEquals(GetProperty(decoded, key).value, GetProperty(reference, key).value)
  }

  /**
   * The acceptance rule, independent of evaluation order: the payload and
   * the reference both have properties and agree strictly on `userId`,
   * `authToken` and `timeStamp`.
   */
  ghost predicate MatchesReference(decoded: JsValue, reference: JsValue) {
    && HasProperties(decoded)
    && HasProperties(reference)
    && SameField(decoded, reference, "userId")
    && SameField(decoded, reference, "authToken")
    && SameField(decoded, reference, "timeStamp")
  }

  /** The guarded block completes, returning the payload as decoded, exactly when it matches the reference. */
  lemma GuardedSucceedsIffMatch(token: string, secret: Option<string>, verify: Verifier, demoToken: seq<JsValue>)
    ensures Guarded(token, secret, verify, demoToken).Success? <==>
      verify(token, secret).Some? && MatchesReference(verify(token, secret).value, ElementOrUndefined(demoToken, 0))
    ensures Guarded(token, secret, verify, demoToken).Success? ==>
      Guarded(token, secret, verify, demoToken).value == verify(token, secret).value
  {
  }

  /**
   * `authenticate`: authorized with the decoded payload, unmodified, exactly
   * when verification succeeds and the payload matches `demoToken[0]`;
   * otherwise rejected with "Invalid token", whatever the cause.
   */
  function Authenticate(req: Request, secret: Option<string>, verify: Verifier, demoToken: seq<JsValue>): (r: AuthOutcome)
    ensures r.Rejected? ==> r.message == InvalidToken
    ensures r.Authorized? <==>
      verify(BearerToken(req), secret).Some? &&
      MatchesReference(verify(BearerToken(req), secret).value, ElementOrUndefined(demoToken, 0))
    ensures r.Authorized? ==> r.payload == verify(BearerToken(req), secret).value
  {
    GuardedSucceedsIffMatch(BearerToken(req), secret, verify, demoToken);
    match Guarded(BearerToken(req), secret, verify, demoToken)
    case Success(decoded) => Authorized(decoded)
    case Failure(_) => Rejected(InvalidToken)
  }

  /** Every rejection is the same value, so a caller cannot tell which check failed. */
  lemma RejectionsAreIndistinguishable(
    req1: Request, secret1: Option<string>, verify1: Verifier, demoToken1: seq<JsValue>,
    req2: Request, secret2: Option<string>, verify2: Verifier, demoToken2: seq<JsValue>)
    requires Authenticate(req1, secret1, verify1, demoToken1).Rejected?
    requires Authenticate(req2, secret2, verify2, demoToken2).Rejected?
    ensures Authenticate(req1, secret1, verify1, demoToken1) == Authenticate(req2, secret2, verify2, demoToken2)
  {
  }

  /** A failed verification is a rejection, never a different error. */
  lemma VerificationFailureRejects(req: Request, secret: Option<string>, verify: Verifier, demoToken: seq<JsValue>)
    requires verify(BearerToken(req), secret).None?
    ensures Authenticate(req, secret, verify, demoToken) == Rejected(InvalidToken)
  {
  }

  /** A mismatch on any one of the three fields, whichever it is, is a rejection. */
  lemma AnyFieldMismatchRejects(req: Request, secret: Option<string>, verify: Verifier, demoToken: seq<JsValue>, key: string)
    requires key == "userId" || key == "authToken" || key == "timeStamp"
    requires verify(BearerToken(req), secret).Some?
    requires HasProperties(verify(BearerToken(req), secret).value)
    requires HasProperties(ElementOrUndefined(demoToken, 0))
    requires !SameField(verify(BearerToken(req), secret).value, ElementOrUndefined(demoToken, 0), key)
    ensures Authenticate(req, secret, verify, demoToken) == Rejected(InvalidToken)
  {
  }

  /** An empty reference set leaves `demoToken[0]` undefined, so every request is rejected. */
  lemma EmptyReferenceRejects(req: Request, secret: Option<string>, verify: Verifier)
    ensures Authenticate(req, secret, verify, []) == Rejected(InvalidToken)
  {
  }

  /** A missing header is verified as the empty token, exactly like an empty header. */
  lemma MissingHeaderIsEmptyToken(secret: Option<string>, verify: Verifier, demoToken: seq<JsValue>)
    ensures BearerToken(Request(None)) == ""
    ensures Authenticate(Request(None), secret, verify, demoToken) == Authenticate(Request(Some("")), secret, verify, demoToken)
  {
  }

  /** A header `Bearer <t>` hands exactly `<t>` to verification. */
  lemma BearerHeaderYieldsCredential(t: string)
    ensures BearerToken(Request(Some(BearerMarker + t))) == t
  {
  }

  /** The marker is removed where it first occurs, not only as a prefix. */
  lemma MarkerRemovedMidHeader()
    ensures BearerToken(Request(Some("Token Bearer abc"))) == "Token abc"
  {
    var h := "Token Bearer abc";
    assert AuthHeader(Request(Some(h))) == h;
    assert h[6..13] == BearerMarker;
    assert OccursAt(h, BearerMarker, 6);
    forall j: nat | j < 6 ensures !OccursAt(h, BearerMarker, j) {
      assert h[j] != 'B';
      assert j + 7 <= |h| ==> h[j..j + 7][0] == h[j];
    }
    assert h[..6] + h[13..] == "Token abc";
  }

  /**
   * Object- and array-valued fields never compare equal under `===`, so a
   * reference identity holding one is matched by no payload.
   */
  lemma ObjectFieldNeverMatches(req: Request, secret: Option<string>, verify: Verifier, demoToken: seq<JsValue>)
    requires HasProperties(ElementOrUndefined(demoToken, 0))
    requires !IsPrimitive(GetProperty(ElementOrUndefined(demoToken, 0), "authToken").value)
    ensures Authenticate(req, secret, verify, demoToken) == Rejected(InvalidToken)
  {
  }
}
