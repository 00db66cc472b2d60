/** The pure parts of `backend/internal/auth/auth.go`: pulling the bearer
    token out of a request's headers, and the outcome of `RegisterUser`.
    The Cognito requests `RegisterUser` makes are inputs (whether each one
    succeeded); token verification is not part of this model. */
module Auth {
  import opened Base
  import opened Models
  import PlanCatalog

  /** The sentinel errors of the package, and the errors it builds with
      `fmt.Errorf`, identified by their fixed message. */
  datatype AuthError =
    | ErrInvalidToken
    | ErrExpiredToken
    | ErrInvalidCredentials
    | ErrUserNotFound
    | ErrUserExists
    | Failed(message: string)

  const BearerPrefix: string := "Bearer "

  /** `request.Headers["Authorization"]`: a missing header reads as "". */
  function AuthorizationHeader(headers: map<string, string>): (h: string)
    ensures "Authorization" in headers ==> h == headers["Authorization"]
    ensures "Authorization" !in headers ==> h == ""
  {
    if "Authorization" in headers then headers["Authorization"] else ""
  }

  /** `ExtractTokenFromRequest`: the header must be present, start with
      exactly "Bearer " (case and space included) and carry something after
      it; the token is what follows that one prefix. */
  function ExtractTokenFromRequest(headers: map<string, string>): (r: Result<string, AuthError>)
    ensures r.Ok? <==> HasPrefix(AuthorizationHeader(headers), BearerPrefix)
                       && |AuthorizationHeader(headers)| > |BearerPrefix|
    ensures r.Ok? ==> r.value != "" && BearerPrefix + r.value == AuthorizationHeader(headers)
    ensures r.Err? ==> r.error == ErrInvalidToken
  {
    var authHeader := AuthorizationHeader(headers);
    if authHeader == "" then
      Err(ErrInvalidToken)
    else if !HasPrefix(authHeader, BearerPrefix) then
      Err(ErrInvalidToken)
    else
      var token := TrimPrefix(authHeader, BearerPrefix);
      if token == "" then Err(ErrInvalidToken) else Ok(token)
  }

  /** Round trip: a header "Bearer " + t yields t for every non-empty t,
      whatever else the request carries. */
  lemma BearerRoundTrip(headers: map<string, string>, token: string)
    requires token != ""
    ensures ExtractTokenFromRequest(headers["Authorization" := BearerPrefix + token]) == Ok(token)
  {
  }

  /** Only one leading prefix is removed, the scheme is case-sensitive, and
      the bare prefix carries no token. */
  lemma PrefixExamples()
    ensures ExtractTokenFromRequest(map["Authorization" := "Bearer Bearer x"]) == Ok("Bearer x")
    ensures ExtractTokenFromRequest(map["Authorization" := "bearer x"]) == Err(ErrInvalidToken)
    ensures ExtractTokenFromRequest(map["Authorization" := "Bearer "]) == Err(ErrInvalidToken)
    ensures ExtractTokenFromRequest(map["authorization" := "Bearer x"]) == Err(ErrInvalidToken)
  {
    BearerRoundTrip(map[], "Bearer x");
    assert BearerPrefix + "Bearer x" == "Bearer Bearer x";
    assert map[]["Authorization" := BearerPrefix + "Bearer x"] == map["Authorization" := "Bearer Bearer x"];
    assert "bearer x"[..7] != BearerPrefix by {
      assert "bearer x"[0] != BearerPrefix[0];
    }
  }

  /** `RegisterUser`. `existing` says the `AdminGetUser` lookup succeeded,
      `signUpOk` and `confirmOk` say the sign-up and its confirmation did;
      `now` is the clock. */
  function RegisterUser(email: string, existing: bool, signUpOk: bool, confirmOk: bool, now: Time)
    : (r: Result<User, AuthError>)
    ensures r.Ok? <==> !existing && signUpOk && confirmOk
    ensures existing ==> r == Err(ErrUserExists)
    ensures !existing && !signUpOk ==> r == Err(Failed("failed to register user"))
    ensures !existing && signUpOk && !confirmOk ==> r == Err(Failed("failed to confirm user"))
    ensures r.Ok? ==> r.value.id == email && r.value.email == email && r.value.createdAt == now
    ensures r.Ok? ==> r.value.plan == "free" && r.value.credits == 10
  {
    if existing then Err(ErrUserExists)
    else if !signUpOk then Err(Failed("failed to register user"))
    else if !confirmOk then Err(Failed("failed to confirm user"))
    else Ok(User(email, email, "free", 10, now))
  }

  /** A newly registered user is on a plan of the catalogue and holds
      exactly that plan's allotment. */
  lemma RegisteredUserHoldsFreeAllotment(email: string, now: Time)
    ensures var r := RegisterUser(email, false, true, true, now);
      r.Ok? && r.value.plan in PlanCatalog.Plans() && r.value.credits == PlanCatalog.Plans()[r.value.plan].credits
  {
  }
}
