/** The Lambda entry point of `backend/cmd/api/main.go`: the ordered route
    switch of `handleRequest`, the handlers it dispatches to, and the
    response shapes of `jsonResponse` and `errorResponse`. The AWS and
    Stripe requests the handlers make are inputs (`Env`); JSON decoding is
    modelled by its result, and JSON encoding by the value encoded. */
module Api {
  import opened Base
  import opened Models
  import PlanCatalog
  import Billing
  import Storage
  import Auth

  const StatusOK: int := 200
  const StatusCreated: int := 201
  const StatusNoContent: int := 204
  const StatusBadRequest: int := 400
  const StatusUnauthorized: int := 401
  const StatusPaymentRequired: int := 402
  const StatusNotFound: int := 404
  const StatusInternalServerError: int := 500

  /** The body `handleCreateSubscription` decodes. */
  datatype SubscriptionRequest = SubscriptionRequest(userId: string, planId: string, email: string)

  /** A request body as each handler's `json.Unmarshal` decodes it: None
      where decoding into that handler's type fails. */
  datatype Body = Body(thumbnail: Option<ThumbnailRequest>, subscription: Option<SubscriptionRequest>)

  /** The fields of an API Gateway proxy request the handlers read. */
  datatype Request = Request(
    httpMethod: string,
    path: string,
    resource: string,
    headers: map<string, string>,
    query: map<string, string>,
    pathParameters: map<string, string>,
    body: Body)

  /** The values the handlers hand to `jsonResponse`. */
  datatype JsonValue =
    | ThumbnailJson(thumbnail: Thumbnail)
    | ThumbnailListJson(thumbnails: seq<Thumbnail>)
    | UserJson(user: User)
    | CreditsJson(credits: int)

  datatype Payload = Text(text: string) | Json(value: JsonValue) | Binary(data: seq<Byte>) | NoBody

  datatype Response = Response(statusCode: int, headers: map<string, string>, body: Payload, isBase64Encoded: bool)

  /** What one invocation ends in: a response, or a runtime panic. */
  datatype Outcome = Responded(response: Response) | Panicked

  /** The outcomes of the requests one invocation may make, and its clock. */
  datatype Env = Env(
    configOk: bool,                   // config.LoadDefaultConfig
    now: Time,                        // time.Now
    generatedId: Option<string>,      // the thumbnail generator: its fresh id, None if it fails
    tableGetOk: bool,                 // DynamoDB GetItem
    tableUpdateOk: bool,              // DynamoDB UpdateItem
    tablePutOk: bool,                 // DynamoDB PutItem
    objectPutOk: bool,                // S3 PutObject
    objectGetOk: bool,                // S3 GetObject
    objectDeleteOk: bool,             // S3 DeleteObject
    listing: Option<seq<Storage.ObjectSummary>>,  // S3 ListObjectsV2, None if it fails
    customerId: Option<string>,       // Stripe customer.New, None if it fails
    subscriptionOk: bool,             // Stripe subscription.New
    verifiedUserId: Option<string>)   // VerifyToken: the token's user, None if it is rejected

  /** A Go map read: a missing key reads as "". */
  function Param(m: map<string, string>, key: string): (v: string)
    ensures key in m ==> v == m[key]
    ensures key !in m ==> v == ""
  {
    if key in m then m[key] else ""
  }

  // ---------------------------------------------------------------------
  // Responses

  const JsonHeaders: map<string, string> := map["Content-Type" := "application/json"]
  const ErrorOpen: string := "{\"error\":\""
  const ErrorClose: string := "\"}"

  /** `jsonResponse`: the status, a JSON content type and the encoded value. */
  function JsonResponse(statusCode: int, value: JsonValue): (r: Response)
    ensures r.statusCode == statusCode && r.headers == JsonHeaders && r.body == Json(value)
    ensures !r.isBase64Encoded
  {
    Response(statusCode, JsonHeaders, Json(value), false)
  }

  /** `errorResponse`: the status, a JSON content type, and the body
      `{"error":"<message>"}` with the message inserted as it is. */
  function ErrorResponse(statusCode: int, message: string): (r: Response)
    ensures r.statusCode == statusCode && r.headers == JsonHeaders && !r.isBase64Encoded
    ensures r.body.Text? && |r.body.text| == |message| + 12
    ensures HasPrefix(r.body.text, ErrorOpen) && HasSuffix(r.body.text, ErrorClose)
  {
    var text := ErrorOpen + message + ErrorClose;
    assert text[..|ErrorOpen|] == ErrorOpen;
    assert text[|text| - |ErrorClose|..] == ErrorClose;
    Response(statusCode, JsonHeaders, Text(text), false)
  }

  /** The message of an error body: what lies between `{"error":"` and `"}`. */
  function ErrorMessage(body: Payload): (m: Option<string>)
    ensures m.Some? ==> body.Text? && |body.text| == |m.value| + 12
  {
    if body.Text? && |body.text| >= 12 && HasPrefix(body.text, ErrorOpen) && HasSuffix(body.text, ErrorClose)
    then Some(body.text[10..|body.text| - 2])
    else None
  }

  /** Every error response carries its message back out, so distinct
      messages make distinct responses. */
  lemma ErrorMessageRoundTrip(statusCode: int, message: string)
    ensures ErrorMessage(ErrorResponse(statusCode, message).body) == Some(message)
  {
  }

  // ---------------------------------------------------------------------
  // Routing

  datatype Route = Generate | List | Get | Delete | Subscribe | Credits | NotFound

  /** Each case of the route switch on its own; the default always matches. */
  predicate CaseHolds(req: Request, route: Route) {
    match route
    case Generate => req.httpMethod == "POST" && req.path == "/thumbnails"
    case List => req.httpMethod == "GET" && req.path == "/thumbnails"
    case Get => req.httpMethod == "GET" && req.resource == "/thumbnails/{id}"
    case Delete => req.httpMethod == "DELETE" && req.resource == "/thumbnails/{id}"
    case Subscribe => req.httpMethod == "POST" && req.path == "/subscriptions"
    case Credits => req.httpMethod == "GET" && req.path == "/credits"
    case NotFound => true
  }

  /** The position of each case in the switch. */
  function Rank(route: Route): nat {
    match route
    case Generate => 0
    case List => 1
    case Get => 2
    case Delete => 3
    case Subscribe => 4
    case Credits => 5
    case NotFound => 6
  }

  /** The `switch` of `handleRequest`: the first case that holds. */
  function RouteOf(req: Request): (r: Route)
    ensures CaseHolds(req, r)
    ensures forall e :: Rank(e) < Rank(r) ==> !CaseHolds(req, e)
  {
    if req.httpMethod == "POST" && req.path == "/thumbnails" then Generate
    else if req.httpMethod == "GET" && req.path == "/thumbnails" then List
    else if req.httpMethod == "GET" && req.resource == "/thumbnails/{id}" then Get
    else if req.httpMethod == "DELETE" && req.resource == "/thumbnails/{id}" then Delete
    else if req.httpMethod == "POST" && req.path == "/subscriptions" then Subscribe
    else if req.httpMethod == "GET" && req.path == "/credits" then Credits
    else NotFound
  }

  /** First match wins: the route is the ONLY one whose case holds while
      every earlier case fails. */
  lemma RouteIsFirstMatch(req: Request, r: Route)
    requires CaseHolds(req, r)
    requires forall e :: Rank(e) < Rank(r) ==> !CaseHolds(req, e)
    ensures r == RouteOf(req)
  {
  }

  /** Cases overlap, so order matters: a GET on path "/thumbnails" lists
      even when the resource is the item template, and a GET on path
      "/credits" whose resource is the item template fetches an image. */
  lemma OverlappingCases()
    ensures RouteOf(Request("GET", "/thumbnails", "/thumbnails/{id}", map[], map[], map[], Body(None, None))) == List
    ensures RouteOf(Request("GET", "/credits", "/thumbnails/{id}", map[], map[], map[], Body(None, None))) == Get
    ensures RouteOf(Request("PUT", "/thumbnails", "/thumbnails", map[], map[], map[], Body(None, None))) == NotFound
  {
  }

  // ---------------------------------------------------------------------
  // Thumbnails

  /** `[]byte("dummy image data")`, the placeholder image the generate
      handler stores. */
  const DummyData: seq<Byte> := [0x64, 0x75, 0x6d, 0x6d, 0x79, 0x20, 0x69, 0x6d, 0x61, 0x67, 0x65, 0x20, 0x64, 0x61, 0x74, 0x61]

  /** The thumbnail the generator (`ai.GenerateThumbnail`) returns: a fresh
      id, the request's title, description and style, the clock, and NO
      user id (its parameters do not carry one). */
  function GeneratedThumbnail(req: ThumbnailRequest, freshId: string, now: Time): (t: Thumbnail)
    ensures t.id == freshId && t.userId == "" && t.url == "" && t.createdAt == now
    ensures t.videoTitle == req.videoTitle && t.description == req.description && t.style == req.style
  {
    Thumbnail(freshId, "", "", req.videoTitle, req.description, req.style, now)
  }

  /** The generated thumbnail is `NewThumbnail` of the request with the
      user id dropped. */
  lemma GeneratedIsNewThumbnailWithoutUser(req: ThumbnailRequest, freshId: string, now: Time)
    ensures GeneratedThumbnail(req, freshId, now) == NewThumbnail(req, freshId, now).(userId := "")
  {
  }

  /** The key the generate handler as written stores under, "thumbnails//<id>.jpg",
      lies outside the listing prefix of every user id the list handler
      accepts (non-empty), unless that id starts with '/'. */
  lemma AsWrittenSaveIsNotListed(req: ThumbnailRequest, freshId: string, now: Time, userId: string)
    requires userId != "" && userId[0] != '/'
    ensures !HasPrefix(Storage.ThumbnailKey(GeneratedThumbnail(req, freshId, now).userId, freshId),
                       Storage.ListPrefix(userId))
  {
  }

  /** The key the corrected handler stores under lies under the requester's
      listing prefix, and lists back with the same id and URL. */
  lemma CorrectedSaveIsListed(req: ThumbnailRequest, freshId: string, now: Time,
                                                 bucket: string, lastModified: Time)
    ensures var t := NewThumbnail(req, freshId, now);
      var obj := Storage.ObjectSummary(Storage.ThumbnailKey(t.userId, t.id), lastModified);
      HasPrefix(obj.key, Storage.ListPrefix(req.userId))
      && |obj.key| >= |Storage.ListPrefix(req.userId)| + 4
      && Storage.ListedThumbnail(bucket, req.userId, obj).id == freshId
      && Storage.ListedThumbnail(bucket, req.userId, obj).url == Storage.PublicUrl(bucket, obj.key)
  {
  }

  /** The one credit the generate handler charges is taken. */
  predicate Charged(users: Billing.Table, userId: string, env: Env) {
    Billing.DeductSucceeds(users, userId, 1, env.tableGetOk, env.tableUpdateOk)
  }

  /** The services one invocation works with. */
  class API {
    const billing: Billing.BillingService
    const storage: Storage.StorageService

    constructor (billing: Billing.BillingService, storage: Storage.StorageService)
      ensures this.billing == billing && this.storage == storage
    {
      this.billing := billing;
      this.storage := storage;
    }

    /** `handleGenerateThumbnail` as written: decode, charge one credit,
        generate, store the placeholder image under the GENERATED
        thumbnail's key (whose user id is empty), answer 201 with it. A
        failure after the charge does not give the credit back. */
    method HandleGenerateThumbnailAsWritten(req: Request, env: Env) returns (resp: Response)
      modifies billing, storage
      ensures req.body.thumbnail.None? ==>
                resp == ErrorResponse(StatusBadRequest, "invalid request") && billing.users == old(billing.users)
      ensures req.body.thumbnail.Some? ==>
                billing.users == Billing.After(old(billing.users),
                                   Billing.Deduct(req.body.thumbnail.value.userId, 1, env.tableGetOk, env.tableUpdateOk))
      ensures (req.body.thumbnail.Some? && !Charged(old(billing.users), req.body.thumbnail.value.userId, env)) ==>
                resp == ErrorResponse(StatusPaymentRequired, "insufficient credits")
      ensures (req.body.thumbnail.Some? && Charged(old(billing.users), req.body.thumbnail.value.userId, env)
               && env.generatedId.None?) ==>
                resp == ErrorResponse(StatusInternalServerError, "failed to generate thumbnail")
      ensures (req.body.thumbnail.Some? && Charged(old(billing.users), req.body.thumbnail.value.userId, env)
               && env.generatedId.Some? && !env.objectPutOk) ==>
                resp == ErrorResponse(StatusInternalServerError, "failed to save thumbnail")
      ensures (req.body.thumbnail.Some? && Charged(old(billing.users), req.body.thumbnail.value.userId, env)
               && env.generatedId.Some? && env.objectPutOk) ==>
                var key := Storage.ThumbnailKey("", env.generatedId.value);
                storage.objects == old(storage.objects)[key := Storage.StoredObject(DummyData, "image/jpeg")]
                && resp == JsonResponse(StatusCreated, ThumbnailJson(
                     GeneratedThumbnail(req.body.thumbnail.value, env.generatedId.value, env.now).(
                       url := Storage.PublicUrl(storage.bucket, key))))
      ensures !(req.body.thumbnail.Some? && Charged(old(billing.users), req.body.thumbnail.value.userId, env)
                && env.generatedId.Some? && env.objectPutOk) ==>
                storage.objects == old(storage.objects)
    {
      if req.body.thumbnail.None? {
        return ErrorResponse(StatusBadRequest, "invalid request");
      }
      var request := req.body.thumbnail.value;
      var debitErr := billing.DeductCredits(request.userId, 1, env.tableGetOk, env.tableUpdateOk);
      if debitErr.Some? {
        return ErrorResponse(StatusPaymentRequired, "insufficient credits");
      }
      if env.generatedId.None? {
        return ErrorResponse(StatusInternalServerError, "failed to generate thumbnail");
      }
      var thumbnail := new ThumbnailRef(GeneratedThumbnail(request, env.generatedId.value, env.now));
      var saveErr := storage.SaveThumbnail(thumbnail, DummyData, env.objectPutOk);
      if saveErr.Some? {
        return ErrorResponse(StatusInternalServerError, "failed to save thumbnail");
      }
      resp := JsonResponse(StatusCreated, ThumbnailJson(thumbnail.val));
    }

    /** `handleGenerateThumbnail` with the thumbnail built by `NewThumbnail`
        from the request, so that it is stored under the requester's
        prefix; otherwise the same steps and the same answers. */
    method HandleGenerateThumbnail(req: Request, env: Env) returns (resp: Response)
      modifies billing, storage
      ensures req.body.thumbnail.None? ==>
                resp == ErrorResponse(StatusBadRequest, "invalid request") && billing.users == old(billing.users)
      ensures req.body.thumbnail.Some? ==>
                billing.users == Billing.After(old(billing.users),
                                   Billing.Deduct(req.body.thumbnail.value.userId, 1, env.tableGetOk, env.tableUpdateOk))
      ensures (req.body.thumbnail.Some? && !Charged(old(billing.users), req.body.thumbnail.value.userId, env)) ==>
                resp == ErrorResponse(StatusPaymentRequired, "insufficient credits")
      ensures (req.body.thumbnail.Some? && Charged(old(billing.users), req.body.thumbnail.value.userId, env)
               && env.generatedId.None?) ==>
                resp == ErrorResponse(StatusInternalServerError, "failed to generate thumbnail")
      ensures (req.body.thumbnail.Some? && Charged(old(billing.users), req.body.thumbnail.value.userId, env)
               && env.generatedId.Some? && !env.objectPutOk) ==>
                resp == ErrorResponse(StatusInternalServerError, "failed to save thumbnail")
      ensures (req.body.thumbnail.Some? && Charged(old(billing.users), req.body.thumbnail.value.userId, env)
               && env.generatedId.Some? && env.objectPutOk) ==>
                var key := Storage.ThumbnailKey(req.body.thumbnail.value.userId, env.generatedId.value);
                storage.objects == old(storage.objects)[key := Storage.StoredObject(DummyData, "image/jpeg")]
                && resp == JsonResponse(StatusCreated, ThumbnailJson(
                     NewThumbnail(req.body.thumbnail.value, env.generatedId.value, env.now).(
                       url := Storage.PublicUrl(storage.bucket, key))))
      ensures !(req.body.thumbnail.Some? && Charged(old(billing.users), req.body.thumbnail.value.userId, env)
                && env.generatedId.Some? && env.objectPutOk) ==>
                storage.objects == old(storage.objects)
    {
      if req.body.thumbnail.None? {
        return ErrorResponse(StatusBadRequest, "invalid request");
      }
      var request := req.body.thumbnail.value;
      var debitErr := billing.DeductCredits(request.userId, 1, env.tableGetOk, env.tableUpdateOk);
      if debitErr.Some? {
        return ErrorResponse(StatusPaymentRequired, "insufficient credits");
      }
      if env.generatedId.None? {
        return ErrorResponse(StatusInternalServerError, "failed to generate thumbnail");
      }
      var thumbnail := new ThumbnailRef(NewThumbnail(request, env.generatedId.value, env.now));
      var saveErr := storage.SaveThumbnail(thumbnail, DummyData, env.objectPutOk);
      if saveErr.Some? {
        return ErrorResponse(StatusInternalServerError, "failed to save thumbnail");
      }
      resp := JsonResponse(StatusCreated, ThumbnailJson(thumbnail.val));
    }

    /** `handleListThumbnails`: a missing or empty `userId` is refused
        before storage is asked; a key too short to slice panics. */
    method HandleListThumbnails(req: Request, env: Env) returns (outcome: Outcome)
      ensures Param(req.query, "userId") == "" ==>
                outcome == Responded(ErrorResponse(StatusBadRequest, "userId is required"))
      ensures (Param(req.query, "userId") != "" && env.listing.None?) ==>
                outcome == Responded(ErrorResponse(StatusInternalServerError, "failed to list thumbnails"))
      ensures (Param(req.query, "userId") != "" && env.listing.Some?
               && !Storage.AllSliceable(env.listing.value, Param(req.query, "userId"))) ==>
                outcome == Panicked
      ensures (Param(req.query, "userId") != "" && env.listing.Some?
               && Storage.AllSliceable(env.listing.value, Param(req.query, "userId"))) ==>
                outcome == Responded(JsonResponse(StatusOK, ThumbnailListJson(
                             Storage.Listing(storage.bucket, Param(req.query, "userId"), env.listing.value))))
    {
      var userId := Param(req.query, "userId");
      if userId == "" {
        return Responded(ErrorResponse(StatusBadRequest, "userId is required"));
      }
      var listed := storage.ListUserThumbnails(userId, env.listing);
      if listed.Err? {
        if listed.error == Storage.SliceOutOfRange {
          return Panicked;
        }
        return Responded(ErrorResponse(StatusInternalServerError, "failed to list thumbnails"));
      }
      outcome := Responded(JsonResponse(StatusOK, ThumbnailListJson(listed.value)));
    }

    /** `handleGetThumbnail`: the stored bytes, base64-flagged, as a JPEG. */
    method HandleGetThumbnail(req: Request, env: Env) returns (resp: Response)
      ensures var key := Storage.ThumbnailKey(Param(req.query, "userId"), Param(req.pathParameters, "id"));
        (env.objectGetOk && key in storage.objects ==>
           resp == Response(StatusOK, map["Content-Type" := "image/jpeg"], Binary(storage.objects[key].data), true))
        && (!(env.objectGetOk && key in storage.objects) ==>
           resp == ErrorResponse(StatusInternalServerError, "failed to get thumbnail"))
    {
      var got := storage.GetThumbnail(Param(req.query, "userId"), Param(req.pathParameters, "id"), env.objectGetOk);
      if got.Err? {
        return ErrorResponse(StatusInternalServerError, "failed to get thumbnail");
      }
      resp := Response(StatusOK, map["Content-Type" := "image/jpeg"], Binary(got.value), true);
    }

    /** `handleDeleteThumbnail`: 204 with no headers and no body. */
    method HandleDeleteThumbnail(req: Request, env: Env) returns (resp: Response)
      modifies storage
      ensures var key := Storage.ThumbnailKey(Param(req.query, "userId"), Param(req.pathParameters, "id"));
        (env.objectDeleteOk ==>
           resp == Response(StatusNoContent, map[], NoBody, false) && storage.objects == old(storage.objects) - {key})
        && (!env.objectDeleteOk ==>
           resp == ErrorResponse(StatusInternalServerError, "failed to delete thumbnail")
           && storage.objects == old(storage.objects))
    {
      var err := storage.DeleteThumbnail(Param(req.query, "userId"), Param(req.pathParameters, "id"), env.objectDeleteOk);
      if err.Some? {
        return ErrorResponse(StatusInternalServerError, "failed to delete thumbnail");
      }
      resp := Response(StatusNoContent, map[], NoBody, false);
    }

    /** `handleCreateSubscription`: every ledger error, an unknown plan
        included, answers 500; success answers 201 with the caller's user
        object as the ledger left it (plan and credits set, no creation
        time). */
    method HandleCreateSubscription(req: Request, env: Env) returns (resp: Response)
      modifies billing
      ensures req.body.subscription.None? ==>
                resp == ErrorResponse(StatusBadRequest, "invalid request") && billing.users == old(billing.users)
      ensures req.body.subscription.Some? ==>
                var s := req.body.subscription.value;
                billing.users == Billing.After(old(billing.users),
                  Billing.Subscribe(User(s.userId, s.email, "", 0, ZeroTime), s.planId,
                                    env.customerId, env.subscriptionOk, env.tablePutOk, env.now))
      ensures (req.body.subscription.Some?
               && !Billing.SubscribeSucceeds(req.body.subscription.value.planId, env.customerId,
                                             env.subscriptionOk, env.tablePutOk)) ==>
                resp == ErrorResponse(StatusInternalServerError, "failed to create subscription")
      ensures (req.body.subscription.Some?
               && Billing.SubscribeSucceeds(req.body.subscription.value.planId, env.customerId,
                                            env.subscriptionOk, env.tablePutOk)) ==>
                var s := req.body.subscription.value;
                resp == JsonResponse(StatusCreated, UserJson(
                          User(s.userId, s.email, s.planId, PlanCatalog.Plans()[s.planId].credits, ZeroTime)))
    {
      if req.body.subscription.None? {
        return ErrorResponse(StatusBadRequest, "invalid request");
      }
      var s := req.body.subscription.value;
      var user := new UserRef(User(s.userId, s.email, "", 0, ZeroTime));
      var err, _ := billing.CreateSubscription(user, s.planId, env.customerId, env.subscriptionOk, env.tablePutOk, env.now);
      if err.Some? {
        return ErrorResponse(StatusInternalServerError, "failed to create subscription");
      }
      resp := JsonResponse(StatusCreated, UserJson(user.val));
    }

    /** `handleGetCredits`: a missing or malformed bearer header answers
        401 "unauthorized", a rejected token 401 "invalid token", a failed
        read 500; otherwise the token user's balance (0 without a row). */
    method HandleGetCredits(req: Request, env: Env) returns (resp: Response)
      ensures Auth.ExtractTokenFromRequest(req.headers).Err? ==>
                resp == ErrorResponse(StatusUnauthorized, "unauthorized")
      ensures (Auth.ExtractTokenFromRequest(req.headers).Ok? && env.verifiedUserId.None?) ==>
                resp == ErrorResponse(StatusUnauthorized, "invalid token")
      ensures (Auth.ExtractTokenFromRequest(req.headers).Ok? && env.verifiedUserId.Some?
               && !(env.tableGetOk && Billing.Decodes(billing.users, env.verifiedUserId.value))) ==>
                resp == ErrorResponse(StatusInternalServerError, "failed to get credits")
      ensures (Auth.ExtractTokenFromRequest(req.headers).Ok? && env.verifiedUserId.Some?
               && env.tableGetOk && Billing.Decodes(billing.users, env.verifiedUserId.value)) ==>
                resp == JsonResponse(StatusOK, CreditsJson(Billing.StoredCredits(billing.users, env.verifiedUserId.value)))
    {
      var token := Auth.ExtractTokenFromRequest(req.headers);
      if token.Err? {
        return ErrorResponse(StatusUnauthorized, "unauthorized");
      }
      if env.verifiedUserId.None? {
        return ErrorResponse(StatusUnauthorized, "invalid token");
      }
      var credits, err := billing.GetUserCredits(env.verifiedUserId.value, env.tableGetOk);
      if err.Some? {
        return ErrorResponse(StatusInternalServerError, "failed to get credits");
      }
      resp := JsonResponse(StatusOK, CreditsJson(credits));
    }

    /** `handleRequest`: the configuration is loaded before routing, so its
        failure answers every request; then the first matching case's
        handler runs, and an unmatched request gets 404. Only generating
        and subscribing touch the ledger; only generating and deleting
        touch the bucket. */
    method HandleRequest(req: Request, env: Env) returns (outcome: Outcome)
      modifies billing, storage
      ensures !env.configOk ==>
                outcome == Responded(ErrorResponse(StatusInternalServerError, "failed to load AWS config"))
      ensures env.configOk && RouteOf(req) == NotFound ==>
                outcome == Responded(ErrorResponse(StatusNotFound, "not found"))
      ensures !(env.configOk && RouteOf(req) in {Generate, Subscribe}) ==> billing.users == old(billing.users)
      ensures !(env.configOk && RouteOf(req) in {Generate, Delete}) ==> storage.objects == old(storage.objects)
      ensures outcome.Panicked? ==> env.configOk && RouteOf(req) == List
    {
      if !env.configOk {
        return Responded(ErrorResponse(StatusInternalServerError, "failed to load AWS config"));
      }
      var route := RouteOf(req);
      var resp: Response;
      match route {
        case Generate =>
          resp := HandleGenerateThumbnail(req, env);
        case List =>
          outcome := HandleListThumbnails(req, env);
          return;
        case Get =>
          resp := HandleGetThumbnail(req, env);
        case Delete =>
          resp := HandleDeleteThumbnail(req, env);
        case Subscribe =>
          resp := HandleCreateSubscription(req, env);
        case Credits =>
          resp := HandleGetCredits(req, env);
        case NotFound =>
          resp := ErrorResponse(StatusNotFound, "not found");
      }
      outcome := Responded(resp);
    }
  }
}
