/**
 * The RevenueCat webhook edge function: it checks the method, an optional
 * shared secret and the payload, maps the event type to a subscription
 * status, and finds or creates the customer's row in the `subscriptions`
 * table, linking a new row to the `profiles` row with the same Clerk id.
 */
module RevenueCatWebhook {
  import opened Wrappers
  import opened Js
  import opened SharedUtils

  /** The eleven event types RevenueCat delivers. */
  const EventTypes: set<string> := {
    "INITIAL_PURCHASE", "RENEWAL", "CANCELLATION", "UNCANCELLATION",
    "NON_RENEWING_PURCHASE", "SUBSCRIPTION_PAUSED", "SUBSCRIPTION_RESUMED",
    "BILLING_ISSUE", "PRODUCT_CHANGE", "EXPIRATION", "TRANSFER"
  }

  /** The event types after which the subscription is active. */
  const ActiveEvents: set<string> := {
    "INITIAL_PURCHASE", "RENEWAL", "UNCANCELLATION", "NON_RENEWING_PURCHASE",
    "SUBSCRIPTION_RESUMED", "PRODUCT_CHANGE", "TRANSFER"
  }

  /** The event types after which the subscription is canceled. */
  const CanceledEvents: set<string> := {"CANCELLATION", "SUBSCRIPTION_PAUSED"}

  /** The handler's `statusMap`, entry for entry. */
  const StatusMap: map<string, string> := map[
    "INITIAL_PURCHASE" := "active",
    "RENEWAL" := "active",
    "CANCELLATION" := "canceled",
    "UNCANCELLATION" := "active",
    "NON_RENEWING_PURCHASE" := "active",
    "SUBSCRIPTION_PAUSED" := "canceled",
    "SUBSCRIPTION_RESUMED" := "active",
    "BILLING_ISSUE" := "past_due",
    "PRODUCT_CHANGE" := "active",
    "EXPIRATION" := "expired",
    "TRANSFER" := "active"
  ]

  /** Every status the handler can write. */
  const Statuses: set<string> := {"active", "canceled", "past_due", "expired", "unknown"}

  /** `statusMap[event.type] || "unknown"`. */
  function ResolveStatus(eventType: string): (r: string)
    ensures r in Statuses
    ensures r == "active" <==> eventType in ActiveEvents
    ensures r == "canceled" <==> eventType in CanceledEvents
    ensures r == "past_due" <==> eventType == "BILLING_ISSUE"
    ensures r == "expired" <==> eventType == "EXPIRATION"
    ensures r == "unknown" <==> eventType !in EventTypes
  {
    if eventType in StatusMap && StatusMap[eventType] != "" then StatusMap[eventType] else "unknown"
  }

  /** `event.environment !== "PRODUCTION"`. */
  predicate IsSandbox(environment: string) {
    environment != "PRODUCTION"
  }

  /** The event object of a RevenueCat webhook payload. */
  datatype WebhookEvent = WebhookEvent(
    eventType: string,
    appUserId: string,
    productId: string,
    entitlementIds: seq<string>,
    expirationAtMs: Option<int>,
    originalTransactionId: string,
    store: string,
    environment: string,
    periodType: string)

  /** A parsed payload; `event` is None when the field is absent or null. */
  datatype Payload = Payload(event: Option<WebhookEvent>)

  /** The largest magnitude, in milliseconds, that a JavaScript Date can hold. */
  const MaxTimeMs: int := 8_640_000_000_000_000

  /** `new Date(ms).toISOString()` throws a RangeError when the time is outside the Date range. */
  predicate ExpirationThrows(ms: Option<int>) {
    ms.Some? && ms.value != 0 && (ms.value > MaxTimeMs || ms.value < -MaxTimeMs)
  }

  /**
   * `expiration_at_ms ? new Date(expiration_at_ms).toISOString() : null`; the
   * timestamp is kept in milliseconds rather than as its ISO text.
   */
  function ExpirationDate(ms: Option<int>): (r: Option<int>)
    ensures r.None? <==> ms.None? || ms.value == 0
    ensures r.Some? ==> r.value == ms.value
  {
    if ms.Some? && ms.value != 0 then Some(ms.value) else None
  }

  datatype Metadata = Metadata(
    originalTransactionId: string, store: string, periodType: string, lastEvent: string)

  /** A row of the `subscriptions` table as this handler reads and writes it. */
  datatype Subscription = Subscription(
    userId: Option<string>,
    customerId: string,
    status: string,
    productIdentifier: string,
    entitlements: seq<string>,
    originalPurchaseDate: Option<int>,
    expirationDate: Option<int>,
    isSandbox: bool,
    metadata: Metadata)

  function EventMetadata(event: WebhookEvent): Metadata {
    Metadata(event.originalTransactionId, event.store, event.periodType, event.eventType)
  }

  /** The update written to an existing row: six columns are overwritten, the rest kept. */
  function ApplyEvent(row: Subscription, event: WebhookEvent): (r: Subscription)
    ensures r.userId == row.userId && r.customerId == row.customerId
    ensures r.originalPurchaseDate == row.originalPurchaseDate
    ensures r.status == ResolveStatus(event.eventType)
    ensures r.expirationDate == ExpirationDate(event.expirationAtMs)
    ensures r.isSandbox <==> event.environment != "PRODUCTION"
    ensures r.productIdentifier == event.productId && r.entitlements == event.entitlementIds
    ensures r.metadata == Metadata(event.originalTransactionId, event.store, event.periodType, event.eventType)
  {
    row.(
      status := ResolveStatus(event.eventType),
      productIdentifier := event.productId,
      entitlements := event.entitlementIds,
      expirationDate := ExpirationDate(event.expirationAtMs),
      isSandbox := IsSandbox(event.environment),
      metadata := EventMetadata(event))
  }

  /** The row inserted for a customer that has none. */
  function NewRow(event: WebhookEvent, userId: Option<string>, now: int): (r: Subscription)
    ensures r.customerId == event.appUserId && r.userId == userId
    ensures r.originalPurchaseDate == Some(now)
    ensures r.status == ResolveStatus(event.eventType)
    ensures r.expirationDate == ExpirationDate(event.expirationAtMs)
    ensures r.isSandbox <==> event.environment != "PRODUCTION"
    ensures r.productIdentifier == event.productId && r.entitlements == event.entitlementIds
    ensures r.metadata == Metadata(event.originalTransactionId, event.store, event.periodType, event.eventType)
  {
    Subscription(
      userId, event.appUserId, ResolveStatus(event.eventType), event.productId,
      event.entitlementIds, Some(now), ExpirationDate(event.expirationAtMs),
      IsSandbox(event.environment), EventMetadata(event))
  }

  /**
   * The two tables: `subscriptions` keyed by row id, with `nextId` the id the
   * next insert receives, and `profiles` as a map from Clerk id to profile id.
   */
  datatype Tables = Tables(rows: map<nat, Subscription>, nextId: nat, profiles: map<string, string>)

  /** The outcomes of the three database calls, which are foreign. */
  datatype DbOutcomes = DbOutcomes(selectOk: bool, profileOk: bool, writeOk: bool)

  /** The tables after one delivery, and the response sent. */
  datatype Delivery = Delivery(tables: Tables, response: Response)

  predicate IdsBelow(rows: map<nat, Subscription>, nextId: nat) {
    forall id :: id in rows ==> id < nextId
  }

  /** At most one row per customer id. */
  ghost predicate UniqueCustomers(rows: map<nat, Subscription>) {
    forall a, b :: a in rows && b in rows && rows[a].customerId == rows[b].customerId ==> a == b
  }

  /** The ids of the rows whose `revenuecat_customer_id` is `customerId`. */
  function Matches(rows: map<nat, Subscription>, customerId: string): set<nat> {
    set id | id in rows && rows[id].customerId == customerId
  }

  /** `.single()` yields a row only when the select succeeds and exactly one row matches. */
  predicate Found(rows: map<nat, Subscription>, customerId: string, db: DbOutcomes) {
    db.selectOk && |Matches(rows, customerId)| == 1
  }

  /** `profile?.id || null`: the profile whose `clerk_id` is `clerkId`, when the select succeeds. */
  function LinkedUser(profiles: map<string, string>, clerkId: string, profileOk: bool): (r: Option<string>)
    ensures r.Some? <==> profileOk && clerkId in profiles && profiles[clerkId] != ""
    ensures r.Some? ==> r.value == profiles[clerkId]
  {
    if profileOk && clerkId in profiles && profiles[clerkId] != "" then Some(profiles[clerkId]) else None
  }

  /** The update `.eq("id", existing.id)`: every matching row, of which there is exactly one. */
  function UpdateMatching(rows: map<nat, Subscription>, event: WebhookEvent): map<nat, Subscription> {
    map id | id in rows :: if rows[id].customerId == event.appUserId then ApplyEvent(rows[id], event) else rows[id]
  }

  const SuccessBody: Json := JObj(map["success" := JBool(true)])

  /** The find-or-create step, once the request has passed the gate. */
  function Upsert(t: Tables, event: WebhookEvent, now: int, db: DbOutcomes): (r: Delivery)
    ensures r.tables.profiles == t.profiles
    ensures r.response.status == 200 || r.response.status == 500
    ensures r.response.status == 200 <==> db.writeOk && !ExpirationThrows(event.expirationAtMs)
    ensures r.response.status == 200 ==> r.response.body == JsonBody(SuccessBody)
    ensures r.response.status != 200 ==> r.tables == t
    ensures IdsBelow(t.rows, t.nextId) ==> IdsBelow(r.tables.rows, r.tables.nextId)
    // A found row: only that row changes, and nothing is inserted.
    ensures Found(t.rows, event.appUserId, db) && r.response.status == 200 ==>
      && r.tables.nextId == t.nextId
      && r.tables.rows.Keys == t.rows.Keys
      && (forall id :: id in t.rows && t.rows[id].customerId != event.appUserId ==> r.tables.rows[id] == t.rows[id])
      && (forall id :: id in t.rows && t.rows[id].customerId == event.appUserId ==>
            r.tables.rows[id] == ApplyEvent(t.rows[id], event))
    // No row returned: exactly one row is inserted under a fresh id.
    ensures !Found(t.rows, event.appUserId, db) && r.response.status == 200 ==>
      && r.tables.nextId == t.nextId + 1
      && r.tables.rows == t.rows[t.nextId := NewRow(event, LinkedUser(t.profiles, event.appUserId, db.profileOk), now)]
  {
    if ExpirationThrows(event.expirationAtMs) then
      Delivery(t, ErrorResponse("Internal server error", Some(500), None))
    else if Found(t.rows, event.appUserId, db) then
      if !db.writeOk then Delivery(t, ErrorResponse("Failed to update subscription", Some(500), None))
      else Delivery(t.(rows := UpdateMatching(t.rows, event)), JsonResponse(SuccessBody, None))
    else
      var userId := LinkedUser(t.profiles, event.appUserId, db.profileOk);
      if !db.writeOk then Delivery(t, ErrorResponse("Failed to create subscription", Some(500), None))
      else
        Delivery(t.(rows := t.rows[t.nextId := NewRow(event, userId, now)], nextId := t.nextId + 1),
                 JsonResponse(SuccessBody, None))
  }

  /** The shared secret check is on exactly when a non-empty secret is configured. */
  predicate Authorized(secret: Option<string>, authorization: Option<string>) {
    !TruthyString(secret) || authorization == Some(BearerPrefix + secret.value)
  }

  /** The early returns before any table is read: CORS, method, secret, payload. */
  function Gate(verb: string, secret: Option<string>, authorization: Option<string>, payload: Option<Payload>)
    : (r: Result<WebhookEvent, Response>)
    ensures verb == "OPTIONS" ==> r == Err(CorsPreflight)
    ensures verb != "OPTIONS" && verb != "POST" ==>
              r.Err? && r.error.status == 405 && ErrorText(r.error) == Some("Method not allowed")
    ensures verb == "POST" && !Authorized(secret, authorization) ==>
              r.Err? && r.error.status == 401 && ErrorText(r.error) == Some("Unauthorized")
    ensures verb == "POST" && Authorized(secret, authorization)
            && (payload.None? || payload.value.event.None?) ==>
              r.Err? && r.error.status == 400 && ErrorText(r.error) == Some("Invalid webhook payload")
    ensures r.Ok? <==> verb == "POST" && Authorized(secret, authorization)
                       && payload.Some? && payload.value.event.Some?
    ensures r.Ok? ==> r.value == payload.value.event.value
  {
    match HandleCors(verb)
    case Some(cors) => Err(cors)
    case None =>
      if verb != "POST" then Err(ErrorResponse("Method not allowed", Some(405), None))
      else if TruthyString(secret) && authorization != Some(BearerPrefix + secret.value) then
        Err(ErrorResponse("Unauthorized", Some(401), None))
      else if payload.None? || payload.value.event.None? then
        Err(ErrorResponse("Invalid webhook payload", None, None))
      else Ok(payload.value.event.value)
  }

  /** One delivery of the webhook: a request that the gate rejects touches no table. */
  function HandleWebhook(t: Tables, req: Request<Payload>, secret: Option<string>, now: int, db: DbOutcomes)
    : (r: Delivery)
    ensures Gate(req.verb, secret, req.authorization, req.body).Err? ==>
              r.tables == t && r.response == Gate(req.verb, secret, req.authorization, req.body).error
    ensures Gate(req.verb, secret, req.authorization, req.body).Ok? ==>
              r == Upsert(t, Gate(req.verb, secret, req.authorization, req.body).value, now, db)
  {
    match Gate(req.verb, secret, req.authorization, req.body)
    case Err(resp) => Delivery(t, resp)
    case Ok(event) => Upsert(t, event, now, db)
  }

  lemma SingletonSet(s: set<nat>, x: nat)
    requires |s| == 1 && x in s
    ensures s == {x}
  {
    assert |s - {x}| == 0;
  }

  lemma UniqueMatchesAtMostOne(rows: map<nat, Subscription>, customerId: string)
    requires UniqueCustomers(rows)
    ensures |Matches(rows, customerId)| <= 1
  {
    var m := Matches(rows, customerId);
    if m != {} {
      var a :| a in m;
      assert m <= {a};
      assert m == {a};
    }
  }

  /**
   * Starting from at most one row per customer id, a delivery keeps it so,
   * provided the lookup succeeded or the customer really has no row.
   */
  lemma {:induction false} UpsertPreservesUnique(t: Tables, event: WebhookEvent, now: int, db: DbOutcomes)
    requires UniqueCustomers(t.rows) && IdsBelow(t.rows, t.nextId)
    requires db.selectOk || Matches(t.rows, event.appUserId) == {}
    ensures UniqueCustomers(Upsert(t, event, now, db).tables.rows)
  {
    var r := Upsert(t, event, now, db);
    if r.response.status == 200 {
      var m := Matches(t.rows, event.appUserId);
      if Found(t.rows, event.appUserId, db) {
        forall a, b | a in r.tables.rows && b in r.tables.rows
                      && r.tables.rows[a].customerId == r.tables.rows[b].customerId
          ensures a == b
        {
          assert r.tables.rows[a].customerId == t.rows[a].customerId;
          assert r.tables.rows[b].customerId == t.rows[b].customerId;
        }
      } else {
        UniqueMatchesAtMostOne(t.rows, event.appUserId);
        assert m == {};
        forall id | id in t.rows ensures t.rows[id].customerId != event.appUserId {
          assert id !in m;
        }
      }
    }
  }

  /** The same holds for a whole delivery, whatever the gate decides. */
  lemma {:induction false} HandlePreservesUnique(
    t: Tables, req: Request<Payload>, secret: Option<string>, now: int, db: DbOutcomes)
    requires UniqueCustomers(t.rows) && IdsBelow(t.rows, t.nextId)
    requires db.selectOk || forall id :: id in t.rows ==> t.rows[id].customerId != CustomerOf(req)
    ensures UniqueCustomers(HandleWebhook(t, req, secret, now, db).tables.rows)
  {
    var gate := Gate(req.verb, secret, req.authorization, req.body);
    if gate.Ok? {
      assert gate.value.appUserId == CustomerOf(req);
      assert Matches(t.rows, gate.value.appUserId) == {} || db.selectOk;
      UpsertPreservesUnique(t, gate.value, now, db);
    }
  }

  /** The customer id a request carries, or "" when it has no event. */
  function CustomerOf(req: Request<Payload>): string {
    if req.body.Some? && req.body.value.event.Some? then req.body.value.event.value.appUserId else ""
  }

  /**
   * The lookup's error is not inspected: when it fails for a customer that
   * already has a row, a second row for the same customer is inserted.
   */
  lemma LookupFailureDuplicatesRow()
    ensures var row := NewRow(SampleEvent("RENEWAL", None), None, 0);
            var t := Tables(map[0 := row], 1, map[]);
            var r := Upsert(t, SampleEvent("RENEWAL", None), 1, DbOutcomes(false, true, true));
            UniqueCustomers(t.rows) && !UniqueCustomers(r.tables.rows)
  {
    var row := NewRow(SampleEvent("RENEWAL", None), None, 0);
    var t := Tables(map[0 := row], 1, map[]);
    var r := Upsert(t, SampleEvent("RENEWAL", None), 1, DbOutcomes(false, true, true));
    assert r.tables.rows[0].customerId == r.tables.rows[1].customerId;
  }

  function SampleEvent(eventType: string, expirationAtMs: Option<int>): WebhookEvent {
    WebhookEvent(eventType, "u1", "monthly", ["pro"], expirationAtMs, "tx1", "APP_STORE", "PRODUCTION", "NORMAL")
  }

  /** An EXPIRATION for a customer with a row sets it to expired with the event's expiration time. */
  lemma ExpirationExample(row: Subscription, db: DbOutcomes)
    requires row.customerId == "u1" && db.selectOk && db.writeOk
    ensures var t := Tables(map[7 := row], 8, map[]);
            var r := Upsert(t, SampleEvent("EXPIRATION", Some(1700000000000)), 0, db);
            r.response.status == 200 && r.tables.rows.Keys == {7}
            && r.tables.rows[7].status == "expired"
            && r.tables.rows[7].expirationDate == Some(1700000000000)
  {
    var t := Tables(map[7 := row], 8, map[]);
    assert Matches(t.rows, "u1") == {7};
  }

  /** When exactly one row matches, updating the matching rows updates that one row. */
  lemma UpdateOnlyMatch(rows: map<nat, Subscription>, event: WebhookEvent, id: nat)
    requires |Matches(rows, event.appUserId)| == 1 && id in Matches(rows, event.appUserId)
    ensures rows[id := ApplyEvent(rows[id], event)] == UpdateMatching(rows, event)
  {
    var matches := Matches(rows, event.appUserId);
    SingletonSet(matches, id);
    forall k | k in rows && k != id ensures rows[k].customerId != event.appUserId {
      assert k !in matches;
    }
  }

  /** The `subscriptions` and `profiles` tables as mutable state. */
  class SubscriptionStore {
    var rows: map<nat, Subscription>
    var nextId: nat
    var profiles: map<string, string>

    ghost predicate Valid()
      reads this
    {
      IdsBelow(rows, nextId)
    }

    function State(): Tables
      reads this
    {
      Tables(rows, nextId, profiles)
    }

    constructor (profiles: map<string, string>)
      ensures Valid() && rows == map[] && nextId == 0 && this.profiles == profiles
    {
      rows := map[];
      nextId := 0;
      this.profiles := profiles;
    }

    /** The `Deno.serve` handler, reading then updating or inserting one row. */
    method Handle(req: Request<Payload>, secret: Option<string>, now: int, db: DbOutcomes)
      returns (resp: Response)
      requires Valid()
      modifies this
      ensures Valid()
      ensures State() == HandleWebhook(old(State()), req, secret, now, db).tables
      ensures resp == HandleWebhook(old(State()), req, secret, now, db).response
    {
      var cors := HandleCors(req.verb);
      if cors.Some? {
        return cors.value;
      }
      if req.verb != "POST" {
        return ErrorResponse("Method not allowed", Some(405), None);
      }
      if TruthyString(secret) && req.authorization != Some(BearerPrefix + secret.value) {
        return ErrorResponse("Unauthorized", Some(401), None);
      }
      if req.body.None? || req.body.value.event.None? {
        return ErrorResponse("Invalid webhook payload", None, None);
      }
      var event := req.body.value.event.value;
      var matches := Matches(rows, event.appUserId);
      if db.selectOk && |matches| == 1 {
        var id :| id in matches;
        if ExpirationThrows(event.expirationAtMs) {
          return ErrorResponse("Internal server error", Some(500), None);
        }
        if !db.writeOk {
          return ErrorResponse("Failed to update subscription", Some(500), None);
        }
        UpdateOnlyMatch(rows, event, id);
        rows := rows[id := ApplyEvent(rows[id], event)];
      } else {
        var userId := LinkedUser(profiles, event.appUserId, db.profileOk);
        if ExpirationThrows(event.expirationAtMs) {
          return ErrorResponse("Internal server error", Some(500), None);
        }
        if !db.writeOk {
          return ErrorResponse("Failed to create subscription", Some(500), None);
        }
        rows := rows[nextId := NewRow(event, userId, now)];
        nextId := nextId + 1;
      }
      resp := JsonResponse(SuccessBody, None);
    }
  }
}
