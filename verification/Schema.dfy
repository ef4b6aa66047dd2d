/** The tables of the points service, as values: one datatype per row type, one field per table.
    Identifiers are the text columns of the schema; times are integers (milliseconds). */
module Schema {
  datatype Option<+T> = None | Some(value: T)

  datatype EntryType = EARN | REDEEM | REVERSAL | ADJUSTMENT

  /** A row of `point_transactions`. */
  datatype Entry = Entry(
    id: string,
    userId: string,
    delta: int,
    kind: EntryType,
    source: string,
    eventId: Option<string>,
    redemptionId: Option<string>,
    ruleId: Option<string>,
    reversesId: Option<string>,
    createdAt: int)

  /** A row of `rewards`. A stock of None means unlimited. */
  datatype Reward = Reward(name: string, cost: int, stock: Option<int>, active: bool)

  datatype RedemptionStatus = RESERVED | FULFILLED | FAILED

  /** A row of `redemptions`. `cost` and `rewardName` are the snapshots taken when it was reserved. */
  datatype Redemption = Redemption(
    userId: string,
    rewardId: string,
    status: RedemptionStatus,
    cost: int,
    rewardName: string,
    key: string,
    fulfillmentRef: Option<string>,
    failureReason: Option<string>)

  /** A row of `earning_rules`, in force on [from, to); `to` of None is still current. */
  datatype Rule = Rule(
    id: string,
    activityType: string,
    points: int,
    from: int,
    to: Option<int>,
    active: bool)

  /** A webhook body after the parsing that is outside this model. `digest` is the hex SHA-256 of the raw bytes. */
  datatype Body =
    | Malformed(digest: string)
    | Invalid(eventIdField: Option<string>, digest: string)
    | Event(eventId: string, userRef: string, activityType: string, occurredAt: int, hasNul: bool, digest: string)

  datatype DeliveryStatus = RECEIVED | PROCESSED | UNMATCHED | REJECTED | DELIVERY_FAILED

  datatype UnmatchedReason = UNKNOWN_USER | NO_RULE

  /** A row of `webhook_deliveries`. `key` is the external_event_id column. */
  datatype Delivery = Delivery(
    partner: string,
    key: string,
    status: DeliveryStatus,
    reason: Option<UnmatchedReason>,
    body: Body,
    userRef: Option<string>,
    activityType: Option<string>,
    attempts: nat,
    receivedAt: int)

  /** The whole database. `users` maps an external reference to a user id. */
  datatype Db = Db(
    users: map<string, string>,
    rules: seq<Rule>,
    ledger: seq<Entry>,
    balances: map<string, int>,
    rewards: map<string, Reward>,
    redemptions: map<string, Redemption>,
    deliveries: map<string, Delivery>)

  const EMPTY_DB := Db(map[], [], [], map[], map[], map[], map[])

  datatype Error =
    | UnknownUser(userId: string)
    | CheckViolation
    | UniqueViolation
    | ForeignKeyViolation
    | InsufficientPoints(userId: string, balance: int, requested: int)
    | EntryNotFound(entryId: string)
    | RewardNotFound(rewardId: string)
    | RewardInactive
    | OutOfStock
    | DeliveryNotFound(deliveryId: string)
    | FilterRequired
    | KeyUnclaimable
    | Infrastructure

  datatype Result<+T> = Ok(value: T) | Err(error: Error)
}
