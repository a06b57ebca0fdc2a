/** The values every part of the announcement tool exchanges (src/core/types.ts, migrations/). */
module Types {

  datatype Option<+T> = None | Some(value: T)

  datatype Result<+T> = Ok(value: T) | Err(error: Error)

  /** What a lifecycle transaction throws. Every one of them rolls the transaction back. */
  datatype Error =
    | NotFound(id: string)
    | WrongStatus(status: Status)
    | FourEyes
    | UseConfirmSchedule
    | UseConfirmPublish
    | InvalidDate
    | PastDate
    | NotRequester
    | OwnRequest
    | ReasonRequired
    | NoFreeSlug(base: string)
    | DuplicateKey

  datatype AnnouncementType = Upgrade | Governance | Info
  datatype Severity = Critical | Recommended | Informational
  datatype Network = Mainnet | Testnet
  datatype Audience = Operators | Ecosystem
  datatype Channel = Discord | Telegram | Signal | Email | Webhook
  datatype Kind = Publish | Update | Reminder
  datatype Status = Draft | PublishRequested | Scheduled | Published | Superseded | Discarded

  datatype ActionRequired = ActionRequired(action: string, deadline: Option<string>, appliesTo: seq<string>)
  datatype Link = Link(caption: string, url: string)

  /** What an author writes; the part of a row no transaction ever updates. */
  datatype Content = Content(
    kind: AnnouncementType, networks: seq<Network>, audiences: seq<Audience>, severity: Severity,
    title: string, bodyMd: string, actions: seq<ActionRequired>, links: seq<Link>,
    supersedes: Option<string>, mentionRoleIds: Option<seq<string>>)

  /** Primary key of `announcements`. */
  datatype Key = Key(id: string, revision: nat)

  /** One row of `announcements`. Times are milliseconds. */
  datatype Row = Row(
    content: Content, slug: string, createdBy: string, status: Status,
    requestedBy: Option<string>, confirmedBy: Option<string>, publishedAt: Option<int>,
    scheduledFor: Option<int>, rejectedBy: Option<string>, rejectedReason: Option<string>)

  datatype Announcement = Announcement(key: Key, row: Row)

  datatype Target = Target(channel: Channel, target: string)

  /** Primary key of `delivery_ledger`. */
  datatype LedgerKey = LedgerKey(key: Key, kind: Kind, target: Target)

  datatype DeliveryStatus = Pending | Delivered | Failed | Exhausted

  /** One row of `delivery_ledger`. */
  datatype Delivery = Delivery(
    status: DeliveryStatus, attempts: nat, nextAt: int,
    lastError: Option<string>, deliveredAt: Option<int>, note: Option<string>)

  /** `action` and `detail` of one audit_log row. */
  datatype AuditAction =
    | DraftCreated
    | DraftEdited
    | DraftDiscarded
    | RequestFiled
    | PublishScheduled(when: int, next: Status)
    | ScheduleConfirmed(time: Option<int>)
    | ScheduleCancelled(time: Option<int>)
    | RequestWithdrawn
    | RequestRejected(reason: string)
    | PublishConfirmed
    | ScheduledSent(time: Option<int>, requester: Option<string>, confirmer: Option<string>)

  datatype Entry = Entry(actor: string, action: AuditAction, key: Key, at: int)

  datatype Filters = Filters(
    networks: seq<Network>, types: seq<AnnouncementType>,
    severities: seq<Severity>, audiences: seq<Audience>)

  /** Partial<SubscriptionFilters>: an absent field leaves the stored one alone. */
  datatype FilterPatch = FilterPatch(
    networks: Option<seq<Network>>, types: Option<seq<AnnouncementType>>,
    severities: Option<seq<Severity>>, audiences: Option<seq<Audience>>)

  /** One row of `subscriptions`. */
  datatype Subscription = Subscription(
    id: string, channel: Channel, endpoint: string, verified: bool, secret: Option<string>,
    filters: Filters, unsubscribeToken: string,
    verifyToken: Option<string>, verifyIssuedAt: Option<int>,
    pendingFilters: Option<FilterPatch>, pendingToken: Option<string>, pendingIssuedAt: Option<int>)

  /** One row of `channel_settings`; absent lists mean the defaults of rowToSetting. */
  datatype Setting = Setting(
    key: string, channel: Channel,
    networks: Option<seq<Network>>, types: Option<seq<AnnouncementType>>)

  predicate IsBroadcast(c: Channel) {
    c.Discord? || c.Telegram? || c.Signal?
  }
}
