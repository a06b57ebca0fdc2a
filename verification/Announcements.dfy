/**
 * The announcement lifecycle (src/core/announcements.ts) on values: every `sql.begin` body is one
 * function from the tables it reads to the tables it leaves. Transactions are atomic and serial.
 */
module Announcements {
  import opened Types
  import opened Text
  import opened Outbox

  /** The tables a transaction sees (alert_state as key to notified_at), the enabled channels, and `now()`. */
  datatype Store = Store(
    rows: map<Key, Row>, ledger: map<LedgerKey, Delivery>, audit: seq<Entry>,
    settings: seq<Setting>, subs: seq<Subscription>, enabled: set<Channel>,
    alerts: map<string, Option<int>>, now: int)

  const SCHEDULER := "scheduler"
  const SLUG_ATTEMPTS := 20

  // ---- the latest revision of an id -------------------------------------------------------

  function Revisions(rows: map<Key, Row>, id: string): set<nat> {
    set k | k in rows && k.id == id :: k.revision
  }

  lemma {:induction false} MaxExists(s: set<nat>)
    requires s != {}
    ensures exists m :: m in s && forall x :: x in s ==> x <= m
  {
    var y :| y in s;
    var rest := s - {y};
    assert s == rest + {y};
    if rest != {} {
      MaxExists(rest);
      var m :| m in rest && forall x :: x in rest ==> x <= m;
      var top := if y < m then m else y;
      assert top in s && forall x :: x in s ==> x <= top;
    }
  }

  function MaxOf(s: set<nat>): (m: nat)
    requires s != {}
    ensures m in s && forall x :: x in s ==> x <= m
  {
    MaxExists(s);
    var m :| m in s && forall x :: x in s ==> x <= m;
    m
  }

  /** `where id = … order by revision desc limit 1`. */
  function Latest(rows: map<Key, Row>, id: string): (k: Option<Key>)
    ensures k.Some? ==> k.value in rows && k.value.id == id
    ensures k.Some? ==> forall j :: j in rows && j.id == id ==> j.revision <= k.value.revision
    ensures k.None? <==> forall j :: j in rows ==> j.id != id
  {
    var revs := Revisions(rows, id);
    assert forall j :: j in rows && j.id == id ==> j.revision in revs;
    if revs == {} then None else Some(Key(id, MaxOf(revs)))
  }

  // ---- what each command does to the latest row -------------------------------------------

  datatype Command =
    | Create(id: string, base: string, content: Content, actor: string)
    | Revise(id: string, content: Content, actor: string)
    | Discard(id: string, actor: string)
    | Request(id: string, actor: string)
    | Confirm(id: string, actor: string)
    | Schedule(id: string, when: Option<int>, actor: string)
    | ConfirmSchedule(id: string, actor: string)
    | Cancel(id: string, actor: string)
    | Withdraw(id: string, actor: string)
    | Reject(id: string, actor: string, reason: string)

  /**
   * How a transaction changes the row it locked: refused, or the new row, its audit action and whether
   * it publishes.
   */
  datatype Decision = Refuse(error: Error) | Accept(row: Row, action: AuditAction, publishes: bool)

  predicate SamePerson(who: Option<string>, actor: string) {
    who.Some? && Lower(who.value) == Lower(actor)
  }

  function PublishedRow(r: Row, confirmer: string, now: int): Row {
    r.(status := Published, publishedAt := Some(now), confirmedBy := Some(confirmer))
  }

  function Decide(r: Row, c: Command, now: int): Decision {
    match c
    case Create(_, _, _, _) => Refuse(DuplicateKey)
    case Revise(_, content, actor) =>
      if r.status != Draft then Refuse(WrongStatus(r.status))
      else Accept(NewRow(content, r.slug, actor), DraftEdited, false)
    case Discard(_, _) =>
      if r.status != Draft then Refuse(WrongStatus(r.status))
      else Accept(r.(status := Discarded), DraftDiscarded, false)
    case Request(_, actor) =>
      if r.status != Draft then Refuse(WrongStatus(r.status))
      else if r.content.severity != Critical then Accept(PublishedRow(r, actor, now), PublishConfirmed, true)
      else Accept(r.(status := PublishRequested, requestedBy := Some(actor)), RequestFiled, false)
    case Confirm(_, actor) =>
      if r.status != PublishRequested then Refuse(WrongStatus(r.status))
      else if r.scheduledFor.Some? then Refuse(UseConfirmSchedule)
      else if r.content.severity == Critical && SamePerson(r.requestedBy, actor) then Refuse(FourEyes)
      else Accept(PublishedRow(r, actor, now), PublishConfirmed, true)
    case Schedule(_, when, actor) =>
      if when.None? then Refuse(InvalidDate)
      else if r.status != Draft then Refuse(WrongStatus(r.status))
      else
        var critical := r.content.severity == Critical;
        var next := if critical then PublishRequested else Scheduled;
        Accept(r.(status := next, scheduledFor := when, requestedBy := if critical then Some(actor) else None),
               PublishScheduled(when.value, next), false)
    case ConfirmSchedule(_, actor) =>
      if r.status != PublishRequested then Refuse(WrongStatus(r.status))
      else if r.scheduledFor.None? then Refuse(UseConfirmPublish)
      else if r.content.severity == Critical && SamePerson(r.requestedBy, actor) then Refuse(FourEyes)
      else Accept(r.(status := Scheduled, confirmedBy := Some(actor)), AuditAction.ScheduleConfirmed(r.scheduledFor),
                  false)
    case Cancel(_, _) =>
      if r.status != Scheduled && !(r.status == PublishRequested && r.scheduledFor.Some?) then
        Refuse(WrongStatus(r.status))
      else
        Accept(r.(status := Draft, scheduledFor := None, requestedBy := None, confirmedBy := None,
                  rejectedBy := None, rejectedReason := None),
               ScheduleCancelled(r.scheduledFor), false)
    case Withdraw(_, actor) =>
      if r.status != PublishRequested then Refuse(WrongStatus(r.status))
      else if !SamePerson(r.requestedBy, actor) then Refuse(NotRequester)
      else
        Accept(r.(status := Draft, requestedBy := None, scheduledFor := None,
                  rejectedBy := None, rejectedReason := None),
               RequestWithdrawn, false)
    case Reject(_, actor, reason) =>
      if r.status != PublishRequested then Refuse(WrongStatus(r.status))
      else if SamePerson(r.requestedBy, actor) then Refuse(OwnRequest)
      else
        Accept(r.(status := Draft, requestedBy := None, scheduledFor := None,
                  rejectedBy := Some(actor), rejectedReason := Some(Trim(reason))),
               RequestRejected(Trim(reason)), false)
  }

  function NewRow(content: Content, slug: string, actor: string): Row {
    Row(content, slug, actor, Draft, None, None, None, None, None, None)
  }

  // ---- slugs -------------------------------------------------------------------------------

  predicate SlugTaken(rows: map<Key, Row>, slug: string) {
    exists k :: k in rows && rows[k].slug == slug
  }

  function SlugCandidate(base: string, i: nat): string {
    if i == 1 then base else base + "-" + Decimal(i)
  }

  /** The first free candidate from the `i`th on. */
  function FreeSlug(rows: map<Key, Row>, base: string, i: nat): (s: Option<string>)
    ensures s.Some? ==> !SlugTaken(rows, s.value)
    ensures s.None? ==> forall j :: i <= j <= SLUG_ATTEMPTS ==> SlugTaken(rows, SlugCandidate(base, j))
    decreases SLUG_ATTEMPTS + 1 - i
  {
    if i > SLUG_ATTEMPTS then None
    else if SlugTaken(rows, SlugCandidate(base, i)) then FreeSlug(rows, base, i + 1)
    else Some(SlugCandidate(base, i))
  }

  // ---- transactions -------------------------------------------------------------------------

  /** performPublish's insert into the outbox. */
  function Deliveries(s: Store, a: Announcement): map<LedgerKey, Delivery> {
    Enqueue(s.ledger, a.key, Publish, FanoutTargets(a.row.content, s.settings, s.subs, s.enabled), s.now).0
  }

  /** Write a row, its outbox rows when it publishes, and its audit entry. */
  function Write(s: Store, a: Announcement, action: AuditAction, actor: string, publishes: bool): Store {
    s.(rows := s.rows[a.key := a.row],
       ledger := if publishes then Deliveries(s, a) else s.ledger,
       audit := s.audit + [Entry(actor, action, a.key, s.now)])
  }

  /** One transaction: the tables it commits and what it returns; an error commits nothing. */
  function Perform(s: Store, c: Command): (Store, Result<Announcement>) {
    if c.Create? then
      var slug := FreeSlug(s.rows, c.base, 1);
      var key := Key(c.id, 1);
      if slug.None? then (s, Err(NoFreeSlug(c.base)))
      else if key in s.rows then (s, Err(DuplicateKey))
      else
        var a := Announcement(key, NewRow(c.content, slug.value, c.actor));
        (Write(s, a, DraftCreated, c.actor, false), Ok(a))
    else
      match Precheck(c, s.now)
      case Some(e) => (s, Err(e))
      case None =>
        match Latest(s.rows, c.id)
        case None => (s, Err(NotFound(c.id)))
        case Some(key) =>
          match Decide(s.rows[key], c, s.now)
          case Refuse(e) => (s, Err(e))
          case Accept(row, action, publishes) =>
            var a := Announcement(if c.Revise? then Key(key.id, key.revision + 1) else key, row);
            (Write(s, a, action, c.actor, publishes), Ok(a))
  }

  /** The argument checks schedulePublish and rejectPublish make before they open the transaction. */
  function Precheck(c: Command, now: int): Option<Error> {
    match c
    case Schedule(_, when, _) =>
      if when.None? then Some(InvalidDate) else if when.value <= now then Some(PastDate) else None
    case Reject(_, _, reason) => if Trim(reason) == "" then Some(ReasonRequired) else None
    case _ => None
  }

  // ---- the scheduler ------------------------------------------------------------------------

  predicate IsDue(rows: map<Key, Row>, k: Key, now: int) {
    && k in rows && rows[k].status == Scheduled
    && rows[k].scheduledFor.Some? && rows[k].scheduledFor.value <= now
  }

  function DueTime(rows: map<Key, Row>, k: Key): int {
    if k in rows && rows[k].scheduledFor.Some? then rows[k].scheduledFor.value else 0
  }

  /** `select … where status = 'scheduled' and scheduled_for <= now() order by scheduled_for limit batch`. */
  ghost predicate IsDueBatch(rows: map<Key, Row>, now: int, batch: nat, due: seq<Key>) {
    && Distinct(due)
    && |due| <= batch
    && (forall k :: k in due ==> IsDue(rows, k, now))
    && (forall i, j :: 0 <= i < j < |due| ==> DueTime(rows, due[i]) <= DueTime(rows, due[j]))
    && (forall k :: IsDue(rows, k, now) && k !in due ==>
          |due| == batch && forall j :: j in due ==> DueTime(rows, j) <= DueTime(rows, k))
  }

  /** The scheduler keeps the name of the publisher who approved the schedule, if there is one. */
  function ScheduledConfirmer(r: Row): string {
    if r.confirmedBy.Some? then r.confirmedBy.value else SCHEDULER
  }

  function SendOne(s: Store, k: Key): Store
    requires k in s.rows
  {
    var r := s.rows[k];
    var a := Announcement(k, PublishedRow(r, ScheduledConfirmer(r), s.now));
    var sent := Write(s, a, PublishConfirmed, SCHEDULER, true);
    sent.(audit := sent.audit + [Entry(SCHEDULER, ScheduledSent(r.scheduledFor, r.requestedBy, r.confirmedBy), k,
                                       s.now)])
  }

  /** publishDueScheduled over the rows the query returned, in order. */
  function SendDue(s: Store, due: seq<Key>): (r: Store)
    requires forall k :: k in due ==> k in s.rows
    ensures r.rows.Keys == s.rows.Keys
    ensures r.now == s.now
  {
    if due == [] then s
    else
      var init := due[..|due| - 1];
      assert forall k :: k in init ==> k in due;
      assert due[|due| - 1] in due;
      SendOne(SendDue(s, init), due[|due| - 1])
  }
}
