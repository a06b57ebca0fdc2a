/**
 * Subscription rows and the calls that change them (src/core/subscriptions.ts, subscribe-flow.ts,
 * webhook-flow.ts, tokens-flow.ts). No call opens a transaction around its statements, so every
 * select, insert, update, letter and test is a step of its own.
 */
module Subscriptions {
  import opened Types
  import opened Text

  const HOUR := 3_600_000
  const TTL := 72 * HOUR
  const DEFAULTS :=
    Filters([Mainnet, Testnet], [Upgrade, Governance, Info], [Critical, Recommended, Informational], [Operators])

  // ---- rows -----------------------------------------------------------------------------------

  /** `coalesce(new, old)` per column. */
  function Patched(f: Filters, p: FilterPatch): Filters {
    Filters(if p.networks.Some? then p.networks.value else f.networks,
            if p.types.Some? then p.types.value else f.types,
            if p.severities.Some? then p.severities.value else f.severities,
            if p.audiences.Some? then p.audiences.value else f.audiences)
  }

  predicate HasEmptyList(p: FilterPatch) {
    p.networks == Some([]) || p.types == Some([]) || p.severities == Some([]) || p.audiences == Some([])
  }

  const NO_PATCH := FilterPatch(None, None, None, None)

  function PatchOf(p: Option<FilterPatch>): FilterPatch {
    if p.Some? then p.value else NO_PATCH
  }

  /** The tokens and names a call would draw at random. */
  datatype Draw = Draw(id: string, secret: string, unsubscribeToken: string, verifyToken: string, freshToken: string)

  function NewSubscription(channel: Channel, endpoint: string, patch: FilterPatch, d: Draw, now: int): Subscription {
    Subscription(d.id, channel, endpoint, false, if channel == Webhook then Some(d.secret) else None,
                 Patched(DEFAULTS, patch), d.unsubscribeToken, Some(d.verifyToken), Some(now), None, None, None)
  }

  /** verifySubscription: the confirmation token is spent. */
  function VerifiedRow(s: Subscription): Subscription {
    s.(verified := true, verifyToken := None, verifyIssuedAt := None)
  }

  predicate IsLive(issuedAt: Option<int>, now: int) {
    issuedAt.Some? && issuedAt.value > now - TTL
  }

  type Table = map<string, Subscription>

  /** The primary key and the unique constraints of the table. */
  predicate TableOk(t: Table) {
    && (forall i :: i in t ==> t[i].id == i && (t[i].channel == Email || t[i].channel == Webhook))
    && (forall i, j :: i in t && j in t && t[i].channel == t[j].channel && t[i].endpoint == t[j].endpoint ==> i == j)
    && (forall i, j :: i in t && j in t && t[i].unsubscribeToken == t[j].unsubscribeToken ==> i == j)
    && (forall i, j :: i in t && j in t && t[i].verifyToken.Some? && t[i].verifyToken == t[j].verifyToken ==> i == j)
    && (forall i, j :: i in t && j in t && t[i].pendingToken.Some? && t[i].pendingToken == t[j].pendingToken ==> i == j)
  }

  function ByEndpoint(t: Table, channel: Channel, endpoint: string): (r: Option<string>)
    requires TableOk(t)
    ensures r.Some? ==> r.value in t && t[r.value].channel == channel && t[r.value].endpoint == endpoint
    ensures r.None? ==> forall i :: i in t ==> t[i].channel != channel || t[i].endpoint != endpoint
  {
    if exists i :: i in t && t[i].channel == channel && t[i].endpoint == endpoint then
      var i :| i in t && t[i].channel == channel && t[i].endpoint == endpoint;
      Some(i)
    else None
  }

  /** The row a live confirmation token belongs to. */
  function ByVerifyToken(t: Table, token: string, now: int): (r: Option<string>)
    requires TableOk(t)
    ensures r.Some? ==> r.value in t && t[r.value].verifyToken == Some(token) && IsLive(t[r.value].verifyIssuedAt, now)
    ensures r.None? ==> forall i :: i in t ==> t[i].verifyToken != Some(token) || !IsLive(t[i].verifyIssuedAt, now)
  {
    if exists i :: i in t && t[i].verifyToken == Some(token) && IsLive(t[i].verifyIssuedAt, now) then
      var i :| i in t && t[i].verifyToken == Some(token) && IsLive(t[i].verifyIssuedAt, now);
      Some(i)
    else None
  }

  function ByPendingToken(t: Table, token: string, now: int): (r: Option<string>)
    requires TableOk(t)
    ensures r.Some? ==>
              r.value in t && t[r.value].pendingToken == Some(token) && IsLive(t[r.value].pendingIssuedAt, now)
    ensures r.None? ==> forall i :: i in t ==> t[i].pendingToken != Some(token) || !IsLive(t[i].pendingIssuedAt, now)
  {
    if exists i :: i in t && t[i].pendingToken == Some(token) && IsLive(t[i].pendingIssuedAt, now) then
      var i :| i in t && t[i].pendingToken == Some(token) && IsLive(t[i].pendingIssuedAt, now);
      Some(i)
    else None
  }

  function ByUnsubscribeToken(t: Table, token: string): (r: Option<string>)
    requires TableOk(t)
    ensures r.Some? ==> r.value in t && t[r.value].unsubscribeToken == token
    ensures r.None? ==> forall i :: i in t ==> t[i].unsubscribeToken != token
  {
    if exists i :: i in t && t[i].unsubscribeToken == token then
      var i :| i in t && t[i].unsubscribeToken == token;
      Some(i)
    else None
  }

  // ---- writes -----------------------------------------------------------------------------------

  /** The insert of this row would break a unique key. */
  predicate IsTaken(t: Table, r: Subscription) {
    || r.id in t
    || exists i :: i in t && (|| (t[i].channel == r.channel && t[i].endpoint == r.endpoint)
                              || t[i].unsubscribeToken == r.unsubscribeToken
                              || (r.verifyToken.Some? && t[i].verifyToken == r.verifyToken))
  }

  datatype Inserted = EmptyList | Conflict | Stored

  /** How createSubscription ends. */
  function InsertResult(t: Table, patch: FilterPatch, r: Subscription): Inserted {
    if HasEmptyList(patch) then EmptyList else if IsTaken(t, r) then Conflict else Stored
  }

  /** `update subscriptions set … where id = …`: no row, no change. */
  function Filtered(t: Table, id: string, patch: FilterPatch): Table {
    if id in t then t[id := t[id].(filters := Patched(t[id].filters, patch))] else t
  }

  function Verified(t: Table, id: string): Table {
    if id in t then t[id := VerifiedRow(t[id])] else t
  }

  function Reissued(t: Table, id: string, token: string, now: int): Table {
    if id in t then t[id := t[id].(verifyToken := Some(token), verifyIssuedAt := Some(now))] else t
  }

  function Proposed(t: Table, id: string, patch: FilterPatch, token: string, now: int): Table {
    if id in t
    then t[id := t[id].(pendingFilters := Some(patch), pendingToken := Some(token), pendingIssuedAt := Some(now))]
    else t
  }

  function Cleared(t: Table, id: string): Table {
    if id in t then t[id := t[id].(pendingFilters := None, pendingToken := None, pendingIssuedAt := None)] else t
  }

  /** Another row holds this confirmation token, or this change token; the two columns are unique each on its own. */
  predicate VerifyTaken(t: Table, id: string, token: string) {
    exists i :: i in t && i != id && t[i].verifyToken == Some(token)
  }

  predicate PendingTaken(t: Table, id: string, token: string) {
    exists i :: i in t && i != id && t[i].pendingToken == Some(token)
  }

  predicate HeldElsewhere(t: Table, id: string, token: string) {
    VerifyTaken(t, id, token) || PendingTaken(t, id, token)
  }

  // ---- calls ------------------------------------------------------------------------------------

  datatype Letter = ConfirmLink(to: string, token: string) | ChangeLink(to: string, token: string) | Notice(to: string)

  /** An audit_log row of unsubscribeByToken. */
  datatype Deletion = Deletion(id: string, channel: Channel)

  /** The table, every letter that went out, the log of deletions, and the clock. */
  datatype State = State(rows: Table, letters: seq<Letter>, deletions: seq<Deletion>, now: int)

  datatype Reply =
    | ConfirmationSent
    | PreferencesUpdated
    | ChangePending
    | Threw
    | AlreadyExists
    | Answer(ok: bool)
    | Registered(secretOnce: string, manageToken: string)

  /** What a caller asks for. `allowed` is the verdict of the address policy on the endpoint. */
  datatype Request =
    | Subscribe(email: string, filters: Option<FilterPatch>)
    | ConfirmEmail(token: string)
    | ConfirmChange(token: string)
    | Register(url: string, filters: Option<FilterPatch>, secret: Option<string>, allowed: bool)
    | SendTest(token: string, allowed: bool)
    | Unsubscribe(token: string)
    | ManageFilters(token: string, patch: FilterPatch)

  function Address(raw: string): string {
    Lower(Trim(raw))
  }

  /** The statement a call executes next, with what its earlier statements left in its variables. */
  datatype Point =
    | Finding(attempt: nat)
    | Inserting(attempt: nat)
    | Refinding(attempt: nat)
    | LastInserting
    | Proposing(id: string)
    | Reissuing(id: string)
    | Posting(letter: Letter, reply: Reply)
    | SeekingToken
    | SeekingChange
    | Clearing(id: string)
    | SeekingUrl
    | Registering
    | SeekingWinner
    | LoserPatching(id: string)
    | SeekingManaged
    | Deleting(deletion: Deletion)
    | Patching(id: string, patch: FilterPatch)
    | Testing(id: string)
    | Verifying(id: string)
    | Done(reply: Reply)

  /** Which calls have which statements. */
  predicate Fits(q: Request, p: Point) {
    match p
    case Finding(attempt) => q.Subscribe? && attempt <= 1
    case Inserting(attempt) => q.Subscribe? && attempt <= 1
    case Refinding(attempt) => q.Subscribe? && attempt <= 1
    case LastInserting => q.Subscribe?
    case Proposing(_) => q.Subscribe? && q.filters.Some?
    case Reissuing(_) => q.Subscribe?
    case Posting(_, reply) => q.Subscribe? && (reply.ConfirmationSent? || reply.PreferencesUpdated?
                                               || reply.ChangePending?)
    case SeekingToken => q.ConfirmEmail?
    case SeekingChange => q.ConfirmChange?
    case Clearing(_) => q.ConfirmChange?
    case SeekingUrl => q.Register? && q.allowed
    case Registering => q.Register? && q.secret.None?
    case SeekingWinner => q.Register? && q.secret.None?
    case LoserPatching(_) => q.Register? && q.secret.None? && q.filters.Some?
    case SeekingManaged => q.SendTest? || q.Unsubscribe? || q.ManageFilters?
    case Deleting(_) => q.Unsubscribe?
    case Patching(_, _) =>
      q.Subscribe? || q.ConfirmChange? || (q.Register? && q.secret.Some? && q.allowed) || q.ManageFilters?
    case Testing(_) => (q.Register? && q.secret.Some? && q.allowed) || (q.SendTest? && q.allowed)
    case Verifying(_) => q.ConfirmEmail? || (q.Register? && q.secret.Some?) || q.SendTest?
    case Done(_) => true
  }

  /** Where a call starts: the checks that come before its first statement. */
  function First(q: Request): (p: Point)
    ensures Fits(q, p)
  {
    match q
    case Subscribe(_, _) => Finding(0)
    case ConfirmEmail(_) => SeekingToken
    case ConfirmChange(_) => SeekingChange
    case Register(_, filters, _, allowed) =>
      if !allowed || HasEmptyList(PatchOf(filters)) then Done(Answer(false)) else SeekingUrl
    case SendTest(_, _) => SeekingManaged
    case Unsubscribe(_) => SeekingManaged
    case ManageFilters(_, patch) => if HasEmptyList(patch) then Done(Threw) else SeekingManaged
  }

  /**
   * Where startEmailSubscription goes when a statement of its retry meets a row (for a select) or a
   * conflict (for an insert), and when it does not; None when it leaves the retry.
   */
  function Branch(p: Point, seen: bool): Option<Point>
    requires p.Finding? || p.Inserting? || p.Refinding?
  {
    match p
    case Finding(attempt) => Some(if seen then Refinding(attempt) else Inserting(attempt))
    case Inserting(attempt) => if seen then Some(Refinding(attempt)) else None
    case Refinding(attempt) =>
      if seen then None else Some(if attempt == 0 then Finding(1) else LastInserting)
  }

  /** Statements of startEmailSubscription and updateExistingAndNotify. */
  predicate IsSubscribing(p: Point) {
    p.Finding? || p.Inserting? || p.Refinding? || p.LastInserting? || p.Proposing? || p.Reissuing? || p.Posting?
  }

  /** createSubscription for an address, then the letter; `conflict` is where a unique violation leads. */
  function Created(s: State, email: string, patch: FilterPatch, d: Draw, conflict: Point): (State, Point) {
    var row := NewSubscription(Email, email, patch, d, s.now);
    match InsertResult(s.rows, patch, row)
    case EmptyList => (s, Done(Threw))
    case Conflict => (s, conflict)
    case Stored => (s.(rows := s.rows[d.id := row]), Posting(ConfirmLink(email, d.verifyToken), ConfirmationSent))
  }

  /** updateExistingAndNotify, once its select has seen the row. */
  function AfterSighting(q: Request, id: string, verified: bool): Point
    requires q.Subscribe?
  {
    if !verified then Patching(id, PatchOf(q.filters))
    else if q.filters.Some? then Proposing(id)
    else Posting(Notice(Address(q.email)), PreferencesUpdated)
  }

  function SubscribeStatement(s: State, q: Request, p: Point, d: Draw, ok: bool): (State, Point)
    requires TableOk(s.rows) && Fits(q, p) && IsSubscribing(p)
  {
    var email, patch := Address(q.email), PatchOf(q.filters);
    match p
    case Finding(_) => (s, Branch(p, ByEndpoint(s.rows, Email, email).Some?).value)
    case Inserting(_) => Created(s, email, patch, d, Branch(p, true).value)
    case Refinding(_) =>
      (match ByEndpoint(s.rows, Email, email)
       case None => (s, Branch(p, false).value)
       case Some(id) => (s, AfterSighting(q, id, s.rows[id].verified)))
    case LastInserting => Created(s, email, patch, d, Done(AlreadyExists))
    case Proposing(id) =>
      if PendingTaken(s.rows, id, d.freshToken) then (s, Done(AlreadyExists))
      else
        (s.(rows := Proposed(s.rows, id, patch, d.freshToken, s.now)),
         Posting(ChangeLink(email, d.freshToken), ChangePending))
    case Reissuing(id) =>
      if VerifyTaken(s.rows, id, d.freshToken) then (s, Done(AlreadyExists))
      else
        (s.(rows := Reissued(s.rows, id, d.freshToken, s.now)),
         Posting(ConfirmLink(email, d.freshToken), ConfirmationSent))
    case Posting(letter, reply) =>
      if ok then (s.(letters := s.letters + [letter]), Done(reply)) else (s, Done(Threw))
  }

  /** What follows the update of the filters. */
  function AfterPatch(q: Request, id: string): Point
    requires q.Subscribe? || q.ConfirmChange? || q.Register? || q.ManageFilters?
  {
    if q.Subscribe? then Reissuing(id)
    else if q.ConfirmChange? then Clearing(id)
    else if q.Register? then Testing(id)
    else Done(Answer(true))
  }

  /** registerWebhook, once its select has seen the row: the secret decides. */
  function AfterUrl(q: Request, id: string, secret: Option<string>): Point
    requires q.Register?
  {
    if q.secret.None? || q.secret != secret then Done(Answer(false))
    else if q.filters.Some? then Patching(id, q.filters.value)
    else Testing(id)
  }

  predicate IsRegistering(p: Point) {
    p.SeekingUrl? || p.Registering? || p.SeekingWinner? || p.LoserPatching?
  }

  function RegisterStatement(s: State, q: Request, p: Point, d: Draw): (State, Point)
    requires TableOk(s.rows) && Fits(q, p) && IsRegistering(p)
  {
    match p
    case SeekingUrl =>
      (match ByEndpoint(s.rows, Webhook, q.url)
       case None => (s, if q.secret.Some? then Done(Answer(false)) else Registering)
       case Some(id) => (s, AfterUrl(q, id, s.rows[id].secret)))
    case Registering =>
      var row := NewSubscription(Webhook, q.url, PatchOf(q.filters), d, s.now);
      (match InsertResult(s.rows, PatchOf(q.filters), row)
       case EmptyList => (s, Done(Threw))
       case Conflict => (s, SeekingWinner)
       case Stored => (s.(rows := s.rows[d.id := row]), Done(Registered(d.secret, d.unsubscribeToken))))
    case SeekingWinner =>
      (match ByEndpoint(s.rows, Webhook, q.url)
       case None => (s, Done(AlreadyExists))
       case Some(id) => (s, if q.filters.Some? then LoserPatching(id) else Done(Answer(false))))
    case LoserPatching(id) =>
      (if HasEmptyList(q.filters.value) then s else s.(rows := Filtered(s.rows, id, q.filters.value)),
       Done(Answer(false)))
  }

  /** The calls that name a row by its unsubscribe token, once the select has seen the row. */
  function AfterManaged(q: Request, row: Subscription): Point
    requires q.SendTest? || q.Unsubscribe? || q.ManageFilters?
  {
    match q
    case SendTest(_, allowed) =>
      if row.channel != Webhook || row.secret.None? || row.secret == Some("") || !allowed then Done(Answer(false))
      else Testing(row.id)
    case Unsubscribe(_) => Deleting(Deletion(row.id, row.channel))
    case ManageFilters(_, patch) => Patching(row.id, patch)
  }

  /** The statements several calls share, and those of the link calls. */
  function LinkStatement(s: State, q: Request, p: Point, ok: bool): (State, Point)
    requires TableOk(s.rows) && Fits(q, p)
    requires p.SeekingToken? || p.SeekingChange? || p.Clearing? || p.SeekingManaged? || p.Deleting?
             || p.Patching? || p.Testing? || p.Verifying?
  {
    match p
    case SeekingToken =>
      (match ByVerifyToken(s.rows, q.token, s.now)
       case None => (s, Done(Answer(false)))
       case Some(id) => (s, Verifying(id)))
    case SeekingChange =>
      (match ByPendingToken(s.rows, q.token, s.now)
       case None => (s, Done(Answer(false)))
       case Some(id) => (s, Patching(id, PatchOf(s.rows[id].pendingFilters))))
    case Clearing(id) => (s.(rows := Cleared(s.rows, id)), Done(Answer(true)))
    case SeekingManaged =>
      (match ByUnsubscribeToken(s.rows, q.token)
       case None => (s, Done(Answer(false)))
       case Some(id) => (s, AfterManaged(q, s.rows[id])))
    case Deleting(e) => (s.(rows := s.rows - {e.id}, deletions := s.deletions + [e]), Done(Answer(true)))
    case Patching(id, patch) =>
      if HasEmptyList(patch) then (s, Done(if q.Register? then Answer(false) else Threw))
      else (s.(rows := Filtered(s.rows, id, patch)), AfterPatch(q, id))
    case Testing(id) => (s, if ok then Verifying(id) else Done(Answer(false)))
    case Verifying(id) => (s.(rows := Verified(s.rows, id)), Done(Answer(true)))
  }

  /** One statement of a call: `d` is what it draws, `ok` whether its letter or test goes through. */
  function Statement(s: State, q: Request, p: Point, d: Draw, ok: bool): (State, Point)
    requires TableOk(s.rows) && Fits(q, p) && !p.Done?
  {
    if IsSubscribing(p) then SubscribeStatement(s, q, p, d, ok)
    else if IsRegistering(p) then RegisterStatement(s, q, p, d)
    else LinkStatement(s, q, p, ok)
  }

  /** How many statements a call has left at most. */
  function Rank(p: Point): nat {
    match p
    case Finding(attempt) => if attempt == 0 then 9 else 6
    case Inserting(attempt) => if attempt == 0 then 8 else 5
    case Refinding(attempt) => if attempt == 0 then 7 else 4
    case LastInserting => 2
    case Proposing(_) => 2
    case Reissuing(_) => 2
    case Posting(_, _) => 1
    case SeekingToken => 2
    case SeekingChange => 4
    case Clearing(_) => 1
    case SeekingUrl => 4
    case Registering => 3
    case SeekingWinner => 2
    case LoserPatching(_) => 1
    case SeekingManaged => 4
    case Deleting(_) => 1
    case Patching(_, _) => 3
    case Testing(_) => 2
    case Verifying(_) => 1
    case Done(_) => 0
  }

  lemma SubscribingAdvances(s: State, q: Request, p: Point, d: Draw, ok: bool)
    requires TableOk(s.rows) && Fits(q, p) && IsSubscribing(p)
    ensures Fits(q, SubscribeStatement(s, q, p, d, ok).1) && Rank(SubscribeStatement(s, q, p, d, ok).1) < Rank(p)
  {
    hide ByEndpoint, TableOk, IsTaken, VerifyTaken, PendingTaken, Address, PatchOf, HasEmptyList;
  }

  lemma RegisteringAdvances(s: State, q: Request, p: Point, d: Draw)
    requires TableOk(s.rows) && Fits(q, p) && IsRegistering(p)
    ensures Fits(q, RegisterStatement(s, q, p, d).1) && Rank(RegisterStatement(s, q, p, d).1) < Rank(p)
  {
    hide ByEndpoint, TableOk, IsTaken, PatchOf, HasEmptyList;
  }

  lemma LinkAdvances(s: State, q: Request, p: Point, ok: bool)
    requires TableOk(s.rows) && Fits(q, p) && !IsSubscribing(p) && !IsRegistering(p) && !p.Done?
    ensures Fits(q, LinkStatement(s, q, p, ok).1) && Rank(LinkStatement(s, q, p, ok).1) < Rank(p)
  {
    hide ByVerifyToken, ByPendingToken, ByUnsubscribeToken, TableOk, PatchOf, HasEmptyList;
  }

  /** A call stays among its own statements and comes to its end after at most nine. */
  lemma StatementAdvances(s: State, q: Request, p: Point, d: Draw, ok: bool)
    requires TableOk(s.rows) && Fits(q, p) && !p.Done?
    ensures Fits(q, Statement(s, q, p, d, ok).1) && Rank(Statement(s, q, p, d, ok).1) < Rank(p)
  {
    hide Fits, Rank, TableOk, SubscribeStatement, RegisterStatement, LinkStatement;
    if IsSubscribing(p) {
      SubscribingAdvances(s, q, p, d, ok);
    } else if IsRegistering(p) {
      RegisteringAdvances(s, q, p, d);
    } else {
      LinkAdvances(s, q, p, ok);
    }
  }

  // ---- the unique keys --------------------------------------------------------------------------

  lemma InsertKeepsTable(t: Table, row: Subscription)
    requires TableOk(t) && !IsTaken(t, row) && row.pendingToken.None?
    requires row.channel == Email || row.channel == Webhook
    ensures TableOk(t[row.id := row])
  {
  }

  predicate KeepsIdentity(o: Subscription, n: Subscription) {
    && n.id == o.id && n.channel == o.channel && n.endpoint == o.endpoint
    && n.unsubscribeToken == o.unsubscribeToken && n.secret == o.secret
  }

  /** A change of one row that takes over no other row's token. */
  lemma UpdateKeepsTable(t: Table, id: string, row: Subscription)
    requires TableOk(t) && id in t && KeepsIdentity(t[id], row)
    requires row.verifyToken.None? || row.verifyToken == t[id].verifyToken
             || !VerifyTaken(t, id, row.verifyToken.value)
    requires row.pendingToken.None? || row.pendingToken == t[id].pendingToken
             || !PendingTaken(t, id, row.pendingToken.value)
    ensures TableOk(t[id := row])
  {
  }

  lemma DeleteKeepsTable(t: Table, id: string)
    requires TableOk(t)
    ensures TableOk(t - {id})
  {
  }

  lemma CreatedKeepsTable(s: State, email: string, patch: FilterPatch, d: Draw, conflict: Point)
    requires TableOk(s.rows)
    ensures TableOk(Created(s, email, patch, d, conflict).0.rows)
  {
    hide TableOk;
    var row := NewSubscription(Email, email, patch, d, s.now);
    if !IsTaken(s.rows, row) {
      InsertKeepsTable(s.rows, row);
    }
  }

  lemma ReissuedKeepsTable(t: Table, id: string, token: string, now: int)
    requires TableOk(t) && !VerifyTaken(t, id, token)
    ensures TableOk(Reissued(t, id, token, now))
  {
    hide TableOk, VerifyTaken, PendingTaken;
    if id in t {
      UpdateKeepsTable(t, id, t[id].(verifyToken := Some(token), verifyIssuedAt := Some(now)));
    }
  }

  lemma ProposedKeepsTable(t: Table, id: string, patch: FilterPatch, token: string, now: int)
    requires TableOk(t) && !PendingTaken(t, id, token)
    ensures TableOk(Proposed(t, id, patch, token, now))
  {
    hide TableOk, VerifyTaken, PendingTaken;
    if id in t {
      UpdateKeepsTable(t, id, t[id].(pendingFilters := Some(patch), pendingToken := Some(token),
                                     pendingIssuedAt := Some(now)));
    }
  }

  /** The three updates that draw nothing. */
  lemma PlainUpdatesKeepTable(t: Table, id: string, patch: FilterPatch)
    requires TableOk(t)
    ensures TableOk(Filtered(t, id, patch)) && TableOk(Verified(t, id)) && TableOk(Cleared(t, id))
  {
    hide TableOk, VerifyTaken, PendingTaken;
    if id in t {
      UpdateKeepsTable(t, id, t[id].(filters := Patched(t[id].filters, patch)));
      UpdateKeepsTable(t, id, VerifiedRow(t[id]));
      UpdateKeepsTable(t, id, t[id].(pendingFilters := None, pendingToken := None, pendingIssuedAt := None));
    }
  }

  lemma SubscribingKeepsTable(s: State, q: Request, p: Point, d: Draw, ok: bool)
    requires TableOk(s.rows) && Fits(q, p) && IsSubscribing(p)
    ensures TableOk(SubscribeStatement(s, q, p, d, ok).0.rows)
  {
    hide TableOk, VerifyTaken, PendingTaken, Created, ByEndpoint, Proposed, Reissued, AfterSighting, Address, PatchOf;
    match p
    case Inserting(_) => CreatedKeepsTable(s, Address(q.email), PatchOf(q.filters), d, Branch(p, true).value);
    case LastInserting => CreatedKeepsTable(s, Address(q.email), PatchOf(q.filters), d, Done(AlreadyExists));
    case Proposing(id) =>
      if !PendingTaken(s.rows, id, d.freshToken) {
        ProposedKeepsTable(s.rows, id, PatchOf(q.filters), d.freshToken, s.now);
      }
    case Reissuing(id) =>
      if !VerifyTaken(s.rows, id, d.freshToken) {
        ReissuedKeepsTable(s.rows, id, d.freshToken, s.now);
      }
    case _ =>
  }

  lemma RegisteringKeepsTable(s: State, q: Request, p: Point, d: Draw)
    requires TableOk(s.rows) && Fits(q, p) && IsRegistering(p)
    ensures TableOk(RegisterStatement(s, q, p, d).0.rows)
  {
    hide TableOk, ByEndpoint, IsTaken, Filtered, PatchOf, HasEmptyList;
    match p
    case Registering =>
      var row := NewSubscription(Webhook, q.url, PatchOf(q.filters), d, s.now);
      if !IsTaken(s.rows, row) {
        InsertKeepsTable(s.rows, row);
      }
    case LoserPatching(id) => PlainUpdatesKeepTable(s.rows, id, q.filters.value);
    case _ =>
  }

  lemma LinkKeepsTable(s: State, q: Request, p: Point, ok: bool)
    requires TableOk(s.rows) && Fits(q, p) && !IsSubscribing(p) && !IsRegistering(p) && !p.Done?
    ensures TableOk(LinkStatement(s, q, p, ok).0.rows)
  {
    hide TableOk, ByVerifyToken, ByPendingToken, ByUnsubscribeToken, Filtered, Verified, Cleared, PatchOf, HasEmptyList;
    match p
    case Clearing(id) => PlainUpdatesKeepTable(s.rows, id, NO_PATCH);
    case Deleting(e) => DeleteKeepsTable(s.rows, e.id);
    case Patching(id, patch) => PlainUpdatesKeepTable(s.rows, id, patch);
    case Verifying(id) => PlainUpdatesKeepTable(s.rows, id, NO_PATCH);
    case _ =>
  }

  /** No statement breaks a unique key, whatever it draws: it fails with a unique violation instead. */
  lemma StatementKeepsTable(s: State, q: Request, p: Point, d: Draw, ok: bool)
    requires TableOk(s.rows) && Fits(q, p) && !p.Done?
    ensures TableOk(Statement(s, q, p, d, ok).0.rows)
  {
    hide TableOk, SubscribeStatement, RegisterStatement, LinkStatement;
    if IsSubscribing(p) {
      SubscribingKeepsTable(s, q, p, d, ok);
    } else if IsRegistering(p) {
      RegisteringKeepsTable(s, q, p, d);
    } else {
      LinkKeepsTable(s, q, p, ok);
    }
  }

  // ---- the retry of startEmailSubscription ------------------------------------------------------

  datatype Ending = NewRow | OldRow | UniqueViolation

  /**
   * The retry when other requests come between its statements: `reply(i)` is what its i-th statement
   * meets, a row for a select and a conflict for an insert.
   */
  function Follow(p: Point, reply: nat -> bool, i: nat): Ending
    requires p.Finding? || p.Inserting? || p.Refinding? || p.LastInserting?
    decreases Rank(p)
  {
    if p.LastInserting? then if reply(i) then UniqueViolation else NewRow
    else
      match Branch(p, reply(i))
      case Some(next) => Follow(next, reply, i + 1)
      case None => if p.Refinding? then OldRow else NewRow
  }

  /** The statement after the first select that saw a row, or lost the insert to one. */
  function AfterFirstSight(reply: nat -> bool, i: nat): nat {
    if reply(i) then i + 1 else i + 2
  }

  predicate Sighted(reply: nat -> bool, i: nat) {
    reply(i) || reply(i + 1)
  }

  lemma RetryLeadsTo(attempt: nat, reply: nat -> bool, i: nat)
    ensures Follow(Finding(attempt), reply, i)
            == if Sighted(reply, i) then Follow(Refinding(attempt), reply, AfterFirstSight(reply, i)) else NewRow
  {
    if !reply(i) {
      assert Follow(Finding(attempt), reply, i) == Follow(Inserting(attempt), reply, i + 1);
    }
  }

  /** The row is seen and vanishes, is seen and vanishes again, and is back for the last create. */
  predicate DoubleVanish(reply: nat -> bool) {
    && Sighted(reply, 0)
    && var j := AfterFirstSight(reply, 0);
       && !reply(j) && Sighted(reply, j + 1)
       && var k := AfterFirstSight(reply, j + 1);
          !reply(k) && reply(k + 1)
  }

  /** The promise never to throw "already exists" fails on exactly those replies. */
  lemma ThrowsExactlyOnDoubleVanish(reply: nat -> bool)
    ensures Follow(Finding(0), reply, 0) == UniqueViolation <==> DoubleVanish(reply)
  {
    var j := AfterFirstSight(reply, 0);
    RetryLeadsTo(0, reply, 0);
    RetryLeadsTo(1, reply, j + 1);
    assert !reply(j) ==> Follow(Refinding(0), reply, j) == Follow(Finding(1), reply, j + 1);
    var k := AfterFirstSight(reply, j + 1);
    assert !reply(k) ==> Follow(Refinding(1), reply, k) == Follow(LastInserting, reply, k + 1);
  }

  /** When nothing is met any more, the retry ends well. */
  lemma {:induction false} QuietEndsWell(p: Point, reply: nat -> bool, i: nat)
    requires p.Finding? || p.Inserting? || p.Refinding? || p.LastInserting?
    requires forall j: nat :: i <= j ==> !reply(j)
    ensures Follow(p, reply, i) != UniqueViolation
    decreases Rank(p)
  {
    if !p.LastInserting? && Branch(p, reply(i)).Some? {
      QuietEndsWell(Branch(p, reply(i)).value, reply, i + 1);
    }
  }
}
