/**
 * Any number of subscription calls whose statements interleave in any order, a moving clock, and the
 * history of what every drawn name and token stands for.
 */
module SubscriptionWorld {
  import opened Types
  import opened Text
  import opened Subscriptions

  /** A call: what was asked, and the statement it executes next. */
  datatype Frame = Frame(request: Request, at: Point)

  /** What a drawn name or token stands for. */
  datatype Issue =
    | RowName(channel: Channel, endpoint: string)
    | ManageToken(id: string)
    | ConfirmToken(id: string, at: int)
    | ChangeToken(id: string, patch: FilterPatch, at: int)

  datatype World = World(db: State, calls: map<nat, Frame>, issued: map<string, Issue>)

  /** A call that dies leaves its remaining statements undone. */
  datatype Event =
    | Begin(call: nat, request: Request)
    | Step(call: nat, draw: Draw, ok: bool)
    | Abandon(call: nat)
    | Sleep(time: nat)

  predicate IsInit(w: World) {
    w.db.rows == map[] && w.db.letters == [] && w.db.deletions == [] && w.calls == map[] && w.issued == map[]
  }

  function NamesOf(d: Draw): set<string> {
    {d.id, d.unsubscribeToken, d.verifyToken, d.freshToken}
  }

  /** The draw repeats nothing, neither itself nor what was drawn before. */
  predicate IsFresh(d: Draw, issued: map<string, Issue>) {
    && d.id != d.unsubscribeToken && d.id != d.verifyToken && d.id != d.freshToken
    && d.unsubscribeToken != d.verifyToken && d.unsubscribeToken != d.freshToken && d.verifyToken != d.freshToken
    && NamesOf(d) !! issued.Keys
  }

  /** Four names, no two alike and none handed out before. */
  lemma FreshNames(d: Draw, issued: map<string, Issue>)
    ensures var names := [d.id, d.unsubscribeToken, d.verifyToken, d.freshToken];
            IsFresh(d, issued) <==> && (forall i, j :: 0 <= i < j < 4 ==> names[i] != names[j])
                                    && (forall name :: name in names ==> name !in issued)
  {
    var names := [d.id, d.unsubscribeToken, d.verifyToken, d.freshToken];
    assert names[0] == d.id && names[1] == d.unsubscribeToken && names[2] == d.verifyToken && names[3] == d.freshToken;
    assert forall name :: name in names <==> name in NamesOf(d);
  }

  function RowIssues(channel: Channel, endpoint: string, d: Draw, now: int): map<string, Issue> {
    map[d.id := RowName(channel, endpoint), d.unsubscribeToken := ManageToken(d.id),
        d.verifyToken := ConfirmToken(d.id, now)]
  }

  function InsertIssues(s: State, channel: Channel, endpoint: string, patch: FilterPatch, d: Draw): map<string, Issue> {
    if InsertResult(s.rows, patch, NewSubscription(channel, endpoint, patch, d, s.now)).Stored?
    then RowIssues(channel, endpoint, d, s.now)
    else map[]
  }

  /** What a statement draws and hands out. */
  function Issues(s: State, q: Request, p: Point, d: Draw): map<string, Issue>
    requires Fits(q, p)
  {
    match p
    case Inserting(_) => InsertIssues(s, Email, Address(q.email), PatchOf(q.filters), d)
    case LastInserting => InsertIssues(s, Email, Address(q.email), PatchOf(q.filters), d)
    case Registering => InsertIssues(s, Webhook, q.url, PatchOf(q.filters), d)
    case Reissuing(id) => map[d.freshToken := ConfirmToken(id, s.now)]
    case Proposing(id) => map[d.freshToken := ChangeToken(id, q.filters.value, s.now)]
    case _ => map[]
  }

  predicate CanStep(w: World, c: nat, d: Draw) {
    && TableOk(w.db.rows) && c in w.calls && !w.calls[c].at.Done? && Fits(w.calls[c].request, w.calls[c].at)
    && IsFresh(d, w.issued)
  }

  predicate Enabled(w: World, e: Event) {
    match e
    case Begin(c, _) => c !in w.calls
    case Step(c, d, _) => CanStep(w, c, d)
    case Abandon(c) => c in w.calls && !w.calls[c].at.Done?
    case Sleep(_) => true
  }

  function Next(w: World, e: Event): World
    requires Enabled(w, e)
  {
    match e
    case Begin(c, q) => w.(calls := w.calls[c := Frame(q, First(q))])
    case Step(c, d, ok) =>
      var f := w.calls[c];
      var (db, p) := Statement(w.db, f.request, f.at, d, ok);
      World(db, w.calls[c := f.(at := p)], w.issued + Issues(w.db, f.request, f.at, d))
    case Abandon(c) => w.(calls := w.calls[c := w.calls[c].(at := Done(Threw))])
    case Sleep(time) => w.(db := w.db.(now := w.db.now + time))
  }

  predicate IsStep(ws: seq<World>, es: seq<Event>, n: nat)
    requires n < |es| < |ws|
  {
    Enabled(ws[n], es[n]) && ws[n + 1] == Next(ws[n], es[n])
  }

  /** A run from the empty table. */
  predicate IsRun(ws: seq<World>, es: seq<Event>) {
    && |ws| == |es| + 1 && IsInit(ws[0])
    && forall n: nat {:trigger es[n]} :: n < |es| ==> IsStep(ws, es, n)
  }

  // ---- what every state satisfies ---------------------------------------------------------------

  predicate Has(issued: map<string, Issue>, name: string, what: Issue) {
    name in issued && issued[name] == what
  }

  /** A row's name and tokens were issued for it, its live ones at the times it stores. */
  predicate RowOk(issued: map<string, Issue>, i: string, r: Subscription) {
    && r.id == i && Has(issued, i, RowName(r.channel, r.endpoint))
    && Has(issued, r.unsubscribeToken, ManageToken(i))
    && (r.verifyToken.Some? ==>
          r.verifyIssuedAt.Some? && Has(issued, r.verifyToken.value, ConfirmToken(i, r.verifyIssuedAt.value)))
    && (r.pendingToken.Some? ==>
          && r.pendingIssuedAt.Some? && r.pendingFilters.Some?
          && Has(issued, r.pendingToken.value, ChangeToken(i, r.pendingFilters.value, r.pendingIssuedAt.value)))
  }

  /** The token is a confirmation token of row `id`. */
  predicate IsConfirmOf(issued: map<string, Issue>, token: string, id: string) {
    token in issued && issued[token].ConfirmToken? && issued[token].id == id
  }

  predicate IsChangeOf(issued: map<string, Issue>, token: string, id: string) {
    token in issued && issued[token].ChangeToken? && issued[token].id == id
  }

  /** A letter that carries a token goes to the address of the row the token was issued for. */
  predicate LetterOk(issued: map<string, Issue>, l: Letter) {
    match l
    case ConfirmLink(to, token) =>
      token in issued && issued[token].ConfirmToken? && Has(issued, issued[token].id, RowName(Email, to))
    case ChangeLink(to, token) =>
      token in issued && issued[token].ChangeToken? && Has(issued, issued[token].id, RowName(Email, to))
    case Notice(_) => true
  }

  /** The row a call is about to patch is the one it may patch. */
  predicate PatchOk(issued: map<string, Issue>, q: Request, id: string, patch: FilterPatch) {
    match q
    case Subscribe(email, filters) => Has(issued, id, RowName(Email, Address(email))) && patch == PatchOf(filters)
    case ConfirmChange(token) => IsChangeOf(issued, token, id) && issued[token].patch == patch
    case Register(url, filters, _, _) => Has(issued, id, RowName(Webhook, url)) && filters == Some(patch)
    case ManageFilters(token, p) => Has(issued, token, ManageToken(id)) && patch == p
    case _ => false
  }

  predicate IsWebhook(issued: map<string, Issue>, id: string) {
    id in issued && issued[id].RowName? && issued[id].channel == Webhook
  }

  /** The row a call is about to test or verify is the one it may. */
  predicate VerifyOk(issued: map<string, Issue>, q: Request, id: string) {
    match q
    case ConfirmEmail(token) => IsConfirmOf(issued, token, id)
    case Register(url, _, _, _) => Has(issued, id, RowName(Webhook, url))
    case SendTest(token, _) => Has(issued, token, ManageToken(id)) && IsWebhook(issued, id)
    case _ => false
  }

  predicate DeleteOk(issued: map<string, Issue>, e: Deletion) {
    e.id in issued && issued[e.id].RowName? && issued[e.id].channel == e.channel
  }

  /** What a call holds between its statements is true of the history. */
  predicate PointOk(issued: map<string, Issue>, q: Request, p: Point) {
    && Fits(q, p)
    && match p
       case Proposing(id) => Has(issued, id, RowName(Email, Address(q.email)))
       case Reissuing(id) => Has(issued, id, RowName(Email, Address(q.email)))
       case Posting(l, _) => LetterOk(issued, l) && l.to == Address(q.email)
       case Clearing(id) => IsChangeOf(issued, q.token, id)
       case LoserPatching(id) => Has(issued, id, RowName(Webhook, q.url))
       case Deleting(e) => Has(issued, q.token, ManageToken(e.id)) && DeleteOk(issued, e)
       case Patching(id, patch) => PatchOk(issued, q, id, patch)
       case Testing(id) => VerifyOk(issued, q, id)
       case Verifying(id) => VerifyOk(issued, q, id)
       case Done(reply) =>
         reply.Registered? ==> reply.manageToken in issued && issued[reply.manageToken].ManageToken?
       case _ => true
  }

  /** A named row is stored exactly when no deletion is logged for it. */
  predicate DeletionsOk(issued: map<string, Issue>, rows: Table, deletions: seq<Deletion>) {
    && (forall e :: e in deletions ==> DeleteOk(issued, e) && e.id !in rows)
    && (forall i :: i in issued && issued[i].RowName? && i !in rows ==> exists e :: e in deletions && e.id == i)
  }

  predicate RowsOk(issued: map<string, Issue>, rows: Table) {
    forall i :: i in rows ==> RowOk(issued, i, rows[i])
  }

  predicate LettersOk(issued: map<string, Issue>, letters: seq<Letter>) {
    forall l :: l in letters ==> LetterOk(issued, l)
  }

  predicate CallsOk(issued: map<string, Issue>, calls: map<nat, Frame>) {
    forall c :: c in calls ==> PointOk(issued, calls[c].request, calls[c].at)
  }

  predicate DbOk(issued: map<string, Issue>, s: State) {
    && TableOk(s.rows) && RowsOk(issued, s.rows) && LettersOk(issued, s.letters)
    && DeletionsOk(issued, s.rows, s.deletions)
  }

  predicate WorldOk(w: World) {
    DbOk(w.issued, w.db) && CallsOk(w.issued, w.calls)
  }

  // ---- history only grows -----------------------------------------------------------------------

  predicate Grows(a: map<string, Issue>, b: map<string, Issue>) {
    forall n :: n in a ==> Has(b, n, a[n])
  }

  lemma RowStaysOk(a: map<string, Issue>, b: map<string, Issue>, i: string, r: Subscription)
    requires Grows(a, b) && RowOk(a, i, r)
    ensures RowOk(b, i, r)
  {
  }

  lemma LetterStaysOk(a: map<string, Issue>, b: map<string, Issue>, l: Letter)
    requires Grows(a, b) && LetterOk(a, l)
    ensures LetterOk(b, l)
  {
  }

  lemma PointStaysOk(a: map<string, Issue>, b: map<string, Issue>, q: Request, p: Point)
    requires Grows(a, b) && PointOk(a, q, p)
    ensures PointOk(b, q, p)
  {
    hide Fits, Address;
  }

  lemma CallsStayOk(a: map<string, Issue>, b: map<string, Issue>, calls: map<nat, Frame>)
    requires Grows(a, b) && CallsOk(a, calls)
    ensures CallsOk(b, calls)
  {
    hide PointOk, Grows;
    forall c | c in calls ensures PointOk(b, calls[c].request, calls[c].at) {
      PointStaysOk(a, b, calls[c].request, calls[c].at);
    }
  }

  lemma LettersStayOk(a: map<string, Issue>, b: map<string, Issue>, letters: seq<Letter>)
    requires Grows(a, b) && LettersOk(a, letters)
    ensures LettersOk(b, letters)
  {
    hide LetterOk, Grows;
    forall l | l in letters ensures LetterOk(b, l) {
      LetterStaysOk(a, b, l);
    }
  }

  // ---- what a statement does to one row ---------------------------------------------------------

  function RowAt(t: Table, i: string): Option<Subscription> {
    if i in t then Some(t[i]) else None
  }

  function AfterInsert(s: State, channel: Channel, endpoint: string, patch: FilterPatch, d: Draw,
                       i: string): Option<Subscription>
  {
    var row := NewSubscription(channel, endpoint, patch, d, s.now);
    if i == d.id && InsertResult(s.rows, patch, row).Stored? then Some(row) else RowAt(s.rows, i)
  }

  /** Row `i` after a statement that meets it as `o`. */
  function Updated(s: State, q: Request, p: Point, d: Draw, o: Subscription): Subscription
    requires Fits(q, p)
  {
    match p
    case Proposing(id) =>
      if PendingTaken(s.rows, id, d.freshToken) then o
      else o.(pendingFilters := q.filters, pendingToken := Some(d.freshToken), pendingIssuedAt := Some(s.now))
    case Reissuing(id) =>
      if VerifyTaken(s.rows, id, d.freshToken) then o
      else o.(verifyToken := Some(d.freshToken), verifyIssuedAt := Some(s.now))
    case Clearing(_) => o.(pendingFilters := None, pendingToken := None, pendingIssuedAt := None)
    case Patching(_, patch) => if HasEmptyList(patch) then o else o.(filters := Patched(o.filters, patch))
    case LoserPatching(_) =>
      if HasEmptyList(q.filters.value) then o else o.(filters := Patched(o.filters, q.filters.value))
    case Verifying(_) => VerifiedRow(o)
    case _ => o
  }

  /** The row a statement updates or deletes. */
  function Subject(p: Point): Option<string> {
    match p
    case Proposing(id) => Some(id)
    case Reissuing(id) => Some(id)
    case Clearing(id) => Some(id)
    case Patching(id, _) => Some(id)
    case LoserPatching(id) => Some(id)
    case Verifying(id) => Some(id)
    case Deleting(e) => Some(e.id)
    case _ => None
  }

  /** Row `i` after a statement. */
  function RowAfter(s: State, q: Request, p: Point, d: Draw, i: string): Option<Subscription>
    requires Fits(q, p)
  {
    if p.Inserting? || p.LastInserting? then AfterInsert(s, Email, Address(q.email), PatchOf(q.filters), d, i)
    else if p.Registering? then AfterInsert(s, Webhook, q.url, PatchOf(q.filters), d, i)
    else if Subject(p) != Some(i) || i !in s.rows then RowAt(s.rows, i)
    else if p.Deleting? then None
    else Some(Updated(s, q, p, d, s.rows[i]))
  }

  lemma SubscribingRow(s: State, q: Request, p: Point, d: Draw, ok: bool, i: string)
    requires TableOk(s.rows) && Fits(q, p) && IsSubscribing(p)
    ensures RowAt(SubscribeStatement(s, q, p, d, ok).0.rows, i) == RowAfter(s, q, p, d, i)
  {
    hide TableOk, ByEndpoint, IsTaken, VerifyTaken, PendingTaken, HasEmptyList, Address;
  }

  lemma RegisteringRow(s: State, q: Request, p: Point, d: Draw, i: string)
    requires TableOk(s.rows) && Fits(q, p) && IsRegistering(p)
    ensures RowAt(RegisterStatement(s, q, p, d).0.rows, i) == RowAfter(s, q, p, d, i)
  {
    hide TableOk, ByEndpoint, IsTaken, HasEmptyList, PatchOf;
  }

  lemma LinkRow(s: State, q: Request, p: Point, d: Draw, ok: bool, i: string)
    requires TableOk(s.rows) && Fits(q, p) && !IsSubscribing(p) && !IsRegistering(p) && !p.Done?
    ensures RowAt(LinkStatement(s, q, p, ok).0.rows, i) == RowAfter(s, q, p, d, i)
  {
    hide TableOk, ByVerifyToken, ByPendingToken, ByUnsubscribeToken, HasEmptyList, PatchOf;
  }

  /** A statement leaves every row as RowAfter says. */
  lemma StatementRow(s: State, q: Request, p: Point, d: Draw, ok: bool, i: string)
    requires TableOk(s.rows) && Fits(q, p) && !p.Done?
    ensures RowAt(Statement(s, q, p, d, ok).0.rows, i) == RowAfter(s, q, p, d, i)
  {
    hide TableOk, Fits, SubscribeStatement, RegisterStatement, LinkStatement, RowAfter, RowAt;
    if IsSubscribing(p) {
      SubscribingRow(s, q, p, d, ok, i);
    } else if IsRegistering(p) {
      RegisteringRow(s, q, p, d, i);
    } else {
      LinkRow(s, q, p, d, ok, i);
    }
  }

  /** What else a statement touches: one letter, one log entry, never the clock. */
  lemma StatementRest(s: State, q: Request, p: Point, d: Draw, ok: bool)
    requires TableOk(s.rows) && Fits(q, p) && !p.Done?
    ensures var r := Statement(s, q, p, d, ok).0;
            && r.now == s.now
            && r.letters == (if p.Posting? && ok then s.letters + [p.letter] else s.letters)
            && r.deletions == if p.Deleting? then s.deletions + [p.deletion] else s.deletions
  {
    hide TableOk, ByEndpoint, ByVerifyToken, ByPendingToken, ByUnsubscribeToken, IsTaken, VerifyTaken, PendingTaken;
    hide HasEmptyList;
    hide Address, PatchOf, Filtered, Verified, Reissued, Proposed, Cleared, NewSubscription, Branch, AfterSighting;
    hide AfterUrl;
    hide AfterManaged, AfterPatch;
  }

  // ---- every step keeps the world well-formed ---------------------------------------------------

  function IssuedAfter(issued: map<string, Issue>, s: State, q: Request, p: Point, d: Draw): map<string, Issue>
    requires Fits(q, p)
  {
    issued + Issues(s, q, p, d)
  }

  lemma IssuesGrow(issued: map<string, Issue>, s: State, q: Request, p: Point, d: Draw)
    requires Fits(q, p) && IsFresh(d, issued)
    ensures Grows(issued, IssuedAfter(issued, s, q, p, d))
  {
    hide IsTaken, HasEmptyList, Address, PatchOf, NewSubscription;
    assert Issues(s, q, p, d).Keys <= NamesOf(d);
  }

  lemma UpdatedRowOk(issued: map<string, Issue>, s: State, q: Request, p: Point, d: Draw, i: string, o: Subscription)
    requires PointOk(issued, q, p) && RowOk(issued, i, o) && Subject(p) == Some(i) && IsFresh(d, issued)
    ensures RowOk(IssuedAfter(issued, s, q, p, d), i, Updated(s, q, p, d, o))
  {
    IssuesGrow(issued, s, q, p, d);
    RowStaysOk(issued, IssuedAfter(issued, s, q, p, d), i, o);
    hide Address, PatchOf, HasEmptyList, VerifyTaken, PendingTaken, Patched, Grows, IsFresh, LetterOk;
  }

  lemma InsertedRowOk(issued: map<string, Issue>, s: State, channel: Channel, endpoint: string, patch: FilterPatch,
                      d: Draw)
    requires IsFresh(d, issued)
    ensures RowOk(issued + RowIssues(channel, endpoint, d, s.now), d.id,
                  NewSubscription(channel, endpoint, patch, d, s.now))
  {
  }

  lemma RowAfterOk(issued: map<string, Issue>, s: State, q: Request, p: Point, d: Draw, i: string)
    requires PointOk(issued, q, p) && RowsOk(issued, s.rows) && IsFresh(d, issued)
    ensures var n := RowAfter(s, q, p, d, i); n.Some? ==> RowOk(IssuedAfter(issued, s, q, p, d), i, n.value)
  {
    IssuesGrow(issued, s, q, p, d);
    hide RowOk, PointOk, IsFresh, Updated, NewSubscription, RowIssues, IsTaken, HasEmptyList, Grows, Address, PatchOf;
    if i in s.rows {
      RowStaysOk(issued, IssuedAfter(issued, s, q, p, d), i, s.rows[i]);
      if Subject(p) == Some(i) {
        UpdatedRowOk(issued, s, q, p, d, i, s.rows[i]);
      }
    }
    if p.Inserting? || p.LastInserting? {
      InsertedRowOk(issued, s, Email, Address(q.email), PatchOf(q.filters), d);
    } else if p.Registering? {
      InsertedRowOk(issued, s, Webhook, q.url, PatchOf(q.filters), d);
    }
  }

  lemma RowsStepOk(issued: map<string, Issue>, s: State, q: Request, p: Point, d: Draw, ok: bool)
    requires DbOk(issued, s) && PointOk(issued, q, p) && !p.Done? && IsFresh(d, issued)
    ensures RowsOk(IssuedAfter(issued, s, q, p, d), Statement(s, q, p, d, ok).0.rows)
  {
    var rows := Statement(s, q, p, d, ok).0.rows;
    hide RowOk, PointOk, IsFresh, TableOk, Statement, IssuedAfter, RowAfter, LettersOk, DeletionsOk;
    forall i | i in rows ensures RowOk(IssuedAfter(issued, s, q, p, d), i, rows[i]) {
      StatementRow(s, q, p, d, ok, i);
      RowAfterOk(issued, s, q, p, d, i);
    }
  }

  lemma LettersStepOk(issued: map<string, Issue>, s: State, q: Request, p: Point, d: Draw, ok: bool)
    requires DbOk(issued, s) && PointOk(issued, q, p) && !p.Done? && IsFresh(d, issued)
    ensures LettersOk(IssuedAfter(issued, s, q, p, d), Statement(s, q, p, d, ok).0.letters)
  {
    StatementRest(s, q, p, d, ok);
    IssuesGrow(issued, s, q, p, d);
    var after := IssuedAfter(issued, s, q, p, d);
    LettersStayOk(issued, after, s.letters);
    if p.Posting? {
      LetterStaysOk(issued, after, p.letter);
    }
    hide IsFresh, TableOk, Statement, IssuedAfter, LetterOk, DeletionsOk, RowsOk, Grows, Fits;
  }

  lemma DeletionStaysOk(a: map<string, Issue>, b: map<string, Issue>, e: Deletion)
    requires Grows(a, b) && DeleteOk(a, e)
    ensures DeleteOk(b, e)
  {
  }

  /** What a statement issues as a row name is the row it inserts. */
  lemma NamesAreRows(s: State, q: Request, p: Point, d: Draw, i: string)
    requires Fits(q, p) && d.id != d.unsubscribeToken && d.id != d.verifyToken
    ensures i in Issues(s, q, p, d) && Issues(s, q, p, d)[i].RowName? ==> i == d.id && RowAfter(s, q, p, d, i).Some?
  {
    hide IsTaken, HasEmptyList, Address, PatchOf, Patched;
  }

  /** Only the drawn identifier can become a row, and only the named row can go. */
  lemma DomainAfter(s: State, q: Request, p: Point, d: Draw, i: string)
    requires Fits(q, p)
    ensures RowAfter(s, q, p, d, i).Some? && i !in s.rows ==> i == d.id
    ensures RowAfter(s, q, p, d, i).None? && i in s.rows ==> p.Deleting? && p.deletion.id == i
    ensures p.Deleting? && p.deletion.id == i ==> RowAfter(s, q, p, d, i).None?
  {
    hide IsTaken, HasEmptyList, Address, PatchOf, NewSubscription, Updated, Fits;
  }

  lemma LoggedStaysGone(issued: map<string, Issue>, s: State, q: Request, p: Point, d: Draw, e: Deletion)
    requires DeletionsOk(issued, s.rows, s.deletions) && PointOk(issued, q, p) && IsFresh(d, issued)
    requires e in s.deletions || (p.Deleting? && e == p.deletion)
    ensures DeleteOk(IssuedAfter(issued, s, q, p, d), e) && RowAfter(s, q, p, d, e.id).None?
  {
    IssuesGrow(issued, s, q, p, d);
    assert DeleteOk(issued, e) && e.id != d.id;
    DeletionStaysOk(issued, IssuedAfter(issued, s, q, p, d), e);
    DomainAfter(s, q, p, d, e.id);
    hide DeletionsOk, PointOk, IsFresh, IssuedAfter, RowAfter;
  }

  lemma GoneIsLogged(issued: map<string, Issue>, s: State, q: Request, p: Point, d: Draw, i: string)
    requires DeletionsOk(issued, s.rows, s.deletions) && Fits(q, p) && IsFresh(d, issued)
    requires var after := IssuedAfter(issued, s, q, p, d); i in after && after[i].RowName?
    requires RowAfter(s, q, p, d, i).None?
    ensures (exists e :: e in s.deletions && e.id == i) || (p.Deleting? && p.deletion.id == i)
  {
    NamesAreRows(s, q, p, d, i);
    DomainAfter(s, q, p, d, i);
    hide Fits, RowAfter, Issues;
  }

  lemma DeletionsStepOk(issued: map<string, Issue>, s: State, q: Request, p: Point, d: Draw, ok: bool)
    requires DbOk(issued, s) && PointOk(issued, q, p) && !p.Done? && IsFresh(d, issued)
    ensures var r := Statement(s, q, p, d, ok).0; DeletionsOk(IssuedAfter(issued, s, q, p, d), r.rows, r.deletions)
  {
    StatementRest(s, q, p, d, ok);
    var r, after := Statement(s, q, p, d, ok).0, IssuedAfter(issued, s, q, p, d);
    hide Statement, IssuedAfter, TableOk, RowsOk, LettersOk, IsFresh, RowAfter, DeleteOk;
    forall e | e in r.deletions ensures DeleteOk(after, e) && e.id !in r.rows {
      LoggedStaysGone(issued, s, q, p, d, e);
      StatementRow(s, q, p, d, ok, e.id);
    }
    hide DeletionsOk;
    forall i | i in after && after[i].RowName? && i !in r.rows ensures exists e :: e in r.deletions && e.id == i {
      StatementRow(s, q, p, d, ok, i);
      GoneIsLogged(issued, s, q, p, d, i);
      if p.Deleting? && p.deletion.id == i {
        assert p.deletion in r.deletions;
      }
    }
    DeletionsAre(after, r.rows, r.deletions);
  }

  lemma DeletionsAre(issued: map<string, Issue>, rows: Table, deletions: seq<Deletion>)
    requires forall e :: e in deletions ==> DeleteOk(issued, e) && e.id !in rows
    requires forall i :: i in issued && issued[i].RowName? && i !in rows ==> exists e :: e in deletions && e.id == i
    ensures DeletionsOk(issued, rows, deletions)
  {
  }

  // ---- where a statement leads ------------------------------------------------------------------

  lemma CreatedLeadsOk(issued: map<string, Issue>, s: State, q: Request, p: Point, d: Draw, conflict: Point)
    requires q.Subscribe? && IsFresh(d, issued) && (p.Inserting? || p.LastInserting?) && Fits(q, p)
    requires PointOk(issued, q, conflict) && (conflict.Refinding? || conflict == Done(AlreadyExists))
    ensures PointOk(IssuedAfter(issued, s, q, p, d), q, Created(s, Address(q.email), PatchOf(q.filters), d, conflict).1)
  {
    hide IsTaken, HasEmptyList, Address, PatchOf, Patched;
  }

  lemma SightingOk(issued: map<string, Issue>, q: Request, id: string, verified: bool)
    requires q.Subscribe? && Has(issued, id, RowName(Email, Address(q.email)))
    ensures PointOk(issued, q, AfterSighting(q, id, verified))
  {
    hide Address, PatchOf;
  }

  lemma RowIsOk(issued: map<string, Issue>, rows: Table, i: string)
    requires RowsOk(issued, rows) && i in rows
    ensures RowOk(issued, i, rows[i])
  {
  }

  lemma RefindingLeadsOk(issued: map<string, Issue>, s: State, q: Request, p: Point, d: Draw, ok: bool)
    requires TableOk(s.rows) && RowsOk(issued, s.rows) && p.Refinding? && PointOk(issued, q, p)
    ensures PointOk(issued, q, SubscribeStatement(s, q, p, d, ok).1)
  {
    hide TableOk, RowsOk, ByEndpoint, AfterSighting, Address, PatchOf;
    var found := ByEndpoint(s.rows, Email, Address(q.email));
    if found.Some? {
      RowIsOk(issued, s.rows, found.value);
      hide PointOk;
      SightingOk(issued, q, found.value, s.rows[found.value].verified);
    }
  }

  /** The two statements that draw a fresh token lead to the letter that carries it. */
  lemma DrawnLetterOk(issued: map<string, Issue>, s: State, q: Request, p: Point, d: Draw, ok: bool)
    requires TableOk(s.rows) && (p.Reissuing? || p.Proposing?) && PointOk(issued, q, p) && IsFresh(d, issued)
    ensures PointOk(IssuedAfter(issued, s, q, p, d), q, SubscribeStatement(s, q, p, d, ok).1)
  {
    hide TableOk, VerifyTaken, PendingTaken, Address, PatchOf, Proposed, Reissued, IsFresh;
    IssuesGrow(issued, s, q, p, d);
    var id := Subject(p).value;
    assert Has(issued, id, RowName(Email, Address(q.email)));
    assert Has(IssuedAfter(issued, s, q, p, d), id, RowName(Email, Address(q.email)));
    hide Grows;
  }

  lemma SubscribingLeadsOk(issued: map<string, Issue>, s: State, q: Request, p: Point, d: Draw, ok: bool)
    requires TableOk(s.rows) && RowsOk(issued, s.rows) && PointOk(issued, q, p) && IsSubscribing(p)
             && IsFresh(d, issued)
    ensures PointOk(IssuedAfter(issued, s, q, p, d), q, SubscribeStatement(s, q, p, d, ok).1)
  {
    hide TableOk, RowsOk, IsFresh, Address, PatchOf, VerifyTaken, PendingTaken, IsTaken, ByEndpoint, Created;
    if p.Inserting? {
      CreatedLeadsOk(issued, s, q, p, d, Branch(p, true).value);
    } else if p.LastInserting? {
      CreatedLeadsOk(issued, s, q, p, d, Done(AlreadyExists));
    } else if p.Reissuing? || p.Proposing? {
      DrawnLetterOk(issued, s, q, p, d, ok);
    } else {
      assert IssuedAfter(issued, s, q, p, d) == issued;
      if p.Refinding? {
        hide PointOk, SubscribeStatement;
        RefindingLeadsOk(issued, s, q, p, d, ok);
      }
    }
  }

  lemma UrlOk(issued: map<string, Issue>, q: Request, id: string, secret: Option<string>)
    requires q.Register? && q.allowed && Has(issued, id, RowName(Webhook, q.url))
    ensures PointOk(issued, q, AfterUrl(q, id, secret))
  {
  }

  lemma WebhookLeadsOk(issued: map<string, Issue>, s: State, q: Request, p: Point, d: Draw)
    requires TableOk(s.rows) && RowsOk(issued, s.rows) && PointOk(issued, q, p) && (p.SeekingUrl? || p.SeekingWinner?)
    ensures PointOk(issued, q, RegisterStatement(s, q, p, d).1)
  {
    hide TableOk, RowsOk, ByEndpoint, AfterUrl, PatchOf;
    var found := ByEndpoint(s.rows, Webhook, q.url);
    if found.Some? {
      RowIsOk(issued, s.rows, found.value);
      if p.SeekingUrl? {
        hide PointOk;
        UrlOk(issued, q, found.value, s.rows[found.value].secret);
      }
    }
  }

  lemma RegisteringLeadsOk(issued: map<string, Issue>, s: State, q: Request, p: Point, d: Draw)
    requires TableOk(s.rows) && RowsOk(issued, s.rows) && PointOk(issued, q, p) && IsRegistering(p)
             && IsFresh(d, issued)
    ensures PointOk(IssuedAfter(issued, s, q, p, d), q, RegisterStatement(s, q, p, d).1)
  {
    hide TableOk, RowsOk, IsTaken, HasEmptyList, Patched, ByEndpoint, PatchOf;
    if p.SeekingUrl? || p.SeekingWinner? {
      assert IssuedAfter(issued, s, q, p, d) == issued;
      hide PointOk, RegisterStatement;
      WebhookLeadsOk(issued, s, q, p, d);
    }
  }

  lemma ManagedOk(issued: map<string, Issue>, q: Request, row: Subscription)
    requires q.SendTest? || q.Unsubscribe? || q.ManageFilters?
    requires RowOk(issued, row.id, row) && row.unsubscribeToken == q.token
    ensures PointOk(issued, q, AfterManaged(q, row))
  {
  }

  lemma ManagedLeadsOk(issued: map<string, Issue>, s: State, q: Request, p: Point, ok: bool)
    requires TableOk(s.rows) && RowsOk(issued, s.rows) && PointOk(issued, q, p) && p.SeekingManaged?
    ensures PointOk(issued, q, LinkStatement(s, q, p, ok).1)
  {
    hide TableOk, RowsOk, ByUnsubscribeToken, AfterManaged;
    var found := ByUnsubscribeToken(s.rows, q.token);
    if found.Some? {
      var row := s.rows[found.value];
      RowIsOk(issued, s.rows, found.value);
      assert row.id == found.value;
      hide PointOk, RowOk;
      ManagedOk(issued, q, row);
    }
  }

  lemma TokenLeadsOk(issued: map<string, Issue>, s: State, q: Request, p: Point, ok: bool)
    requires TableOk(s.rows) && RowsOk(issued, s.rows) && PointOk(issued, q, p) && (p.SeekingToken? || p.SeekingChange?)
    ensures PointOk(issued, q, LinkStatement(s, q, p, ok).1)
  {
    hide TableOk, RowsOk, ByVerifyToken, ByPendingToken;
    if p.SeekingToken? {
      var found := ByVerifyToken(s.rows, q.token, s.now);
      if found.Some? {
        RowIsOk(issued, s.rows, found.value);
      }
    } else {
      var found := ByPendingToken(s.rows, q.token, s.now);
      if found.Some? {
        RowIsOk(issued, s.rows, found.value);
      }
    }
  }

  lemma LinkLeadsOk(issued: map<string, Issue>, s: State, q: Request, p: Point, ok: bool)
    requires TableOk(s.rows) && RowsOk(issued, s.rows) && PointOk(issued, q, p)
    requires !IsSubscribing(p) && !IsRegistering(p) && !p.Done?
    ensures PointOk(issued, q, LinkStatement(s, q, p, ok).1)
  {
    hide TableOk, RowsOk, HasEmptyList, Patched, Address, PatchOf, ByVerifyToken, ByPendingToken, ByUnsubscribeToken;
    if p.SeekingToken? || p.SeekingChange? {
      hide PointOk, LinkStatement;
      TokenLeadsOk(issued, s, q, p, ok);
    } else if p.SeekingManaged? {
      hide PointOk, LinkStatement;
      ManagedLeadsOk(issued, s, q, p, ok);
    }
  }

  lemma LeadsOk(issued: map<string, Issue>, s: State, q: Request, p: Point, d: Draw, ok: bool)
    requires DbOk(issued, s) && PointOk(issued, q, p) && !p.Done? && IsFresh(d, issued)
    ensures PointOk(IssuedAfter(issued, s, q, p, d), q, Statement(s, q, p, d, ok).1)
  {
    IssuesGrow(issued, s, q, p, d);
    hide SubscribeStatement, RegisterStatement, LinkStatement, TableOk, RowsOk, IsFresh, IssuedAfter, LettersOk;
    hide DeletionsOk;
    if IsSubscribing(p) {
      SubscribingLeadsOk(issued, s, q, p, d, ok);
    } else if IsRegistering(p) {
      RegisteringLeadsOk(issued, s, q, p, d);
    } else {
      LinkLeadsOk(issued, s, q, p, ok);
      PointStaysOk(issued, IssuedAfter(issued, s, q, p, d), q, LinkStatement(s, q, p, ok).1);
    }
  }

  // ---- every step keeps the world well-formed ---------------------------------------------------

  lemma FirstIsOk(issued: map<string, Issue>, q: Request)
    ensures PointOk(issued, q, First(q))
  {
  }

  /** A statement keeps the database, and its call may go on where it leads. */
  lemma StatementKeepsDb(issued: map<string, Issue>, s: State, q: Request, p: Point, d: Draw, ok: bool)
    requires DbOk(issued, s) && PointOk(issued, q, p) && !p.Done? && IsFresh(d, issued)
    ensures DbOk(IssuedAfter(issued, s, q, p, d), Statement(s, q, p, d, ok).0)
    ensures PointOk(IssuedAfter(issued, s, q, p, d), q, Statement(s, q, p, d, ok).1)
  {
    LeadsOk(issued, s, q, p, d, ok);
    RowsStepOk(issued, s, q, p, d, ok);
    LettersStepOk(issued, s, q, p, d, ok);
    DeletionsStepOk(issued, s, q, p, d, ok);
    StatementKeepsTable(s, q, p, d, ok);
    hide Statement, TableOk, RowsOk, IsFresh, IssuedAfter, LettersOk, DeletionsOk;
  }

  lemma CallsUpdated(issued: map<string, Issue>, calls: map<nat, Frame>, c: nat, f: Frame)
    requires CallsOk(issued, calls) && PointOk(issued, f.request, f.at)
    ensures CallsOk(issued, calls[c := f])
  {
    hide PointOk;
  }

  /** A step of any call, begun, continued or given up, keeps the world well-formed. */
  lemma StepKeepsWorld(w: World, e: Event)
    requires WorldOk(w) && Enabled(w, e)
    ensures WorldOk(Next(w, e)) && Grows(w.issued, Next(w, e).issued)
  {
    match e
    case Begin(c, q) =>
      FirstIsOk(w.issued, q);
      hide DbOk, PointOk;
      CallsUpdated(w.issued, w.calls, c, Frame(q, First(q)));
    case Step(c, d, ok) =>
      StepKeepsCalls(w, c, d, ok);
    case Abandon(c) =>
      assert PointOk(w.issued, w.calls[c].request, Done(Threw));
      hide DbOk, PointOk;
      CallsUpdated(w.issued, w.calls, c, w.calls[c].(at := Done(Threw)));
    case Sleep(_) =>
      hide CallsOk, RowsOk, LettersOk, DeletionsOk, TableOk;
  }

  lemma StepKeepsCalls(w: World, c: nat, d: Draw, ok: bool)
    requires WorldOk(w) && CanStep(w, c, d)
    ensures WorldOk(Next(w, Step(c, d, ok))) && Grows(w.issued, Next(w, Step(c, d, ok)).issued)
  {
    var f := w.calls[c];
    assert PointOk(w.issued, f.request, f.at);
    IssuesGrow(w.issued, w.db, f.request, f.at, d);
    StatementKeepsDb(w.issued, w.db, f.request, f.at, d, ok);
    hide DbOk, PointOk, Grows, Statement, Issues, IsFresh;
    var after := IssuedAfter(w.issued, w.db, f.request, f.at, d);
    CallsStayOk(w.issued, after, w.calls);
    CallsUpdated(after, w.calls, c, f.(at := Statement(w.db, f.request, f.at, d, ok).1));
  }

  /** Any call can be made at any time, an open one can die and leaves what it wrote, and time can pass. */
  lemma CallersAreFree(w: World, c: nat, q: Request, time: nat)
    ensures c !in w.calls ==> Enabled(w, Begin(c, q)) && Next(w, Begin(c, q)).db == w.db
                              && Next(w, Begin(c, q)).calls == w.calls[c := Frame(q, First(q))]
    ensures c in w.calls && !w.calls[c].at.Done? ==>
              Enabled(w, Abandon(c)) && Next(w, Abandon(c)).db == w.db && Next(w, Abandon(c)).calls[c].at == Done(Threw)
    ensures Enabled(w, Sleep(time)) && Next(w, Sleep(time)) == w.(db := w.db.(now := w.db.now + time))
  {
  }

  /** An open call is never stuck: with fresh draws its next statement can be executed. */
  lemma OpenCallsCanStep(w: World, c: nat, d: Draw)
    requires WorldOk(w) && c in w.calls && !w.calls[c].at.Done? && IsFresh(d, w.issued)
    ensures CanStep(w, c, d)
  {
    assert PointOk(w.issued, w.calls[c].request, w.calls[c].at);
    hide IsFresh, TableOk, RowsOk, LettersOk, DeletionsOk, Fits;
  }

  lemma InitIsOk(w: World)
    requires IsInit(w)
    ensures WorldOk(w)
  {
  }

  lemma {:induction false} RunKeepsWorld(ws: seq<World>, es: seq<Event>, n: nat)
    requires IsRun(ws, es) && n <= |es|
    ensures WorldOk(ws[n])
  {
    if n == 0 {
      InitIsOk(ws[0]);
    } else {
      RunKeepsWorld(ws, es, n - 1);
      assert IsStep(ws, es, n - 1) by {
        assert es[n - 1] == es[n - 1];
      }
      StepKeepsWorld(ws[n - 1], es[n - 1]);
    }
  }
}
