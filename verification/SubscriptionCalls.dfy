/** One subscription call from its first statement to its answer, with anything between its statements. */
module SubscriptionCalls {
  import opened Types
  import opened Text
  import opened Subscriptions

  /** What a statement meets: what it draws, whether its letter or test goes through, what others did before it. */
  datatype Env = Env(draw: Draw, ok: bool, before: State -> State)

  /** Whatever other calls do, the unique keys of the table hold. */
  ghost predicate KeepsKeys(env: nat -> Env) {
    forall i: nat, s: State :: TableOk(s.rows) ==> TableOk(env(i).before(s).rows)
  }

  /** A call executed from statement `p` on; statement by statement it meets what `env` says, from `i` on. */
  function Drive(s: State, q: Request, p: Point, env: nat -> Env, i: nat): (State, Reply)
    requires TableOk(s.rows) && Fits(q, p) && KeepsKeys(env)
    decreases Rank(p)
  {
    if p.Done? then (s, p.reply)
    else
      var met := env(i).before(s);
      StatementKeepsTable(met, q, p, env(i).draw, env(i).ok);
      StatementAdvances(met, q, p, env(i).draw, env(i).ok);
      var (after, next) := Statement(met, q, p, env(i).draw, env(i).ok);
      Drive(after, q, next, env, i + 1)
  }

  lemma DriveOnce(s: State, q: Request, p: Point, env: nat -> Env, i: nat)
    requires TableOk(s.rows) && Fits(q, p) && KeepsKeys(env) && !p.Done?
    ensures var met := env(i).before(s);
            && TableOk(met.rows)
            && var (after, next) := Statement(met, q, p, env(i).draw, env(i).ok);
               && TableOk(after.rows) && Fits(q, next) && Rank(next) < Rank(p)
               && Drive(s, q, p, env, i) == Drive(after, q, next, env, i + 1)
  {
    var met := env(i).before(s);
    hide TableOk, Statement, Fits, Rank;
    StatementKeepsTable(met, q, p, env(i).draw, env(i).ok);
    StatementAdvances(met, q, p, env(i).draw, env(i).ok);
  }

  /** The database as each statement of the call leaves it. */
  function Trail(s: State, q: Request, p: Point, env: nat -> Env, i: nat): seq<State>
    requires TableOk(s.rows) && Fits(q, p) && KeepsKeys(env)
    decreases Rank(p)
  {
    if p.Done? then []
    else
      var met := env(i).before(s);
      StatementKeepsTable(met, q, p, env(i).draw, env(i).ok);
      StatementAdvances(met, q, p, env(i).draw, env(i).ok);
      var (after, next) := Statement(met, q, p, env(i).draw, env(i).ok);
      [after] + Trail(after, q, next, env, i + 1)
  }

  lemma TrailOnce(s: State, q: Request, p: Point, env: nat -> Env, i: nat)
    requires TableOk(s.rows) && Fits(q, p) && KeepsKeys(env) && !p.Done?
    ensures var met := env(i).before(s);
            && TableOk(met.rows)
            && var (after, next) := Statement(met, q, p, env(i).draw, env(i).ok);
               && TableOk(after.rows) && Fits(q, next) && Rank(next) < Rank(p)
               && Trail(s, q, p, env, i) == [after] + Trail(after, q, next, env, i + 1)
  {
    var met := env(i).before(s);
    hide TableOk, Statement, Fits, Rank;
    StatementKeepsTable(met, q, p, env(i).draw, env(i).ok);
    StatementAdvances(met, q, p, env(i).draw, env(i).ok);
  }

  /** A call leaves what its last statement leaves. */
  lemma {:induction false} DriveLeavesTheLast(s: State, q: Request, p: Point, env: nat -> Env, i: nat)
    requires TableOk(s.rows) && Fits(q, p) && KeepsKeys(env)
    ensures var t := Trail(s, q, p, env, i); Drive(s, q, p, env, i).0 == if t == [] then s else t[|t| - 1]
    decreases Rank(p)
  {
    hide Fits, TableOk, Statement, KeepsKeys, Rank;
    if !p.Done? {
      TrailOnce(s, q, p, env, i);
      DriveOnce(s, q, p, env, i);
      var (after, next) := Statement(env(i).before(s), q, p, env(i).draw, env(i).ok);
      hide Trail, Drive;
      DriveLeavesTheLast(after, q, next, env, i + 1);
    }
  }

  /** Only what a call still meets matters to what it leaves. */
  lemma {:induction false} TrailAgrees(s: State, q: Request, p: Point, a: nat -> Env, b: nat -> Env, i: nat)
    requires TableOk(s.rows) && Fits(q, p) && KeepsKeys(a) && KeepsKeys(b) && forall j: nat :: i <= j ==> a(j) == b(j)
    ensures Trail(s, q, p, a, i) == Trail(s, q, p, b, i)
    decreases Rank(p)
  {
    if !p.Done? {
      hide Fits, TableOk, Statement, Trail, KeepsKeys, Rank;
      TrailOnce(s, q, p, a, i);
      TrailOnce(s, q, p, b, i);
      var (after, next) := Statement(a(i).before(s), q, p, a(i).draw, a(i).ok);
      TrailAgrees(after, q, next, a, b, i + 1);
    }
  }

  /** Only what a call still meets matters to it. */
  lemma {:induction false} DriveAgrees(s: State, q: Request, p: Point, a: nat -> Env, b: nat -> Env, i: nat)
    requires TableOk(s.rows) && Fits(q, p) && KeepsKeys(a) && KeepsKeys(b) && forall j: nat :: i <= j ==> a(j) == b(j)
    ensures Drive(s, q, p, a, i) == Drive(s, q, p, b, i)
    decreases Rank(p)
  {
    hide Fits, TableOk, Statement, Drive, KeepsKeys, Rank;
    if p.Done? {
      DriveEnds(s, q, p, a, i);
      DriveEnds(s, q, p, b, i);
    } else {
      DriveOnce(s, q, p, a, i);
      DriveOnce(s, q, p, b, i);
      var (after, next) := Statement(a(i).before(s), q, p, a(i).draw, a(i).ok);
      DriveAgrees(after, q, next, a, b, i + 1);
    }
  }

  // ---- addresses --------------------------------------------------------------------------------

  lemma LowerKeepsSpace(c: char)
    ensures IsSpace(LowerChar(c)) <==> IsSpace(c)
    ensures LowerChar(LowerChar(c)) == LowerChar(c)
  {
  }

  lemma {:induction false} TrimStartOfLower(s: string)
    ensures TrimStart(Lower(s)) == Lower(TrimStart(s))
  {
    if s != "" {
      LowerKeepsSpace(s[0]);
      assert Lower(s)[1..] == Lower(s[1..]);
      TrimStartOfLower(s[1..]);
    }
  }

  lemma {:induction false} TrimEndOfLower(s: string)
    ensures TrimEnd(Lower(s)) == Lower(TrimEnd(s))
  {
    if s != "" {
      LowerKeepsSpace(s[|s| - 1]);
      assert Lower(s)[..|s| - 1] == Lower(s[..|s| - 1]);
      TrimEndOfLower(s[..|s| - 1]);
    }
  }

  predicate IsTrimmed(s: string) {
    s == "" || (!IsSpace(s[0]) && !IsSpace(s[|s| - 1]))
  }

  lemma {:induction false} TrimStartStarts(s: string)
    ensures TrimStart(s) == "" || !IsSpace(TrimStart(s)[0])
  {
    if s != "" && IsSpace(s[0]) {
      TrimStartStarts(s[1..]);
    }
  }

  lemma {:induction false} TrimEndEnds(s: string)
    requires s == "" || !IsSpace(s[0])
    ensures IsTrimmed(TrimEnd(s))
  {
    if s != "" && IsSpace(s[|s| - 1]) {
      TrimEndEnds(s[..|s| - 1]);
    }
  }

  /** Normalising an address a second time changes nothing, so the retry may start from the normalised one. */
  lemma AddressIsNormal(raw: string)
    ensures Address(Address(raw)) == Address(raw)
  {
    var t := Trim(raw);
    TrimStartStarts(raw);
    TrimEndEnds(TrimStart(raw));
    TrimStartOfLower(t);
    TrimEndOfLower(t);
    assert TrimStart(t) == t && TrimEnd(t) == t;
    forall i | 0 <= i < |t| ensures Lower(Lower(t))[i] == Lower(t)[i] {
      LowerKeepsSpace(t[i]);
    }
    assert Lower(Lower(t)) == Lower(t);
  }

  lemma StatementByAddress(s: State, q: Request, r: Request, p: Point, d: Draw, ok: bool)
    requires TableOk(s.rows) && q.Subscribe? && r.Subscribe? && Fits(q, p) && Fits(r, p) && !p.Done?
    requires q.filters == r.filters && Address(q.email) == Address(r.email)
    ensures Statement(s, q, p, d, ok) == Statement(s, r, p, d, ok)
  {
    hide TableOk, Address, PatchOf, HasEmptyList, IsTaken, VerifyTaken, PendingTaken, ByEndpoint, NewSubscription;
  }

  /** A subscribe call depends on its address only as normalised. */
  lemma {:induction false} DriveByAddress(s: State, q: Request, r: Request, p: Point, env: nat -> Env, i: nat)
    requires TableOk(s.rows) && q.Subscribe? && r.Subscribe? && Fits(q, p) && Fits(r, p) && KeepsKeys(env)
    requires q.filters == r.filters && Address(q.email) == Address(r.email)
    ensures Drive(s, q, p, env, i) == Drive(s, r, p, env, i)
    decreases Rank(p)
  {
    hide Fits, TableOk, Statement, Drive, KeepsKeys, Address, Rank;
    if !p.Done? {
      DriveOnce(s, q, p, env, i);
      DriveOnce(s, r, p, env, i);
      var met := env(i).before(s);
      StatementByAddress(met, q, r, p, env(i).draw, env(i).ok);
      var (after, next) := Statement(met, q, p, env(i).draw, env(i).ok);
      DriveByAddress(after, q, r, next, env, i + 1);
    } else {
      DriveEnds(s, q, p, env, i);
      DriveEnds(s, r, p, env, i);
    }
  }

  lemma DriveEnds(s: State, q: Request, p: Point, env: nat -> Env, i: nat)
    requires TableOk(s.rows) && Fits(q, p) && KeepsKeys(env) && p.Done?
    ensures Drive(s, q, p, env, i) == (s, p.reply)
  {
  }

  // ---- what an undisturbed call does ------------------------------------------------------------

  /** Nothing comes between, and every statement meets the same luck. */
  ghost predicate IsCalm(env: nat -> Env, d: Draw, ok: bool) {
    forall i: nat :: env(i).draw == d && env(i).ok == ok && forall s: State :: env(i).before(s) == s
  }

  /** None of the drawn names and tokens is stored. */
  predicate IsUnused(t: Table, d: Draw) {
    && d.id !in t
    && forall i :: i in t ==>
         && t[i].unsubscribeToken != d.unsubscribeToken && t[i].verifyToken != Some(d.verifyToken)
         && t[i].verifyToken != Some(d.freshToken) && t[i].pendingToken != Some(d.freshToken)
  }

  /** Send a letter after the row has been written; a failing mailer throws and leaves the write. */
  function Posted(s: State, rows: Table, letter: Letter, works: bool, reply: Reply): (State, Reply) {
    if works then (s.(rows := rows, letters := s.letters + [letter]), reply) else (s.(rows := rows), Threw)
  }

  function Subscribed(s: State, email: string, filters: Option<FilterPatch>, d: Draw, works: bool): (State, Reply)
    requires TableOk(s.rows)
  {
    match ByEndpoint(s.rows, Email, email)
    case None =>
      if HasEmptyList(PatchOf(filters)) then (s, Threw)
      else
        Posted(s, s.rows[d.id := NewSubscription(Email, email, PatchOf(filters), d, s.now)],
               ConfirmLink(email, d.verifyToken), works, ConfirmationSent)
    case Some(id) =>
      var row := s.rows[id];
      if row.verified then
        if filters.Some? then
          Posted(s, s.rows[id := row.(pendingFilters := filters, pendingToken := Some(d.freshToken),
                                      pendingIssuedAt := Some(s.now))],
                 ChangeLink(email, d.freshToken), works, ChangePending)
        else Posted(s, s.rows, Notice(email), works, PreferencesUpdated)
      else if HasEmptyList(PatchOf(filters)) then (s, Threw)
      else
        Posted(s, s.rows[id := row.(filters := Patched(row.filters, PatchOf(filters)),
                                    verifyToken := Some(d.freshToken), verifyIssuedAt := Some(s.now))],
               ConfirmLink(email, d.freshToken), works, ConfirmationSent)
  }

  function Confirmed(s: State, token: string): (State, Reply)
    requires TableOk(s.rows)
  {
    match ByVerifyToken(s.rows, token, s.now)
    case None => (s, Answer(false))
    case Some(id) => (s.(rows := s.rows[id := VerifiedRow(s.rows[id])]), Answer(true))
  }

  function ChangeConfirmed(s: State, token: string): (State, Reply)
    requires TableOk(s.rows)
  {
    match ByPendingToken(s.rows, token, s.now)
    case None => (s, Answer(false))
    case Some(id) =>
      var row := s.rows[id];
      if HasEmptyList(PatchOf(row.pendingFilters)) then (s, Threw)
      else
        (s.(rows := s.rows[id := row.(filters := Patched(row.filters, PatchOf(row.pendingFilters)),
                                      pendingFilters := None, pendingToken := None, pendingIssuedAt := None)]),
         Answer(true))
  }

  /** runVerification: a 2xx answer marks the row verified. */
  function Tested(s: State, id: string, responds: bool): (State, Reply)
    requires id in s.rows
  {
    if responds then (s.(rows := s.rows[id := VerifiedRow(s.rows[id])]), Answer(true)) else (s, Answer(false))
  }

  function WebhookRegistered(s: State, q: Request, d: Draw, responds: bool): (State, Reply)
    requires TableOk(s.rows) && q.Register?
  {
    if !q.allowed || HasEmptyList(PatchOf(q.filters)) then (s, Answer(false))
    else
      match ByEndpoint(s.rows, Webhook, q.url)
      case Some(id) =>
        if q.secret.None? || q.secret != s.rows[id].secret then (s, Answer(false))
        else
          var row := s.rows[id].(filters := Patched(s.rows[id].filters, PatchOf(q.filters)));
          Tested(s.(rows := s.rows[id := row]), id, responds)
      case None =>
        if q.secret.Some? then (s, Answer(false))
        else
          (s.(rows := s.rows[d.id := NewSubscription(Webhook, q.url, PatchOf(q.filters), d, s.now)]),
           Registered(d.secret, d.unsubscribeToken))
  }

  function TestSent(s: State, token: string, allowed: bool, responds: bool): (State, Reply)
    requires TableOk(s.rows)
  {
    match ByUnsubscribeToken(s.rows, token)
    case None => (s, Answer(false))
    case Some(id) =>
      var row := s.rows[id];
      if row.channel != Webhook || row.secret.None? || row.secret == Some("") || !allowed then (s, Answer(false))
      else Tested(s, id, responds)
  }

  function Unsubscribed(s: State, token: string): (State, Reply)
    requires TableOk(s.rows)
  {
    match ByUnsubscribeToken(s.rows, token)
    case None => (s, Answer(false))
    case Some(id) =>
      (s.(rows := s.rows - {id}, deletions := s.deletions + [Deletion(id, s.rows[id].channel)]), Answer(true))
  }

  function Managed(s: State, token: string, patch: FilterPatch): (State, Reply)
    requires TableOk(s.rows)
  {
    if HasEmptyList(patch) then (s, Threw)
    else
      match ByUnsubscribeToken(s.rows, token)
      case None => (s, Answer(false))
      case Some(id) =>
        (s.(rows := s.rows[id := s.rows[id].(filters := Patched(s.rows[id].filters, patch))]), Answer(true))
  }

  /** What a call amounts to when nothing comes between its statements. */
  function Run(s: State, q: Request, d: Draw, ok: bool): (State, Reply)
    requires TableOk(s.rows)
  {
    match q
    case Subscribe(email, filters) => Subscribed(s, Address(email), filters, d, ok)
    case ConfirmEmail(token) => Confirmed(s, token)
    case ConfirmChange(token) => ChangeConfirmed(s, token)
    case Register(_, _, _, _) => WebhookRegistered(s, q, d, ok)
    case SendTest(token, allowed) => TestSent(s, token, allowed, ok)
    case Unsubscribe(token) => Unsubscribed(s, token)
    case ManageFilters(token, patch) => Managed(s, token, patch)
  }

  /** One statement of an undisturbed call. */
  lemma CalmOnce(s: State, q: Request, p: Point, env: nat -> Env, i: nat, d: Draw, ok: bool)
    requires TableOk(s.rows) && Fits(q, p) && KeepsKeys(env) && IsCalm(env, d, ok) && !p.Done?
    ensures var (after, next) := Statement(s, q, p, d, ok);
            && TableOk(after.rows) && Fits(q, next) && Rank(next) < Rank(p)
            && Drive(s, q, p, env, i) == Drive(after, q, next, env, i + 1)
  {
    hide TableOk, Statement, Fits, Rank, Drive, KeepsKeys;
    DriveOnce(s, q, p, env, i);
  }

  /** The letter that ends a subscribe call. */
  lemma CalmPost(s: State, q: Request, p: Point, env: nat -> Env, i: nat, d: Draw, ok: bool)
    requires TableOk(s.rows) && p.Posting? && Fits(q, p) && KeepsKeys(env) && IsCalm(env, d, ok)
    ensures Drive(s, q, p, env, i) == Posted(s, s.rows, p.letter, ok, p.reply)
  {
    CalmOnce(s, q, p, env, i, d, ok);
    hide TableOk, KeepsKeys, IsCalm, Address, PatchOf;
  }

  lemma NotTaken(t: Table, row: Subscription, d: Draw)
    requires IsUnused(t, d) && row.id == d.id && row.unsubscribeToken == d.unsubscribeToken
    requires row.verifyToken == Some(d.verifyToken)
    requires forall i :: i in t ==> t[i].channel != row.channel || t[i].endpoint != row.endpoint
    ensures !IsTaken(t, row)
  {
  }

  lemma InsertStatement(s: State, q: Request, d: Draw, ok: bool)
    requires TableOk(s.rows) && q.Subscribe? && IsUnused(s.rows, d) && ByEndpoint(s.rows, Email, Address(q.email)).None?
    ensures Statement(s, q, Finding(0), d, ok) == (s, Inserting(0))
    ensures var email, patch := Address(q.email), PatchOf(q.filters);
            Statement(s, q, Inserting(0), d, ok) ==
            if HasEmptyList(patch) then (s, Done(Threw))
            else (s.(rows := s.rows[d.id := NewSubscription(Email, email, patch, d, s.now)]),
                  Posting(ConfirmLink(email, d.verifyToken), ConfirmationSent))
  {
    hide TableOk, Address, PatchOf, HasEmptyList, IsTaken, ByEndpoint, IsUnused;
    NotTaken(s.rows, NewSubscription(Email, Address(q.email), PatchOf(q.filters), d, s.now), d);
  }

  lemma CalmNewSubscriber(s: State, q: Request, env: nat -> Env, d: Draw, ok: bool)
    requires TableOk(s.rows) && KeepsKeys(env) && IsCalm(env, d, ok) && IsUnused(s.rows, d) && q.Subscribe?
    requires ByEndpoint(s.rows, Email, Address(q.email)).None?
    ensures Drive(s, q, Finding(0), env, 0) == Run(s, q, d, ok)
  {
    hide TableOk, KeepsKeys, IsCalm, Address, PatchOf, HasEmptyList, Drive, ByEndpoint, NewSubscription, IsUnused;
    hide Statement;
    InsertStatement(s, q, d, ok);
    CalmOnce(s, q, Finding(0), env, 0, d, ok);
    CalmOnce(s, q, Inserting(0), env, 1, d, ok);
    var (after, next) := Statement(s, q, Inserting(0), d, ok);
    if !HasEmptyList(PatchOf(q.filters)) {
      CalmPost(after, q, next, env, 2, d, ok);
    } else {
      DriveEnds(after, q, next, env, 2);
    }
  }

  lemma SightStatements(s: State, q: Request, id: string, d: Draw, ok: bool)
    requires TableOk(s.rows) && q.Subscribe? && ByEndpoint(s.rows, Email, Address(q.email)) == Some(id)
    ensures Statement(s, q, Finding(0), d, ok) == (s, Refinding(0))
    ensures Statement(s, q, Refinding(0), d, ok) == (s, AfterSighting(q, id, s.rows[id].verified))
  {
    hide TableOk, Address, PatchOf, HasEmptyList, ByEndpoint, AfterSighting;
  }

  lemma NotHeld(t: Table, id: string, d: Draw)
    requires IsUnused(t, d)
    ensures !HeldElsewhere(t, id, d.freshToken)
  {
  }

  lemma ProposeStatement(s: State, q: Request, id: string, d: Draw, ok: bool)
    requires TableOk(s.rows) && q.Subscribe? && q.filters.Some? && IsUnused(s.rows, d) && id in s.rows
    ensures Statement(s, q, Proposing(id), d, ok) ==
            (s.(rows := s.rows[id := s.rows[id].(pendingFilters := q.filters, pendingToken := Some(d.freshToken),
                                                 pendingIssuedAt := Some(s.now))]),
             Posting(ChangeLink(Address(q.email), d.freshToken), ChangePending))
  {
    hide TableOk, Address, HasEmptyList, VerifyTaken, PendingTaken, IsUnused;
    NotHeld(s.rows, id, d);
  }

  lemma PatchStatement(s: State, q: Request, id: string, patch: FilterPatch, d: Draw, ok: bool)
    requires TableOk(s.rows) && Fits(q, Patching(id, patch)) && id in s.rows
    ensures Statement(s, q, Patching(id, patch), d, ok) ==
            if HasEmptyList(patch) then (s, Done(if q.Register? then Answer(false) else Threw))
            else (s.(rows := s.rows[id := s.rows[id].(filters := Patched(s.rows[id].filters, patch))]),
                  AfterPatch(q, id))
  {
    hide TableOk, HasEmptyList, Patched;
  }

  lemma ReissueStatement(s: State, q: Request, id: string, d: Draw, ok: bool)
    requires TableOk(s.rows) && q.Subscribe? && IsUnused(s.rows, d) && id in s.rows
    ensures Statement(s, q, Reissuing(id), d, ok) ==
            (s.(rows := s.rows[id := s.rows[id].(verifyToken := Some(d.freshToken), verifyIssuedAt := Some(s.now))]),
             Posting(ConfirmLink(Address(q.email), d.freshToken), ConfirmationSent))
  {
    hide TableOk, Address, HasEmptyList, VerifyTaken, PendingTaken, IsUnused;
    NotHeld(s.rows, id, d);
  }

  lemma CalmVerifiedSubscriber(s: State, q: Request, id: string, env: nat -> Env, d: Draw, ok: bool)
    requires TableOk(s.rows) && KeepsKeys(env) && IsCalm(env, d, ok) && IsUnused(s.rows, d) && q.Subscribe?
    requires ByEndpoint(s.rows, Email, Address(q.email)) == Some(id) && s.rows[id].verified
    ensures Drive(s, q, Finding(0), env, 0) == Run(s, q, d, ok)
  {
    hide TableOk, KeepsKeys, IsCalm, Address, PatchOf, HasEmptyList, Drive, ByEndpoint, IsUnused, Statement;
    SightStatements(s, q, id, d, ok);
    CalmOnce(s, q, Finding(0), env, 0, d, ok);
    CalmOnce(s, q, Refinding(0), env, 1, d, ok);
    if q.filters.Some? {
      ProposeStatement(s, q, id, d, ok);
      CalmOnce(s, q, Proposing(id), env, 2, d, ok);
      var (after, next) := Statement(s, q, Proposing(id), d, ok);
      CalmPost(after, q, next, env, 3, d, ok);
    } else {
      CalmPost(s, q, Posting(Notice(Address(q.email)), PreferencesUpdated), env, 2, d, ok);
    }
  }

  lemma CalmUnverifiedSubscriber(s: State, q: Request, id: string, env: nat -> Env, d: Draw, ok: bool)
    requires TableOk(s.rows) && KeepsKeys(env) && IsCalm(env, d, ok) && IsUnused(s.rows, d) && q.Subscribe?
    requires ByEndpoint(s.rows, Email, Address(q.email)) == Some(id) && !s.rows[id].verified
    ensures Drive(s, q, Finding(0), env, 0) == Run(s, q, d, ok)
  {
    hide TableOk, KeepsKeys, IsCalm, Address, PatchOf, HasEmptyList, Drive, ByEndpoint, IsUnused, Statement, Patched;
    SightStatements(s, q, id, d, ok);
    CalmOnce(s, q, Finding(0), env, 0, d, ok);
    CalmOnce(s, q, Refinding(0), env, 1, d, ok);
    var patch := PatchOf(q.filters);
    PatchStatement(s, q, id, patch, d, ok);
    CalmOnce(s, q, Patching(id, patch), env, 2, d, ok);
    var (after, next) := Statement(s, q, Patching(id, patch), d, ok);
    if HasEmptyList(patch) {
      DriveEnds(after, q, next, env, 3);
    } else {
      StaysUnused(s.rows, id, Patched(s.rows[id].filters, patch), d);
      ReissueStatement(after, q, id, d, ok);
      CalmOnce(after, q, Reissuing(id), env, 3, d, ok);
      var (last, post) := Statement(after, q, Reissuing(id), d, ok);
      assert last.rows == s.rows[id := last.rows[id]];
      CalmPost(last, q, post, env, 4, d, ok);
    }
  }

  lemma StaysUnused(t: Table, id: string, f: Filters, d: Draw)
    requires IsUnused(t, d) && id in t
    ensures IsUnused(t[id := t[id].(filters := f)], d)
  {
  }

  lemma CalmSubscriber(s: State, q: Request, env: nat -> Env, d: Draw, ok: bool)
    requires TableOk(s.rows) && KeepsKeys(env) && IsCalm(env, d, ok) && IsUnused(s.rows, d) && q.Subscribe?
    ensures Drive(s, q, First(q), env, 0) == Run(s, q, d, ok)
  {
    hide TableOk, KeepsKeys, IsCalm, Address, Drive, ByEndpoint, IsUnused, Run;
    match ByEndpoint(s.rows, Email, Address(q.email))
    case None => CalmNewSubscriber(s, q, env, d, ok);
    case Some(id) =>
      if s.rows[id].verified {
        CalmVerifiedSubscriber(s, q, id, env, d, ok);
      } else {
        CalmUnverifiedSubscriber(s, q, id, env, d, ok);
      }
  }

  // The last statements of the other calls.

  lemma CalmEnds(s: State, q: Request, p: Point, env: nat -> Env, i: nat, d: Draw, ok: bool)
    requires TableOk(s.rows) && Fits(q, p) && KeepsKeys(env) && IsCalm(env, d, ok) && !p.Done?
    requires Statement(s, q, p, d, ok).1.Done?
    ensures Drive(s, q, p, env, i) == (Statement(s, q, p, d, ok).0, Statement(s, q, p, d, ok).1.reply)
  {
    hide TableOk, Statement, Fits, KeepsKeys, IsCalm, Drive;
    CalmOnce(s, q, p, env, i, d, ok);
    DriveEnds(Statement(s, q, p, d, ok).0, q, Statement(s, q, p, d, ok).1, env, i + 1);
  }

  lemma CalmVerifying(s: State, q: Request, id: string, env: nat -> Env, i: nat, d: Draw, ok: bool)
    requires TableOk(s.rows) && Fits(q, Verifying(id)) && KeepsKeys(env) && IsCalm(env, d, ok) && id in s.rows
    ensures Drive(s, q, Verifying(id), env, i) == (s.(rows := s.rows[id := VerifiedRow(s.rows[id])]), Answer(true))
  {
    hide TableOk, Fits, KeepsKeys, IsCalm, Drive;
    CalmEnds(s, q, Verifying(id), env, i, d, ok);
  }

  lemma CalmTesting(s: State, q: Request, id: string, env: nat -> Env, i: nat, d: Draw, ok: bool)
    requires TableOk(s.rows) && Fits(q, Testing(id)) && KeepsKeys(env) && IsCalm(env, d, ok) && id in s.rows
    ensures Drive(s, q, Testing(id), env, i) == Tested(s, id, ok)
  {
    assert Fits(q, Verifying(id));
    hide TableOk, Fits, KeepsKeys, IsCalm, Drive;
    if ok {
      CalmOnce(s, q, Testing(id), env, i, d, ok);
      CalmVerifying(s, q, id, env, i + 1, d, ok);
    } else {
      CalmEnds(s, q, Testing(id), env, i, d, ok);
    }
  }

  lemma CalmConfirm(s: State, q: Request, env: nat -> Env, d: Draw, ok: bool)
    requires TableOk(s.rows) && KeepsKeys(env) && IsCalm(env, d, ok) && q.ConfirmEmail?
    ensures Drive(s, q, First(q), env, 0) == Run(s, q, d, ok)
  {
    hide TableOk, KeepsKeys, IsCalm, Drive, ByVerifyToken;
    match ByVerifyToken(s.rows, q.token, s.now)
    case None => CalmEnds(s, q, SeekingToken, env, 0, d, ok);
    case Some(id) =>
      CalmOnce(s, q, SeekingToken, env, 0, d, ok);
      CalmVerifying(s, q, id, env, 1, d, ok);
  }

  lemma CalmChange(s: State, q: Request, env: nat -> Env, d: Draw, ok: bool)
    requires TableOk(s.rows) && KeepsKeys(env) && IsCalm(env, d, ok) && q.ConfirmChange?
    ensures Drive(s, q, First(q), env, 0) == Run(s, q, d, ok)
  {
    hide TableOk, KeepsKeys, IsCalm, Drive, ByPendingToken, HasEmptyList, PatchOf, Patched;
    match ByPendingToken(s.rows, q.token, s.now)
    case None => CalmEnds(s, q, SeekingChange, env, 0, d, ok);
    case Some(id) =>
      var patch := PatchOf(s.rows[id].pendingFilters);
      CalmOnce(s, q, SeekingChange, env, 0, d, ok);
      PatchStatement(s, q, id, patch, d, ok);
      if HasEmptyList(patch) {
        CalmEnds(s, q, Patching(id, patch), env, 1, d, ok);
      } else {
        CalmOnce(s, q, Patching(id, patch), env, 1, d, ok);
        var after := Statement(s, q, Patching(id, patch), d, ok).0;
        CalmClearing(after, q, id, env, 2, d, ok);
        var last := after.rows[id].(pendingFilters := None, pendingToken := None, pendingIssuedAt := None);
        assert after.rows[id := last] == s.rows[id := last];
      }
  }

  lemma CalmClearing(s: State, q: Request, id: string, env: nat -> Env, i: nat, d: Draw, ok: bool)
    requires TableOk(s.rows) && Fits(q, Clearing(id)) && KeepsKeys(env) && IsCalm(env, d, ok) && id in s.rows
    ensures Drive(s, q, Clearing(id), env, i) ==
            (s.(rows := s.rows[id := s.rows[id].(pendingFilters := None, pendingToken := None,
                                                 pendingIssuedAt := None)]),
             Answer(true))
  {
    hide TableOk, Fits, KeepsKeys, IsCalm, Drive;
    CalmEnds(s, q, Clearing(id), env, i, d, ok);
  }

  lemma CalmOwner(s: State, q: Request, id: string, env: nat -> Env, d: Draw, ok: bool)
    requires TableOk(s.rows) && KeepsKeys(env) && IsCalm(env, d, ok) && q.Register?
    requires q.allowed && !HasEmptyList(PatchOf(q.filters)) && ByEndpoint(s.rows, Webhook, q.url) == Some(id)
    ensures Drive(s, q, First(q), env, 0) == Run(s, q, d, ok)
  {
    hide TableOk, KeepsKeys, IsCalm, Drive, ByEndpoint, HasEmptyList, Patched;
    if q.secret.None? || q.secret != s.rows[id].secret {
      CalmEnds(s, q, SeekingUrl, env, 0, d, ok);
    } else {
      CalmOnce(s, q, SeekingUrl, env, 0, d, ok);
      if q.filters.Some? {
        var patch := q.filters.value;
        PatchStatement(s, q, id, patch, d, ok);
        CalmOnce(s, q, Patching(id, patch), env, 1, d, ok);
        CalmTesting(Statement(s, q, Patching(id, patch), d, ok).0, q, id, env, 2, d, ok);
      } else {
        CalmTesting(s, q, id, env, 1, d, ok);
        PatchNothing(s.rows[id]);
        assert s.rows[id := s.rows[id]] == s.rows;
      }
    }
  }

  lemma PatchNothing(r: Subscription)
    ensures Patched(r.filters, NO_PATCH) == r.filters
  {
  }

  lemma CalmNewWebhook(s: State, q: Request, env: nat -> Env, d: Draw, ok: bool)
    requires TableOk(s.rows) && KeepsKeys(env) && IsCalm(env, d, ok) && q.Register? && IsUnused(s.rows, d)
    requires q.allowed && !HasEmptyList(PatchOf(q.filters)) && ByEndpoint(s.rows, Webhook, q.url).None?
    ensures Drive(s, q, First(q), env, 0) == Run(s, q, d, ok)
  {
    hide TableOk, KeepsKeys, IsCalm, Drive, ByEndpoint, HasEmptyList, Patched, PatchOf, IsUnused, IsTaken;
    if q.secret.Some? {
      CalmEnds(s, q, SeekingUrl, env, 0, d, ok);
    } else {
      NotTaken(s.rows, NewSubscription(Webhook, q.url, PatchOf(q.filters), d, s.now), d);
      CalmOnce(s, q, SeekingUrl, env, 0, d, ok);
      CalmEnds(s, q, Registering, env, 1, d, ok);
    }
  }

  lemma CalmRegister(s: State, q: Request, env: nat -> Env, d: Draw, ok: bool)
    requires TableOk(s.rows) && KeepsKeys(env) && IsCalm(env, d, ok) && q.Register? && IsUnused(s.rows, d)
    ensures Drive(s, q, First(q), env, 0) == Run(s, q, d, ok)
  {
    hide TableOk, KeepsKeys, IsCalm, ByEndpoint, HasEmptyList, Patched, PatchOf, IsUnused, Statement;
    if !q.allowed || HasEmptyList(PatchOf(q.filters)) {
      DriveEnds(s, q, First(q), env, 0);
    } else {
      hide Drive, Run;
      match ByEndpoint(s.rows, Webhook, q.url)
      case None => CalmNewWebhook(s, q, env, d, ok);
      case Some(id) => CalmOwner(s, q, id, env, d, ok);
    }
  }

  lemma CalmManaged(s: State, q: Request, env: nat -> Env, d: Draw, ok: bool)
    requires TableOk(s.rows) && KeepsKeys(env) && IsCalm(env, d, ok)
    requires q.SendTest? || q.Unsubscribe? || (q.ManageFilters? && !HasEmptyList(q.patch))
    ensures Drive(s, q, First(q), env, 0) == Run(s, q, d, ok)
  {
    hide TableOk, KeepsKeys, IsCalm, Drive, ByUnsubscribeToken, HasEmptyList, Patched;
    match ByUnsubscribeToken(s.rows, q.token)
    case None => CalmEnds(s, q, SeekingManaged, env, 0, d, ok);
    case Some(id) =>
      RowHasItsId(s.rows, id);
      if AfterManaged(q, s.rows[id]).Done? {
        CalmEnds(s, q, SeekingManaged, env, 0, d, ok);
      } else {
        CalmOnce(s, q, SeekingManaged, env, 0, d, ok);
        if q.SendTest? {
          CalmTesting(s, q, id, env, 1, d, ok);
        } else {
          CalmEnds(s, q, AfterManaged(q, s.rows[id]), env, 1, d, ok);
        }
      }
  }

  lemma RowHasItsId(t: Table, id: string)
    requires TableOk(t) && id in t
    ensures t[id].id == id
  {
  }

  /** A call nobody comes between does to table, letters and log what the closed form says, and answers the same. */
  lemma UndisturbedCallIsRun(s: State, q: Request, env: nat -> Env, d: Draw, ok: bool)
    requires TableOk(s.rows) && KeepsKeys(env) && IsCalm(env, d, ok) && IsUnused(s.rows, d)
    ensures Drive(s, q, First(q), env, 0) == Run(s, q, d, ok)
  {
    hide TableOk, KeepsKeys, IsCalm, IsUnused, Drive, Run, HasEmptyList;
    match q
    case Subscribe(_, _) => CalmSubscriber(s, q, env, d, ok);
    case ConfirmEmail(_) => CalmConfirm(s, q, env, d, ok);
    case ConfirmChange(_) => CalmChange(s, q, env, d, ok);
    case Register(_, _, _, _) => CalmRegister(s, q, env, d, ok);
    case SendTest(_, _) => CalmManaged(s, q, env, d, ok);
    case Unsubscribe(_) => CalmManaged(s, q, env, d, ok);
    case ManageFilters(_, patch) =>
      if HasEmptyList(patch) {
        CalmRefusal(s, q, env, d, ok);
      } else {
        CalmManaged(s, q, env, d, ok);
      }
  }

  lemma CalmRefusal(s: State, q: Request, env: nat -> Env, d: Draw, ok: bool)
    requires TableOk(s.rows) && KeepsKeys(env) && q.ManageFilters? && HasEmptyList(q.patch)
    ensures Drive(s, q, First(q), env, 0) == Run(s, q, d, ok)
  {
    DriveEnds(s, q, First(q), env, 0);
  }
}
