/** Theorems about whole runs of interleaved subscription calls whose draws never repeat. */
module SubscriptionRuns {
  import opened Types
  import opened Text
  import opened Subscriptions
  import opened SubscriptionCalls
  import opened SubscriptionWorld

  // ---- steps of a run ---------------------------------------------------------------------------

  /** Step `n` executes the next statement of call `c`. */
  predicate Executes(ws: seq<World>, es: seq<Event>, n: nat, c: nat) {
    n < |es| < |ws| && es[n].Step? && es[n].call == c && CanStep(ws[n], c, es[n].draw)
  }

  /** Step `n` executes statement `p` of call `c`, asked for by `q`. */
  predicate ExecutesAt(ws: seq<World>, es: seq<Event>, n: nat, c: nat, q: Request, p: Point) {
    Executes(ws, es, n, c) && ws[n].calls[c] == Frame(q, p)
  }

  lemma RunStep(ws: seq<World>, es: seq<Event>, n: nat)
    requires IsRun(ws, es) && n < |es|
    ensures WorldOk(ws[n]) && WorldOk(ws[n + 1]) && Enabled(ws[n], es[n]) && ws[n + 1] == Next(ws[n], es[n])
    ensures Grows(ws[n].issued, ws[n + 1].issued)
  {
    RunKeepsWorld(ws, es, n);
    RunKeepsWorld(ws, es, n + 1);
    var e := es[n];
    assert IsStep(ws, es, n);
    hide IsRun, WorldOk;
    StepKeepsWorld(ws[n], e);
  }

  lemma RowIsOkIn(w: World, i: string)
    requires WorldOk(w) && i in w.db.rows
    ensures RowOk(w.issued, i, w.db.rows[i])
  {
  }

  lemma PointIsOkIn(w: World, c: nat)
    requires WorldOk(w) && c in w.calls
    ensures PointOk(w.issued, w.calls[c].request, w.calls[c].at)
  {
    hide DbOk, PointOk;
  }

  lemma TableIsOkIn(w: World)
    requires WorldOk(w)
    ensures TableOk(w.db.rows)
  {
  }

  lemma LetterIsOkIn(w: World, l: Letter)
    requires WorldOk(w) && l in w.db.letters
    ensures LetterOk(w.issued, l)
  {
  }

  /** Row `i` after an event. */
  function EventRow(w: World, e: Event, i: string): Option<Subscription>
    requires Enabled(w, e)
  {
    if e.Step? then RowAfter(w.db, w.calls[e.call].request, w.calls[e.call].at, e.draw, i) else RowAt(w.db.rows, i)
  }

  lemma RunRow(ws: seq<World>, es: seq<Event>, n: nat, i: string)
    requires IsRun(ws, es) && n < |es|
    ensures WorldOk(ws[n]) && Enabled(ws[n], es[n])
    ensures RowAt(ws[n + 1].db.rows, i) == EventRow(ws[n], es[n], i)
  {
    RunStep(ws, es, n);
    var w, e := ws[n], es[n];
    hide IsRun, WorldOk, Statement, RowAfter, TableOk, IsFresh, Issues;
    if e.Step? {
      StatementRow(w.db, w.calls[e.call].request, w.calls[e.call].at, e.draw, e.ok, i);
    }
  }

  lemma SameLength(ws: seq<World>, es: seq<Event>)
    requires IsRun(ws, es)
    ensures |ws| == |es| + 1
  {
  }

  lemma StartsEmpty(ws: seq<World>, es: seq<Event>)
    requires IsRun(ws, es)
    ensures ws[0].calls == map[] && ws[0].issued == map[] && ws[0].db.rows == map[]
  {
  }

  /** How a call got where it is in one step. */
  lemma CallStep(ws: seq<World>, es: seq<Event>, n: nat, c: nat)
    requires IsRun(ws, es) && n < |es| && c in ws[n + 1].calls
    ensures var f := ws[n + 1].calls[c];
            || (&& Executes(ws, es, n, c) && f.request == ws[n].calls[c].request
                && f.at == Statement(ws[n].db, f.request, ws[n].calls[c].at, es[n].draw, es[n].ok).1)
            || f.at == First(f.request) || f.at.Done?
            || (c in ws[n].calls && ws[n].calls[c] == f)
  {
    hide IsRun, WorldOk, Statement, TableOk, IsFresh, Issues, First, Grows, Fits;
    SameLength(ws, es);
    RunStep(ws, es, n);
  }

  /** The statement that brought a call where it is. */
  lemma {:induction false} Arrived(ws: seq<World>, es: seq<Event>, n: nat, c: nat) returns (m: nat)
    requires IsRun(ws, es) && n <= |es| && c in ws[n].calls
    requires !ws[n].calls[c].at.Done? && ws[n].calls[c].at != First(ws[n].calls[c].request)
    ensures m < n && Executes(ws, es, m, c) && ws[m].calls[c].request == ws[n].calls[c].request
    ensures Statement(ws[m].db, ws[m].calls[c].request, ws[m].calls[c].at, es[m].draw, es[m].ok).1 == ws[n].calls[c].at
    ensures forall k :: m < k <= n ==> c in ws[k].calls && ws[k].calls[c] == ws[n].calls[c]
  {
    hide IsRun, Statement, First, CanStep;
    SameLength(ws, es);
    StartsEmpty(ws, es);
    if n > 0 {
      m := n - 1;
      CallStep(ws, es, m, c);
      if c in ws[m].calls && ws[m].calls[c] == ws[n].calls[c] {
        m := Arrived(ws, es, n - 1, c);
      }
    }
  }

  /** What was issued was issued by a statement of the run. */
  lemma {:induction false} WasIssued(ws: seq<World>, es: seq<Event>, n: nat, name: string) returns (m: nat)
    requires IsRun(ws, es) && n <= |es| && name in ws[n].issued
    ensures m < n && es[m].Step? && Executes(ws, es, m, es[m].call) && name !in ws[m].issued
    ensures var f := ws[m].calls[es[m].call];
            Has(Issues(ws[m].db, f.request, f.at, es[m].draw), name, ws[n].issued[name])
  {
    hide IsRun, WorldOk, Statement, TableOk, IsFresh, Issues, First, Fits;
    SameLength(ws, es);
    StartsEmpty(ws, es);
    if n > 0 {
      m := n - 1;
      RunStep(ws, es, m);
      if name in ws[m].issued {
        m := WasIssued(ws, es, n - 1, name);
      }
    }
  }

  lemma {:induction false} HistoryGrows(ws: seq<World>, es: seq<Event>, m: nat, n: nat)
    requires IsRun(ws, es) && m <= n <= |es|
    ensures Grows(ws[m].issued, ws[n].issued)
  {
    hide IsRun, WorldOk, Enabled, Next;
    SameLength(ws, es);
    if m < n {
      HistoryGrows(ws, es, m, n - 1);
      RunStep(ws, es, n - 1);
    }
  }

  // ---- the statement before ---------------------------------------------------------------------

  lemma BeforeVerifying(s: State, q: Request, p: Point, d: Draw, ok: bool, id: string)
    requires TableOk(s.rows) && Fits(q, p) && !p.Done? && Statement(s, q, p, d, ok).1 == Verifying(id)
    ensures || (q.ConfirmEmail? && p.SeekingToken? && ByVerifyToken(s.rows, q.token, s.now) == Some(id))
            || ((q.Register? || q.SendTest?) && p == Testing(id) && ok)
  {
    hide TableOk, ByEndpoint, ByVerifyToken, ByPendingToken, ByUnsubscribeToken, IsTaken, VerifyTaken, PendingTaken;
    hide HasEmptyList;
    hide Address, PatchOf;
  }

  lemma BeforeClearing(s: State, q: Request, p: Point, d: Draw, ok: bool, id: string)
    requires TableOk(s.rows) && Fits(q, p) && !p.Done? && Statement(s, q, p, d, ok).1 == Clearing(id)
    ensures q.ConfirmChange? && p.Patching? && p.id == id && !HasEmptyList(p.patch)
  {
    hide TableOk, ByEndpoint, ByVerifyToken, ByPendingToken, ByUnsubscribeToken, IsTaken, VerifyTaken, PendingTaken;
    hide HasEmptyList;
    hide Address, PatchOf;
  }

  /** What a call that patches a row saw at its select. */
  predicate SawForPatch(s: State, q: Request, p: Point, id: string, patch: FilterPatch)
    requires TableOk(s.rows)
  {
    && id in s.rows
    && match q
       case Subscribe(email, filters) =>
         && p.Refinding? && s.rows[id].channel == Email && s.rows[id].endpoint == Address(email)
         && !s.rows[id].verified && patch == PatchOf(filters)
       case ConfirmChange(token) =>
         && p.SeekingChange? && ByPendingToken(s.rows, token, s.now) == Some(id)
         && patch == PatchOf(s.rows[id].pendingFilters)
       case Register(url, filters, secret, _) =>
         && p.SeekingUrl? && s.rows[id].channel == Webhook && s.rows[id].endpoint == url
         && secret.Some? && secret == s.rows[id].secret && filters == Some(patch)
       case ManageFilters(token, asked) => p.SeekingManaged? && s.rows[id].unsubscribeToken == token && patch == asked
       case _ => false
  }

  lemma BeforePatching(s: State, q: Request, p: Point, d: Draw, ok: bool, id: string, patch: FilterPatch)
    requires TableOk(s.rows) && Fits(q, p) && !p.Done? && Statement(s, q, p, d, ok).1 == Patching(id, patch)
    ensures SawForPatch(s, q, p, id, patch)
  {
    hide TableOk, ByEndpoint, ByVerifyToken, ByPendingToken, ByUnsubscribeToken, IsTaken, VerifyTaken, PendingTaken;
    hide HasEmptyList;
    hide Address, PatchOf;
    RowsHaveTheirIds(s.rows);
  }

  lemma RowsHaveTheirIds(t: Table)
    requires TableOk(t)
    ensures forall i :: i in t ==> t[i].id == i
  {
  }

  lemma BeforeLosing(s: State, q: Request, p: Point, d: Draw, ok: bool)
    requires TableOk(s.rows) && Fits(q, p) && !p.Done?
    ensures var n := Statement(s, q, p, d, ok).1;
            && (n.LoserPatching? ==>
                  p.SeekingWinner? && q.Register? && ByEndpoint(s.rows, Webhook, q.url) == Some(n.id))
            && (n.SeekingWinner? ==> p.Registering?)
            && (n.Registering? ==> p.SeekingUrl? && q.Register? && ByEndpoint(s.rows, Webhook, q.url).None?)
  {
    hide TableOk, ByEndpoint, ByVerifyToken, ByPendingToken, ByUnsubscribeToken, IsTaken, VerifyTaken, PendingTaken;
    hide HasEmptyList;
    hide Address, PatchOf;
  }

  // ---- calls of a run are the source's calls ----------------------------------------------------

  /** What step `n` met: its draw and its luck, and the database as the other calls had left it. */
  function MetAt(ws: seq<World>, es: seq<Event>, n: nat): Env
    requires n < |es| < |ws| && es[n].Step?
  {
    var db := ws[n].db;
    Env(es[n].draw, es[n].ok, (s: State) => db)
  }

  function Prepended(env: nat -> Env, i: nat, e: Env): nat -> Env {
    (j: nat) => if j == i then e else env(j)
  }

  lemma PrependedKeepsKeys(env: nat -> Env, i: nat, ws: seq<World>, es: seq<Event>, n: nat)
    requires KeepsKeys(env) && n < |es| < |ws| && es[n].Step? && TableOk(ws[n].db.rows)
    ensures KeepsKeys(Prepended(env, i, MetAt(ws, es, n)))
  {
    hide TableOk;
  }

  lemma DrivesOneMore(ws: seq<World>, es: seq<Event>, n: nat, c: nat, env: nat -> Env, i: nat)
    requires Executes(ws, es, n, c) && WorldOk(ws[n]) && WorldOk(ws[n + 1]) && ws[n + 1] == Next(ws[n], es[n])
             && KeepsKeys(env)
    ensures var f, g, met := ws[n].calls[c], ws[n + 1].calls[c], Prepended(env, i, MetAt(ws, es, n));
            && KeepsKeys(met) && Fits(g.request, g.at)
            && Drive(ws[n].db, f.request, f.at, met, i) == Drive(ws[n + 1].db, g.request, g.at, env, i + 1)
            && Trail(ws[n].db, f.request, f.at, met, i)
               == [ws[n + 1].db] + Trail(ws[n + 1].db, g.request, g.at, env, i + 1)
  {
    hide WorldOk, Statement, TableOk, IsFresh, Issues, Drive, Trail, Fits, Rank, KeepsKeys;
    TableIsOkIn(ws[n]);
    TableIsOkIn(ws[n + 1]);
    PrependedKeepsKeys(env, i, ws, es, n);
    var met := Prepended(env, i, MetAt(ws, es, n));
    var f, g := ws[n].calls[c], ws[n + 1].calls[c];
    DriveOnce(ws[n].db, f.request, f.at, met, i);
    TrailOnce(ws[n].db, f.request, f.at, met, i);
    DriveAgrees(ws[n + 1].db, g.request, g.at, met, env, i + 1);
    TrailAgrees(ws[n + 1].db, g.request, g.at, met, env, i + 1);
  }

  /** Nothing comes between. */
  function Peace(): (env: nat -> Env)
    ensures KeepsKeys(env)
  {
    (i: nat) => Env(Draw("", "", "", "", ""), true, (s: State) => s)
  }

  /** A statement that meets what others left does not depend on what its call left. */
  lemma MeetsAnyway(s: State, t: State, q: Request, p: Point, env: nat -> Env, i: nat)
    requires TableOk(s.rows) && TableOk(t.rows) && Fits(q, p) && KeepsKeys(env) && !p.Done?
    requires env(i).before(s) == env(i).before(t)
    ensures Drive(s, q, p, env, i) == Drive(t, q, p, env, i) && Trail(s, q, p, env, i) == Trail(t, q, p, env, i)
  {
    hide Fits, TableOk, Statement, Drive, Trail, KeepsKeys, Rank;
    DriveOnce(s, q, p, env, i);
    DriveOnce(t, q, p, env, i);
    TrailOnce(s, q, p, env, i);
    TrailOnce(t, q, p, env, i);
  }

  lemma CallFits(w: World, c: nat)
    requires WorldOk(w) && c in w.calls
    ensures Fits(w.calls[c].request, w.calls[c].at)
  {
    hide WorldOk, Fits;
    PointIsOkIn(w, c);
  }

  lemma {:induction false} DoneStaysDone(ws: seq<World>, es: seq<Event>, n: nat, c: nat)
    requires IsRun(ws, es) && n <= |es| && c in ws[n].calls && ws[n].calls[c].at.Done?
    ensures c in ws[|es|].calls && ws[|es|].calls[c] == ws[n].calls[c]
    decreases |es| - n
  {
    hide IsRun, WorldOk, Statement, TableOk, IsFresh, Issues, Grows, Fits;
    SameLength(ws, es);
    if n < |es| {
      RunStep(ws, es, n);
      DoneStaysDone(ws, es, n + 1, c);
    }
  }

  /** The steps from `n` on that execute statements of call `c`. */
  function StepsOf(es: seq<Event>, c: nat, n: nat): (r: seq<nat>)
    requires n <= |es|
    ensures forall k :: n <= k < |es| && es[k].Step? && es[k].call == c ==> k in r
    ensures forall j :: 0 <= j < |r| ==> n <= r[j] < |es| && es[r[j]].Step? && es[r[j]].call == c
    decreases |es| - n
  {
    if n == |es| then []
    else if es[n].Step? && es[n].call == c then [n] + StepsOf(es, c, n + 1)
    else StepsOf(es, c, n + 1)
  }

  /** The statements of call `c` meet what `env` says, from `i` on, and leave what `trail` says. */
  ghost predicate MeetsAndLeaves(ws: seq<World>, es: seq<Event>, steps: seq<nat>, env: nat -> Env, i: nat,
                                 trail: seq<State>)
    requires forall j :: 0 <= j < |steps| ==> steps[j] < |es| < |ws| && es[steps[j]].Step?
  {
    && |trail| == |steps|
    && forall j :: 0 <= j < |steps| ==> env(i + j) == MetAt(ws, es, steps[j]) && trail[j] == ws[steps[j] + 1].db
  }

  /**
   * A call that ended, and was not given up, is the source's call: meeting what its statements met in the run,
   * that call leaves after each of them the table, letters and log the run has there, and answers the same.
   */
  lemma {:induction false} RunsAsDriven(ws: seq<World>, es: seq<Event>, n: nat, c: nat, i: nat)
    returns (env: nat -> Env)
    requires IsRun(ws, es) && n <= |es| && c in ws[n].calls
    requires c in ws[|es|].calls && ws[|es|].calls[c].at.Done?
    requires forall k :: n <= k < |es| ==> es[k] != Abandon(c)
    ensures TableOk(ws[n].db.rows) && Fits(ws[n].calls[c].request, ws[n].calls[c].at) && KeepsKeys(env)
    ensures Drive(ws[n].db, ws[n].calls[c].request, ws[n].calls[c].at, env, i).1 == ws[|es|].calls[c].at.reply
    ensures MeetsAndLeaves(ws, es, StepsOf(es, c, n), env, i,
                           Trail(ws[n].db, ws[n].calls[c].request, ws[n].calls[c].at, env, i))
    ensures !ws[n].calls[c].at.Done? ==> forall s, t :: env(i).before(s) == env(i).before(t)
    decreases |es| - n
  {
    hide IsRun, WorldOk, Statement, TableOk, IsFresh, Issues, Drive, Trail, Grows, KeepsKeys, Fits, MeetsAndLeaves;
    SameLength(ws, es);
    RunKeepsWorld(ws, es, n);
    TableIsOkIn(ws[n]);
    CallFits(ws[n], c);
    env := Peace();
    var f := ws[n].calls[c];
    if f.at.Done? {
      DoneStaysDone(ws, es, n, c);
      DriveEnds(ws[n].db, f.request, f.at, env, i);
      DoneLeavesNothing(ws, es, n, c, env, i);
    } else {
      RunStep(ws, es, n);
      assert es[n] != Abandon(c);
      if es[n].Step? && es[n].call == c {
        var rest := RunsAsDriven(ws, es, n + 1, c, i + 1);
        DrivesOneMore(ws, es, n, c, rest, i);
        env := Prepended(rest, i, MetAt(ws, es, n));
        var g := ws[n + 1].calls[c];
        MeetsOneMore(ws, es, n, c, rest, i, Trail(ws[n + 1].db, g.request, g.at, rest, i + 1));
      } else {
        assert ws[n + 1].calls[c] == f;
        env := RunsAsDriven(ws, es, n + 1, c, i);
        TableIsOkIn(ws[n + 1]);
        MeetsAnyway(ws[n].db, ws[n + 1].db, f.request, f.at, env, i);
      }
    }
  }

  lemma DoneLeavesNothing(ws: seq<World>, es: seq<Event>, n: nat, c: nat, env: nat -> Env, i: nat)
    requires IsRun(ws, es) && n <= |es| && c in ws[n].calls && ws[n].calls[c].at.Done? && TableOk(ws[n].db.rows)
    requires Fits(ws[n].calls[c].request, ws[n].calls[c].at) && KeepsKeys(env)
    ensures MeetsAndLeaves(ws, es, StepsOf(es, c, n), env, i,
                           Trail(ws[n].db, ws[n].calls[c].request, ws[n].calls[c].at, env, i))
  {
    NoStepsWhenDone(ws, es, n, c);
    hide IsRun, TableOk, KeepsKeys, Fits, Statement;
    SameLength(ws, es);
  }

  lemma {:induction false} NoStepsWhenDone(ws: seq<World>, es: seq<Event>, n: nat, c: nat)
    requires IsRun(ws, es) && n <= |es| && c in ws[n].calls && ws[n].calls[c].at.Done?
    ensures StepsOf(es, c, n) == []
    decreases |es| - n
  {
    hide IsRun, WorldOk, Statement, TableOk, IsFresh, Issues, Grows, Fits;
    SameLength(ws, es);
    if n < |es| {
      RunStep(ws, es, n);
      NoStepsWhenDone(ws, es, n + 1, c);
    }
  }

  lemma MeetsOneMore(ws: seq<World>, es: seq<Event>, n: nat, c: nat, env: nat -> Env, i: nat, trail: seq<State>)
    requires n < |es| && |ws| == |es| + 1 && es[n].Step? && es[n].call == c
    requires MeetsAndLeaves(ws, es, StepsOf(es, c, n + 1), env, i + 1, trail)
    ensures MeetsAndLeaves(ws, es, StepsOf(es, c, n), Prepended(env, i, MetAt(ws, es, n)), i, [ws[n + 1].db] + trail)
  {
    var steps, rest := StepsOf(es, c, n), StepsOf(es, c, n + 1);
    assert steps == [n] + rest;
    hide StepsOf, MetAt;
    var met, left := Prepended(env, i, MetAt(ws, es, n)), [ws[n + 1].db] + trail;
    forall j | 0 <= j < |steps|
      ensures met(i + j) == MetAt(ws, es, steps[j]) && left[j] == ws[steps[j] + 1].db
    {
      if j > 0 {
        assert steps[j] == rest[j - 1] && env(i + 1 + (j - 1)) == MetAt(ws, es, rest[j - 1]);
        assert i + 1 + (j - 1) == i + j;
      }
    }
  }

  // ---- the two kinds of link --------------------------------------------------------------------

  datatype LinkKind = Confirmation | Change

  function TokenOf(link: LinkKind, r: Subscription): Option<string> {
    if link.Confirmation? then r.verifyToken else r.pendingToken
  }

  function IssuedAt(link: LinkKind, r: Subscription): Option<int> {
    if link.Confirmation? then r.verifyIssuedAt else r.pendingIssuedAt
  }

  /** The call that presents a link's token. */
  function Redeem(link: LinkKind, token: string): Request {
    if link.Confirmation? then ConfirmEmail(token) else ConfirmChange(token)
  }

  /** Its select. */
  function Seeking(link: LinkKind): Point {
    if link.Confirmation? then SeekingToken else SeekingChange
  }

  /** Its last write, the one that removes the token from row `id`. */
  function Spending(link: LinkKind, id: string): Point {
    if link.Confirmation? then Verifying(id) else Clearing(id)
  }

  /** The statements of all calls that take a stored token away from row `id`. */
  predicate Takes(link: LinkKind, p: Point, id: string) {
    && Subject(p) == Some(id)
    && (p.Deleting? || (if link.Confirmation? then p.Verifying? || p.Reissuing? else p.Clearing? || p.Proposing?))
  }

  predicate Holds(link: LinkKind, t: Table, id: string, token: string) {
    id in t && TokenOf(link, t[id]) == Some(token)
  }

  /** Step `k` is a write, of any call, that takes row `id`'s token away. */
  predicate TakenAt(link: LinkKind, ws: seq<World>, es: seq<Event>, k: nat, id: string) {
    k < |es| < |ws| && es[k].Step? && es[k].call in ws[k].calls && Takes(link, ws[k].calls[es[k].call].at, id)
  }

  /** What the select of a redeeming call finds. */
  function Found(link: LinkKind, s: State, token: string): Option<string>
    requires TableOk(s.rows)
  {
    if link.Confirmation? then ByVerifyToken(s.rows, token, s.now) else ByPendingToken(s.rows, token, s.now)
  }

  /** A token was issued as a token of that kind for row `id`. */
  predicate IsTokenOf(link: LinkKind, issued: map<string, Issue>, token: string, id: string) {
    if link.Confirmation? then IsConfirmOf(issued, token, id) else IsChangeOf(issued, token, id)
  }

  lemma HeldIsIssued(link: LinkKind, w: World, id: string, token: string)
    requires WorldOk(w) && Holds(link, w.db.rows, id, token)
    ensures IsTokenOf(link, w.issued, token, id)
  {
    RowIsOkIn(w, id);
    hide WorldOk;
  }

  lemma TokenStaysIssued(link: LinkKind, a: map<string, Issue>, b: map<string, Issue>, token: string, id: string)
    requires Grows(a, b) && IsTokenOf(link, a, token, id)
    ensures IsTokenOf(link, b, token, id)
  {
  }

  /** A fresh token is held nowhere. */
  lemma FreshIsNotHeld(w: World, id: string, d: Draw)
    requires WorldOk(w) && IsFresh(d, w.issued)
    ensures !HeldElsewhere(w.db.rows, id, d.freshToken)
  {
    if HeldElsewhere(w.db.rows, id, d.freshToken) {
      var i :| i in w.db.rows && i != id && (w.db.rows[i].verifyToken == Some(d.freshToken)
                                             || w.db.rows[i].pendingToken == Some(d.freshToken));
      RowIsOkIn(w, i);
      assert false;
    }
  }

  /** The token of a row after a statement: kept, or taken away, or replaced by a fresh one. */
  lemma TokenAfter(link: LinkKind, s: State, q: Request, p: Point, d: Draw, i: string, o: Subscription)
    requires Fits(q, p) && Subject(p) == Some(i) && !p.Deleting? && !HeldElsewhere(s.rows, i, d.freshToken)
    ensures var n := Updated(s, q, p, d, o);
            && (!Takes(link, p, i) ==> TokenOf(link, n) == TokenOf(link, o) && IssuedAt(link, n) == IssuedAt(link, o))
            && (Takes(link, p, i) ==> TokenOf(link, n) == None || TokenOf(link, n) == Some(d.freshToken))
  {
    hide Patched, HasEmptyList, VerifyTaken, PendingTaken, Address, PatchOf;
  }

  lemma StepTakes(link: LinkKind, w: World, e: Event, id: string, token: string)
    requires WorldOk(w) && Enabled(w, e) && Holds(link, w.db.rows, id, token)
    ensures var n := EventRow(w, e, id);
            (n.Some? && TokenOf(link, n.value) == Some(token)
            <==> !(e.Step? && Takes(link, w.calls[e.call].at, id)))
    ensures var n := EventRow(w, e, id);
            n.Some? && TokenOf(link, n.value) == Some(token) ==>
              IssuedAt(link, n.value) == IssuedAt(link, w.db.rows[id])
  {
    hide WorldOk, TableOk, VerifyTaken, PendingTaken, Updated, AfterInsert, TokenOf, IssuedAt;
    HeldIsIssued(link, w, id, token);
    if e.Step? {
      var f := w.calls[e.call];
      FreshIsNotHeld(w, id, e.draw);
      RowIsNotFresh(w, id, e.draw);
      if Subject(f.at) != Some(id) {
        InsertedElsewhere(w.db, f.request, f.at, e.draw, id);
      } else if !f.at.Deleting? {
        TokenAfter(link, w.db, f.request, f.at, e.draw, id, w.db.rows[id]);
      }
    }
  }

  lemma RowIsNotFresh(w: World, id: string, d: Draw)
    requires WorldOk(w) && IsFresh(d, w.issued) && id in w.db.rows
    ensures id != d.id
  {
    RowIsOkIn(w, id);
  }

  lemma InsertedElsewhere(s: State, q: Request, p: Point, d: Draw, id: string)
    requires Fits(q, p) && id != d.id && Subject(p) != Some(id)
    ensures RowAfter(s, q, p, d, id) == RowAt(s.rows, id)
  {
    hide Updated, NewSubscription;
  }

  /** A stored token is gone after a step exactly when the step is a write that takes it. */
  lemma RunTakes(link: LinkKind, ws: seq<World>, es: seq<Event>, n: nat, id: string, token: string)
    requires IsRun(ws, es) && n < |es| && Holds(link, ws[n].db.rows, id, token)
    ensures Holds(link, ws[n + 1].db.rows, id, token) <==> !TakenAt(link, ws, es, n, id)
    ensures Holds(link, ws[n + 1].db.rows, id, token) ==>
              IssuedAt(link, ws[n + 1].db.rows[id]) == IssuedAt(link, ws[n].db.rows[id])
  {
    RunRow(ws, es, n, id);
    hide IsRun, WorldOk, EventRow, TokenOf, IssuedAt, Takes;
    StepTakes(link, ws[n], es[n], id, token);
  }

  lemma StepRevivesNothing(link: LinkKind, w: World, e: Event, id: string, token: string)
    requires WorldOk(w) && Enabled(w, e) && IsTokenOf(link, w.issued, token, id) && !Holds(link, w.db.rows, id, token)
    ensures var n := EventRow(w, e, id); n.Some? ==> TokenOf(link, n.value) != Some(token)
  {
    if e.Step? {
      var f := w.calls[e.call];
      FreshIsNotHeld(w, id, e.draw);
      assert token != e.draw.freshToken && token != e.draw.verifyToken;
      hide WorldOk, TableOk, VerifyTaken, PendingTaken, Updated, IssuedAt;
      if id in w.db.rows {
        RowIsNotFresh(w, id, e.draw);
        if Subject(f.at) != Some(id) {
          InsertedElsewhere(w.db, f.request, f.at, e.draw, id);
        } else if !f.at.Deleting? {
          TokenAfter(link, w.db, f.request, f.at, e.draw, id, w.db.rows[id]);
        }
      } else {
        NewRowHolds(link, w.db, f.request, f.at, e.draw, id);
      }
    }
  }

  lemma NewRowHolds(link: LinkKind, s: State, q: Request, p: Point, d: Draw, id: string)
    requires Fits(q, p) && id !in s.rows
    ensures var n := RowAfter(s, q, p, d, id);
            n.Some? ==> TokenOf(link, n.value) == None || TokenOf(link, n.value) == Some(d.verifyToken)
  {
    hide IsTaken, HasEmptyList, Address, PatchOf, Patched, Updated;
  }

  lemma RunRevivesNothing(link: LinkKind, ws: seq<World>, es: seq<Event>, n: nat, id: string, token: string)
    requires IsRun(ws, es) && n < |es| && IsTokenOf(link, ws[n].issued, token, id)
             && !Holds(link, ws[n].db.rows, id, token)
    ensures !Holds(link, ws[n + 1].db.rows, id, token)
  {
    RunRow(ws, es, n, id);
    hide IsRun, WorldOk, EventRow, TokenOf;
    StepRevivesNothing(link, ws[n], es[n], id, token);
  }

  /** A token its row no longer holds never comes back. */
  lemma {:induction false} SpentStaysSpent(link: LinkKind, ws: seq<World>, es: seq<Event>, m: nat, n: nat, id: string,
                                           token: string)
    requires IsRun(ws, es) && m <= n <= |es|
    requires IsTokenOf(link, ws[m].issued, token, id) && !Holds(link, ws[m].db.rows, id, token)
    ensures IsTokenOf(link, ws[n].issued, token, id) && !Holds(link, ws[n].db.rows, id, token)
  {
    hide IsRun, Holds, IsTokenOf, Grows;
    SameLength(ws, es);
    HistoryGrows(ws, es, m, n);
    TokenStaysIssued(link, ws[m].issued, ws[n].issued, token, id);
    if m < n {
      SpentStaysSpent(link, ws, es, m, n - 1, id, token);
      RunRevivesNothing(link, ws, es, n - 1, id, token);
    }
  }

  /**
   * A stored token is still stored later, with the time it was issued, exactly when no write that takes
   * tokens of its kind away from its row came in between.
   */
  lemma {:induction false} HeldUntilTaken(link: LinkKind, ws: seq<World>, es: seq<Event>, m: nat, n: nat, id: string,
                                          token: string)
    requires IsRun(ws, es) && m <= n <= |es| && Holds(link, ws[m].db.rows, id, token)
    ensures Holds(link, ws[n].db.rows, id, token) <==> forall k :: m <= k < n ==> !TakenAt(link, ws, es, k, id)
    ensures Holds(link, ws[n].db.rows, id, token) ==>
              IssuedAt(link, ws[n].db.rows[id]) == IssuedAt(link, ws[m].db.rows[id])
  {
    hide IsRun, TakenAt, IssuedAt, TokenOf, IsTokenOf;
    SameLength(ws, es);
    if m < n {
      HeldUntilTaken(link, ws, es, m, n - 1, id, token);
      if Holds(link, ws[n - 1].db.rows, id, token) {
        RunTakes(link, ws, es, n - 1, id, token);
      } else {
        StillIssued(link, ws, es, m, n - 1, id, token);
        hide Holds;
        RunRevivesNothing(link, ws, es, n - 1, id, token);
      }
    }
  }

  lemma StillIssued(link: LinkKind, ws: seq<World>, es: seq<Event>, m: nat, n: nat, id: string, token: string)
    requires IsRun(ws, es) && m <= n <= |es| && Holds(link, ws[m].db.rows, id, token)
    ensures IsTokenOf(link, ws[m].issued, token, id) && IsTokenOf(link, ws[n].issued, token, id)
  {
    hide IsRun, WorldOk, IsTokenOf, Grows;
    SameLength(ws, es);
    RunKeepsWorld(ws, es, m);
    HistoryGrows(ws, es, m, n);
    HeldIsIssued(link, ws[m], id, token);
    TokenStaysIssued(link, ws[m].issued, ws[n].issued, token, id);
  }

  // ---- links work once, unless their calls overlap ----------------------------------------------

  /** Where a redeeming call's select leads. */
  lemma SeekingLeads(link: LinkKind, s: State, token: string, d: Draw, ok: bool)
    requires TableOk(s.rows)
    ensures var (r, p) := Statement(s, Redeem(link, token), Seeking(link), d, ok);
            && r == s
            && match Found(link, s, token)
               case None => p == Done(Answer(false))
               case Some(id) => !p.Done? && p == if link.Confirmation? then Verifying(id)
                                                 else Patching(id, PatchOf(s.rows[id].pendingFilters))
  {
    hide TableOk, PatchOf;
  }

  /** The select finds the row whose token it is, while the row holds it and it is less than 72 hours old. */
  lemma FindsItsRow(link: LinkKind, w: World, id: string, token: string)
    requires WorldOk(w) && IsTokenOf(link, w.issued, token, id)
    ensures Found(link, w.db, token) ==
            if Holds(link, w.db.rows, id, token) && IsLive(IssuedAt(link, w.db.rows[id]), w.db.now) then Some(id)
            else None
  {
    var found := Found(link, w.db, token);
    if found.Some? {
      HeldIsIssued(link, w, found.value, token);
    }
    hide WorldOk, IsLive;
  }

  lemma FoundIsHeld(link: LinkKind, w: World, token: string)
    requires WorldOk(w) && Found(link, w.db, token).Some?
    ensures var id := Found(link, w.db, token).value;
            && Holds(link, w.db.rows, id, token) && IsLive(IssuedAt(link, w.db.rows[id]), w.db.now)
            && IsTokenOf(link, w.issued, token, id)
  {
    var id := Found(link, w.db, token).value;
    hide WorldOk, TableOk;
    TableIsOkIn(w);
    HeldIsIssued(link, w, id, token);
  }

  /** Step `n` is the select of call `c`, which presents `token`, and it finds row `id`. */
  predicate Selects(link: LinkKind, ws: seq<World>, es: seq<Event>, n: nat, c: nat, token: string, id: string) {
    ExecutesAt(ws, es, n, c, Redeem(link, token), Seeking(link)) && Found(link, ws[n].db, token) == Some(id)
  }

  /** Step `n` is the write with which call `c` spends `token` of row `id`. */
  predicate SpendsAt(link: LinkKind, ws: seq<World>, es: seq<Event>, n: nat, c: nat, token: string, id: string) {
    ExecutesAt(ws, es, n, c, Redeem(link, token), Spending(link, id))
  }

  /** The select of call `c` comes up empty: it answers false and changes nothing. */
  predicate Refuses(ws: seq<World>, n: nat, c: nat)
    requires n + 1 < |ws|
  {
    c in ws[n + 1].calls && ws[n + 1].calls[c].at == Done(Answer(false)) && ws[n + 1].db == ws[n].db
  }

  lemma SelectAnswers(link: LinkKind, ws: seq<World>, es: seq<Event>, n: nat, c: nat, token: string)
    requires IsRun(ws, es) && ExecutesAt(ws, es, n, c, Redeem(link, token), Seeking(link))
    ensures WorldOk(ws[n]) && TableOk(ws[n].db.rows)
    ensures Refuses(ws, n, c) <==> Found(link, ws[n].db, token).None?
  {
    RunStep(ws, es, n);
    TableIsOkIn(ws[n]);
    hide IsRun, WorldOk, TableOk, Statement, Found, Issues, IsFresh, Fits, Redeem, Seeking;
    SeekingLeads(link, ws[n].db, token, es[n].draw, es[n].ok);
  }

  /**
   * Exactly when a link works again: presented a second time, it is found a second time if and only if it
   * has not expired and no call's write took it away since the first select. Two calls that both select
   * before either writes both succeed.
   */
  lemma WorksAgainExactlyUntilTaken(link: LinkKind, ws: seq<World>, es: seq<Event>, m: nat, n: nat, a: nat, b: nat,
                                    token: string, id: string)
    requires IsRun(ws, es) && m < n && Selects(link, ws, es, m, a, token, id)
    requires ExecutesAt(ws, es, n, b, Redeem(link, token), Seeking(link))
    ensures Refuses(ws, n, b) <==>
            || !IsLive(IssuedAt(link, ws[m].db.rows[id]), ws[n].db.now)
            || exists k :: m <= k < n && TakenAt(link, ws, es, k, id)
    ensures !Refuses(ws, n, b) ==> Selects(link, ws, es, n, b, token, id)
  {
    SelectAnswers(link, ws, es, m, a, token);
    SelectAnswers(link, ws, es, n, b, token);
    hide IsRun, WorldOk, TableOk, Found, TakenAt, Refuses, IsLive, IssuedAt, IsTokenOf, Redeem, Seeking;
    FoundIsHeld(link, ws[m], token);
    HeldUntilTaken(link, ws, es, m, n, id, token);
    StillIssued(link, ws, es, m, n, id, token);
    FindsItsRow(link, ws[n], id, token);
  }

  /** After the write that spends it, a token's row does not hold it. */
  lemma SpendingTakes(link: LinkKind, ws: seq<World>, es: seq<Event>, n: nat, c: nat, token: string, id: string)
    requires IsRun(ws, es) && SpendsAt(link, ws, es, n, c, token, id)
    ensures TakenAt(link, ws, es, n, id)
    ensures IsTokenOf(link, ws[n + 1].issued, token, id) && !Holds(link, ws[n + 1].db.rows, id, token)
  {
    hide IsRun, WorldOk, TableOk, Statement, Issues, IsFresh, Fits, Next, Grows;
    RunStep(ws, es, n);
    PointIsOkIn(ws[n], c);
    assert IsTokenOf(link, ws[n].issued, token, id);
    TokenStaysIssued(link, ws[n].issued, ws[n + 1].issued, token, id);
    hide IsTokenOf, PointOk;
    if Holds(link, ws[n].db.rows, id, token) {
      RunTakes(link, ws, es, n, id, token);
    } else {
      RunRevivesNothing(link, ws, es, n, id, token);
    }
  }

  /** Once a call has spent a link, every call whose select comes later is refused. */
  lemma LinkWorksOnce(link: LinkKind, ws: seq<World>, es: seq<Event>, m: nat, n: nat, a: nat, b: nat, token: string,
                      id: string)
    requires IsRun(ws, es) && m < n && SpendsAt(link, ws, es, m, a, token, id)
    requires ExecutesAt(ws, es, n, b, Redeem(link, token), Seeking(link))
    ensures Refuses(ws, n, b)
  {
    hide IsRun, WorldOk, TableOk, Found, TakenAt, Refuses, IsLive, IssuedAt, IsTokenOf, Redeem, Seeking, Spending;
    hide Holds;
    SameLength(ws, es);
    SpendingTakes(link, ws, es, m, a, token, id);
    SelectAnswers(link, ws, es, n, b, token);
    SpentStaysSpent(link, ws, es, m + 1, n, id, token);
    FindsItsRow(link, ws[n], id, token);
  }

  /** A call that spends a link found it at its select. */
  lemma SelectedBefore(link: LinkKind, ws: seq<World>, es: seq<Event>, n: nat, c: nat, token: string, id: string)
    returns (m: nat)
    requires IsRun(ws, es) && SpendsAt(link, ws, es, n, c, token, id)
    ensures m < n && Selects(link, ws, es, m, c, token, id)
  {
    hide IsRun, ByVerifyToken, ByPendingToken, TableOk, IsFresh, Statement, HasEmptyList, PatchOf, Address;
    SameLength(ws, es);
    m := Arrived(ws, es, n, c);
    var w, f := ws[m], ws[m].calls[c];
    if link.Confirmation? {
      BeforeVerifying(w.db, f.request, f.at, es[m].draw, es[m].ok, id);
    } else {
      BeforeClearing(w.db, f.request, f.at, es[m].draw, es[m].ok, id);
      m := PatchSelected(ws, es, m, c);
    }
  }

  /** A call that patches a row saw it at its select. */
  lemma PatchSelected(ws: seq<World>, es: seq<Event>, n: nat, c: nat) returns (m: nat)
    requires IsRun(ws, es) && Executes(ws, es, n, c) && ws[n].calls[c].at.Patching?
    ensures m < n && Executes(ws, es, m, c) && ws[m].calls[c].request == ws[n].calls[c].request
    ensures var f := ws[n].calls[c]; SawForPatch(ws[m].db, f.request, ws[m].calls[c].at, f.at.id, f.at.patch)
    ensures forall k :: m < k <= n ==> c in ws[k].calls && ws[k].calls[c] == ws[n].calls[c]
  {
    hide IsRun, Found, TableOk, IsFresh, Statement, HasEmptyList, PatchOf, Address, SawForPatch;
    SameLength(ws, es);
    m := Arrived(ws, es, n, c);
    var f := ws[m].calls[c];
    BeforePatching(ws[m].db, f.request, f.at, es[m].draw, es[m].ok, ws[n].calls[c].at.id, ws[n].calls[c].at.patch);
  }

  /** Step `k` is a write of a call other than `c` that takes row `id`'s token away. */
  predicate TakenByOther(link: LinkKind, ws: seq<World>, es: seq<Event>, k: nat, id: string, c: nat) {
    TakenAt(link, ws, es, k, id) && es[k].call != c
  }

  /**
   * Exactly when a call spends the link it found: its write meets the token if and only if no other call's
   * write took it away in between.
   */
  lemma SpendsExactlyWhenUndisturbed(link: LinkKind, ws: seq<World>, es: seq<Event>, n: nat, c: nat, token: string,
                                     id: string)
    returns (m: nat)
    requires IsRun(ws, es) && SpendsAt(link, ws, es, n, c, token, id)
    ensures m < n && Selects(link, ws, es, m, c, token, id)
    ensures Holds(link, ws[n].db.rows, id, token) <==> forall k :: m <= k < n ==> !TakenByOther(link, ws, es, k, id, c)
  {
    hide IsRun, WorldOk, TableOk, Found, Holds, IsLive, IssuedAt, IsTokenOf;
    SameLength(ws, es);
    m := SelectedBefore(link, ws, es, n, c, token, id);
    SelectAnswers(link, ws, es, m, c, token);
    FoundIsHeld(link, ws[m], token);
    HeldUntilTaken(link, ws, es, m, n, id, token);
    forall k | m <= k < n && TakenAt(link, ws, es, k, id) ensures TakenByOther(link, ws, es, k, id, c) {
      OwnStepsTakeNothing(link, ws, es, k, n, c, token, id);
    }
  }

  lemma RankFallsOnce(ws: seq<World>, es: seq<Event>, n: nat, c: nat)
    requires IsRun(ws, es) && n < |es| && c in ws[n].calls
    ensures c in ws[n + 1].calls && ws[n + 1].calls[c].request == ws[n].calls[c].request
    ensures Rank(ws[n + 1].calls[c].at) <= Rank(ws[n].calls[c].at)
    ensures Executes(ws, es, n, c) ==> Rank(ws[n + 1].calls[c].at) < Rank(ws[n].calls[c].at)
  {
    hide IsRun, WorldOk, TableOk, Statement, Issues, IsFresh, Fits, Grows;
    SameLength(ws, es);
    RunStep(ws, es, n);
    var e, f := es[n], ws[n].calls[c];
    if e.Step? && e.call == c {
      StatementAdvances(ws[n].db, f.request, f.at, e.draw, e.ok);
    }
  }

  /** Every call only moves forward. */
  lemma {:induction false} RankFalls(ws: seq<World>, es: seq<Event>, m: nat, n: nat, c: nat)
    requires IsRun(ws, es) && m <= n <= |es| && c in ws[m].calls
    ensures c in ws[n].calls && ws[n].calls[c].request == ws[m].calls[c].request
    ensures Rank(ws[n].calls[c].at) <= Rank(ws[m].calls[c].at)
    ensures m < n && Executes(ws, es, m, c) ==> Rank(ws[n].calls[c].at) < Rank(ws[m].calls[c].at)
  {
    hide IsRun, Executes, Rank;
    SameLength(ws, es);
    if m < n {
      RankFalls(ws, es, m, n - 1, c);
      RankFallsOnce(ws, es, n - 1, c);
    }
  }

  /** Before its spending write a redeeming call takes no token away. */
  lemma OwnStepsTakeNothing(link: LinkKind, ws: seq<World>, es: seq<Event>, k: nat, n: nat, c: nat, token: string,
                            id: string)
    requires IsRun(ws, es) && k < n && TakenAt(link, ws, es, k, id) && SpendsAt(link, ws, es, n, c, token, id)
    ensures es[k].call != c
  {
    hide IsRun, TableOk, IsFresh, WorldOk;
    SameLength(ws, es);
    RunStep(ws, es, k);
    if es[k].call == c {
      RankFalls(ws, es, k, n, c);
      assert false;
    }
  }

  /**
   * Two calls that both spend one link overlap: the first spending write falls between the select and the
   * spending write of the second. Calls no other call's write comes between never share a link.
   */
  lemma SharedLinksOverlap(link: LinkKind, ws: seq<World>, es: seq<Event>, m: nat, n: nat, a: nat, b: nat,
                           token: string, id: string)
    returns (k: nat)
    requires IsRun(ws, es) && m < n
    requires SpendsAt(link, ws, es, m, a, token, id) && SpendsAt(link, ws, es, n, b, token, id)
    ensures k < m && Selects(link, ws, es, k, b, token, id)
    ensures TakenByOther(link, ws, es, m, id, b) && !Holds(link, ws[n].db.rows, id, token)
  {
    hide IsRun, WorldOk, TableOk, Found, Holds, IsLive, IssuedAt, IsTokenOf, Redeem, Seeking, Refuses, CanStep;
    SameLength(ws, es);
    k := SpendsExactlyWhenUndisturbed(link, ws, es, n, b, token, id);
    SpendingTakes(link, ws, es, m, a, token, id);
    OwnStepsTakeNothing(link, ws, es, m, n, b, token, id);
    SpentStaysSpent(link, ws, es, m + 1, n, id, token);
    if m < k {
      LinkWorksOnce(link, ws, es, m, k, a, b, token, id);
      SelectAnswers(link, ws, es, k, b, token);
      assert false;
    }
    assert k != m;
  }

  // ---- where tokens come from -------------------------------------------------------------------

  /** Step `n` draws this name or token and hands it out. */
  predicate HandsOut(ws: seq<World>, es: seq<Event>, n: nat, name: string, what: Issue) {
    && n < |es| < |ws| && es[n].Step? && Executes(ws, es, n, es[n].call)
    && Has(Issues(ws[n].db, ws[n].calls[es[n].call].request, ws[n].calls[es[n].call].at, es[n].draw), name, what)
  }

  /** The request whose call executes step `n`. */
  function AskedAt(ws: seq<World>, es: seq<Event>, n: nat): Request
    requires n < |es| < |ws| && es[n].Step? && Executes(ws, es, n, es[n].call)
  {
    ws[n].calls[es[n].call].request
  }

  /** A statement issues tokens at its own time; those of an email row for the address it was asked for. */
  lemma IssuesForItsAddress(issued: map<string, Issue>, s: State, q: Request, p: Point, d: Draw, token: string,
                            id: string)
    requires PointOk(issued, q, p) && IsFresh(d, issued)
    requires var out := Issues(s, q, p, d); IsConfirmOf(out, token, id) || IsChangeOf(out, token, id)
    ensures Issues(s, q, p, d)[token].at == s.now && id in issued + Issues(s, q, p, d)
    ensures forall to :: Has(issued + Issues(s, q, p, d), id, RowName(Email, to)) ==>
              q.Subscribe? && Address(q.email) == to
  {
    hide Address, PatchOf, IsTaken, HasEmptyList, Patched, LetterOk;
  }

  lemma NameIsKnown(a: map<string, Issue>, b: map<string, Issue>, id: string)
    requires Grows(a, b) && id in a
    ensures forall what :: Has(a, id, what) <==> Has(b, id, what)
  {
  }

  /** Every token was drawn in the run, an email row's by a subscribe call with the row's address. */
  lemma TokenWasIssued(link: LinkKind, ws: seq<World>, es: seq<Event>, n: nat, token: string, id: string)
    returns (p: nat)
    requires IsRun(ws, es) && n <= |es| && IsTokenOf(link, ws[n].issued, token, id)
    ensures p < n && HandsOut(ws, es, p, token, ws[n].issued[token]) && ws[n].issued[token].at == ws[p].db.now
    ensures forall to :: Has(ws[n].issued, id, RowName(Email, to)) ==>
              AskedAt(ws, es, p).Subscribe? && Address(AskedAt(ws, es, p).email) == to
  {
    hide IsRun, WorldOk, TableOk, Statement, Issues, IsFresh, Fits, Grows, PointOk, Address;
    SameLength(ws, es);
    p := WasIssued(ws, es, n, token);
    RunStep(ws, es, p);
    PointIsOkIn(ws[p], es[p].call);
    IssuesForItsAddress(ws[p].issued, ws[p].db, AskedAt(ws, es, p), ws[p].calls[es[p].call].at, es[p].draw, token, id);
    HistoryGrows(ws, es, p + 1, n);
    NameIsKnown(ws[p + 1].issued, ws[n].issued, id);
  }

  // ---- verification -----------------------------------------------------------------------------

  /** Step `n` turns row `id` from unverified to verified. */
  predicate Verifies(ws: seq<World>, n: nat, id: string) {
    && n + 1 < |ws|
    && id in ws[n].db.rows && !ws[n].db.rows[id].verified && id in ws[n + 1].db.rows && ws[n + 1].db.rows[id].verified
  }

  /** Step `n` is the update that marks row `id` verified. */
  predicate MarksVerified(ws: seq<World>, es: seq<Event>, n: nat, id: string) {
    && n < |es| < |ws| && es[n].Step? && Executes(ws, es, n, es[n].call)
    && ws[n].calls[es[n].call].at == Verifying(id)
  }

  lemma VerifiedAfter(w: World, e: Event, id: string)
    requires Enabled(w, e) && id in w.db.rows && (e.Step? ==> id != e.draw.id)
    ensures var n := EventRow(w, e, id);
            n.Some? ==>
              (n.value.verified <==> w.db.rows[id].verified || (e.Step? && w.calls[e.call].at == Verifying(id)))
    ensures e.Step? && w.calls[e.call].at == Verifying(id) ==> EventRow(w, e, id).Some?
  {
    hide TableOk, IsFresh, HasEmptyList, Patched, VerifyTaken, PendingTaken, IsTaken, NewSubscription, Address, PatchOf;
  }

  lemma DrawIsNew(w: World, e: Event, id: string)
    requires WorldOk(w) && Enabled(w, e) && id in w.db.rows
    ensures e.Step? ==> id != e.draw.id
  {
    if e.Step? {
      RowIsNotFresh(w, id, e.draw);
    }
  }

  /** An unverified row becomes verified exactly by that update. */
  lemma VerifiesExactlyByTheUpdate(ws: seq<World>, es: seq<Event>, n: nat, id: string)
    requires IsRun(ws, es) && n < |es| && id in ws[n].db.rows && !ws[n].db.rows[id].verified
    ensures Verifies(ws, n, id) <==> MarksVerified(ws, es, n, id)
  {
    hide IsRun, WorldOk, EventRow, TableOk, IsFresh, Fits;
    SameLength(ws, es);
    RunRow(ws, es, n, id);
    DrawIsNew(ws[n], es[n], id);
    VerifiedAfter(ws[n], es[n], id);
  }

  lemma VerifierPresents(ws: seq<World>, es: seq<Event>, n: nat, id: string) returns (token: string)
    requires IsRun(ws, es) && MarksVerified(ws, es, n, id) && id in ws[n].db.rows && ws[n].db.rows[id].channel == Email
    ensures SpendsAt(Confirmation, ws, es, n, es[n].call, token, id)
  {
    hide IsRun, WorldOk, TableOk, IsFresh;
    SameLength(ws, es);
    RunKeepsWorld(ws, es, n);
    RowIsOkIn(ws[n], id);
    PointIsOkIn(ws[n], es[n].call);
    token := if ws[n].calls[es[n].call].request.ConfirmEmail? then ws[n].calls[es[n].call].request.token else "";
  }

  /** A selected token was drawn less than 72 hours before the select, by a call with the row's address. */
  lemma SelectedWasDrawn(link: LinkKind, ws: seq<World>, es: seq<Event>, m: nat, c: nat, token: string, id: string)
    returns (p: nat)
    requires IsRun(ws, es) && Selects(link, ws, es, m, c, token, id)
    ensures p < m && IsTokenOf(link, ws[m].issued, token, id) && HandsOut(ws, es, p, token, ws[m].issued[token])
    ensures ws[m].issued[token].at == ws[p].db.now && ws[m].db.now - ws[p].db.now < TTL
    ensures Holds(link, ws[m].db.rows, id, token)
    ensures forall to :: Has(ws[m].issued, id, RowName(Email, to)) ==>
              AskedAt(ws, es, p).Subscribe? && Address(AskedAt(ws, es, p).email) == to
  {
    hide IsRun, WorldOk, TableOk, IsFresh, Fits, Found, HandsOut, Grows, Address, CanStep;
    SameLength(ws, es);
    SelectAnswers(link, ws, es, m, c, token);
    FoundIsHeld(link, ws[m], token);
    p := TokenWasIssued(link, ws, es, m, token, id);
    RowIsOkIn(ws[m], id);
  }

  /** The names and tokens of a row mean the same at all times. */
  lemma IssuesStay(ws: seq<World>, es: seq<Event>, m: nat, n: nat, name: string)
    requires IsRun(ws, es) && m <= n <= |es| && name in ws[m].issued
    ensures Has(ws[n].issued, name, ws[m].issued[name])
  {
    HistoryGrows(ws, es, m, n);
  }

  /** A letter with a confirmation token of an email row has the row's address on it. */
  lemma LettersOfARow(ws: seq<World>, es: seq<Event>, n: nat, id: string, to: string, token: string, l: Letter)
    requires IsRun(ws, es) && n <= |es| && l in ws[|es|].db.letters && l.ConfirmLink? && l.token == token
    requires Has(ws[n].issued, id, RowName(Email, to)) && IsConfirmOf(ws[n].issued, token, id)
    ensures l.to == to
  {
    hide IsRun, WorldOk;
    SameLength(ws, es);
    RunKeepsWorld(ws, es, |es|);
    LetterIsOkIn(ws[|es|], l);
    IssuesStay(ws, es, n, |es|, token);
    IssuesStay(ws, es, n, |es|, id);
  }

  /**
   * An email row becomes verified only by a call that presents the row's own confirmation token and found
   * it stored less than 72 hours after a subscribe call with the row's address drew it; and every letter
   * that ever carried it went to that address.
   */
  lemma EmailVerifiedOnlyByOwnToken(ws: seq<World>, es: seq<Event>, n: nat, id: string)
    returns (token: string, m: nat, p: nat)
    requires IsRun(ws, es) && n < |es| && Verifies(ws, n, id) && ws[n].db.rows[id].channel == Email
    ensures es[n].Step? && SpendsAt(Confirmation, ws, es, n, es[n].call, token, id)
    ensures p < m < n && Selects(Confirmation, ws, es, m, es[n].call, token, id)
    ensures HandsOut(ws, es, p, token, ConfirmToken(id, ws[p].db.now)) && ws[m].db.now - ws[p].db.now < TTL
    ensures AskedAt(ws, es, p).Subscribe? && Address(AskedAt(ws, es, p).email) == ws[n].db.rows[id].endpoint
    ensures forall l :: l in ws[|es|].db.letters && l.ConfirmLink? && l.token == token ==>
              l.to == ws[n].db.rows[id].endpoint
  {
    hide IsRun, WorldOk, TableOk, IsFresh, Fits, Found, TokenOf, IssuedAt, Grows, LetterOk, Address, CanStep, Issues;
    SameLength(ws, es);
    VerifiesExactlyByTheUpdate(ws, es, n, id);
    token := VerifierPresents(ws, es, n, id);
    m := SelectedBefore(Confirmation, ws, es, n, es[n].call, token, id);
    p := SelectedWasDrawn(Confirmation, ws, es, m, es[n].call, token, id);
    RunKeepsWorld(ws, es, n);
    RowIsOkIn(ws[n], id);
    NamedAtSelect(ws, es, m, n, id, token);
    forall l | l in ws[|es|].db.letters && l.ConfirmLink? && l.token == token
      ensures l.to == ws[n].db.rows[id].endpoint
    {
      LettersOfARow(ws, es, m, id, ws[n].db.rows[id].endpoint, token, l);
    }
  }

  /** A stored row had its name when its token was found. */
  lemma NamedAtSelect(ws: seq<World>, es: seq<Event>, m: nat, n: nat, id: string, token: string)
    requires IsRun(ws, es) && m <= n <= |es| && id in ws[m].db.rows && id in ws[n].issued
    ensures Has(ws[m].issued, id, ws[n].issued[id])
  {
    hide IsRun, WorldOk;
    SameLength(ws, es);
    RunKeepsWorld(ws, es, m);
    RowIsOkIn(ws[m], id);
    IssuesStay(ws, es, m, n, id);
  }

  // ---- webhooks ---------------------------------------------------------------------------------

  /** Step `k` is a test of call `c` that row `id`'s endpoint answered with 2xx. */
  predicate TestPassed(ws: seq<World>, es: seq<Event>, k: nat, c: nat, id: string) {
    && Executes(ws, es, k, c) && ws[k].calls[c].at == Testing(id) && es[k].ok
    && (ws[k].calls[c].request.Register? || ws[k].calls[c].request.SendTest?) && ws[k].calls[c].request.allowed
  }

  /** Step `n` marks row `id` verified because of an earlier passed test of the same call. */
  ghost predicate VerifiesByTest(ws: seq<World>, es: seq<Event>, n: nat, id: string) {
    MarksVerified(ws, es, n, id) && exists k :: 0 <= k < n && TestPassed(ws, es, k, es[n].call, id)
  }

  /** Step `n` marks row `id` verified because the same call presented its stored, unexpired token. */
  ghost predicate VerifiesByToken(ws: seq<World>, es: seq<Event>, n: nat, id: string) {
    MarksVerified(ws, es, n, id)
    && exists m, token :: 0 <= m < n && Selects(Confirmation, ws, es, m, es[n].call, token, id)
  }

  /** An unverified row becomes verified in exactly two ways: by a passed test, or by its own token. */
  lemma VerifiedExactlyByTestOrToken(ws: seq<World>, es: seq<Event>, n: nat, id: string)
    requires IsRun(ws, es) && n < |es| && id in ws[n].db.rows && !ws[n].db.rows[id].verified
    ensures Verifies(ws, n, id) <==> VerifiesByTest(ws, es, n, id) || VerifiesByToken(ws, es, n, id)
  {
    hide IsRun, TableOk, IsFresh, Statement, Verifies, ByVerifyToken, HasEmptyList, PatchOf, Address;
    SameLength(ws, es);
    VerifiesExactlyByTheUpdate(ws, es, n, id);
    if MarksVerified(ws, es, n, id) {
      var c := es[n].call;
      var m := Arrived(ws, es, n, c);
      var f := ws[m].calls[c];
      BeforeVerifying(ws[m].db, f.request, f.at, es[m].draw, es[m].ok, id);
      if f.at.SeekingToken? {
        assert Selects(Confirmation, ws, es, m, c, f.request.token, id);
      } else {
        assert TestPassed(ws, es, m, c, id);
      }
    }
  }

  /** No letter ever carries a webhook row's confirmation token, and no call answers with it. */
  lemma WebhookTokenIsNeverSent(ws: seq<World>, es: seq<Event>, n: nat, id: string, token: string)
    requires IsRun(ws, es) && n <= |es| && IsWebhook(ws[n].issued, id) && IsConfirmOf(ws[n].issued, token, id)
    ensures forall l :: l in ws[n].db.letters && !l.Notice? ==> l.token != token
    ensures forall c :: c in ws[n].calls && ws[n].calls[c].at.Done? && ws[n].calls[c].at.reply.Registered? ==>
              ws[n].calls[c].at.reply.manageToken != token
  {
    hide IsRun, WorldOk, Fits;
    SameLength(ws, es);
    RunKeepsWorld(ws, es, n);
    forall l | l in ws[n].db.letters && !l.Notice? ensures l.token != token {
      LetterIsOkIn(ws[n], l);
    }
    forall c | c in ws[n].calls && ws[n].calls[c].at.Done? && ws[n].calls[c].at.reply.Registered?
      ensures ws[n].calls[c].at.reply.manageToken != token
    {
      PointIsOkIn(ws[n], c);
    }
  }

  // ---- filters ----------------------------------------------------------------------------------

  /** Step `n` changes the filters of row `id`. */
  predicate ChangesFilters(ws: seq<World>, n: nat, id: string) {
    && n + 1 < |ws|
    && id in ws[n].db.rows && id in ws[n + 1].db.rows && ws[n + 1].db.rows[id].filters != ws[n].db.rows[id].filters
  }

  /** Statement `p` would update the filters of row `id` with `patch`. */
  predicate Patches(q: Request, p: Point, id: string, patch: FilterPatch) {
    p == Patching(id, patch) || (p == LoserPatching(id) && q.Register? && q.filters == Some(patch))
  }

  /** Call `c` executes step `n`, which updates the filters of row `id` with `patch`. */
  predicate PatchesAt(ws: seq<World>, es: seq<Event>, n: nat, c: nat, id: string, patch: FilterPatch) {
    Executes(ws, es, n, c) && Patches(ws[n].calls[c].request, ws[n].calls[c].at, id, patch)
  }

  lemma FiltersAfter(w: World, e: Event, id: string)
    requires Enabled(w, e) && id in w.db.rows && (e.Step? ==> id != e.draw.id)
    ensures var n := EventRow(w, e, id);
            n.Some? && n.value.filters != w.db.rows[id].filters ==>
              && e.Step? && Subject(w.calls[e.call].at) == Some(id)
              && (w.calls[e.call].at.Patching? || w.calls[e.call].at.LoserPatching?)
    ensures e.Step? ==> forall patch :: Patches(w.calls[e.call].request, w.calls[e.call].at, id, patch) ==>
              EventRow(w, e, id) == Some(if HasEmptyList(patch) then w.db.rows[id]
                                         else w.db.rows[id].(filters := Patched(w.db.rows[id].filters, patch)))
  {
    hide TableOk, IsFresh, HasEmptyList, Patched, VerifyTaken, PendingTaken, IsTaken, NewSubscription, Address, PatchOf;
  }

  /** Filters change exactly by an update whose lists are not empty and say something new. */
  lemma FiltersChangeExactlyByPatches(ws: seq<World>, es: seq<Event>, n: nat, id: string)
    requires IsRun(ws, es) && n < |es| && id in ws[n].db.rows
    ensures ChangesFilters(ws, n, id) <==>
            && es[n].Step?
            && exists patch :: PatchesAt(ws, es, n, es[n].call, id, patch) && !HasEmptyList(patch)
                               && Patched(ws[n].db.rows[id].filters, patch) != ws[n].db.rows[id].filters
  {
    hide IsRun, WorldOk, EventRow, TableOk, IsFresh, HasEmptyList, Patched;
    SameLength(ws, es);
    RunRow(ws, es, n, id);
    DrawIsNew(ws[n], es[n], id);
    FiltersAfter(ws[n], es[n], id);
    if es[n].Step? && Subject(ws[n].calls[es[n].call].at) == Some(id) {
      var f := ws[n].calls[es[n].call];
      if f.at.Patching? {
        assert PatchesAt(ws, es, n, es[n].call, id, f.at.patch);
      } else if f.at.LoserPatching? {
        assert PatchesAt(ws, es, n, es[n].call, id, f.request.filters.value);
      }
    }
  }

  lemma RowsDoNotReturn(ws: seq<World>, es: seq<Event>, n: nat, id: string)
    requires IsRun(ws, es) && n < |es| && id in ws[n].issued && id in ws[n + 1].db.rows
    ensures id in ws[n].db.rows
  {
    hide IsRun, WorldOk, TableOk, Fits, RowAfter;
    SameLength(ws, es);
    RunRow(ws, es, n, id);
    var e := es[n];
    if e.Step? {
      DomainAfter(ws[n].db, ws[n].calls[e.call].request, ws[n].calls[e.call].at, e.draw, id);
    }
  }

  /** A row unverified before and verified after became verified in between. */
  lemma {:induction false} VerifiedBetween(ws: seq<World>, es: seq<Event>, m: nat, n: nat, id: string) returns (k: nat)
    requires IsRun(ws, es) && m <= n <= |es|
    requires id in ws[m].db.rows && !ws[m].db.rows[id].verified && id in ws[n].db.rows && ws[n].db.rows[id].verified
    ensures m <= k < n && Verifies(ws, k, id)
  {
    hide IsRun, WorldOk;
    SameLength(ws, es);
    k := n - 1;
    RunKeepsWorld(ws, es, m);
    RowIsOkIn(ws[m], id);
    IssuesStay(ws, es, m, n - 1, id);
    RowsDoNotReturn(ws, es, n - 1, id);
    if ws[n - 1].db.rows[id].verified {
      k := VerifiedBetween(ws, es, m, n - 1, id);
    }
  }

  /** The select with which a subscribe call `c` saw row `id` unverified. */
  predicate SawUnverified(ws: seq<World>, es: seq<Event>, m: nat, c: nat, id: string) {
    && Executes(ws, es, m, c) && ws[m].calls[c].request.Subscribe? && ws[m].calls[c].at.Refinding?
    && id in ws[m].db.rows && !ws[m].db.rows[id].verified
  }

  /** Step `n` is the filter update of a subscribe call that saw the row before it was verified. */
  ghost predicate IsLateWrite(ws: seq<World>, es: seq<Event>, n: nat, c: nat, id: string) {
    && Executes(ws, es, n, c) && ws[n].calls[c].request.Subscribe?
    && ws[n].calls[c].at == Patching(id, PatchOf(ws[n].calls[c].request.filters))
    && exists m, k :: 0 <= m < k < n && SawUnverified(ws, es, m, c, id) && Verifies(ws, k, id)
  }

  lemma SubscribeWritesLate(ws: seq<World>, es: seq<Event>, n: nat, c: nat, id: string)
    requires IsRun(ws, es) && Executes(ws, es, n, c) && ws[n].calls[c].request.Subscribe?
    requires id in ws[n].db.rows && ws[n].db.rows[id].verified && ws[n].calls[c].at.Patching?
             && ws[n].calls[c].at.id == id
    ensures IsLateWrite(ws, es, n, c, id)
  {
    hide IsRun, TableOk, IsFresh, Fits, PatchOf, Address, Verifies;
    SameLength(ws, es);
    var m := PatchSelected(ws, es, n, c);
    var k := VerifiedBetween(ws, es, m, n, id);
    if k == m {
      VerifiesExactlyByTheUpdate(ws, es, m, id);
      assert false;
    }
    assert SawUnverified(ws, es, m, c, id);
  }

  lemma SubscribeLeavesRow(ws: seq<World>, es: seq<Event>, n: nat, c: nat, id: string)
    requires IsRun(ws, es) && Executes(ws, es, n, c) && ws[n].calls[c].request.Subscribe? && id in ws[n].db.rows
    ensures id in ws[n + 1].db.rows
    ensures var o, r := ws[n].db.rows[id], ws[n + 1].db.rows[id];
            r.verified == o.verified && r.endpoint == o.endpoint && r.channel == o.channel
            && r.unsubscribeToken == o.unsubscribeToken
  {
    hide IsRun, WorldOk, TableOk, IsFresh, HasEmptyList, Patched, VerifyTaken, PendingTaken, IsTaken, NewSubscription;
    hide Address;
    hide PatchOf;
    SameLength(ws, es);
    RunRow(ws, es, n, id);
    DrawIsNew(ws[n], es[n], id);
  }

  /**
   * Exactly when subscribing again changes a verified row's filters: the call saw the row unverified at its
   * select, the row was verified before the call's filter update, and the lists asked for are new to it.
   * Nothing else a subscribe call does touches the row's filters, address or verification.
   */
  lemma ResubscribeChangesVerifiedExactlyWhenLate(ws: seq<World>, es: seq<Event>, n: nat, c: nat, id: string)
    requires IsRun(ws, es) && Executes(ws, es, n, c) && ws[n].calls[c].request.Subscribe?
    requires id in ws[n].db.rows && ws[n].db.rows[id].verified
    ensures var patch := PatchOf(ws[n].calls[c].request.filters);
            ChangesFilters(ws, n, id) <==>
            && IsLateWrite(ws, es, n, c, id) && !HasEmptyList(patch)
            && Patched(ws[n].db.rows[id].filters, patch) != ws[n].db.rows[id].filters
    ensures id in ws[n + 1].db.rows && ws[n + 1].db.rows[id].verified
    ensures ws[n + 1].db.rows[id].endpoint == ws[n].db.rows[id].endpoint
    ensures ws[n + 1].db.rows[id].channel == ws[n].db.rows[id].channel
  {
    hide IsRun, TableOk, IsFresh, Fits, PatchOf, Address, Verifies, HasEmptyList, Patched, ChangesFilters, PatchOk;
    SameLength(ws, es);
    FiltersChangeExactlyByPatches(ws, es, n, id);
    SubscribeLeavesRow(ws, es, n, c, id);
    var f := ws[n].calls[c];
    if f.at.Patching? && f.at.id == id {
      SubscribeWritesLate(ws, es, n, c, id);
    }
    assert IsLateWrite(ws, es, n, c, id) ==> PatchesAt(ws, es, n, c, id, PatchOf(f.request.filters));
  }

  /**
   * Calls nobody comes between keep the promise: when no other call verifies the row between a subscribe
   * call's select and its filter update, the call changes no verified row's filters.
   */
  lemma UndisturbedResubscribeIsHarmless(ws: seq<World>, es: seq<Event>, n: nat, c: nat, id: string)
    requires IsRun(ws, es) && Executes(ws, es, n, c) && ws[n].calls[c].request.Subscribe?
    requires id in ws[n].db.rows && ws[n].db.rows[id].verified
    requires forall m, k :: 0 <= m < k < n && SawUnverified(ws, es, m, c, id) ==> !MarksVerified(ws, es, k, id)
    ensures !ChangesFilters(ws, n, id)
  {
    hide IsRun, TableOk, IsFresh, Fits, PatchOf, Address, Verifies, HasEmptyList, Patched, ChangesFilters;
    hide SawUnverified;
    hide MarksVerified;
    SameLength(ws, es);
    ResubscribeChangesVerifiedExactlyWhenLate(ws, es, n, c, id);
    forall m, k | 0 <= m < k < n && SawUnverified(ws, es, m, c, id) && Verifies(ws, k, id)
      ensures MarksVerified(ws, es, k, id)
    {
      VerifiesMarks(ws, es, k, id);
    }
  }

  lemma VerifiesMarks(ws: seq<World>, es: seq<Event>, k: nat, id: string)
    requires IsRun(ws, es) && k < |es| && Verifies(ws, k, id)
    ensures MarksVerified(ws, es, k, id)
  {
    VerifiesExactlyByTheUpdate(ws, es, k, id);
  }

  /** The call that changes a row's filters through the row's manage link. */
  predicate ChangesByManageLink(ws: seq<World>, es: seq<Event>, m: nat, n: nat, id: string) {
    && m < n < |es| < |ws| && es[n].Step? && Executes(ws, es, n, es[n].call) && Executes(ws, es, m, es[n].call)
    && ws[n].calls[es[n].call].request.ManageFilters?
    && ws[m].calls[es[n].call].request == ws[n].calls[es[n].call].request
    && id in ws[m].db.rows && ws[m].db.rows[id].unsubscribeToken == ws[n].calls[es[n].call].request.token
  }

  /**
   * The call that applies a proposal: it found the change token stored for row `id`, and applies exactly the
   * lists the subscribe call with the row's address proposed less than 72 hours earlier, at step `p`.
   */
  predicate ChangesByOwnProposal(ws: seq<World>, es: seq<Event>, p: nat, m: nat, n: nat, id: string, token: string,
                                 patch: FilterPatch) {
    && p < m < n < |es| < |ws| && es[n].Step?
    && Selects(Change, ws, es, m, es[n].call, token, id)
    && ExecutesAt(ws, es, n, es[n].call, ConfirmChange(token), Patching(id, patch))
    && HandsOut(ws, es, p, token, ChangeToken(id, patch, ws[p].db.now)) && ws[m].db.now - ws[p].db.now < TTL
    && AskedAt(ws, es, p).Subscribe? && AskedAt(ws, es, p).filters == Some(patch)
  }

  lemma ProposalIsAsked(ws: seq<World>, es: seq<Event>, p: nat, token: string, id: string, patch: FilterPatch, at: int)
    requires HandsOut(ws, es, p, token, ChangeToken(id, patch, at))
    ensures AskedAt(ws, es, p).Subscribe? && AskedAt(ws, es, p).filters == Some(patch)
  {
    hide TableOk, IsFresh, Address, PatchOf, NewSubscription, HasEmptyList, IsTaken;
  }

  /** A call about to apply a proposal applies its own. */
  lemma AppliesOwnProposal(ws: seq<World>, es: seq<Event>, n: nat, c: nat, id: string, patch: FilterPatch)
    returns (p: nat, m: nat)
    requires IsRun(ws, es) && Executes(ws, es, n, c) && ws[n].calls[c].request.ConfirmChange?
    requires ws[n].calls[c].at == Patching(id, patch)
    ensures ChangesByOwnProposal(ws, es, p, m, n, id, ws[n].calls[c].request.token, patch)
    ensures forall to :: Has(ws[m].issued, id, RowName(Email, to)) ==> Address(AskedAt(ws, es, p).email) == to
  {
    hide IsRun, TableOk, IsFresh, Fits, PatchOf, Address, HandsOut, WorldOk, ByPendingToken, ByVerifyToken, IssuedAt;
    hide Grows;
    SameLength(ws, es);
    m := PatchSelected(ws, es, n, c);
    var token := ws[n].calls[c].request.token;
    assert Selects(Change, ws, es, m, c, token, id);
    p := SelectedWasDrawn(Change, ws, es, m, c, token, id);
    RunKeepsWorld(ws, es, n);
    PointIsOkIn(ws[n], c);
    IssuesStay(ws, es, m, n, token);
    ProposalIsAsked(ws, es, p, token, id, patch, ws[p].db.now);
  }

  /** A registration only ever patches webhook rows. */
  lemma RegistrationsPatchWebhooks(ws: seq<World>, es: seq<Event>, n: nat, c: nat, id: string, patch: FilterPatch)
    requires IsRun(ws, es) && PatchesAt(ws, es, n, c, id, patch) && ws[n].calls[c].request.Register?
    ensures IsWebhook(ws[n].issued, id)
  {
    hide IsRun, TableOk, IsFresh, WorldOk, Address, PatchOf;
    SameLength(ws, es);
    RunKeepsWorld(ws, es, n);
    PointIsOkIn(ws[n], c);
  }

  lemma PatchingAsks(ws: seq<World>, es: seq<Event>, n: nat, c: nat, id: string, patch: FilterPatch)
    requires IsRun(ws, es) && PatchesAt(ws, es, n, c, id, patch)
    ensures var q := ws[n].calls[c].request;
            (q.Register? || (ws[n].calls[c].at == Patching(id, patch)
                             && (q.Subscribe? || q.ConfirmChange? || q.ManageFilters?)))
  {
    hide IsRun, TableOk, IsFresh;
  }

  /**
   * A verified email row's filters change only through its own manage link, through its own change link
   * within 72 hours of the subscribe call that proposed exactly those lists, or by a late subscribe call.
   */
  lemma VerifiedFiltersChangeOnlyByLink(ws: seq<World>, es: seq<Event>, n: nat, id: string)
    requires IsRun(ws, es) && n < |es| && ChangesFilters(ws, n, id)
    requires ws[n].db.rows[id].verified && ws[n].db.rows[id].channel == Email
    ensures || (exists m :: ChangesByManageLink(ws, es, m, n, id))
            || (exists p, m, token, patch :: ChangesByOwnProposal(ws, es, p, m, n, id, token, patch))
            || (es[n].Step? && IsLateWrite(ws, es, n, es[n].call, id))
  {
    hide IsRun, TableOk, IsFresh, Fits, PatchOf, Address, WorldOk, HasEmptyList, Patched, IsLateWrite, ByPendingToken;
    SameLength(ws, es);
    FiltersChangeExactlyByPatches(ws, es, n, id);
    var c := es[n].call;
    var patch :| PatchesAt(ws, es, n, c, id, patch);
    PatchingAsks(ws, es, n, c, id, patch);
    var q := ws[n].calls[c].request;
    if q.Register? {
      RegistrationsPatchWebhooks(ws, es, n, c, id, patch);
      RunKeepsWorld(ws, es, n);
      RowIsOkIn(ws[n], id);
    } else if q.Subscribe? {
      SubscribeWritesLate(ws, es, n, c, id);
    } else if q.ConfirmChange? {
      var p, m := AppliesOwnProposal(ws, es, n, c, id, patch);
    } else {
      var m := PatchSelected(ws, es, n, c);
      assert ChangesByManageLink(ws, es, m, n, id);
    }
  }

  // ---- proposals that get lost ------------------------------------------------------------------

  /** Step `k` stores a proposal for row `id`. */
  predicate ProposesAt(ws: seq<World>, es: seq<Event>, k: nat, id: string) {
    && k < |es| < |ws| && es[k].Step? && Executes(ws, es, k, es[k].call)
    && ws[k].calls[es[k].call].at == Proposing(id) && id in ws[k].db.rows
  }

  lemma ProposalAfter(w: World, e: Event, id: string, token: string)
    requires WorldOk(w) && Enabled(w, e) && !Holds(Change, w.db.rows, id, token)
    requires var n := EventRow(w, e, id); n.Some? && n.value.pendingToken == Some(token)
    ensures e.Step? && w.calls[e.call].at == Proposing(id) && id in w.db.rows && token == e.draw.freshToken
  {
    hide WorldOk, TableOk, IsFresh, HasEmptyList, Patched, IsTaken, Address, PatchOf, VerifyTaken, PendingTaken;
  }

  lemma ProposalIsStored(ws: seq<World>, es: seq<Event>, k: nat, id: string)
    requires IsRun(ws, es) && ProposesAt(ws, es, k, id)
    ensures Holds(Change, ws[k + 1].db.rows, id, es[k].draw.freshToken) && es[k].draw.freshToken !in ws[k].issued
  {
    hide IsRun, WorldOk, TableOk, HasEmptyList, Patched, IsTaken, Address, PatchOf, VerifyTaken, PendingTaken;
    SameLength(ws, es);
    RunRow(ws, es, k, id);
    FreshIsNotHeld(ws[k], id, es[k].draw);
  }

  /** A change token stored now and not before was stored by the last proposal, and nothing took it since. */
  lemma {:induction false} ProposedSince(ws: seq<World>, es: seq<Event>, m: nat, n: nat, id: string, token: string)
    returns (k: nat)
    requires IsRun(ws, es) && m <= n <= |es|
    requires !Holds(Change, ws[m].db.rows, id, token) && Holds(Change, ws[n].db.rows, id, token)
    ensures m <= k < n && ProposesAt(ws, es, k, id)
    ensures forall j :: k < j < n ==> !TakenAt(Change, ws, es, j, id)
  {
    hide IsRun, WorldOk, TableOk, TakenAt, TokenOf, EventRow, IsFresh;
    SameLength(ws, es);
    k := n - 1;
    if Holds(Change, ws[n - 1].db.rows, id, token) {
      k := ProposedSince(ws, es, m, n - 1, id, token);
      RunTakes(Change, ws, es, n - 1, id, token);
    } else {
      RunRow(ws, es, n - 1, id);
      ProposalIsHeld(ws, es, n - 1, id, token);
    }
  }

  lemma ProposalIsHeld(ws: seq<World>, es: seq<Event>, n: nat, id: string, token: string)
    requires IsRun(ws, es) && n < |es|
    requires !Holds(Change, ws[n].db.rows, id, token) && Holds(Change, ws[n + 1].db.rows, id, token)
    ensures ProposesAt(ws, es, n, id)
  {
    hide IsRun, WorldOk, TableOk, EventRow, IsFresh, Fits;
    SameLength(ws, es);
    RunRow(ws, es, n, id);
    ProposalAfter(ws[n], es[n], id, token);
  }

  /** The change token stored for row `id` is another than `token`. */
  predicate HoldsAnother(t: Table, id: string, token: string) {
    id in t && t[id].pendingToken.Some? && t[id].pendingToken != Some(token)
  }

  /**
   * Exactly when the last write of a change confirmation wipes a newer proposal: the last write to the row's
   * pending columns since the call's select stored a proposal.
   */
  lemma ClearWipesExactlyNewerProposals(ws: seq<World>, es: seq<Event>, n: nat, c: nat, token: string, id: string)
    returns (m: nat)
    requires IsRun(ws, es) && SpendsAt(Change, ws, es, n, c, token, id)
    ensures m < n && Selects(Change, ws, es, m, c, token, id)
    ensures HoldsAnother(ws[n].db.rows, id, token) <==>
            exists k :: m < k < n && ProposesAt(ws, es, k, id)
                        && forall j :: k < j < n ==> !TakenAt(Change, ws, es, j, id)
  {
    hide IsRun, WorldOk, TableOk, TakenAt, IsFresh, IssuedAt, ProposesAt, ByPendingToken, ByVerifyToken, CanStep;
    SameLength(ws, es);
    m := SelectedBefore(Change, ws, es, n, c, token, id);
    SelectAnswers(Change, ws, es, m, c, token);
    FoundIsHeld(Change, ws[m], token);
    if HoldsAnother(ws[n].db.rows, id, token) {
      var k := ProposedSince(ws, es, m, n, id, ws[n].db.rows[id].pendingToken.value);
      SelectProposesNothing(ws, es, m, c, token, id);
    }
    forall k | m < k < n && ProposesAt(ws, es, k, id) && (forall j :: k < j < n ==> !TakenAt(Change, ws, es, j, id))
      ensures HoldsAnother(ws[n].db.rows, id, token)
    {
      NewerProposalIsHeld(ws, es, m, k, n, id, token);
    }
  }

  lemma SelectProposesNothing(ws: seq<World>, es: seq<Event>, m: nat, c: nat, token: string, id: string)
    requires ExecutesAt(ws, es, m, c, ConfirmChange(token), SeekingChange)
    ensures !ProposesAt(ws, es, m, id)
  {
    hide TableOk, IsFresh;
  }

  lemma NewerProposalIsHeld(ws: seq<World>, es: seq<Event>, m: nat, k: nat, n: nat, id: string, token: string)
    requires IsRun(ws, es) && m <= k < n <= |es| && ProposesAt(ws, es, k, id) && token in ws[m].issued
    requires forall j :: k < j < n ==> !TakenAt(Change, ws, es, j, id)
    ensures HoldsAnother(ws[n].db.rows, id, token)
  {
    hide IsRun, WorldOk, TableOk, TakenAt, IsFresh, IssuedAt, CanStep;
    SameLength(ws, es);
    ProposalIsStored(ws, es, k, id);
    IssuesStay(ws, es, m, k, token);
    HeldUntilTaken(Change, ws, es, k + 1, n, id, es[k].draw.freshToken);
  }

  // ---- every state ------------------------------------------------------------------------------

  /** A row's address never changes. */
  lemma RowKeepsAddress(ws: seq<World>, es: seq<Event>, m: nat, n: nat, id: string)
    requires IsRun(ws, es) && m <= n <= |es| && id in ws[m].db.rows && id in ws[n].db.rows
    ensures ws[n].db.rows[id].channel == ws[m].db.rows[id].channel
            && ws[n].db.rows[id].endpoint == ws[m].db.rows[id].endpoint
  {
    hide IsRun, WorldOk;
    SameLength(ws, es);
    RunKeepsWorld(ws, es, m);
    RunKeepsWorld(ws, es, n);
    RowIsOkIn(ws[m], id);
    RowIsOkIn(ws[n], id);
    IssuesStay(ws, es, m, n, id);
  }

  /** Addresses and tokens are unique in every state of every run. */
  lemma KeysAreUnique(ws: seq<World>, es: seq<Event>, n: nat)
    requires IsRun(ws, es) && n <= |es|
    ensures TableOk(ws[n].db.rows)
    ensures forall i, j :: i in ws[n].db.rows && j in ws[n].db.rows && ws[n].db.rows[i].verifyToken.Some? ==>
              ws[n].db.rows[i].verifyToken != ws[n].db.rows[j].pendingToken
  {
    hide IsRun, WorldOk, TableOk;
    SameLength(ws, es);
    RunKeepsWorld(ws, es, n);
    TableIsOkIn(ws[n]);
    var t := ws[n].db.rows;
    forall i, j | i in t && j in t && t[i].verifyToken.Some? ensures t[i].verifyToken != t[j].pendingToken {
      RowIsOkIn(ws[n], i);
      RowIsOkIn(ws[n], j);
    }
  }

  /** A letter that carries one of a row's live tokens went to that row's own address, in every state of every run. */
  lemma LettersArePrivate(ws: seq<World>, es: seq<Event>, n: nat, id: string, l: Letter)
    requires IsRun(ws, es) && n <= |es| && id in ws[n].db.rows && l in ws[n].db.letters && !l.Notice?
    requires ws[n].db.rows[id].verifyToken == Some(l.token) || ws[n].db.rows[id].pendingToken == Some(l.token)
    ensures ws[n].db.rows[id].channel == Email && l.to == ws[n].db.rows[id].endpoint
    ensures l.ConfirmLink? <==> ws[n].db.rows[id].verifyToken == Some(l.token)
  {
    hide IsRun, WorldOk;
    SameLength(ws, es);
    RunKeepsWorld(ws, es, n);
    RowIsOkIn(ws[n], id);
    LetterIsOkIn(ws[n], l);
  }

  /** A row that was ever named is stored exactly until the deletion that is logged for it. */
  lemma RowsLeaveExactlyWithAnEntry(ws: seq<World>, es: seq<Event>, n: nat, id: string)
    requires IsRun(ws, es) && n <= |es| && id in ws[n].issued && ws[n].issued[id].RowName?
    ensures id in ws[n].db.rows <==> forall e :: e in ws[n].db.deletions ==> e.id != id
    ensures forall e :: e in ws[n].db.deletions && e.id == id ==> e.channel == ws[n].issued[id].channel
  {
    hide IsRun, TableOk, RowsOk, LettersOk, CallsOk;
    SameLength(ws, es);
    RunKeepsWorld(ws, es, n);
  }
}
