/** Schedules of subscription calls in which interleaving breaks a promise, from every state that allows it. */
module SubscriptionSchedules {
  import opened Types
  import opened Text
  import opened Subscriptions
  import opened SubscriptionWorld
  import opened SubscriptionRuns
  import opened SubscriptionRaces

  /** Where a schedule leads, if each of its events can happen. */
  function Play(w: World, es: seq<Event>): Option<World>
    decreases |es|
  {
    if es == [] then Some(w) else if Enabled(w, es[0]) then Play(Next(w, es[0]), es[1..]) else None
  }

  /** An event that can happen, and the rest of the schedule. */
  lemma Plays(w: World, e: Event, es: seq<Event>)
    requires Enabled(w, e)
    ensures Play(w, [e] + es) == Play(Next(w, e), es)
  {
    assert ([e] + es)[1..] == es;
  }

  lemma SelectStep(w: World, c: nat, token: string, id: string, d: Draw)
    requires TableOk(w.db.rows) && IsFresh(d, w.issued) && c in w.calls
             && w.calls[c] == Frame(ConfirmEmail(token), SeekingToken)
    requires Found(Confirmation, w.db, token) == Some(id)
    ensures Enabled(w, Step(c, d, true))
    ensures Next(w, Step(c, d, true)) == w.(calls := w.calls[c := Frame(ConfirmEmail(token), Verifying(id))])
  {
    hide TableOk, IsFresh, ByVerifyToken;
    assert w.issued + map[] == w.issued;
  }

  lemma MarkStep(w: World, c: nat, token: string, id: string, d: Draw)
    requires TableOk(w.db.rows) && IsFresh(d, w.issued) && c in w.calls
             && w.calls[c] == Frame(ConfirmEmail(token), Verifying(id))
    ensures Enabled(w, Step(c, d, true))
    ensures Next(w, Step(c, d, true)) ==
            w.(db := w.db.(rows := Verified(w.db.rows, id)),
               calls := w.calls[c := Frame(ConfirmEmail(token), Done(Answer(true)))])
    ensures TableOk(Next(w, Step(c, d, true)).db.rows)
  {
    hide TableOk, IsFresh, Verified;
    assert w.issued + map[] == w.issued;
    PlainUpdatesKeepTable(w.db.rows, id, NO_PATCH);
  }

  /** Two calls that present one link at the same time both succeed, in every state in which it works. */
  lemma OverlappingConfirmsBothSucceed(w: World, a: nat, b: nat, token: string, id: string, d: Draw)
    requires TableOk(w.db.rows) && IsFresh(d, w.issued) && a != b && a in w.calls && b in w.calls
    requires w.calls[a] == w.calls[b] == Frame(ConfirmEmail(token), SeekingToken)
    requires Found(Confirmation, w.db, token) == Some(id)
    ensures var r := Play(w, [Step(a, d, true), Step(b, d, true), Step(a, d, true), Step(b, d, true)]);
            && r.Some? && a in r.value.calls && b in r.value.calls
            && r.value.calls[a].at == r.value.calls[b].at == Done(Answer(true))
  {
    hide TableOk, IsFresh, Found, Verified, Next, Enabled;
    var sa, sb := Step(a, d, true), Step(b, d, true);
    SelectStep(w, a, token, id, d);
    var w1 := Next(w, sa);
    SelectStep(w1, b, token, id, d);
    var w2 := Next(w1, sb);
    MarkStep(w2, a, token, id, d);
    var w3 := Next(w2, sa);
    MarkStep(w3, b, token, id, d);
    PlaysFour(w, sa, sb, sa, sb);
  }

  lemma PlaysFour(w: World, a: Event, b: Event, c: Event, d: Event)
    requires Enabled(w, a) && Enabled(Next(w, a), b) && Enabled(Next(Next(w, a), b), c)
    requires Enabled(Next(Next(Next(w, a), b), c), d)
    ensures Play(w, [a, b, c, d]) == Some(Next(Next(Next(Next(w, a), b), c), d))
  {
    hide Enabled, Next;
    assert [a, b, c, d] == [a] + [b, c, d] && [b, c, d] == [b] + [c, d] && [c, d] == [c] + [d] && [d] == [d] + [];
    Plays(w, a, [b, c, d]);
    Plays(Next(w, a), b, [c, d]);
    Plays(Next(Next(w, a), b), c, [d]);
    Plays(Next(Next(Next(w, a), b), c), d, []);
  }

  lemma SightStep(w: World, c: nat, q: Request, attempt: nat, id: string, d: Draw)
    requires TableOk(w.db.rows) && IsFresh(d, w.issued) && c in w.calls && w.calls[c] == Frame(q, Refinding(attempt))
    requires q.Subscribe? && attempt <= 1 && ByEndpoint(w.db.rows, Email, Address(q.email)) == Some(id)
    requires !w.db.rows[id].verified
    ensures Enabled(w, Step(c, d, true))
    ensures Next(w, Step(c, d, true)) == w.(calls := w.calls[c := Frame(q, Patching(id, PatchOf(q.filters)))])
  {
    hide TableOk, IsFresh, ByEndpoint, Address;
    assert w.issued + map[] == w.issued;
  }

  lemma PatchStep(w: World, c: nat, q: Request, id: string, patch: FilterPatch, d: Draw)
    requires TableOk(w.db.rows) && IsFresh(d, w.issued) && c in w.calls && w.calls[c] == Frame(q, Patching(id, patch))
    requires q.Subscribe? && !HasEmptyList(patch)
    ensures Enabled(w, Step(c, d, true))
    ensures Next(w, Step(c, d, true)) ==
            w.(db := w.db.(rows := Filtered(w.db.rows, id, patch)), calls := w.calls[c := Frame(q, Reissuing(id))])
  {
    hide TableOk, IsFresh, Filtered, HasEmptyList;
    assert w.issued + map[] == w.issued;
  }

  /**
   * A subscribe call that reads a row just before its owner confirms it changes the filters of the verified
   * row, in every state with an unverified row whose link works.
   */
  lemma ConfirmInsideResubscribe(w: World, a: nat, b: nat, q: Request, attempt: nat, token: string, id: string, d: Draw)
    requires TableOk(w.db.rows) && IsFresh(d, w.issued) && a != b && a in w.calls && b in w.calls
    requires w.calls[a] == Frame(q, Refinding(attempt)) && q.Subscribe? && attempt <= 1
             && !HasEmptyList(PatchOf(q.filters))
    requires w.calls[b] == Frame(ConfirmEmail(token), SeekingToken)
    requires ByEndpoint(w.db.rows, Email, Address(q.email)) == Some(id) && !w.db.rows[id].verified
    requires Found(Confirmation, w.db, token) == Some(id)
    ensures var r := Play(w, [Step(a, d, true), Step(b, d, true), Step(b, d, true), Step(a, d, true)]);
            && r.Some? && id in r.value.db.rows && r.value.db.rows[id].verified
            && r.value.db.rows[id].filters == Patched(w.db.rows[id].filters, PatchOf(q.filters))
            && b in r.value.calls && r.value.calls[b].at == Done(Answer(true))
  {
    hide TableOk, IsFresh, Found, Next, Enabled, HasEmptyList, Patched, PatchOf, Address;
    var sa, sb, patch := Step(a, d, true), Step(b, d, true), PatchOf(q.filters);
    SightStep(w, a, q, attempt, id, d);
    var w1 := Next(w, sa);
    SelectStep(w1, b, token, id, d);
    var w2 := Next(w1, sb);
    MarkStep(w2, b, token, id, d);
    var w3 := Next(w2, sb);
    PatchStep(w3, a, q, id, patch, d);
    PlaysFour(w, sa, sb, sb, sa);
  }

  lemma RegisterStep(w: World, c: nat, q: Request, d: Draw)
    requires TableOk(w.db.rows) && IsFresh(d, w.issued) && c in w.calls && w.calls[c] == Frame(q, Registering)
    requires q.Register? && q.secret.None? && !HasEmptyList(PatchOf(q.filters))
    requires !IsTaken(w.db.rows, NewSubscription(Webhook, q.url, PatchOf(q.filters), d, w.db.now))
    ensures Enabled(w, Step(c, d, true))
    ensures var n := Next(w, Step(c, d, true));
            && n.db == w.db.(rows := w.db.rows[d.id := NewSubscription(Webhook, q.url, PatchOf(q.filters), d,
                                                                       w.db.now)])
            && n.calls == w.calls[c := Frame(q, Done(Registered(d.secret, d.unsubscribeToken)))]
            && n.issued == w.issued + RowIssues(Webhook, q.url, d, w.db.now) && TableOk(n.db.rows)
  {
    hide TableOk, IsFresh, IsTaken, HasEmptyList, PatchOf, Patched;
    InsertKeepsTable(w.db.rows, NewSubscription(Webhook, q.url, PatchOf(q.filters), d, w.db.now));
  }

  /** The token a registration has stored is found for 72 hours. */
  lemma NewTokenIsFound(s: State, id: string, token: string, issuedAt: int)
    requires TableOk(s.rows) && id in s.rows && s.rows[id].verifyToken == Some(token)
    requires s.rows[id].verifyIssuedAt == Some(issuedAt) && s.now - issuedAt < TTL
    ensures Found(Confirmation, s, token) == Some(id)
  {
  }

  /** Whoever presents a stored, unexpired confirmation token verifies its row, without any test. */
  lemma TokenVerifiesUntested(w: World, c: nat, token: string, id: string, d: Draw)
    requires TableOk(w.db.rows) && IsFresh(d, w.issued) && c !in w.calls && Found(Confirmation, w.db, token) == Some(id)
    ensures var r := Play(w, [Begin(c, ConfirmEmail(token)), Step(c, d, true), Step(c, d, true)]);
            && r.Some? && id in r.value.db.rows && r.value.db.rows == Verified(w.db.rows, id)
            && r.value.db.rows[id].verified && c in r.value.calls && r.value.calls[c].at == Done(Answer(true))
  {
    hide TableOk, IsFresh, Found, Enabled;
    var go, sc := Begin(c, ConfirmEmail(token)), Step(c, d, true);
    Begins(w, c, ConfirmEmail(token));
    var w1 := Next(w, go);
    hide Next;
    SelectStep(w1, c, token, id, d);
    var w2 := Next(w1, sc);
    MarkStep(w2, c, token, id, d);
    assert [go, sc, sc] == [go] + [sc, sc] && [sc, sc] == [sc] + [sc] && [sc] == [sc] + [];
    Plays(w, go, [sc, sc]);
    Plays(w1, sc, [sc]);
    Plays(w2, sc, []);
    assert id in w.db.rows;
  }

  /** Every registration leaves such a token with its webhook row, for 72 hours. */
  lemma RegistrationLeavesSuchAToken(w: World, c: nat, q: Request, d: Draw, time: nat)
    requires TableOk(w.db.rows) && IsFresh(d, w.issued) && c in w.calls && w.calls[c] == Frame(q, Registering)
    requires q.Register? && q.secret.None? && !HasEmptyList(PatchOf(q.filters)) && time < TTL
    requires !IsTaken(w.db.rows, NewSubscription(Webhook, q.url, PatchOf(q.filters), d, w.db.now))
    ensures var r := Play(w, [Step(c, d, true), Sleep(time)]);
            && r.Some? && TableOk(r.value.db.rows) && d.id in r.value.db.rows
            && r.value.db.rows[d.id].channel == Webhook
            && !r.value.db.rows[d.id].verified && Found(Confirmation, r.value.db, d.verifyToken) == Some(d.id)
  {
    hide TableOk, IsFresh, Found, HasEmptyList, Patched, PatchOf, IsTaken, RowIssues, Statement, Issues;
    var sc, nap := Step(c, d, true), Sleep(time);
    RegisterStep(w, c, q, d);
    var w1 := Next(w, sc);
    var w2 := Next(w1, nap);
    assert [sc, nap] == [sc] + [nap] && [nap] == [nap] + [];
    Plays(w, sc, [nap]);
    Plays(w1, nap, []);
    NewTokenIsFound(w2.db, d.id, d.verifyToken, w.db.now);
  }

  lemma Begins(w: World, c: nat, q: Request)
    requires c !in w.calls
    ensures Enabled(w, Begin(c, q)) && Next(w, Begin(c, q)) == w.(calls := w.calls[c := Frame(q, First(q))])
  {
  }

  // ---- longer schedules -------------------------------------------------------------------------

  lemma {:induction false} PlaysOn(w: World, es: seq<Event>, v: World, e: Event)
    requires Play(w, es) == Some(v) && Enabled(v, e)
    ensures Play(w, es + [e]) == Some(Next(v, e))
    decreases |es|
  {
    hide Enabled, Next;
    if es == [] {
      Plays(w, e, []);
      assert es + [e] == [e] + [];
    } else {
      PlaysOn(Next(w, es[0]), es[1..], v, e);
      assert es + [e] == [es[0]] + (es[1..] + [e]);
      Plays(w, es[0], es[1..] + [e]);
    }
  }

  lemma {:induction false} PlaysBoth(w: World, es: seq<Event>, v: World, fs: seq<Event>)
    requires Play(w, es) == Some(v)
    ensures Play(w, es + fs) == Play(v, fs)
    decreases |es|
  {
    hide Enabled, Next;
    if es == [] {
      assert es + fs == fs;
    } else {
      PlaysBoth(Next(w, es[0]), es[1..], v, fs);
      assert es + fs == [es[0]] + (es[1..] + fs);
      Plays(w, es[0], es[1..] + fs);
    }
  }

  lemma PlaysTwo(w: World, a: Event, b: Event)
    requires Enabled(w, a) && Enabled(Next(w, a), b)
    ensures Play(w, [a, b]) == Some(Next(Next(w, a), b))
  {
    hide Enabled, Next;
    assert [a, b] == [a] + [b] && [b] == [b] + [];
    Plays(w, a, [b]);
    Plays(Next(w, a), b, []);
  }

  lemma PlaysSix(w: World, a: Event, b: Event, c: Event, d: Event, e: Event, f: Event)
    requires Enabled(w, a) && Enabled(Next(w, a), b) && Enabled(Next(Next(w, a), b), c)
    requires Enabled(Next(Next(Next(w, a), b), c), d)
    requires var v := Next(Next(Next(Next(w, a), b), c), d); Enabled(v, e) && Enabled(Next(v, e), f)
    ensures Play(w, [a, b, c, d, e, f]) == Some(Next(Next(Next(Next(Next(Next(w, a), b), c), d), e), f))
  {
    hide Enabled, Next, Play;
    PlaysFour(w, a, b, c, d);
    var v := Next(Next(Next(Next(w, a), b), c), d);
    PlaysOn(w, [a, b, c, d], v, e);
    assert [a, b, c, d] + [e] == [a, b, c, d, e];
    PlaysOn(w, [a, b, c, d, e], Next(v, e), f);
    assert [a, b, c, d, e] + [f] == [a, b, c, d, e, f];
  }

  /** The world after a statement that draws nothing. */
  function Led(w: World, c: nat, q: Request, db: State, next: Point): World {
    World(db, w.calls[c := Frame(q, next)], w.issued)
  }

  /** One statement of a call that issues nothing. */
  lemma Moves(w: World, c: nat, q: Request, p: Point, d: Draw, db: State, next: Point)
    requires WorldOk(w) && TableOk(w.db.rows) && IsFresh(d, w.issued) && c in w.calls && w.calls[c] == Frame(q, p)
    requires Fits(q, p) && !p.Done? && Statement(w.db, q, p, d, true) == (db, next) && Issues(w.db, q, p, d) == map[]
    ensures Enabled(w, Step(c, d, true)) && Next(w, Step(c, d, true)) == Led(w, c, q, db, next)
    ensures WorldOk(Led(w, c, q, db, next)) && TableOk(db.rows)
  {
    hide WorldOk, TableOk, IsFresh, Fits, Statement, Issues;
    assert w.issued + map[] == w.issued;
    StepKeepsWorld(w, Step(c, d, true));
    TableIsOkIn(Led(w, c, q, db, next));
  }

  // ---- change links work twice ------------------------------------------------------------------

  lemma ChangeSelects(w: World, c: nat, token: string, id: string, d: Draw)
    requires WorldOk(w) && TableOk(w.db.rows) && IsFresh(d, w.issued) && c in w.calls
    requires w.calls[c] == Frame(ConfirmChange(token), SeekingChange) && Found(Change, w.db, token) == Some(id)
    ensures var next := Led(w, c, ConfirmChange(token), w.db, Patching(id, PatchOf(w.db.rows[id].pendingFilters)));
            Enabled(w, Step(c, d, true)) && Next(w, Step(c, d, true)) == next && WorldOk(next)
  {
    var q, patch := ConfirmChange(token), PatchOf(w.db.rows[id].pendingFilters);
    hide WorldOk, TableOk, IsFresh, ByPendingToken, PatchOf;
    Moves(w, c, q, SeekingChange, d, w.db, Patching(id, patch));
  }

  lemma ChangePatches(w: World, c: nat, token: string, id: string, patch: FilterPatch, d: Draw)
    requires WorldOk(w) && TableOk(w.db.rows) && IsFresh(d, w.issued) && c in w.calls && !HasEmptyList(patch)
    requires w.calls[c] == Frame(ConfirmChange(token), Patching(id, patch))
    ensures var next := Led(w, c, ConfirmChange(token), w.db.(rows := Filtered(w.db.rows, id, patch)), Clearing(id));
            Enabled(w, Step(c, d, true)) && Next(w, Step(c, d, true)) == next && WorldOk(next) && TableOk(next.db.rows)
  {
    hide WorldOk, TableOk, IsFresh, HasEmptyList, Filtered;
    Moves(w, c, ConfirmChange(token), Patching(id, patch), d, w.db.(rows := Filtered(w.db.rows, id, patch)),
          Clearing(id));
  }

  lemma ChangeClears(w: World, c: nat, token: string, id: string, d: Draw)
    requires WorldOk(w) && TableOk(w.db.rows) && IsFresh(d, w.issued) && c in w.calls
    requires w.calls[c] == Frame(ConfirmChange(token), Clearing(id))
    ensures var next := Led(w, c, ConfirmChange(token), w.db.(rows := Cleared(w.db.rows, id)), Done(Answer(true)));
            Enabled(w, Step(c, d, true)) && Next(w, Step(c, d, true)) == next && WorldOk(next) && TableOk(next.db.rows)
  {
    hide WorldOk, TableOk, IsFresh, Cleared;
    Moves(w, c, ConfirmChange(token), Clearing(id), d, w.db.(rows := Cleared(w.db.rows, id)), Done(Answer(true)));
  }

  /** Two calls that present one change link at the same time both succeed, in every state in which it works. */
  lemma OverlappingChangesBothSucceed(w: World, a: nat, b: nat, token: string, id: string, d: Draw)
    requires WorldOk(w) && TableOk(w.db.rows) && IsFresh(d, w.issued) && a != b && a in w.calls && b in w.calls
    requires w.calls[a] == w.calls[b] == Frame(ConfirmChange(token), SeekingChange)
    requires Found(Change, w.db, token) == Some(id) && !HasEmptyList(PatchOf(w.db.rows[id].pendingFilters))
    ensures var sa, sb := Step(a, d, true), Step(b, d, true);
            var r := Play(w, [sa, sb, sa, sa, sb, sb]);
            && r.Some? && a in r.value.calls && b in r.value.calls
            && r.value.calls[a].at == r.value.calls[b].at == Done(Answer(true))
  {
    hide WorldOk, TableOk, IsFresh, Found, Filtered, Cleared, Next, Enabled, HasEmptyList, PatchOf;
    FoundIsHeld(Change, w, token);
    var sa, sb, patch := Step(a, d, true), Step(b, d, true), PatchOf(w.db.rows[id].pendingFilters);
    ChangeSelects(w, a, token, id, d);
    var w1 := Next(w, sa);
    ChangeSelects(w1, b, token, id, d);
    var w2 := Next(w1, sb);
    ChangePatches(w2, a, token, id, patch, d);
    var w3 := Next(w2, sa);
    ChangeClears(w3, a, token, id, d);
    var w4 := Next(w3, sa);
    ChangePatches(w4, b, token, id, patch, d);
    var w5 := Next(w4, sb);
    ChangeClears(w5, b, token, id, d);
    PlaysSix(w, sa, sb, sa, sa, sb, sb);
  }

  // ---- a proposal that is wiped -----------------------------------------------------------------

  lemma SightVerified(w: World, c: nat, q: Request, attempt: nat, id: string, d: Draw)
    requires WorldOk(w) && TableOk(w.db.rows) && IsFresh(d, w.issued) && c in w.calls
    requires w.calls[c] == Frame(q, Refinding(attempt)) && attempt <= 1 && q.Subscribe? && q.filters.Some?
    requires ByEndpoint(w.db.rows, Email, Address(q.email)) == Some(id) && w.db.rows[id].verified
    ensures var next := Led(w, c, q, w.db, Proposing(id));
            Enabled(w, Step(c, d, true)) && Next(w, Step(c, d, true)) == next && WorldOk(next)
  {
    hide WorldOk, TableOk, IsFresh, ByEndpoint, Address;
    Moves(w, c, q, Refinding(attempt), d, w.db, Proposing(id));
  }

  lemma ProposeStep(w: World, c: nat, q: Request, id: string, d: Draw)
    requires WorldOk(w) && TableOk(w.db.rows) && IsFresh(d, w.issued) && c in w.calls
    requires w.calls[c] == Frame(q, Proposing(id)) && q.Subscribe? && q.filters.Some?
    ensures Enabled(w, Step(c, d, true))
    ensures var n := Next(w, Step(c, d, true));
            && n == World(w.db.(rows := Proposed(w.db.rows, id, q.filters.value, d.freshToken, w.db.now)),
                          w.calls[c := Frame(q, Posting(ChangeLink(Address(q.email), d.freshToken), ChangePending))],
                          w.issued + map[d.freshToken := ChangeToken(id, q.filters.value, w.db.now)])
            && WorldOk(n) && TableOk(n.db.rows)
  {
    FreshIsNotHeld(w, id, d);
    hide WorldOk, TableOk, VerifyTaken, PendingTaken, Proposed, Address, IsFresh;
    StepKeepsWorld(w, Step(c, d, true));
    TableIsOkIn(Next(w, Step(c, d, true)));
  }

  lemma PostStep(w: World, c: nat, q: Request, l: Letter, d: Draw)
    requires WorldOk(w) && TableOk(w.db.rows) && IsFresh(d, w.issued) && c in w.calls
    requires w.calls[c] == Frame(q, Posting(l, ChangePending)) && q.Subscribe?
    ensures var next := Led(w, c, q, w.db.(letters := w.db.letters + [l]), Done(ChangePending));
            Enabled(w, Step(c, d, true)) && Next(w, Step(c, d, true)) == next && WorldOk(next)
  {
    hide WorldOk, TableOk, IsFresh;
    Moves(w, c, q, Posting(l, ChangePending), d, w.db.(letters := w.db.letters + [l]), Done(ChangePending));
  }

  /** A draw disjoint from a token that was just handed out stays fresh. */
  lemma StaysFresh(e: Draw, issued: map<string, Issue>, more: map<string, Issue>)
    requires IsFresh(e, issued) && NamesOf(e) !! more.Keys
    ensures IsFresh(e, issued + more)
  {
  }

  /**
   * A proposal stored between the select and the last write of a change confirmation is wiped by it: the
   * subscriber is mailed a link that finds nothing. It happens in every state with a verified row whose
   * change link works.
   */
  lemma ConfirmationWipesNewerProposal(w: World, a: nat, b: nat, q: Request, attempt: nat, token: string, id: string,
                                       d: Draw, e: Draw)
    requires WorldOk(w) && TableOk(w.db.rows) && IsFresh(d, w.issued) && IsFresh(e, w.issued)
             && NamesOf(d) !! NamesOf(e)
    requires a != b && a in w.calls && b in w.calls && w.calls[a] == Frame(ConfirmChange(token), SeekingChange)
    requires Found(Change, w.db, token) == Some(id) && !HasEmptyList(PatchOf(w.db.rows[id].pendingFilters))
    requires w.calls[b] == Frame(q, Refinding(attempt)) && attempt <= 1 && q.Subscribe? && q.filters.Some?
    requires ByEndpoint(w.db.rows, Email, Address(q.email)) == Some(id) && w.db.rows[id].verified
    ensures var r := Play(w, [Step(a, d, true), Step(b, d, true), Step(b, d, true), Step(b, e, true),
                              Step(a, e, true), Step(a, e, true)]);
            && r.Some? && a in r.value.calls && b in r.value.calls && TableOk(r.value.db.rows)
            && r.value.calls[a].at == Done(Answer(true)) && r.value.calls[b].at == Done(ChangePending)
            && r.value.db.letters == w.db.letters + [ChangeLink(Address(q.email), d.freshToken)]
            && Found(Change, r.value.db, d.freshToken).None?
  {
    hide WorldOk, TableOk, IsFresh, Found, Filtered, Cleared, Proposed, Next, Enabled, HasEmptyList, PatchOf, Address;
    hide ByEndpoint;
    var patch := PatchOf(w.db.rows[id].pendingFilters);
    var a1, a2, b1, b2 := Step(a, d, true), Step(a, e, true), Step(b, d, true), Step(b, e, true);
    ChangeSelects(w, a, token, id, d);
    var w1 := Next(w, a1);
    SightVerified(w1, b, q, attempt, id, d);
    var w2 := Next(w1, b1);
    ProposeStep(w2, b, q, id, d);
    var w3 := Next(w2, b1);
    TokenStaysFresh(e, d, w.issued, ChangeToken(id, q.filters.value, w.db.now));
    PostStep(w3, b, q, ChangeLink(Address(q.email), d.freshToken), e);
    var w4 := Next(w3, b2);
    ChangePatches(w4, a, token, id, patch, e);
    var w5 := Next(w4, a2);
    ChangeClears(w5, a, token, id, e);
    var w6 := Next(w5, a2);
    PlaysSix(w, a1, b1, b1, b2, a2, a2);
    WipedIsNotFound(w6, id, d.freshToken, w5.db.rows);
  }

  lemma TokenStaysFresh(e: Draw, d: Draw, issued: map<string, Issue>, what: Issue)
    requires IsFresh(e, issued) && NamesOf(d) !! NamesOf(e)
    ensures IsFresh(e, issued + map[d.freshToken := what])
  {
    StaysFresh(e, issued, map[d.freshToken := what]);
  }

  lemma WipedIsNotFound(w: World, id: string, token: string, before: Table)
    requires WorldOk(w) && TableOk(w.db.rows) && w.db.rows == Cleared(before, id) && IsChangeOf(w.issued, token, id)
    ensures Found(Change, w.db, token).None?
  {
    hide WorldOk, TableOk;
    FindsItsRow(Change, w, id, token);
  }

  // ---- rows that come and go --------------------------------------------------------------------

  /** Call `u` unsubscribes with `token`, and then call `c` executes a statement. */
  function Vanish(c: nat, u: nat, token: string, e: Draw): seq<Event> {
    [Begin(u, Unsubscribe(token)), Step(u, e, true), Step(u, e, true), Step(c, e, true)]
  }

  /** Call `j` subscribes the address again, and then call `c` executes a statement. */
  function Return(c: nat, j: nat, q: Request, d: Draw, e: Draw): seq<Event> {
    [Begin(j, q), Step(j, d, true), Step(j, d, true), Step(c, e, true)]
  }

  lemma BeginsWell(w: World, c: nat, q: Request)
    requires WorldOk(w) && c !in w.calls
    ensures Enabled(w, Begin(c, q)) && Next(w, Begin(c, q)) == w.(calls := w.calls[c := Frame(q, First(q))])
    ensures WorldOk(Next(w, Begin(c, q)))
  {
    hide WorldOk, First;
    StepKeepsWorld(w, Begin(c, q));
  }

  /** The world after row `id` was unsubscribed by call `u`. */
  function Gone(w: World, u: nat, token: string, id: string): World
    requires id in w.db.rows
  {
    var db := w.db.(rows := w.db.rows - {id},
                    deletions := w.db.deletions + [Deletion(w.db.rows[id].id, w.db.rows[id].channel)]);
    Led(w, u, Unsubscribe(token), db, Done(Answer(true)))
  }

  lemma UnsubscribeSelects(w: World, u: nat, token: string, id: string, e: Draw)
    requires WorldOk(w) && TableOk(w.db.rows) && IsFresh(e, w.issued) && u in w.calls
    requires w.calls[u] == Frame(Unsubscribe(token), SeekingManaged)
    requires ByUnsubscribeToken(w.db.rows, token) == Some(id)
    ensures var next := Led(w, u, Unsubscribe(token), w.db,
                            Deleting(Deletion(w.db.rows[id].id, w.db.rows[id].channel)));
            Enabled(w, Step(u, e, true)) && Next(w, Step(u, e, true)) == next && WorldOk(next)
  {
    var next := Deleting(Deletion(w.db.rows[id].id, w.db.rows[id].channel));
    hide WorldOk, TableOk, IsFresh, ByUnsubscribeToken;
    Moves(w, u, Unsubscribe(token), SeekingManaged, e, w.db, next);
  }

  lemma UnsubscribeDeletes(w: World, u: nat, token: string, gone: Deletion, e: Draw)
    requires WorldOk(w) && TableOk(w.db.rows) && IsFresh(e, w.issued) && u in w.calls
    requires w.calls[u] == Frame(Unsubscribe(token), Deleting(gone))
    ensures var db := w.db.(rows := w.db.rows - {gone.id}, deletions := w.db.deletions + [gone]);
            var next := Led(w, u, Unsubscribe(token), db, Done(Answer(true)));
            Enabled(w, Step(u, e, true)) && Next(w, Step(u, e, true)) == next && WorldOk(next) && TableOk(db.rows)
  {
    hide WorldOk, TableOk, IsFresh;
    Moves(w, u, Unsubscribe(token), Deleting(gone), e,
          w.db.(rows := w.db.rows - {gone.id}, deletions := w.db.deletions + [gone]), Done(Answer(true)));
  }

  lemma LedTwice(w: World, c: nat, q: Request, a: State, b: State, p: Point, r: Point)
    ensures Led(Led(w, c, q, a, p), c, q, b, r) == Led(w, c, q, b, r)
  {
    assert w.calls[c := Frame(q, p)][c := Frame(q, r)] == w.calls[c := Frame(q, r)];
  }

  /** Begun and executed to its end, the call deletes the row its token names. */
  lemma Unsubscribes(w: World, u: nat, token: string, id: string, e: Draw)
    requires WorldOk(w) && TableOk(w.db.rows) && IsFresh(e, w.issued) && u !in w.calls
    requires ByUnsubscribeToken(w.db.rows, token) == Some(id)
    ensures WorldOk(Gone(w, u, token, id)) && TableOk(w.db.rows - {id})
    ensures var begin, step := Begin(u, Unsubscribe(token)), Step(u, e, true);
            && Enabled(w, begin) && Enabled(Next(w, begin), step) && Enabled(Next(Next(w, begin), step), step)
            && Next(Next(Next(w, begin), step), step) == Gone(w, u, token, id)
  {
    hide WorldOk, TableOk, IsFresh, ByUnsubscribeToken, Enabled, Next, Led;
    var q, gone := Unsubscribe(token), Deletion(w.db.rows[id].id, w.db.rows[id].channel);
    RowsHaveTheirIds(w.db.rows);
    BeginsWell(w, u, q);
    var w1 := Led(w, u, q, w.db, SeekingManaged);
    LedIs(w, u, q, w.db, SeekingManaged);
    UnsubscribeSelects(w1, u, token, id, e);
    LedTwice(w, u, q, w.db, w.db, SeekingManaged, Deleting(gone));
    var w2 := Led(w, u, q, w.db, Deleting(gone));
    LedIs(w, u, q, w.db, Deleting(gone));
    UnsubscribeDeletes(w2, u, token, gone, e);
    DeletedIsGone(w, u, token, id);
  }

  lemma LedIs(w: World, c: nat, q: Request, db: State, p: Point)
    ensures var v := Led(w, c, q, db, p);
            v == World(db, w.calls[c := Frame(q, p)], w.issued) && c in v.calls && v.calls[c] == Frame(q, p)
  {
  }

  lemma DeletedIsGone(w: World, u: nat, token: string, id: string)
    requires TableOk(w.db.rows) && id in w.db.rows
    ensures var gone, q := Deletion(w.db.rows[id].id, w.db.rows[id].channel), Unsubscribe(token);
            var db := w.db.(rows := w.db.rows - {gone.id}, deletions := w.db.deletions + [gone]);
            Led(Led(w, u, q, w.db, Deleting(gone)), u, q, db, Done(Answer(true))) == Gone(w, u, token, id)
  {
    var gone, q := Deletion(w.db.rows[id].id, w.db.rows[id].channel), Unsubscribe(token);
    var db := w.db.(rows := w.db.rows - {gone.id}, deletions := w.db.deletions + [gone]);
    LedTwice(w, u, q, w.db, db, Deleting(gone), Done(Answer(true)));
  }

  /** Unsubscribing, and what the next statement of call `c` then does. */
  lemma Vanishes(w: World, c: nat, u: nat, token: string, id: string, e: Draw)
    requires WorldOk(w) && TableOk(w.db.rows) && IsFresh(e, w.issued) && u !in w.calls
    requires ByUnsubscribeToken(w.db.rows, token) == Some(id) && Enabled(Gone(w, u, token, id), Step(c, e, true))
    ensures Play(w, Vanish(c, u, token, e)) == Some(Next(Gone(w, u, token, id), Step(c, e, true)))
  {
    hide WorldOk, TableOk, IsFresh, ByUnsubscribeToken, Enabled, Next, Play, Gone;
    Unsubscribes(w, u, token, id, e);
    PlaysFour(w, Begin(u, Unsubscribe(token)), Step(u, e, true), Step(u, e, true), Step(c, e, true));
  }

  lemma GoneIsGone(t: Table, id: string, channel: Channel, endpoint: string)
    requires TableOk(t) && TableOk(t - {id}) && ByEndpoint(t, channel, endpoint) == Some(id)
    ensures ByEndpoint(t - {id}, channel, endpoint).None?
  {
  }

  lemma OwnTokenFinds(t: Table, id: string)
    requires TableOk(t) && id in t
    ensures ByUnsubscribeToken(t, t[id].unsubscribeToken) == Some(id)
            && ByEndpoint(t, t[id].channel, t[id].endpoint) == Some(id)
  {
  }

  // ---- a registration that loses its race -------------------------------------------------------

  lemma UrlStep(w: World, c: nat, q: Request, d: Draw)
    requires WorldOk(w) && TableOk(w.db.rows) && IsFresh(d, w.issued) && c in w.calls
    requires w.calls[c] == Frame(q, SeekingUrl) && StartsRacing(q) && ByEndpoint(w.db.rows, Webhook, q.url).None?
    ensures var next := Led(w, c, q, w.db, Registering);
            Enabled(w, Step(c, d, true)) && Next(w, Step(c, d, true)) == next && WorldOk(next)
  {
    hide WorldOk, TableOk, IsFresh, ByEndpoint, HasEmptyList;
    Moves(w, c, q, SeekingUrl, d, w.db, Registering);
  }

  /** The world after call `c` has registered its URL. */
  function RegisteredBy(w: World, c: nat, q: Request, d: Draw): World
    requires q.Register?
  {
    World(w.db.(rows := w.db.rows[d.id := NewSubscription(Webhook, q.url, PatchOf(q.filters), d, w.db.now)]),
          w.calls[c := Frame(q, Done(Registered(d.secret, d.unsubscribeToken)))],
          w.issued + RowIssues(Webhook, q.url, d, w.db.now))
  }

  lemma WinStep(w: World, c: nat, q: Request, d: Draw)
    requires WorldOk(w) && TableOk(w.db.rows) && IsFresh(d, w.issued) && c in w.calls
    requires w.calls[c] == Frame(q, Registering) && StartsRacing(q) && ByEndpoint(w.db.rows, Webhook, q.url).None?
    ensures var next := RegisteredBy(w, c, q, d);
            && Enabled(w, Step(c, d, true)) && Next(w, Step(c, d, true)) == next && WorldOk(next)
            && TableOk(next.db.rows)
  {
    hide WorldOk, TableOk, IsFresh, ByEndpoint, IsTaken, HasEmptyList, PatchOf, NewSubscription, RowIssues;
    ConflictIsTheAddress(w, Webhook, q.url, PatchOf(q.filters), d);
    RegisterStep(w, c, q, d);
    StepKeepsWorld(w, Step(c, d, true));
  }

  lemma LoseStep(w: World, c: nat, q: Request, e: Draw)
    requires WorldOk(w) && TableOk(w.db.rows) && IsFresh(e, w.issued) && c in w.calls
    requires w.calls[c] == Frame(q, Registering) && StartsRacing(q) && ByEndpoint(w.db.rows, Webhook, q.url).Some?
    ensures var next := Led(w, c, q, w.db, SeekingWinner);
            Enabled(w, Step(c, e, true)) && Next(w, Step(c, e, true)) == next && WorldOk(next)
  {
    hide WorldOk, TableOk, IsFresh, ByEndpoint, IsTaken, HasEmptyList, PatchOf, NewSubscription;
    ConflictIsTheAddress(w, Webhook, q.url, PatchOf(q.filters), e);
    Moves(w, c, q, Registering, e, w.db, SeekingWinner);
  }

  lemma WinnerStep(w: World, c: nat, q: Request, id: string, e: Draw)
    requires WorldOk(w) && TableOk(w.db.rows) && IsFresh(e, w.issued) && c in w.calls
    requires w.calls[c] == Frame(q, SeekingWinner) && StartsRacing(q) && q.filters.Some?
    requires ByEndpoint(w.db.rows, Webhook, q.url) == Some(id)
    ensures var next := Led(w, c, q, w.db, LoserPatching(id));
            Enabled(w, Step(c, e, true)) && Next(w, Step(c, e, true)) == next && WorldOk(next)
  {
    hide WorldOk, TableOk, IsFresh, ByEndpoint, HasEmptyList;
    Moves(w, c, q, SeekingWinner, e, w.db, LoserPatching(id));
  }

  lemma NoWinnerStep(w: World, c: nat, q: Request, e: Draw)
    requires WorldOk(w) && TableOk(w.db.rows) && IsFresh(e, w.issued) && c in w.calls
    requires w.calls[c] == Frame(q, SeekingWinner) && StartsRacing(q) && ByEndpoint(w.db.rows, Webhook, q.url).None?
    ensures var next := Led(w, c, q, w.db, Done(AlreadyExists));
            Enabled(w, Step(c, e, true)) && Next(w, Step(c, e, true)) == next
  {
    hide WorldOk, TableOk, IsFresh, ByEndpoint, HasEmptyList;
    Moves(w, c, q, SeekingWinner, e, w.db, Done(AlreadyExists));
  }

  lemma LoserStep(w: World, c: nat, q: Request, id: string, e: Draw)
    requires WorldOk(w) && TableOk(w.db.rows) && IsFresh(e, w.issued) && c in w.calls
    requires w.calls[c] == Frame(q, LoserPatching(id)) && StartsRacing(q) && q.filters.Some?
    ensures var next := Led(w, c, q, w.db.(rows := Filtered(w.db.rows, id, q.filters.value)), Done(Answer(false)));
            Enabled(w, Step(c, e, true)) && Next(w, Step(c, e, true)) == next
  {
    hide WorldOk, TableOk, IsFresh, HasEmptyList, Filtered;
    Moves(w, c, q, LoserPatching(id), e, w.db.(rows := Filtered(w.db.rows, id, q.filters.value)), Done(Answer(false)));
  }

  /** After `d` has named a row, a draw disjoint from it is still fresh. */
  lemma RowKeepsFresh(e: Draw, d: Draw, issued: map<string, Issue>, channel: Channel, endpoint: string, now: int)
    requires IsFresh(e, issued) && NamesOf(d) !! NamesOf(e)
    ensures IsFresh(e, issued + RowIssues(channel, endpoint, d, now))
  {
    StaysFresh(e, issued, RowIssues(channel, endpoint, d, now));
  }

  /** Two registrations of a URL nobody has: `a` looks, `b` looks and inserts, and `a` meets the conflict. */
  function Race(a: nat, b: nat, d: Draw, e: Draw): seq<Event> {
    [Step(a, d, true), Step(b, d, true), Step(b, d, true), Step(a, e, true)]
  }

  /** Where that race leads. */
  function Raced(w: World, a: nat, qa: Request, b: nat, qb: Request, d: Draw): World
    requires qb.Register?
  {
    var won := RegisteredBy(w, b, qb, d);
    Led(won, a, qa, won.db, SeekingWinner)
  }

  predicate CanRace(w: World, a: nat, qa: Request, b: nat, qb: Request, d: Draw, e: Draw) {
    && WorldOk(w) && TableOk(w.db.rows) && IsFresh(d, w.issued) && IsFresh(e, w.issued) && NamesOf(d) !! NamesOf(e)
    && a != b && a in w.calls && b in w.calls
    && w.calls[a] == Frame(qa, SeekingUrl) && w.calls[b] == Frame(qb, SeekingUrl)
    && StartsRacing(qa) && StartsRacing(qb) && qa.url == qb.url && ByEndpoint(w.db.rows, Webhook, qa.url).None?
  }

  lemma RacePlays(w: World, a: nat, qa: Request, b: nat, qb: Request, d: Draw, e: Draw)
    requires CanRace(w, a, qa, b, qb, d, e)
    ensures var v := Raced(w, a, qa, b, qb, d);
            && Play(w, Race(a, b, d, e)) == Some(v) && WorldOk(v) && TableOk(v.db.rows) && IsFresh(e, v.issued)
            && ByEndpoint(v.db.rows, Webhook, qa.url) == Some(d.id)
            && ByUnsubscribeToken(v.db.rows, d.unsubscribeToken) == Some(d.id)
  {
    hide WorldOk, TableOk, IsFresh, ByEndpoint, ByUnsubscribeToken, HasEmptyList, PatchOf, RowIssues, Enabled, Next;
    hide Patched, Play;
    UrlStep(w, a, qa, d);
    var w1 := Next(w, Step(a, d, true));
    UrlStep(w1, b, qb, d);
    var w2 := Next(w1, Step(b, d, true));
    WinStep(w2, b, qb, d);
    var w3 := Next(w2, Step(b, d, true));
    OwnTokenFinds(w3.db.rows, d.id);
    RowKeepsFresh(e, d, w.issued, Webhook, qb.url, w.db.now);
    LoseStep(w3, a, qa, e);
    assert Next(w3, Step(a, e, true)).calls == Raced(w, a, qa, b, qb, d).calls;
    PlaysFour(w, Step(a, d, true), Step(b, d, true), Step(b, d, true), Step(a, e, true));
  }

  /** The loser's last two statements. */
  lemma LoserFinishes(w: World, a: nat, q: Request, id: string, e: Draw)
    requires WorldOk(w) && TableOk(w.db.rows) && IsFresh(e, w.issued) && a in w.calls
    requires w.calls[a] == Frame(q, SeekingWinner) && StartsRacing(q) && q.filters.Some?
    requires ByEndpoint(w.db.rows, Webhook, q.url) == Some(id)
    ensures Play(w, [Step(a, e, true), Step(a, e, true)]) ==
            Some(Led(w, a, q, w.db.(rows := Filtered(w.db.rows, id, q.filters.value)), Done(Answer(false))))
  {
    hide WorldOk, TableOk, IsFresh, ByEndpoint, HasEmptyList, Filtered, Enabled, Next, Led, Play;
    var step, db := Step(a, e, true), w.db.(rows := Filtered(w.db.rows, id, q.filters.value));
    WinnerStep(w, a, q, id, e);
    LedIs(w, a, q, w.db, LoserPatching(id));
    LoserStep(Led(w, a, q, w.db, LoserPatching(id)), a, q, id, e);
    LedTwice(w, a, q, w.db, db, LoserPatching(id), Done(Answer(false)));
    PlaysTwo(w, step, step);
  }

  /**
   * The loser of a registration race changes the filters of the winner's new row without knowing its secret,
   * from every state in which the URL has no row.
   */
  lemma LoserChangesTheWinnersRow(w: World, a: nat, qa: Request, b: nat, qb: Request, d: Draw, e: Draw)
    requires CanRace(w, a, qa, b, qb, d, e) && qa.filters.Some?
    ensures var r := Play(w, Race(a, b, d, e) + [Step(a, e, true), Step(a, e, true)]);
            && r.Some? && a in r.value.calls && b in r.value.calls && d.id in r.value.db.rows
            && r.value.calls[b].at == Done(Registered(d.secret, d.unsubscribeToken))
            && r.value.calls[a].at == Done(Answer(false))
            && r.value.db.rows[d.id].secret == Some(d.secret)
            && r.value.db.rows[d.id].filters == Patched(Patched(DEFAULTS, PatchOf(qb.filters)), qa.filters.value)
  {
    hide WorldOk, TableOk, IsFresh, ByEndpoint, ByUnsubscribeToken, HasEmptyList, PatchOf, RowIssues;
    hide Patched, Play, Race;
    RacePlays(w, a, qa, b, qb, d, e);
    var v := Raced(w, a, qa, b, qb, d);
    LoserFinishes(v, a, qa, d.id, e);
    PlaysBoth(w, Race(a, b, d, e), v, [Step(a, e, true), Step(a, e, true)]);
  }

  /**
   * When the winner unsubscribes before the loser looks again, the loser's registration throws "already
   * exists", from every state in which the URL has no row.
   */
  lemma LoserThrowsWhenTheWinnerLeaves(w: World, a: nat, qa: Request, b: nat, qb: Request, u: nat, d: Draw, e: Draw)
    requires CanRace(w, a, qa, b, qb, d, e) && u !in w.calls
    ensures var r := Play(w, Race(a, b, d, e) + Vanish(a, u, d.unsubscribeToken, e));
            r.Some? && a in r.value.calls && r.value.calls[a].at == Done(AlreadyExists)
  {
    RacePlays(w, a, qa, b, qb, d, e);
    hide WorldOk, TableOk, IsFresh, ByEndpoint, ByUnsubscribeToken, HasEmptyList, PatchOf, RowIssues, Enabled, Next;
    hide Patched, Play, Race, Vanish;
    var v := Raced(w, a, qa, b, qb, d);
    PlaysBoth(w, Race(a, b, d, e), v, Vanish(a, u, d.unsubscribeToken, e));
    Unsubscribes(v, u, d.unsubscribeToken, d.id, e);
    GoneIsGone(v.db.rows, d.id, Webhook, qa.url);
    NoWinnerStep(Gone(v, u, d.unsubscribeToken, d.id), a, qa, e);
    Vanishes(v, a, u, d.unsubscribeToken, d.id, e);
  }

  // ---- a subscribe call that throws -------------------------------------------------------------

  /** A select of the retry, in a state where the address has a row, or has none. */
  lemma LookStep(w: World, c: nat, q: Request, p: Point, e: Draw)
    requires WorldOk(w) && TableOk(w.db.rows) && IsFresh(e, w.issued) && c in w.calls && w.calls[c] == Frame(q, p)
    requires q.Subscribe? && Fits(q, p) && !HasEmptyList(PatchOf(q.filters))
    requires var seen := ByEndpoint(w.db.rows, Email, Address(q.email)).Some?;
             || (p.Finding? && seen) || (p.Refinding? && !seen) || (p.LastInserting? && seen)
    ensures var next := if p.Finding? then Refinding(p.attempt)
                        else if p.LastInserting? then Done(AlreadyExists)
                        else if p.attempt == 0 then Finding(1) else LastInserting;
            var v := Led(w, c, q, w.db, next);
            Enabled(w, Step(c, e, true)) && Next(w, Step(c, e, true)) == v && WorldOk(v)
  {
    hide WorldOk, TableOk, IsFresh, ByEndpoint, IsTaken, HasEmptyList, PatchOf, Address, NewSubscription;
    ConflictIsTheAddress(w, Email, Address(q.email), PatchOf(q.filters), e);
    Moves(w, c, q, p, e, w.db, Statement(w.db, q, p, e, true).1);
  }

  /** The world after call `j` has inserted the address. */
  function SubscribedBy(w: World, j: nat, q: Request, d: Draw): World
    requires q.Subscribe?
  {
    var to, patch := Address(q.email), PatchOf(q.filters);
    World(w.db.(rows := w.db.rows[d.id := NewSubscription(Email, to, patch, d, w.db.now)]),
          w.calls[j := Frame(q, Posting(ConfirmLink(to, d.verifyToken), ConfirmationSent))],
          w.issued + RowIssues(Email, to, d, w.db.now))
  }

  lemma InsertsWell(w: World, j: nat, q: Request, d: Draw)
    requires WorldOk(w) && TableOk(w.db.rows) && IsFresh(d, w.issued) && j in w.calls
    requires w.calls[j] == Frame(q, Inserting(0)) && q.Subscribe? && !HasEmptyList(PatchOf(q.filters))
    requires ByEndpoint(w.db.rows, Email, Address(q.email)).None?
    ensures var v := SubscribedBy(w, j, q, d);
            Enabled(w, Step(j, d, true)) && Next(w, Step(j, d, true)) == v && WorldOk(v) && TableOk(v.db.rows)
  {
    hide WorldOk, TableOk, IsFresh, ByEndpoint, IsTaken, HasEmptyList, PatchOf, Address, NewSubscription, RowIssues;
    hide Next, Enabled, SubscribedBy;
    ConflictIsTheAddress(w, Email, Address(q.email), PatchOf(q.filters), d);
    InsertStep(w, j, q, d);
    StepKeepsWorld(w, Step(j, d, true));
    TableIsOkIn(SubscribedBy(w, j, q, d));
  }

  lemma InsertStep(w: World, j: nat, q: Request, d: Draw)
    requires TableOk(w.db.rows) && IsFresh(d, w.issued) && j in w.calls
    requires w.calls[j] == Frame(q, Inserting(0)) && q.Subscribe? && !HasEmptyList(PatchOf(q.filters))
    requires !IsTaken(w.db.rows, NewSubscription(Email, Address(q.email), PatchOf(q.filters), d, w.db.now))
    ensures Enabled(w, Step(j, d, true)) && Next(w, Step(j, d, true)) == SubscribedBy(w, j, q, d)
  {
    hide TableOk, IsFresh, IsTaken, HasEmptyList, PatchOf, Address, RowIssues, Patched;
  }

  lemma FindsNone(w: World, j: nat, q: Request, d: Draw)
    requires WorldOk(w) && TableOk(w.db.rows) && IsFresh(d, w.issued) && j in w.calls
    requires w.calls[j] == Frame(q, Finding(0)) && q.Subscribe?
    requires ByEndpoint(w.db.rows, Email, Address(q.email)).None?
    ensures var v := Led(w, j, q, w.db, Inserting(0));
            Enabled(w, Step(j, d, true)) && Next(w, Step(j, d, true)) == v && WorldOk(v)
  {
    hide WorldOk, TableOk, IsFresh, ByEndpoint, Address;
    Moves(w, j, q, Finding(0), d, w.db, Inserting(0));
  }

  lemma SubscribedTwice(w: World, j: nat, q: Request, p: Point, d: Draw)
    requires q.Subscribe?
    ensures SubscribedBy(Led(w, j, q, w.db, p), j, q, d) == SubscribedBy(w, j, q, d)
  {
    hide NewSubscription, RowIssues, Address, PatchOf;
    var f := SubscribedBy(w, j, q, d).calls[j];
    assert w.calls[j := Frame(q, p)][j := f] == w.calls[j := f];
  }

  /** Begun and executed to its insert, the call gives the address a row again. */
  lemma Resubscribes(w: World, j: nat, q: Request, d: Draw)
    requires WorldOk(w) && TableOk(w.db.rows) && IsFresh(d, w.issued) && j !in w.calls && q.Subscribe?
    requires !HasEmptyList(PatchOf(q.filters)) && ByEndpoint(w.db.rows, Email, Address(q.email)).None?
    ensures var v := SubscribedBy(w, j, q, d);
            && WorldOk(v) && TableOk(v.db.rows) && ByEndpoint(v.db.rows, Email, Address(q.email)) == Some(d.id)
            && ByUnsubscribeToken(v.db.rows, d.unsubscribeToken) == Some(d.id)
    ensures var begin, step := Begin(j, q), Step(j, d, true);
            && Enabled(w, begin) && Enabled(Next(w, begin), step) && Enabled(Next(Next(w, begin), step), step)
            && Next(Next(Next(w, begin), step), step) == SubscribedBy(w, j, q, d)
  {
    hide WorldOk, TableOk, IsFresh, ByUnsubscribeToken, ByEndpoint, Enabled, Next, Led, SubscribedBy, Address, PatchOf;
    hide HasEmptyList;
    BeginsWell(w, j, q);
    var w1 := Led(w, j, q, w.db, Finding(0));
    LedIs(w, j, q, w.db, Finding(0));
    FindsNone(w1, j, q, d);
    LedTwice(w, j, q, w.db, w.db, Finding(0), Inserting(0));
    var w2 := Led(w, j, q, w.db, Inserting(0));
    LedIs(w, j, q, w.db, Inserting(0));
    InsertsWell(w2, j, q, d);
    SubscribedTwice(w, j, q, Inserting(0), d);
    SubscribedIsFound(w, j, q, d);
  }

  lemma SubscribedIsFound(w: World, j: nat, q: Request, d: Draw)
    requires q.Subscribe? && TableOk(SubscribedBy(w, j, q, d).db.rows)
    ensures var rows := SubscribedBy(w, j, q, d).db.rows;
            && ByEndpoint(rows, Email, Address(q.email)) == Some(d.id)
            && ByUnsubscribeToken(rows, d.unsubscribeToken) == Some(d.id)
  {
    hide TableOk, ByEndpoint, ByUnsubscribeToken, Address, Patched, RowIssues, PatchOf;
    OwnTokenFinds(SubscribedBy(w, j, q, d).db.rows, d.id);
  }

  /** Call `c` waits at statement `p`; the address has row `id`, or none. */
  predicate Waits(w: World, c: nat, q: Request, p: Point, id: Option<string>, e: Draw) {
    && WorldOk(w) && TableOk(w.db.rows) && IsFresh(e, w.issued) && c in w.calls && w.calls[c] == Frame(q, p)
    && q.Subscribe? && Fits(q, p) && !HasEmptyList(PatchOf(q.filters))
    && ByEndpoint(w.db.rows, Email, Address(q.email)) == id
  }

  /** The row vanishes before the select that was to see it again. */
  lemma VanishRound(w: World, c: nat, q: Request, attempt: nat, u: nat, id: string, token: string, e: Draw)
    returns (v: World)
    requires Waits(w, c, q, Refinding(attempt), Some(id), e) && u !in w.calls
    requires ByUnsubscribeToken(w.db.rows, token) == Some(id)
    ensures Play(w, Vanish(c, u, token, e)) == Some(v)
    ensures Waits(v, c, q, if attempt == 0 then Finding(1) else LastInserting, None, e)
    ensures v.issued == w.issued && v.calls.Keys == w.calls.Keys + {u}
  {
    hide WorldOk, TableOk, IsFresh, ByUnsubscribeToken, ByEndpoint, Enabled, Next, Address, PatchOf, HasEmptyList, Play;
    Unsubscribes(w, u, token, id, e);
    var gone := Gone(w, u, token, id);
    GoneIsGone(w.db.rows, id, Email, Address(q.email));
    LookStep(gone, c, q, Refinding(attempt), e);
    Vanishes(w, c, u, token, id, e);
    v := Next(gone, Step(c, e, true));
  }

  /** The address gets a row again before the statement that was to find none. */
  lemma ReturnRound(w: World, c: nat, q: Request, p: Point, j: nat, d: Draw, e: Draw) returns (v: World)
    requires Waits(w, c, q, p, None, e) && j !in w.calls && (p == Finding(1) || p == LastInserting)
    requires IsFresh(d, w.issued) && NamesOf(d) !! NamesOf(e)
    ensures Play(w, Return(c, j, q, d, e)) == Some(v)
    ensures Waits(v, c, q, if p.Finding? then Refinding(1) else Done(AlreadyExists), Some(d.id), e)
    ensures ByUnsubscribeToken(v.db.rows, d.unsubscribeToken) == Some(d.id)
    ensures v.issued == w.issued + RowIssues(Email, Address(q.email), d, w.db.now)
    ensures v.calls.Keys == w.calls.Keys + {j}
  {
    hide WorldOk, TableOk, IsFresh, ByUnsubscribeToken, ByEndpoint, Enabled, Next, Address, PatchOf, HasEmptyList, Play;
    hide RowIssues, NewSubscription;
    Resubscribes(w, j, q, d);
    var back := SubscribedBy(w, j, q, d);
    RowKeepsFresh(e, d, w.issued, Email, Address(q.email), w.db.now);
    LookStep(back, c, q, p, e);
    PlaysFour(w, Begin(j, q), Step(j, d, true), Step(j, d, true), Step(c, e, true));
    v := Next(back, Step(c, e, true));
  }

  /**
   * A subscribe call throws "already exists" after all: the address is unsubscribed and subscribed again
   * twice between its statements, in every state in which the address has a row when the call starts.
   */
  lemma SubscribeThrowsOnDoubleVanish(w: World, c: nat, q: Request, id: string, u1: nat, j1: nat, u2: nat, j2: nat,
                                      d1: Draw, d2: Draw, e: Draw)
    requires Waits(w, c, q, Finding(0), Some(id), e) && IsFresh(d1, w.issued) && IsFresh(d2, w.issued)
    requires NamesOf(d1) !! NamesOf(d2) && NamesOf(d1) !! NamesOf(e) && NamesOf(d2) !! NamesOf(e)
    requires u1 !in w.calls && j1 !in w.calls && u2 !in w.calls && j2 !in w.calls
    requires u1 != j1 && u1 != u2 && u1 != j2 && j1 != u2 && j1 != j2 && u2 != j2
    ensures var r := Play(w, [Step(c, e, true)] + Vanish(c, u1, w.db.rows[id].unsubscribeToken, e)
                             + Return(c, j1, q, d1, e) + Vanish(c, u2, d1.unsubscribeToken, e)
                             + Return(c, j2, q, d2, e));
            r.Some? && c in r.value.calls && r.value.calls[c].at == Done(AlreadyExists)
  {
    hide WorldOk, TableOk, IsFresh, ByUnsubscribeToken, ByEndpoint, Enabled, Next, Play, Vanish, Return, Address, Fits;
    hide PatchOf, HasEmptyList, RowIssues;
    var token := w.db.rows[id].unsubscribeToken;
    OwnTokenFinds(w.db.rows, id);
    var es := [Step(c, e, true)];
    var w1 := SightRound(w, c, q, id, e);
    var w2 := VanishRound(w1, c, q, 0, u1, id, token, e);
    PlaysBoth(w, es, w1, Vanish(c, u1, token, e));
    es := es + Vanish(c, u1, token, e);
    var w3 := ReturnRound(w2, c, q, Finding(1), j1, d1, e);
    PlaysBoth(w, es, w2, Return(c, j1, q, d1, e));
    es := es + Return(c, j1, q, d1, e);
    var w4 := VanishRound(w3, c, q, 1, u2, d1.id, d1.unsubscribeToken, e);
    PlaysBoth(w, es, w3, Vanish(c, u2, d1.unsubscribeToken, e));
    es := es + Vanish(c, u2, d1.unsubscribeToken, e);
    RowKeepsFresh(d2, d1, w2.issued, Email, Address(q.email), w2.db.now);
    var w5 := ReturnRound(w4, c, q, LastInserting, j2, d2, e);
    PlaysBoth(w, es, w4, Return(c, j2, q, d2, e));
  }

  /** The first select sees the row. */
  lemma SightRound(w: World, c: nat, q: Request, id: string, e: Draw) returns (v: World)
    requires Waits(w, c, q, Finding(0), Some(id), e)
    ensures Play(w, [Step(c, e, true)]) == Some(v) && Waits(v, c, q, Refinding(0), Some(id), e)
    ensures v.issued == w.issued && v.calls.Keys == w.calls.Keys && v.db == w.db
  {
    hide WorldOk, TableOk, IsFresh, ByEndpoint, Enabled, Next, Address, PatchOf, HasEmptyList;
    LookStep(w, c, q, Finding(0), e);
    v := Next(w, Step(c, e, true));
    assert [Step(c, e, true)] == [Step(c, e, true)] + [];
    Plays(w, Step(c, e, true), []);
  }
}
