/** Who changes the filters of a row, over all runs of interleaved calls. */
module SubscriptionFilters {
  import opened Types
  import opened Text
  import opened Subscriptions
  import opened SubscriptionWorld
  import opened SubscriptionRuns
  import opened SubscriptionRaces

  // ---- the life of a row ------------------------------------------------------------------------

  /** Every call of a run was begun. */
  lemma {:induction false} WasBegun(ws: seq<World>, es: seq<Event>, n: nat, c: nat) returns (b: nat)
    requires IsRun(ws, es) && n <= |es| && c in ws[n].calls
    ensures b < n && es[b] == Begin(c, ws[n].calls[c].request)
  {
    hide IsRun, WorldOk, Statement, TableOk, IsFresh, Issues, Grows, Fits, First;
    SameLength(ws, es);
    StartsEmpty(ws, es);
    if n > 0 {
      b := n - 1;
      RunStep(ws, es, b);
      if c in ws[b].calls {
        b := WasBegun(ws, es, n - 1, c);
      }
    }
  }

  /** A row that was not stored and now is was inserted in between, unverified. */
  lemma {:induction false} InsertedBetween(ws: seq<World>, es: seq<Event>, m: nat, n: nat, id: string) returns (b: nat)
    requires IsRun(ws, es) && m <= n <= |es| && id !in ws[m].db.rows && id in ws[n].db.rows
    ensures m <= b < n && id !in ws[b].db.rows && id in ws[b + 1].db.rows && !ws[b + 1].db.rows[id].verified
  {
    hide IsRun, WorldOk, TableOk, IsFresh, EventRow;
    SameLength(ws, es);
    b := n - 1;
    if id in ws[n - 1].db.rows {
      b := InsertedBetween(ws, es, m, n - 1, id);
    } else {
      RunRow(ws, es, b, id);
      NewRowsAreUnverified(ws[b], es[b], id);
    }
  }

  lemma NewRowsAreUnverified(w: World, e: Event, id: string)
    requires Enabled(w, e) && id !in w.db.rows
    ensures var n := EventRow(w, e, id); n.Some? ==> !n.value.verified
  {
    hide TableOk, IsFresh, InsertResult, Address, PatchOf, Patched, Updated;
  }

  /** A stored row stays verified. */
  lemma {:induction false} StaysVerified(ws: seq<World>, es: seq<Event>, m: nat, n: nat, id: string)
    requires IsRun(ws, es) && m <= n <= |es| && id in ws[n].db.rows
    requires id in ws[m].db.rows && ws[m].db.rows[id].verified
    ensures ws[n].db.rows[id].verified
  {
    hide IsRun, WorldOk, EventRow, TableOk, IsFresh, Fits;
    SameLength(ws, es);
    if m < n {
      RunKeepsWorld(ws, es, m);
      RowIsOkIn(ws[m], id);
      IssuesStay(ws, es, m, n - 1, id);
      RowsDoNotReturn(ws, es, n - 1, id);
      StaysVerified(ws, es, m, n - 1, id);
      RunRow(ws, es, n - 1, id);
      DrawIsNew(ws[n - 1], es[n - 1], id);
      VerifiedAfter(ws[n - 1], es[n - 1], id);
    }
  }

  // ---- what a loser reaches ---------------------------------------------------------------------

  /**
   * A registration that lost the insert race changes filters without the secret, but only of a row that
   * did not exist when the call first looked.
   */
  lemma LosersReachOnlyNewRows(ws: seq<World>, es: seq<Event>, n: nat, c: nat, id: string) returns (m: nat)
    requires IsRun(ws, es) && Executes(ws, es, n, c) && ws[n].calls[c].at == LoserPatching(id)
    ensures ws[n].calls[c].request.Register? && ws[n].calls[c].request.secret.None?
    ensures m < n && Executes(ws, es, m, c) && ws[m].calls[c].at.SeekingUrl? && id !in ws[m].db.rows
  {
    hide IsRun, TableOk, IsFresh, Statement, WorldOk;
    SameLength(ws, es);
    var k := Arrived(ws, es, n, c);
    BeforeLosing(ws[k].db, ws[k].calls[c].request, ws[k].calls[c].at, es[k].draw, es[k].ok);
    var l := Arrived(ws, es, k, c);
    BeforeLosing(ws[l].db, ws[l].calls[c].request, ws[l].calls[c].at, es[l].draw, es[l].ok);
    m := Arrived(ws, es, l, c);
    BeforeLosing(ws[m].db, ws[m].calls[c].request, ws[m].calls[c].at, es[m].draw, es[m].ok);
    if id in ws[m].db.rows {
      RowKeepsAddress(ws, es, m, k, id);
    }
  }

  lemma VerifiedLater(ws: seq<World>, es: seq<Event>, v: nat, n: nat, id: string)
    requires IsRun(ws, es) && v < n <= |es| && Verifies(ws, v, id) && id in ws[n].db.rows
    ensures ws[n].db.rows[id].verified
  {
    hide IsRun;
    StaysVerified(ws, es, v + 1, n, id);
  }

  /** A registration that updates a row as a loser has come through all of its race. */
  lemma LosersRaced(ws: seq<World>, es: seq<Event>, n: nat, k: nat, c: nat, q: Request, id: string)
    requires IsRun(ws, es) && LosesTo(ws, es, n, k, c, q, id)
    ensures StartsRacing(q)
  {
    hide IsRun, StepsOf, StartsRacing, LosesRace, UrlIsOf;
    if !StartsRacing(q) {
      RefusedHasNoSteps(ws, es, n, c, q);
    }
  }

  lemma RacesInOrder(ws: seq<World>, es: seq<Event>, n: nat, c: nat, q: Request, steps: seq<nat>)
    requires IsRun(ws, es) && n < |es| && es[n] == Begin(c, q) && StartsRacing(q)
    requires steps == StepsOf(es, c, n + 1) && |steps| == 4
    ensures steps[0] < steps[2] < |es| && steps[0] < steps[3] < |es| < |ws|
  {
    hide IsRun, StepsOf, StartsRacing, ExecutesAt;
    SameLength(ws, es);
    RaceStarts(ws, es, n, c, q, steps);
    FirstIsFirst(es, c, n + 1, steps);
  }

  lemma FirstIsFirst(es: seq<Event>, c: nat, n: nat, steps: seq<nat>)
    requires n <= |es| && steps == StepsOf(es, c, n) && |steps| == 4
    requires steps[0] < |es| ==> steps[1..] == StepsOf(es, c, steps[0] + 1)
    ensures steps[0] < steps[2] < |es| && steps[0] < steps[3] < |es|
  {
    hide StepsOf;
    var rest := StepsOf(es, c, steps[0] + 1);
    assert steps[2] == rest[1] && steps[3] == rest[2];
  }

  /** The first select of a call that updates a row as a loser. */
  lemma LosersFirstSelect(ws: seq<World>, es: seq<Event>, n: nat, k: nat, c: nat, q: Request, id: string)
    requires IsRun(ws, es) && LosesTo(ws, es, n, k, c, q, id)
    ensures var first := StepsOf(es, c, n + 1)[0]; first < k < |es| < |ws| && id !in ws[first].db.rows
  {
    hide IsRun, StepsOf, StartsRacing, LosesRace, UrlIsOf;
    LosersRaced(ws, es, n, k, c, q, id);
    var steps := StepsOf(es, c, n + 1);
    RacesInOrder(ws, es, n, c, q, steps);
    if id in ws[steps[0]].db.rows {
      UrlWasThere(ws, es, steps, q.url, id);
    }
  }

  lemma UrlWasThere(ws: seq<World>, es: seq<Event>, steps: seq<nat>, url: string, id: string)
    requires IsRun(ws, es) && |steps| == 4 && UrlIsOf(ws, steps, url, 2, id) && steps[0] < steps[2] <= |es| < |ws|
    requires id in ws[steps[0]].db.rows
    ensures !LosesRace(ws, steps, url)
  {
    hide IsRun, TableOk;
    RunKeepsWorld(ws, es, steps[0]);
    TableIsOkIn(ws[steps[0]]);
    hide WorldOk;
    RowKeepsAddress(ws, es, steps[0], steps[2], id);
  }

  /**
   * Exactly when the row a loser updates is verified already: its winner's row was verified, by a test or by
   * its token, in the short time since the loser's first select.
   */
  lemma LosersMeetVerifiedRowsExactly(ws: seq<World>, es: seq<Event>, n: nat, k: nat, c: nat, q: Request, id: string)
    requires IsRun(ws, es) && LosesTo(ws, es, n, k, c, q, id) && k < |ws| && id in ws[k].db.rows
    ensures var first := StepsOf(es, c, n + 1)[0];
            && first < k < |es| && id !in ws[first].db.rows
            && (ws[k].db.rows[id].verified <==> exists v :: first < v < k && Verifies(ws, v, id))
  {
    hide IsRun, WorldOk, LosesRace, UrlIsOf, Verifies, StepsOf;
    SameLength(ws, es);
    LosersFirstSelect(ws, es, n, k, c, q, id);
    var first := StepsOf(es, c, n + 1)[0];
    if ws[k].db.rows[id].verified {
      var b := InsertedBetween(ws, es, first, k, id);
      var v := VerifiedBetween(ws, es, b + 1, k, id);
    } else {
      forall v | first < v < k && Verifies(ws, v, id) ensures false {
        VerifiedLater(ws, es, v, k, id);
      }
    }
  }

  // ---- who changes a webhook row's filters ------------------------------------------------------

  /** Step `n` updates the filters of row `id`, which its call found at step `m`. */
  predicate UpdatesAfter(ws: seq<World>, es: seq<Event>, m: nat, n: nat, id: string, patch: FilterPatch) {
    && m < n < |es| < |ws| && es[n].Step? && Executes(ws, es, m, es[n].call) && Executes(ws, es, n, es[n].call)
    && ws[n].calls[es[n].call] == Frame(ws[m].calls[es[n].call].request, Patching(id, patch))
    && id in ws[m].db.rows
  }

  /** The statement with which it found the row. */
  function FoundAt(ws: seq<World>, es: seq<Event>, m: nat, n: nat): Point
    requires m < n < |es| < |ws| && es[n].Step? && Executes(ws, es, m, es[n].call)
  {
    ws[m].calls[es[n].call].at
  }

  /** A registration updates the row: it asked for `patch` and showed the secret its select found stored. */
  predicate UpdatesAsOwner(ws: seq<World>, es: seq<Event>, m: nat, n: nat, id: string, patch: FilterPatch) {
    UpdatesAfter(ws, es, m, n, id, patch) && FoundAt(ws, es, m, n) == SeekingUrl
    && var q := AskedAt(ws, es, n);
       q.Register? && q.filters == Some(patch) && q.secret.Some? && ws[m].db.rows[id].secret == q.secret
  }

  /** A manage link updates the row: it asked for `patch` and its select found its token stored. */
  predicate UpdatesByManageLink(ws: seq<World>, es: seq<Event>, m: nat, n: nat, id: string, patch: FilterPatch) {
    UpdatesAfter(ws, es, m, n, id, patch) && FoundAt(ws, es, m, n) == SeekingManaged
    && var q := AskedAt(ws, es, n);
       q.ManageFilters? && q.patch == patch && ws[m].db.rows[id].unsubscribeToken == q.token
  }

  /** A registration begun at step `b`, which asked for `patch`, updates the row because it lost its race. */
  predicate UpdatesAsLoser(ws: seq<World>, es: seq<Event>, b: nat, n: nat, id: string, patch: FilterPatch) {
    && b < n < |es| && es[b].Begin? && es[n].Step?
    && LosesTo(ws, es, b, n, es[n].call, es[b].request, id) && es[b].request.filters == Some(patch)
  }

  /** A subscribe call for the row's address updates the row: it asked for `patch` and saw the row unverified. */
  predicate UpdatesAsSubscriber(ws: seq<World>, es: seq<Event>, m: nat, n: nat, id: string, patch: FilterPatch) {
    UpdatesAfter(ws, es, m, n, id, patch) && FoundAt(ws, es, m, n).Refinding?
    && var q := AskedAt(ws, es, n);
       q.Subscribe? && PatchOf(q.filters) == patch && !ws[m].db.rows[id].verified
       && ws[m].db.rows[id].endpoint == Address(q.email)
  }

  /** The row's own change link updates it, with what was proposed less than 72 hours before it was found. */
  ghost predicate UpdatesAsProposed(ws: seq<World>, es: seq<Event>, m: nat, n: nat, id: string, patch: FilterPatch) {
    exists p, token :: ChangesByOwnProposal(ws, es, p, m, n, id, token, patch)
  }

  ghost predicate UpdatesEmail(ws: seq<World>, es: seq<Event>, n: nat, id: string, patch: FilterPatch) {
    exists m: nat :: || UpdatesByManageLink(ws, es, m, n, id, patch) || UpdatesAsSubscriber(ws, es, m, n, id, patch)
                     || UpdatesAsProposed(ws, es, m, n, id, patch)
  }

  ghost predicate UpdatesWebhook(ws: seq<World>, es: seq<Event>, n: nat, id: string, patch: FilterPatch) {
    exists m: nat :: || UpdatesAsOwner(ws, es, m, n, id, patch) || UpdatesByManageLink(ws, es, m, n, id, patch)
                || UpdatesAsLoser(ws, es, m, n, id, patch)
  }

  /** Change tokens are issued for email rows only. */
  lemma ProposalsAreForEmail(ws: seq<World>, es: seq<Event>, p: nat, token: string, id: string, patch: FilterPatch,
                             at: int)
    requires IsRun(ws, es) && HandsOut(ws, es, p, token, ChangeToken(id, patch, at))
    ensures id in ws[p].issued && !IsWebhook(ws[p].issued, id)
  {
    hide IsRun, WorldOk, TableOk, IsFresh, Address, PatchOf, NewSubscription, HasEmptyList, IsTaken, LetterOk;
    SameLength(ws, es);
    RunKeepsWorld(ws, es, p);
    PointIsOkIn(ws[p], es[p].call);
  }

  /** A change confirmation never updates a webhook row. */
  lemma ProposalsMissWebhooks(ws: seq<World>, es: seq<Event>, n: nat, c: nat, id: string, patch: FilterPatch)
    requires IsRun(ws, es) && Executes(ws, es, n, c) && ws[n].calls[c].request.ConfirmChange?
    requires ws[n].calls[c].at == Patching(id, patch) && id in ws[n].db.rows
    ensures ws[n].db.rows[id].channel != Webhook
  {
    hide IsRun, WorldOk, TableOk, IsFresh, Address, PatchOf, HandsOut, Selects;
    SameLength(ws, es);
    var p, m := AppliesOwnProposal(ws, es, n, c, id, patch);
    ProposalsAreForEmail(ws, es, p, ws[n].calls[c].request.token, id, patch, ws[p].db.now);
    IssuesStay(ws, es, p, n, id);
    RunKeepsWorld(ws, es, n);
    RowIsOkIn(ws[n], id);
  }

  /** An update by Patching of a webhook row is the owner's or a manage link's. */
  lemma PatchingIsAllowed(ws: seq<World>, es: seq<Event>, n: nat, c: nat, id: string, patch: FilterPatch)
    requires IsRun(ws, es) && Executes(ws, es, n, c) && ws[n].calls[c].at == Patching(id, patch)
    requires id in ws[n].db.rows && ws[n].db.rows[id].channel == Webhook
    ensures UpdatesWebhook(ws, es, n, id, patch)
  {
    hide IsRun, WorldOk, TableOk, IsFresh, Address, PatchOf, ByPendingToken, LosesTo;
    SameLength(ws, es);
    var m := PatchSelected(ws, es, n, c);
    var q := ws[n].calls[c].request;
    if q.Subscribe? {
      RowKeepsAddress(ws, es, m, n, id);
    } else if q.ConfirmChange? {
      ProposalsMissWebhooks(ws, es, n, c, id, patch);
    } else if q.Register? {
      assert UpdatesAsOwner(ws, es, m, n, id, patch);
    } else {
      assert UpdatesByManageLink(ws, es, m, n, id, patch);
    }
  }

  lemma LosingIsLosing(ws: seq<World>, es: seq<Event>, n: nat, c: nat, id: string, patch: FilterPatch)
    requires IsRun(ws, es) && Executes(ws, es, n, c) && ws[n].calls[c].at == LoserPatching(id)
    requires ws[n].calls[c].request.Register? && ws[n].calls[c].request.filters == Some(patch)
    ensures UpdatesWebhook(ws, es, n, id, patch)
  {
    hide IsRun, TableOk, IsFresh, LosesTo, UpdatesAfter;
    SameLength(ws, es);
    var b := WasBegun(ws, es, n, c);
    LoserPatchesExactly(ws, es, b, c, ws[n].calls[c].request, n, id);
    assert UpdatesAsLoser(ws, es, b, n, id, patch);
  }

  /** What the three ways have in common. */
  lemma WebhookUpdatesPatch(ws: seq<World>, es: seq<Event>, n: nat, id: string, patch: FilterPatch)
    requires IsRun(ws, es) && n < |es| && UpdatesWebhook(ws, es, n, id, patch)
    ensures es[n].Step? && PatchesAt(ws, es, n, es[n].call, id, patch)
  {
    hide IsRun, TableOk, IsFresh, StepsOf, LosesRace, UrlIsOf, AskedAt;
    var m: nat :| UpdatesAsOwner(ws, es, m, n, id, patch) || UpdatesByManageLink(ws, es, m, n, id, patch)
             || UpdatesAsLoser(ws, es, m, n, id, patch);
    if UpdatesAsLoser(ws, es, m, n, id, patch) {
      LoserPatchesExactly(ws, es, m, es[n].call, es[m].request, n, id);
    }
  }

  /**
   * A webhook row's filters change exactly when lists that are not empty and new to it are written by a
   * registration that showed the row's secret, by the row's own manage link, or by a registration without a
   * secret that lost its race to the row.
   */
  lemma WebhookFiltersChangeExactly(ws: seq<World>, es: seq<Event>, n: nat, id: string)
    requires IsRun(ws, es) && n < |es| && id in ws[n].db.rows && ws[n].db.rows[id].channel == Webhook
    ensures ChangesFilters(ws, n, id) <==>
            exists patch :: UpdatesWebhook(ws, es, n, id, patch) && !HasEmptyList(patch)
                            && Patched(ws[n].db.rows[id].filters, patch) != ws[n].db.rows[id].filters
  {
    hide IsRun, TableOk, IsFresh, HasEmptyList, Patched, UpdatesWebhook, ChangesFilters;
    FiltersChangeExactlyByPatches(ws, es, n, id);
    if ChangesFilters(ws, n, id) {
      var c := es[n].call;
      var patch :| PatchesAt(ws, es, n, c, id, patch) && !HasEmptyList(patch)
                   && Patched(ws[n].db.rows[id].filters, patch) != ws[n].db.rows[id].filters;
      if ws[n].calls[c].at.Patching? {
        PatchingIsAllowed(ws, es, n, c, id, patch);
      } else {
        LosingIsLosing(ws, es, n, c, id, patch);
      }
    }
    forall patch | UpdatesWebhook(ws, es, n, id, patch)
      ensures es[n].Step? && PatchesAt(ws, es, n, es[n].call, id, patch)
    {
      WebhookUpdatesPatch(ws, es, n, id, patch);
    }
  }

  // ---- who changes an email row's filters -------------------------------------------------------

  /** An update by Patching of an email row is a manage link's, a change link's or a subscribe call's. */
  lemma EmailPatchingIsAllowed(ws: seq<World>, es: seq<Event>, n: nat, c: nat, id: string, patch: FilterPatch)
    requires IsRun(ws, es) && Executes(ws, es, n, c) && ws[n].calls[c].at == Patching(id, patch)
    requires id in ws[n].db.rows && ws[n].db.rows[id].channel == Email
    ensures UpdatesEmail(ws, es, n, id, patch)
  {
    hide IsRun, WorldOk, TableOk, IsFresh, Address, PatchOf, ByPendingToken, ChangesByOwnProposal;
    SameLength(ws, es);
    var m := PatchSelected(ws, es, n, c);
    var q := ws[n].calls[c].request;
    if q.Subscribe? {
      assert UpdatesAsSubscriber(ws, es, m, n, id, patch);
    } else if q.ConfirmChange? {
      var p, k := AppliesOwnProposal(ws, es, n, c, id, patch);
      assert UpdatesAsProposed(ws, es, k, n, id, patch);
    } else if q.Register? {
      RowKeepsAddress(ws, es, m, n, id);
    } else {
      assert UpdatesByManageLink(ws, es, m, n, id, patch);
    }
  }

  /** No registration loses a race to an email row. */
  lemma LosersMissEmail(ws: seq<World>, es: seq<Event>, n: nat, c: nat, id: string, patch: FilterPatch)
    requires IsRun(ws, es) && PatchesAt(ws, es, n, c, id, patch) && ws[n].calls[c].at.LoserPatching?
    requires id in ws[n].db.rows
    ensures ws[n].db.rows[id].channel != Email
  {
    hide IsRun, WorldOk, TableOk, IsFresh;
    SameLength(ws, es);
    RegistrationsPatchWebhooks(ws, es, n, c, id, patch);
    RunKeepsWorld(ws, es, n);
    RowIsOkIn(ws[n], id);
  }

  lemma EmailUpdatesPatch(ws: seq<World>, es: seq<Event>, n: nat, id: string, patch: FilterPatch)
    requires IsRun(ws, es) && n < |es| && UpdatesEmail(ws, es, n, id, patch)
    ensures es[n].Step? && PatchesAt(ws, es, n, es[n].call, id, patch)
  {
    hide IsRun, TableOk, IsFresh, AskedAt, Address, PatchOf, HandsOut, Found;
  }

  /**
   * An email row's filters change exactly when lists that are not empty and new to it are written by the row's
   * own manage link, by its own change link, or by a subscribe call for its address that saw it unverified.
   */
  lemma EmailFiltersChangeExactly(ws: seq<World>, es: seq<Event>, n: nat, id: string)
    requires IsRun(ws, es) && n < |es| && id in ws[n].db.rows && ws[n].db.rows[id].channel == Email
    ensures ChangesFilters(ws, n, id) <==>
            exists patch :: UpdatesEmail(ws, es, n, id, patch) && !HasEmptyList(patch)
                            && Patched(ws[n].db.rows[id].filters, patch) != ws[n].db.rows[id].filters
  {
    hide IsRun, TableOk, IsFresh, HasEmptyList, Patched, UpdatesEmail, ChangesFilters;
    FiltersChangeExactlyByPatches(ws, es, n, id);
    if ChangesFilters(ws, n, id) {
      var c := es[n].call;
      var patch :| PatchesAt(ws, es, n, c, id, patch) && !HasEmptyList(patch)
                   && Patched(ws[n].db.rows[id].filters, patch) != ws[n].db.rows[id].filters;
      if ws[n].calls[c].at.Patching? {
        EmailPatchingIsAllowed(ws, es, n, c, id, patch);
      } else {
        LosersMissEmail(ws, es, n, c, id, patch);
      }
    }
    forall patch | UpdatesEmail(ws, es, n, id, patch)
      ensures es[n].Step? && PatchesAt(ws, es, n, es[n].call, id, patch)
    {
      EmailUpdatesPatch(ws, es, n, id, patch);
    }
  }
}
