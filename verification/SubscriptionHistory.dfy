/**
 * What the statements write to a subscription row, list by list, and what the lists of a row are in every state
 * of every run (src/core/subscriptions.ts).
 */
module SubscriptionHistory {
  import opened Types
  import opened Text
  import opened Subscriptions
  import opened SubscriptionWorld
  import opened SubscriptionRuns

  // ---- one list ---------------------------------------------------------------------------------

  /** One of the four lists: in a row, in what a caller gives, and when nobody gave one. */
  datatype ListColumn<!T> = ListColumn(of: Filters -> seq<T>, given: FilterPatch -> Option<seq<T>>, byDefault: seq<T>)

  const NETWORKS: ListColumn<Network> := ListColumn(
    (f: Filters) => f.networks, (p: FilterPatch) => p.networks, [Mainnet, Testnet])

  const TYPES: ListColumn<AnnouncementType> := ListColumn(
    (f: Filters) => f.types, (p: FilterPatch) => p.types, [Upgrade, Governance, Info])

  const SEVERITIES: ListColumn<Severity> := ListColumn(
    (f: Filters) => f.severities, (p: FilterPatch) => p.severities, [Critical, Recommended, Informational])

  const AUDIENCES: ListColumn<Audience> := ListColumn(
    (f: Filters) => f.audiences, (p: FilterPatch) => p.audiences, [Operators])

  /** The list is the given one, or as before when none is given. */
  predicate GivenOr<T(==)>(after: seq<T>, given: Option<seq<T>>, before: seq<T>) {
    after == match given { case Some(list) => list case None => before }
  }

  predicate IsMerged(after: Filters, patch: FilterPatch, before: Filters) {
    && GivenOr(after.networks, patch.networks, before.networks) && GivenOr(after.types, patch.types, before.types)
    && GivenOr(after.severities, patch.severities, before.severities)
    && GivenOr(after.audiences, patch.audiences, before.audiences)
  }

  /** A given list that is empty, whichever it is, makes a write fail. */
  predicate GivesAnEmptyList(patch: FilterPatch) {
    || (patch.networks.Some? && |patch.networks.value| == 0) || (patch.types.Some? && |patch.types.value| == 0)
    || (patch.severities.Some? && |patch.severities.value| == 0)
    || (patch.audiences.Some? && |patch.audiences.value| == 0)
  }

  lemma EmptyListsAreRefused(patch: FilterPatch)
    ensures HasEmptyList(patch) <==> GivesAnEmptyList(patch)
  {
  }

  /** updateSubscriptionFilters: each given list replaces the stored one, and nothing else of the table changes. */
  lemma UpdateMergesLists(t: Table, id: string, patch: FilterPatch)
    ensures id in t ==>
              var r := Filtered(t, id, patch);
              && r.Keys == t.Keys && IsMerged(r[id].filters, patch, t[id].filters)
              && r[id] == t[id].(filters := r[id].filters)
              && forall i :: i in t && i != id ==> r[i] == t[i]
    ensures id !in t ==> Filtered(t, id, patch) == t
  {
  }

  /** How an insert ends: refused for an empty list, else a conflict when a unique key is taken, else stored. */
  lemma InsertEndsExactly(t: Table, channel: Channel, endpoint: string, patch: FilterPatch, d: Draw, now: int)
    ensures var r := InsertResult(t, patch, NewSubscription(channel, endpoint, patch, d, now));
            && (r.EmptyList? <==> GivesAnEmptyList(patch))
            && (r.Conflict? <==>
                && !GivesAnEmptyList(patch)
                && (|| d.id in t
                    || exists i :: i in t && (|| (t[i].channel == channel && t[i].endpoint == endpoint)
                                              || t[i].unsubscribeToken == d.unsubscribeToken
                                              || t[i].verifyToken == Some(d.verifyToken))))
  {
    EmptyListsAreRefused(patch);
    hide HasEmptyList, GivesAnEmptyList, Patched;
  }

  /** Every statement that inserts throws for an empty list, and changes nothing. */
  lemma EmptyListsThrow(s: State, q: Request, p: Point, d: Draw, ok: bool)
    requires TableOk(s.rows) && Fits(q, p) && (p.Inserting? || p.LastInserting? || p.Registering?)
    requires GivesAnEmptyList(PatchOf(q.filters))
    ensures Statement(s, q, p, d, ok) == (s, Done(Threw))
  {
    EmptyListsAreRefused(PatchOf(q.filters));
    hide TableOk, HasEmptyList, GivesAnEmptyList, Address, PatchOf, NewSubscription, IsTaken;
  }

  /** createSubscription: unverified, both tokens and the secret drawn, each list given or the default. */
  lemma InsertStartsFromDefaults(channel: Channel, endpoint: string, patch: FilterPatch, d: Draw, now: int)
    ensures var r := NewSubscription(channel, endpoint, patch, d, now);
            && IsMerged(r.filters, patch, Filters(NETWORKS.byDefault, TYPES.byDefault, SEVERITIES.byDefault,
                                                  AUDIENCES.byDefault))
            && r == Subscription(d.id, channel, endpoint, false, if channel == Webhook then Some(d.secret) else None,
                                 r.filters, d.unsubscribeToken, Some(d.verifyToken), Some(now), None, None, None)
  {
  }

  /** Row `id` becomes `r`, and nothing else of the table changes; a missing row stays missing. */
  predicate ChangesOnly(before: Table, after: Table, id: string, r: Subscription) {
    && after.Keys == before.Keys && (forall i :: i in before && i != id ==> after[i] == before[i])
    && (id in before ==> after[id] == r)
  }

  /** The confirmation columns and the proposal columns of a row, with everything else of `o`. */
  function WithTokens(o: Subscription, verified: bool, token: Option<string>, issuedAt: Option<int>,
                      filters: Option<FilterPatch>, pending: Option<string>, pendingAt: Option<int>): Subscription
  {
    Subscription(o.id, o.channel, o.endpoint, verified, o.secret, o.filters, o.unsubscribeToken, token, issuedAt,
                 filters, pending, pendingAt)
  }

  /**
   * The four updates of tokens, column by column: verifying spends the confirmation token, a fresh one starts its
   * 72 hours, a proposal stores its lists and token, and clearing removes both.
   */
  lemma TokenUpdatesWrite(t: Table, id: string, patch: FilterPatch, token: string, now: int)
    requires id in t
    ensures var o := t[id];
            && ChangesOnly(t, Verified(t, id), id,
                           WithTokens(o, true, None, None, o.pendingFilters, o.pendingToken, o.pendingIssuedAt))
            && ChangesOnly(t, Reissued(t, id, token, now), id,
                           WithTokens(o, o.verified, Some(token), Some(now), o.pendingFilters, o.pendingToken,
                                      o.pendingIssuedAt))
            && ChangesOnly(t, Proposed(t, id, patch, token, now), id,
                           WithTokens(o, o.verified, o.verifyToken, o.verifyIssuedAt, Some(patch), Some(token),
                                      Some(now)))
            && ChangesOnly(t, Cleared(t, id), id,
                           WithTokens(o, o.verified, o.verifyToken, o.verifyIssuedAt, None, None, None))
  {
  }

  /** A fresh token is refused exactly when another row holds it in the same column. */
  lemma TokenConflictsExactly(s: State, q: Request, p: Point, d: Draw, ok: bool)
    requires TableOk(s.rows) && Fits(q, p) && (p.Proposing? || p.Reissuing?)
    ensures Statement(s, q, p, d, ok).1 == Done(AlreadyExists) <==>
            exists i :: i in s.rows && i != p.id
                        && Some(d.freshToken)
                           == if p.Proposing? then s.rows[i].pendingToken else s.rows[i].verifyToken
  {
    hide TableOk, Address, PatchOf, Proposed, Reissued;
  }

  /** An address is stored without the blanks around it and in small letters, character by character. */
  lemma AddressIsLowered(raw: string) returns (a: nat, b: nat)
    ensures a <= b <= |raw| && |Address(raw)| == b - a
    ensures forall i :: a <= i < b ==>
              Address(raw)[i - a] == if 'A' <= raw[i] <= 'Z' then raw[i] - 'A' + 'a' else raw[i]
    ensures (forall i :: 0 <= i < a ==> IsSpace(raw[i])) && (forall i :: b <= i < |raw| ==> IsSpace(raw[i]))
    ensures a < b ==> !IsSpace(raw[a]) && !IsSpace(raw[b - 1])
  {
    a, b := TrimIs(raw);
    hide Trim;
    forall i | a <= i < b
      ensures Address(raw)[i - a] == if 'A' <= raw[i] <= 'Z' then raw[i] - 'A' + 'a' else raw[i]
    {
      assert Trim(raw)[i - a] == raw[i];
    }
  }

  /** A link works for 72 hours, to the millisecond. */
  lemma LinksLiveSeventyTwoHours(issuedAt: Option<int>, now: int)
    ensures IsLive(issuedAt, now) <==> issuedAt.Some? && now - issuedAt.value < 259_200_000
  {
  }

  // ---- over runs --------------------------------------------------------------------------------

  /** What a statement writes to the lists of row `id`, if it writes to them. */
  function WritesTo(s: State, q: Request, p: Point, d: Draw, id: string): Option<FilterPatch>
    requires Fits(q, p)
  {
    match p
    case Patching(i, patch) => if i == id && id in s.rows && !GivesAnEmptyList(patch) then Some(patch) else None
    case LoserPatching(i) =>
      if i == id && id in s.rows && !GivesAnEmptyList(q.filters.value) then q.filters else None
    case Inserting(_) => InsertsTo(s, Email, Address(q.email), PatchOf(q.filters), d, id)
    case LastInserting => InsertsTo(s, Email, Address(q.email), PatchOf(q.filters), d, id)
    case Registering => InsertsTo(s, Webhook, q.url, PatchOf(q.filters), d, id)
    case _ => None
  }

  function InsertsTo(s: State, channel: Channel, endpoint: string, patch: FilterPatch, d: Draw, id: string)
    : Option<FilterPatch>
  {
    if d.id == id && InsertResult(s.rows, patch, NewSubscription(channel, endpoint, patch, d, s.now)).Stored?
    then Some(patch) else None
  }

  lemma StatementWrites(s: State, q: Request, p: Point, d: Draw, id: string)
    requires Fits(q, p) && RowAfter(s, q, p, d, id).Some? && (id in s.rows ==> id != d.id)
    ensures var r, w := RowAfter(s, q, p, d, id).value, WritesTo(s, q, p, d, id);
            if id in s.rows then
              if w.Some? then IsMerged(r.filters, w.value, s.rows[id].filters) else r.filters == s.rows[id].filters
            else w.Some? && IsMerged(r.filters, w.value, DEFAULTS)
  {
    hide VerifyTaken, PendingTaken, IsTaken, Address, PatchOf;
    if p.Patching? {
      EmptyListsAreRefused(p.patch);
    } else if p.LoserPatching? {
      EmptyListsAreRefused(q.filters.value);
    }
    hide HasEmptyList, GivesAnEmptyList;
  }

  /** What step `i` writes to the lists of row `id`, if it writes to them. */
  ghost function WrittenAt(ws: seq<World>, es: seq<Event>, i: nat, id: string): Option<FilterPatch> {
    if i < |es| < |ws| && es[i].Step? && Executes(ws, es, i, es[i].call) then
      WritesTo(ws[i].db, ws[i].calls[es[i].call].request, ws[i].calls[es[i].call].at, es[i].draw, id)
    else None
  }

  lemma StepWrites(ws: seq<World>, es: seq<Event>, n: nat, id: string)
    requires IsRun(ws, es) && n < |es| && id in ws[n + 1].db.rows
    ensures var r, w := ws[n + 1].db.rows[id], WrittenAt(ws, es, n, id);
            if id in ws[n].db.rows then
              if w.Some? then IsMerged(r.filters, w.value, ws[n].db.rows[id].filters)
              else r.filters == ws[n].db.rows[id].filters
            else w.Some? && IsMerged(r.filters, w.value, DEFAULTS)
  {
    hide IsRun, WorldOk, TableOk, IsFresh, RowAfter, WritesTo, IsMerged;
    SameLength(ws, es);
    RunRow(ws, es, n, id);
    if id in ws[n].db.rows {
      DrawIsNew(ws[n], es[n], id);
    }
    if es[n].Step? {
      var f := ws[n].calls[es[n].call];
      StatementWrites(ws[n].db, f.request, f.at, es[n].draw, id);
    }
  }

  /** Step `p` gave the list, and no step since gave another. */
  ghost predicate GaveLast<T(!new)>(column: ListColumn<T>, ws: seq<World>, es: seq<Event>, p: nat, n: nat, id: string,
                                    list: seq<T>) {
    && p < n && GivenAt(column, ws, es, p, id) == Some(list)
    && forall j: nat :: p < j < n ==> GivenAt(column, ws, es, j, id).None?
  }

  ghost function GivenAt<T>(column: ListColumn<T>, ws: seq<World>, es: seq<Event>, i: nat, id: string): Option<seq<T>> {
    match WrittenAt(ws, es, i, id)
    case None => None
    case Some(patch) => column.given(patch)
  }

  ghost predicate NobodyGave<T(!new)>(column: ListColumn<T>, ws: seq<World>, es: seq<Event>, n: nat, id: string) {
    forall j: nat :: j < n ==> GivenAt(column, ws, es, j, id).None?
  }

  /** The list of row `id` is the one given last, or the default when nobody ever gave one. */
  ghost predicate HoldsTheLastGiven<T(!new)>(column: ListColumn<T>, ws: seq<World>, es: seq<Event>, n: nat, id: string)
    requires n < |ws| && id in ws[n].db.rows
  {
    var list := column.of(ws[n].db.rows[id].filters);
    || (exists p: nat :: GaveLast(column, ws, es, p, n, id, list))
    || (NobodyGave(column, ws, es, n, id) && list == column.byDefault)
  }

  /** The column is one of the four lists. */
  ghost predicate IsAList<T(!new)>(column: ListColumn<T>) {
    && column.of(DEFAULTS) == column.byDefault
    && forall a: Filters, p: FilterPatch, b: Filters | IsMerged(a, p, b) ::
         GivenOr(column.of(a), column.given(p), column.of(b))
  }

  lemma FourLists()
    ensures IsAList(NETWORKS) && IsAList(TYPES) && IsAList(SEVERITIES) && IsAList(AUDIENCES)
  {
  }

  /** A row that appears now was never stored before, so nobody gave it a list. */
  lemma NewRowsAreNew(ws: seq<World>, es: seq<Event>, n: nat, id: string)
    requires IsRun(ws, es) && n < |es| && id !in ws[n].db.rows && id in ws[n + 1].db.rows
    ensures forall j: nat :: j < n ==> WrittenAt(ws, es, j, id).None?
  {
    hide IsRun, WorldOk;
    SameLength(ws, es);
    forall j: nat | j < n ensures WrittenAt(ws, es, j, id).None? {
      WrittenIsStored(ws, es, j, id);
      if WrittenAt(ws, es, j, id).Some? {
        RunKeepsWorld(ws, es, j + 1);
        RowIsOkIn(ws[j + 1], id);
        IssuesStay(ws, es, j + 1, n, id);
        RowsDoNotReturn(ws, es, n, id);
      }
    }
  }

  /** What is written to is stored. */
  lemma WrittenIsStored(ws: seq<World>, es: seq<Event>, n: nat, id: string)
    requires IsRun(ws, es) && n < |es|
    ensures WrittenAt(ws, es, n, id).Some? ==> id in ws[n + 1].db.rows
  {
    hide IsRun, WorldOk, TableOk, IsFresh, IsTaken, Address, PatchOf, Updated, NewSubscription, GivesAnEmptyList;
    SameLength(ws, es);
    RunRow(ws, es, n, id);
  }

  lemma {:induction false} ListHoldsTheLastGiven<T(!new)>(column: ListColumn<T>, ws: seq<World>, es: seq<Event>, n: nat,
                                                          id: string)
    requires IsRun(ws, es) && IsAList(column) && n <= |es| && n < |ws| && id in ws[n].db.rows
    ensures HoldsTheLastGiven(column, ws, es, n, id)
  {
    hide IsRun, WrittenAt, IsMerged;
    StartsEmpty(ws, es);
    StepWrites(ws, es, n - 1, id);
    var w := WrittenAt(ws, es, n - 1, id);
    var list := column.of(ws[n].db.rows[id].filters);
    if w.Some? && column.given(w.value).Some? {
      assert GaveLast(column, ws, es, n - 1, n, id, list);
    } else if id !in ws[n - 1].db.rows {
      NewRowsAreNew(ws, es, n - 1, id);
      assert NobodyGave(column, ws, es, n, id);
    } else {
      var m: nat := n - 1;
      ListHoldsTheLastGiven(column, ws, es, m, id);
      if p: nat :| GaveLast(column, ws, es, p, m, id, list) {
        assert GaveLast(column, ws, es, p, n, id, list);
      } else {
        assert NobodyGave(column, ws, es, n, id);
      }
    }
  }

  /** In every state of every run each list of a row is the one last given for it, or the default when none was. */
  lemma ListsHoldTheLastGiven(ws: seq<World>, es: seq<Event>, n: nat, id: string)
    requires IsRun(ws, es) && n <= |es| && n < |ws| && id in ws[n].db.rows
    ensures HoldsTheLastGiven(NETWORKS, ws, es, n, id) && HoldsTheLastGiven(TYPES, ws, es, n, id)
    ensures HoldsTheLastGiven(SEVERITIES, ws, es, n, id) && HoldsTheLastGiven(AUDIENCES, ws, es, n, id)
  {
    hide IsRun, HoldsTheLastGiven, IsAList;
    FourLists();
    ListHoldsTheLastGiven(NETWORKS, ws, es, n, id);
    ListHoldsTheLastGiven(TYPES, ws, es, n, id);
    ListHoldsTheLastGiven(SEVERITIES, ws, es, n, id);
    ListHoldsTheLastGiven(AUDIENCES, ws, es, n, id);
  }
}
