/** What every lifecycle transaction keeps (src/core/announcements.ts, src/core/queries.ts). */
module Lifecycle {
  import opened Types
  import opened Text
  import opened Outbox
  import opened Announcements

  predicate TwoPeople(a: Option<string>, b: Option<string>) {
    a.Some? && b.Some? && Lower(a.value) != Lower(b.value)
  }

  /** The columns each status allows. */
  predicate RowOk(r: Row) {
    match r.status
    case Draft =>
      r.requestedBy.None? && r.confirmedBy.None? && r.scheduledFor.None? && r.publishedAt.None?
    case Discarded =>
      r.requestedBy.None? && r.confirmedBy.None? && r.scheduledFor.None? && r.publishedAt.None?
    case PublishRequested =>
      r.content.severity == Critical && r.requestedBy.Some? && r.confirmedBy.None? && r.publishedAt.None?
    case Scheduled =>
      && r.scheduledFor.Some? && r.publishedAt.None?
      && (if r.content.severity == Critical then TwoPeople(r.requestedBy, r.confirmedBy)
          else r.requestedBy.None? && r.confirmedBy.None?)
    case Published =>
      && r.publishedAt.Some? && r.confirmedBy.Some?
      && (if r.content.severity == Critical then TwoPeople(r.requestedBy, r.confirmedBy) else r.requestedBy.None?)
    case Superseded => false
  }

  /** Revision `r` of `k`'s announcement is an untouched draft that carries the same slug. */
  predicate EarlierRevision(rows: map<Key, Row>, k: Key, r: nat)
    requires k in rows
  {
    var e := Key(k.id, r);
    e in rows && rows[e].status == Draft && rows[e].slug == rows[k].slug
  }

  predicate RevisionsOk(rows: map<Key, Row>) {
    && (forall k :: k in rows ==> RowOk(rows[k]) && 1 <= k.revision)
    && (forall k :: k in rows ==> forall r: nat | 1 <= r < k.revision :: EarlierRevision(rows, k, r))
    && (forall j, k :: j in rows && k in rows && rows[j].slug == rows[k].slug ==> j.id == k.id)
  }

  /** Every outbox row belongs to a published revision. */
  predicate OutboxOk(rows: map<Key, Row>, ledger: map<LedgerKey, Delivery>) {
    forall l :: l in ledger ==> l.key in rows && rows[l.key].status == Published && l.kind == Publish
  }

  predicate StoreOk(s: Store) {
    RevisionsOk(s.rows) && OutboxOk(s.rows, s.ledger) && TablesOk(s.settings, s.subs)
  }

  // ---- latest revisions ---------------------------------------------------------------------

  /** A revision in any status but draft is the latest of its id. */
  lemma NonDraftIsLatest(rows: map<Key, Row>, k: Key)
    requires RevisionsOk(rows) && k in rows && rows[k].status != Draft
    ensures Latest(rows, k.id) == Some(k)
  {
    var top := Latest(rows, k.id).value;
    assert top.revision > k.revision ==> EarlierRevision(rows, top, k.revision);
  }

  /** An id's revisions are 1..n without gaps, all under one slug. */
  lemma RevisionsAreContiguous(rows: map<Key, Row>, id: string)
    requires RevisionsOk(rows)
    ensures var top := Latest(rows, id);
            var n := if top.Some? then top.value.revision else 0;
            && (forall r: nat :: Key(id, r) in rows <==> 1 <= r <= n)
            && (forall r: nat | 1 <= r <= n :: rows[Key(id, r)].slug == rows[top.value].slug)
  {
    var top := Latest(rows, id);
    if top.Some? {
      forall r: nat | 1 <= r <= top.value.revision
        ensures Key(id, r) in rows && rows[Key(id, r)].slug == rows[top.value].slug
      {
        if r < top.value.revision {
          assert EarlierRevision(rows, top.value, r);
        }
      }
    }
  }

  /** `distinct on (id) … order by id, revision desc`, then the status filter (src/core/queries.ts). */
  function LatestView(rows: map<Key, Row>, status: Status): set<Key> {
    set k | k in rows && Latest(rows, k.id) == Some(k) && rows[k].status == status
  }

  /** `where status = …` over all revisions. */
  function PlainView(rows: map<Key, Row>, status: Status): set<Key> {
    set k | k in rows && rows[k].status == status
  }

  /** For every status but draft the plain scan finds exactly what the latest-revision scan finds. */
  lemma PlainScanIsLatestScan(rows: map<Key, Row>, status: Status)
    requires RevisionsOk(rows) && status != Draft
    ensures PlainView(rows, status) == LatestView(rows, status)
  {
    forall k | k in PlainView(rows, status) ensures k in LatestView(rows, status) {
      NonDraftIsLatest(rows, k);
    }
  }

  /** For drafts the two scans differ exactly when some announcement has been edited. */
  lemma DraftScanNeedsLatest(rows: map<Key, Row>)
    requires RevisionsOk(rows)
    ensures PlainView(rows, Draft) == LatestView(rows, Draft) <==> forall k :: k in rows ==> k.revision == 1
  {
    if k :| k in rows && k.revision != 1 {
      assert EarlierRevision(rows, k, 1);
      var first := Key(k.id, 1);
      assert first in PlainView(rows, Draft) && first !in LatestView(rows, Draft);
    } else {
      forall k | k in PlainView(rows, Draft) ensures k in LatestView(rows, Draft) {
        assert Latest(rows, k.id).value.revision == 1;
      }
    }
  }

  // ---- single transactions ------------------------------------------------------------------

  /**
   * The row-level rules: a legal row stays legal, keeps its content and slug, and publishes exactly
   * when it says so.
   */
  lemma DecideKeepsRowOk(r: Row, c: Command, now: int)
    requires RowOk(r)
    ensures Decide(r, c, now).Accept? ==>
              var d := Decide(r, c, now);
              && RowOk(d.row) && d.row.slug == r.slug
              && (d.publishes <==> d.row.status == Published)
              && (c.Revise? ==> r.status == Draft && d.row.status == Draft)
              && (!c.Revise? ==> d.row.content == r.content && d.row.createdBy == r.createdBy)
              && r.status != Published && r.status != Discarded
  {
  }

  lemma FreshSlugKeepsRevisions(rows: map<Key, Row>, key: Key, r: Row)
    requires RevisionsOk(rows) && key.revision == 1 && key !in rows
    requires RowOk(r) && !SlugTaken(rows, r.slug)
    requires forall k :: k in rows ==> k.id != key.id
    ensures RevisionsOk(rows[key := r])
  {
    var after := rows[key := r];
    forall k, n: nat | k in after && 1 <= n < k.revision ensures EarlierRevision(after, k, n) {
      assert EarlierRevision(rows, k, n);
    }
  }

  lemma NextRevisionKeepsRevisions(rows: map<Key, Row>, top: Key, r: Row)
    requires RevisionsOk(rows) && Latest(rows, top.id) == Some(top)
    requires rows[top].status == Draft && RowOk(r) && r.slug == rows[top].slug
    ensures RevisionsOk(rows[Key(top.id, top.revision + 1) := r])
  {
    var key := Key(top.id, top.revision + 1);
    var after := rows[key := r];
    assert key !in rows;
    forall k, n: nat | k in after && 1 <= n < k.revision ensures EarlierRevision(after, k, n) {
      if k == key {
        if n < top.revision {
          assert EarlierRevision(rows, top, n);
        }
      } else {
        assert EarlierRevision(rows, k, n);
      }
    }
  }

  lemma LatestUpdateKeepsRevisions(rows: map<Key, Row>, top: Key, r: Row)
    requires RevisionsOk(rows) && Latest(rows, top.id) == Some(top)
    requires RowOk(r) && r.slug == rows[top].slug
    ensures RevisionsOk(rows[top := r])
  {
    var after := rows[top := r];
    forall k, n: nat | k in after && 1 <= n < k.revision ensures EarlierRevision(after, k, n) {
      assert EarlierRevision(rows, k, n);
    }
  }

  /** Once key 1 of a free id is absent, no revision of that id exists. */
  lemma AbsentFirstRevision(rows: map<Key, Row>, id: string)
    requires RevisionsOk(rows) && Key(id, 1) !in rows
    ensures forall k :: k in rows ==> k.id != id
  {
    forall k | k in rows ensures k.id != id {
      assert k.revision > 1 ==> EarlierRevision(rows, k, 1);
      assert k.revision == 1 ==> k == Key(k.id, 1);
    }
  }

  /** Publishing an unpublished row inserts exactly its targets, each once, all pending. */
  lemma PublishInsertsEveryTarget(s: Store, a: Announcement)
    requires StoreOk(s) && a.key in s.rows && s.rows[a.key].status != Published
    ensures var targets := FanoutTargets(a.row.content, s.settings, s.subs, s.enabled);
            && Distinct(targets)
            && Enqueue(s.ledger, a.key, Publish, targets, s.now).1 == |targets|
            && (forall l :: l in Deliveries(s, a) <==>
                  l in s.ledger || (l.key == a.key && l.kind == Publish && l.target in targets))
            && (forall l :: l in Deliveries(s, a) && l.key == a.key ==> Deliveries(s, a)[l] == NewDelivery(s.now))
            && (forall l :: l in s.ledger ==> Deliveries(s, a)[l] == s.ledger[l])
  {
    var targets := FanoutTargets(a.row.content, s.settings, s.subs, s.enabled);
    TargetsDistinct(a.row.content, s.settings, s.subs, s.enabled);
    EnqueueInsertsEveryTarget(s.ledger, a.key, Publish, targets, s.now);
    EnqueueAdds(s.ledger, a.key, Publish, targets, s.now);
  }

  /** Rewriting the latest revision, publishing it or not, keeps every table invariant. */
  lemma WriteLatestKeepsStore(s: Store, top: Key, r: Row, action: AuditAction, actor: string, publishes: bool)
    requires StoreOk(s) && Latest(s.rows, top.id) == Some(top)
    requires RowOk(r) && r.slug == s.rows[top].slug && s.rows[top].status != Published
    requires publishes <==> r.status == Published
    ensures StoreOk(Write(s, Announcement(top, r), action, actor, publishes))
  {
    var a := Announcement(top, r);
    LatestUpdateKeepsRevisions(s.rows, top, r);
    DeliveriesKeepOutbox(s, a);
    OutboxKeepsStatus(s.rows, s.ledger, top, r);
    hide RevisionsOk, RowOk, OutboxOk, FanoutTargets, Deliveries, TablesOk, Latest;
  }

  lemma DeliveriesKeepOutbox(s: Store, a: Announcement)
    requires StoreOk(s) && a.key in s.rows && s.rows[a.key].status != Published
    ensures a.row.status == Published ==> OutboxOk(s.rows[a.key := a.row], Deliveries(s, a))
  {
    PublishInsertsEveryTarget(s, a);
    hide RevisionsOk, Deliveries, FanoutTargets, TablesOk;
  }

  lemma OutboxKeepsStatus(rows: map<Key, Row>, ledger: map<LedgerKey, Delivery>, top: Key, r: Row)
    requires OutboxOk(rows, ledger) && top in rows && rows[top].status != Published
    ensures OutboxOk(rows[top := r], ledger)
  {
  }

  lemma CreateKeepsStore(s: Store, c: Command)
    requires StoreOk(s) && c.Create?
    ensures StoreOk(Perform(s, c).0)
  {
    if Perform(s, c).1.Ok? {
      AbsentFirstRevision(s.rows, c.id);
      var slug := FreeSlug(s.rows, c.base, 1).value;
      FreshSlugKeepsRevisions(s.rows, Key(c.id, 1), NewRow(c.content, slug, c.actor));
    }
  }

  /** What a successful command other than createDraft decided about the latest revision. */
  lemma PerformDecides(s: Store, c: Command) returns (top: Key, d: Decision)
    requires !c.Create? && Perform(s, c).1.Ok?
    ensures Latest(s.rows, c.id) == Some(top)
    ensures d == Decide(s.rows[top], c, s.now) && d.Accept?
    ensures var a := Announcement(if c.Revise? then Key(top.id, top.revision + 1) else top, d.row);
            Perform(s, c) == (Write(s, a, d.action, c.actor, d.publishes), Ok(a))
  {
    top := Latest(s.rows, c.id).value;
    d := Decide(s.rows[top], c, s.now);
  }

  /** Every transaction keeps the table invariants. */
  lemma PerformKeepsStore(s: Store, c: Command)
    requires StoreOk(s)
    ensures StoreOk(Perform(s, c).0)
  {
    if c.Create? {
      CreateKeepsStore(s, c);
    } else if Perform(s, c).1.Ok? {
      var top, d := PerformDecides(s, c);
      DecideKeepsRowOk(s.rows[top], c, s.now);
      if c.Revise? {
        NextRevisionKeepsRevisions(s.rows, top, d.row);
      } else {
        WriteLatestKeepsStore(s, top, d.row, d.action, c.actor, d.publishes);
      }
    }
  }

  // ---- the scheduler ------------------------------------------------------------------------

  lemma SendOneKeepsStore(s: Store, k: Key)
    requires StoreOk(s) && k in s.rows && s.rows[k].status == Scheduled
    ensures StoreOk(SendOne(s, k))
  {
    var r := s.rows[k];
    NonDraftIsLatest(s.rows, k);
    WriteLatestKeepsStore(s, k, PublishedRow(r, ScheduledConfirmer(r), s.now), PublishConfirmed, SCHEDULER, true);
  }

  /** The outbox rows publishing `k` in these tables would fill. */
  predicate IsTargetRow(s: Store, l: LedgerKey)
    requires l.key in s.rows
  {
    l.kind == Publish && l.target in FanoutTargets(s.rows[l.key].content, s.settings, s.subs, s.enabled)
  }

  /** What one scheduled send changes. */
  lemma SendOneEffect(s: Store, k: Key)
    requires StoreOk(s) && k in s.rows && s.rows[k].status == Scheduled
    ensures var t := SendOne(s, k);
            && t.rows == s.rows[k := PublishedRow(s.rows[k], ScheduledConfirmer(s.rows[k]), s.now)]
            && t == s.(rows := t.rows, ledger := t.ledger, audit := t.audit)
            && (forall l :: l in s.ledger ==> l in t.ledger && t.ledger[l] == s.ledger[l])
            && (forall l :: l in t.ledger && l !in s.ledger ==> l.key == k && t.ledger[l] == NewDelivery(s.now))
            && (forall l :: l in t.ledger <==> l in s.ledger || (l.key == k && IsTargetRow(s, l)))
  {
    var a := Announcement(k, PublishedRow(s.rows[k], ScheduledConfirmer(s.rows[k]), s.now));
    PublishInsertsEveryTarget(s, a);
  }

  predicate AllScheduled(rows: map<Key, Row>, due: seq<Key>) {
    Distinct(due) && forall k :: k in due ==> k in rows && rows[k].status == Scheduled
  }

  /**
   * A scheduler pass publishes exactly the rows it selected, keeps each approver's name, and leaves
   * every other row alone.
   */
  lemma {:induction false} SendDueEffect(s: Store, due: seq<Key>)
    requires StoreOk(s) && AllScheduled(s.rows, due)
    ensures StoreOk(SendDue(s, due))
    ensures forall k :: k in s.rows ==>
              SendDue(s, due).rows[k] ==
              if k in due then PublishedRow(s.rows[k], ScheduledConfirmer(s.rows[k]), s.now) else s.rows[k]
  {
    if due != [] {
      var init, k := due[..|due| - 1], due[|due| - 1];
      assert due == init + [k];
      assert k !in init;
      SendDueEffect(s, init);
      SendOneKeepsStore(SendDue(s, init), k);
      SendOneEffect(SendDue(s, init), k);
    }
  }

  /** It adds exactly the target rows of what it published, all new and pending; nothing else moves. */
  lemma {:induction false} SendDueFills(s: Store, due: seq<Key>)
    requires StoreOk(s) && AllScheduled(s.rows, due)
    ensures var t := SendDue(s, due);
            && t == s.(rows := t.rows, ledger := t.ledger, audit := t.audit)
            && (forall l :: l in s.ledger ==> l in t.ledger && t.ledger[l] == s.ledger[l])
            && (forall l :: l in t.ledger && l !in s.ledger ==> l.key in due && t.ledger[l] == NewDelivery(s.now))
            && (forall l :: l in t.ledger <==> l in s.ledger || (l.key in due && IsTargetRow(s, l)))
  {
    hide StoreOk, SendOne;
    if due != [] {
      var init, k := due[..|due| - 1], due[|due| - 1];
      assert due == init + [k];
      assert k !in init;
      SendDueEffect(s, init);
      SendDueFills(s, init);
      SendOneEffect(SendDue(s, init), k);
    }
  }

  /** The scheduler only sends rows whose time has come, soonest first, and skips nothing earlier than what it sends. */
  lemma SchedulerIsPunctual(s: Store, batch: nat, due: seq<Key>, k: Key)
    requires StoreOk(s) && IsDueBatch(s.rows, s.now, batch, due) && k in s.rows
    ensures var after := SendDue(s, due).rows[k];
            after != s.rows[k] ==>
              && s.rows[k].status == Scheduled && after.status == Published
              && s.rows[k].scheduledFor.value <= s.now
              && (s.rows[k].confirmedBy.Some? ==> after.confirmedBy == s.rows[k].confirmedBy)
              && (s.rows[k].confirmedBy.None? ==> after.confirmedBy == Some(SCHEDULER))
              && forall j :: IsDue(s.rows, j, s.now) && DueTime(s.rows, j) < DueTime(s.rows, k) ==> j in due
  {
    assert forall j :: j in due ==> IsDue(s.rows, j, s.now);
    SendDueEffect(s, due);
    if SendDue(s, due).rows[k] != s.rows[k] {
      assert k in due;
      assert IsDue(s.rows, k, s.now);
    }
  }
}
