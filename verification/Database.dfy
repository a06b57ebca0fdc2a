/**
 * The tables as the source keeps them, updated in place: one method per transaction of
 * src/core/announcements.ts and src/core/outbox.ts, each proved against its function on values.
 */
module DatabaseTables {
  import opened Types
  import opened Text
  import opened Outbox
  import opened Announcements
  import opened Lifecycle

  class Database {
    var rows: map<Key, Row>
    var ledger: map<LedgerKey, Delivery>
    var audit: seq<Entry>
    var settings: seq<Setting>
    var subs: seq<Subscription>
    var enabled: set<Channel>
    var alerts: map<string, Option<int>>
    var now: int

    function Tables(): Store
      reads this
    {
      Store(rows, ledger, audit, settings, subs, enabled, alerts, now)
    }

    constructor (settings: seq<Setting>, subs: seq<Subscription>, enabled: set<Channel>, now: int)
      ensures Tables() == Store(map[], map[], [], settings, subs, enabled, map[], now)
    {
      rows, ledger, audit, alerts := map[], map[], [], map[];
      this.settings, this.subs, this.enabled, this.now := settings, subs, enabled, now;
    }

    /** Insert one outbox row per target; report how many were new. */
    method EnqueueDeliveries(a: Announcement, kind: Kind) returns (inserted: nat)
      modifies this`ledger
      ensures var targets := FanoutTargets(a.row.content, settings, subs, enabled);
              (ledger, inserted) == Enqueue(old(ledger), a.key, kind, targets, now)
    {
      var targets := CountFanoutTargets(a.row.content, settings, subs, enabled);
      inserted := 0;
      for i := 0 to |targets|
        invariant (ledger, inserted) == Enqueue(old(ledger), a.key, kind, targets[..i], now)
      {
        assert targets[..i + 1][..i] == targets[..i];
        var k := LedgerKey(a.key, kind, targets[i]);
        if k !in ledger {
          ledger := ledger[k := NewDelivery(now)];
          inserted := inserted + 1;
        }
      }
      assert targets[..|targets|] == targets;
    }

    method InsertRevision(key: Key, slug: string, content: Content, actor: string, action: AuditAction)
      returns (a: Announcement)
      requires key !in rows
      modifies this
      ensures a == Announcement(key, NewRow(content, slug, actor))
      ensures Tables() == Write(old(Tables()), a, action, actor, false)
    {
      a := Announcement(key, NewRow(content, slug, actor));
      rows := rows[key := a.row];
      audit := audit + [Entry(actor, action, key, now)];
    }

    /** The shared end of every publish: update the row, fill the outbox, log it. */
    method PerformPublish(a: Announcement, confirmer: string, preserveConfirmer: bool) returns (published: Announcement)
      modifies this
      ensures published.key == a.key
      ensures published.row ==
              PublishedRow(a.row,
                           if preserveConfirmer && a.row.confirmedBy.Some? then a.row.confirmedBy.value else confirmer,
                           now)
      ensures Tables() == Write(old(Tables()), published, PublishConfirmed, confirmer, true)
    {
      var confirmedBy := if preserveConfirmer && a.row.confirmedBy.Some? then a.row.confirmedBy.value else confirmer;
      published := Announcement(a.key, PublishedRow(a.row, confirmedBy, now));
      rows := rows[a.key := published.row];
      var _ := EnqueueDeliveries(published, Publish);
      audit := audit + [Entry(confirmer, PublishConfirmed, a.key, now)];
    }

    /** Update a locked row and log it. */
    method Update(key: Key, row: Row, action: AuditAction, actor: string) returns (a: Announcement)
      modifies this
      ensures a == Announcement(key, row)
      ensures Tables() == Write(old(Tables()), a, action, actor, false)
    {
      a := Announcement(key, row);
      rows := rows[key := row];
      audit := audit + [Entry(actor, action, key, now)];
    }

    method CreateDraft(id: string, base: string, content: Content, actor: string) returns (r: Result<Announcement>)
      modifies this
      ensures (Tables(), r) == Perform(old(Tables()), Create(id, base, content, actor))
    {
      var slug: Option<string> := None;
      var i := 1;
      while i <= SLUG_ATTEMPTS && slug.None?
        invariant 1 <= i <= SLUG_ATTEMPTS + 1
        invariant slug.None? ==> FreeSlug(rows, base, 1) == FreeSlug(rows, base, i)
        invariant slug.Some? ==> FreeSlug(rows, base, 1) == slug
        decreases SLUG_ATTEMPTS + 1 - i, slug.None?
      {
        var candidate := SlugCandidate(base, i);
        if !SlugTaken(rows, candidate) {
          slug := Some(candidate);
        } else {
          i := i + 1;
        }
      }
      if slug.None? {
        return Err(NoFreeSlug(base));
      }
      if Key(id, 1) in rows {
        return Err(DuplicateKey);
      }
      var a := InsertRevision(Key(id, 1), slug.value, content, actor, DraftCreated);
      return Ok(a);
    }

    method ReviseDraft(id: string, content: Content, actor: string) returns (r: Result<Announcement>)
      modifies this
      ensures (Tables(), r) == Perform(old(Tables()), Revise(id, content, actor))
    {
      var prev := Latest(rows, id);
      if prev.None? {
        return Err(NotFound(id));
      }
      if rows[prev.value].status != Draft {
        return Err(WrongStatus(rows[prev.value].status));
      }
      var a := InsertRevision(Key(id, prev.value.revision + 1), rows[prev.value].slug, content, actor, DraftEdited);
      return Ok(a);
    }

    method DiscardDraft(id: string, actor: string) returns (r: Result<Announcement>)
      modifies this
      ensures (Tables(), r) == Perform(old(Tables()), Discard(id, actor))
    {
      var key := Latest(rows, id);
      if key.None? {
        return Err(NotFound(id));
      }
      var row := rows[key.value];
      if row.status != Draft {
        return Err(WrongStatus(row.status));
      }
      var a := Update(key.value, row.(status := Discarded), DraftDiscarded, actor);
      return Ok(a);
    }

    method RequestPublish(id: string, actor: string) returns (r: Result<Announcement>)
      modifies this
      ensures (Tables(), r) == Perform(old(Tables()), Request(id, actor))
    {
      var key := Latest(rows, id);
      if key.None? {
        return Err(NotFound(id));
      }
      var row := rows[key.value];
      if row.status != Draft {
        return Err(WrongStatus(row.status));
      }
      var a: Announcement;
      if row.content.severity != Critical {
        a := PerformPublish(Announcement(key.value, row), actor, false);
      } else {
        a := Update(key.value, row.(status := PublishRequested, requestedBy := Some(actor)), RequestFiled, actor);
      }
      return Ok(a);
    }

    method ConfirmPublish(id: string, actor: string) returns (r: Result<Announcement>)
      modifies this
      ensures (Tables(), r) == Perform(old(Tables()), Confirm(id, actor))
    {
      var key := Latest(rows, id);
      if key.None? {
        return Err(NotFound(id));
      }
      var row := rows[key.value];
      if row.status != PublishRequested {
        return Err(WrongStatus(row.status));
      }
      if row.scheduledFor.Some? {
        return Err(UseConfirmSchedule);
      }
      if row.content.severity == Critical && SamePerson(row.requestedBy, actor) {
        return Err(FourEyes);
      }
      var a := PerformPublish(Announcement(key.value, row), actor, false);
      return Ok(a);
    }

    method SchedulePublish(id: string, when: Option<int>, actor: string) returns (r: Result<Announcement>)
      modifies this
      ensures (Tables(), r) == Perform(old(Tables()), Schedule(id, when, actor))
    {
      if when.None? {
        return Err(InvalidDate);
      }
      if when.value <= now {
        return Err(PastDate);
      }
      var key := Latest(rows, id);
      if key.None? {
        return Err(NotFound(id));
      }
      var row := rows[key.value];
      if row.status != Draft {
        return Err(WrongStatus(row.status));
      }
      var next := if row.content.severity == Critical then PublishRequested else Scheduled;
      var requester := if row.content.severity == Critical then Some(actor) else None;
      var a := Update(key.value, row.(status := next, scheduledFor := when, requestedBy := requester),
                      PublishScheduled(when.value, next), actor);
      return Ok(a);
    }

    method ConfirmSchedule(id: string, actor: string) returns (r: Result<Announcement>)
      modifies this
      ensures (Tables(), r) == Perform(old(Tables()), Command.ConfirmSchedule(id, actor))
    {
      var key := Latest(rows, id);
      if key.None? {
        return Err(NotFound(id));
      }
      var row := rows[key.value];
      if row.status != PublishRequested {
        return Err(WrongStatus(row.status));
      }
      if row.scheduledFor.None? {
        return Err(UseConfirmPublish);
      }
      if row.content.severity == Critical && SamePerson(row.requestedBy, actor) {
        return Err(FourEyes);
      }
      var a := Update(key.value, row.(status := Scheduled, confirmedBy := Some(actor)),
                      ScheduleConfirmed(row.scheduledFor), actor);
      return Ok(a);
    }

    method CancelSchedule(id: string, actor: string) returns (r: Result<Announcement>)
      modifies this
      ensures (Tables(), r) == Perform(old(Tables()), Cancel(id, actor))
    {
      var key := Latest(rows, id);
      if key.None? {
        return Err(NotFound(id));
      }
      var row := rows[key.value];
      if row.status != Scheduled && !(row.status == PublishRequested && row.scheduledFor.Some?) {
        return Err(WrongStatus(row.status));
      }
      var draft := row.(status := Draft, scheduledFor := None, requestedBy := None, confirmedBy := None,
                        rejectedBy := None, rejectedReason := None);
      var a := Update(key.value, draft, ScheduleCancelled(row.scheduledFor), actor);
      return Ok(a);
    }

    method WithdrawPublish(id: string, actor: string) returns (r: Result<Announcement>)
      modifies this
      ensures (Tables(), r) == Perform(old(Tables()), Withdraw(id, actor))
    {
      var key := Latest(rows, id);
      if key.None? {
        return Err(NotFound(id));
      }
      var row := rows[key.value];
      if row.status != PublishRequested {
        return Err(WrongStatus(row.status));
      }
      if !SamePerson(row.requestedBy, actor) {
        return Err(NotRequester);
      }
      var draft := row.(status := Draft, requestedBy := None, scheduledFor := None,
                        rejectedBy := None, rejectedReason := None);
      var a := Update(key.value, draft, RequestWithdrawn, actor);
      return Ok(a);
    }

    method RejectPublish(id: string, actor: string, reason: string) returns (r: Result<Announcement>)
      modifies this
      ensures (Tables(), r) == Perform(old(Tables()), Reject(id, actor, reason))
    {
      var trimmed := Trim(reason);
      if trimmed == "" {
        return Err(ReasonRequired);
      }
      var key := Latest(rows, id);
      if key.None? {
        return Err(NotFound(id));
      }
      var row := rows[key.value];
      if row.status != PublishRequested {
        return Err(WrongStatus(row.status));
      }
      if SamePerson(row.requestedBy, actor) {
        return Err(OwnRequest);
      }
      var draft := row.(status := Draft, requestedBy := None, scheduledFor := None,
                        rejectedBy := Some(actor), rejectedReason := Some(trimmed));
      var a := Update(key.value, draft, RequestRejected(trimmed), actor);
      return Ok(a);
    }

    /** The scheduler's query: repeatedly take a due row with the smallest time. */
    method SelectDue(batch: nat) returns (due: seq<Key>)
      ensures IsDueBatch(rows, now, batch, due)
    {
      due := [];
      var pool := set k | k in rows && IsDue(rows, k, now);
      while pool != {} && |due| < batch
        invariant |due| <= batch && Distinct(due)
        invariant forall k :: IsDue(rows, k, now) <==> k in pool || k in due
        invariant forall k :: k in pool ==> k !in due
        invariant forall i, j :: 0 <= i < j < |due| ==> DueTime(rows, due[i]) <= DueTime(rows, due[j])
        invariant forall j, k :: j in due && k in pool ==> DueTime(rows, j) <= DueTime(rows, k)
        decreases pool
      {
        EarliestExists(rows, pool);
        var k :| k in pool && forall j :: j in pool ==> DueTime(rows, k) <= DueTime(rows, j);
        due, pool := due + [k], pool - {k};
      }
    }

    /** One turn of publishDueScheduled's loop: publish, then log the send itself. */
    method SendScheduled(key: Key) returns (published: Announcement)
      requires key in rows
      modifies this
      ensures Tables() == SendOne(old(Tables()), key)
      ensures key in rows && published == Announcement(key, rows[key])
    {
      var row := rows[key];
      published := PerformPublish(Announcement(key, row), SCHEDULER, true);
      audit := audit + [Entry(SCHEDULER, ScheduledSent(row.scheduledFor, row.requestedBy, row.confirmedBy), key, now)];
    }

    /** publishDueScheduled: send every selected row, soonest first. */
    method PublishDueScheduled(batch: nat) returns (sent: seq<Announcement>, ghost due: seq<Key>)
      modifies this
      ensures IsDueBatch(old(rows), now, batch, due)
      ensures Tables() == SendDue(old(Tables()), due)
      ensures |sent| == |due| && forall i :: 0 <= i < |due| ==>
                due[i] in rows && sent[i] == Announcement(due[i], rows[due[i]])
    {
      var keys := SelectDue(batch);
      due := keys;
      sent := [];
      ghost var before := Tables();
      assert forall i :: 0 <= i < |keys| ==> IsDue(rows, keys[i], now);
      for i := 0 to |keys|
        invariant Tables() == SendDue(before, keys[..i])
        invariant |sent| == i
        invariant forall j :: 0 <= j < i ==> keys[j] in rows && sent[j] == Announcement(keys[j], rows[keys[j]])
      {
        assert keys[..i + 1][..i] == keys[..i];
        var published := SendScheduled(keys[i]);
        sent := sent + [published];
      }
      assert keys[..|keys|] == keys;
    }
  }

  lemma {:induction false} EarliestExists(rows: map<Key, Row>, pool: set<Key>)
    requires pool != {}
    ensures exists k :: k in pool && forall j :: j in pool ==> DueTime(rows, k) <= DueTime(rows, j)
  {
    var y :| y in pool;
    var rest := pool - {y};
    assert pool == rest + {y};
    if rest != {} {
      EarliestExists(rows, rest);
      var k :| k in rest && forall j :: j in rest ==> DueTime(rows, k) <= DueTime(rows, j);
      var first := if DueTime(rows, y) < DueTime(rows, k) then y else k;
      assert first in pool && forall j :: j in pool ==> DueTime(rows, first) <= DueTime(rows, j);
    }
  }
}
