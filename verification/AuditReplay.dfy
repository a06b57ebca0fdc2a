/**
 * The audit log is the source of truth (src/core/announcements.ts:90): reading it from the start
 * rebuilds every column of `announcements` that is not content or slug.
 */
module AuditReplay {
  import opened Types
  import opened Outbox
  import opened Announcements
  import opened Lifecycle

  /** What the log can tell about a row. */
  datatype Trail = Trail(
    createdBy: string, status: Status, requestedBy: Option<string>, confirmedBy: Option<string>,
    publishedAt: Option<int>, scheduledFor: Option<int>,
    rejectedBy: Option<string>, rejectedReason: Option<string>)

  function TrailOf(r: Row): Trail {
    Trail(r.createdBy, r.status, r.requestedBy, r.confirmedBy, r.publishedAt, r.scheduledFor,
          r.rejectedBy, r.rejectedReason)
  }

  function Trails(rows: map<Key, Row>): map<Key, Trail> {
    map k | k in rows :: TrailOf(rows[k])
  }

  /**
   * The reading of one entry. A `publish_confirmed` found on a scheduled row is the machine's send,
   * so the approver already on record keeps the credit; anywhere else its actor is the confirmer.
   */
  function ReadOne(t: Trail, e: Entry): Trail {
    match e.action
    case DraftCreated => t
    case DraftEdited => t
    case DraftDiscarded => t.(status := Discarded)
    case RequestFiled => t.(status := PublishRequested, requestedBy := Some(e.actor))
    case PublishScheduled(when, next) =>
      t.(status := next, scheduledFor := Some(when),
         requestedBy := if next == PublishRequested then Some(e.actor) else None)
    case ScheduleConfirmed(_) => t.(status := Scheduled, confirmedBy := Some(e.actor))
    case ScheduleCancelled(_) =>
      t.(status := Draft, scheduledFor := None, requestedBy := None, confirmedBy := None,
         rejectedBy := None, rejectedReason := None)
    case RequestWithdrawn =>
      t.(status := Draft, scheduledFor := None, requestedBy := None, rejectedBy := None, rejectedReason := None)
    case RequestRejected(reason) =>
      t.(status := Draft, scheduledFor := None, requestedBy := None,
         rejectedBy := Some(e.actor), rejectedReason := Some(reason))
    case PublishConfirmed =>
      t.(status := Published, publishedAt := Some(e.at),
         confirmedBy := if t.status == Scheduled && t.confirmedBy.Some? then t.confirmedBy else Some(e.actor))
    case ScheduledSent(_, _, _) => t
  }

  function ReadEntry(m: map<Key, Trail>, e: Entry): map<Key, Trail> {
    if e.action.DraftCreated? || e.action.DraftEdited? then
      m[e.key := Trail(e.actor, Draft, None, None, None, None, None, None)]
    else if e.key in m then m[e.key := ReadOne(m[e.key], e)]
    else m
  }

  function Replay(log: seq<Entry>): map<Key, Trail> {
    if log == [] then map[] else ReadEntry(Replay(log[..|log| - 1]), log[|log| - 1])
  }

  /** The stored rows are exactly what the log says. */
  predicate LogTellsAll(s: Store) {
    Replay(s.audit) == Trails(s.rows)
  }

  lemma ReplayLast(log: seq<Entry>, e: Entry)
    ensures Replay(log + [e]) == ReadEntry(Replay(log), e)
  {
    assert (log + [e])[..|log|] == log;
  }

  /** The entry a row transaction writes, read on the row's trail, gives the new row's trail. */
  lemma DecisionIsLogged(r: Row, c: Command, now: int, e: Entry)
    requires RowOk(r) && !c.Revise? && Decide(r, c, now).Accept?
    requires e.actor == c.actor && e.action == Decide(r, c, now).action && e.at == now
    ensures !e.action.DraftCreated? && !e.action.DraftEdited?
    ensures ReadOne(TrailOf(r), e) == TrailOf(Decide(r, c, now).row)
  {
  }

  predicate OpensTrail(action: AuditAction) {
    action.DraftCreated? || action.DraftEdited?
  }

  /** A write whose entry reads back as the row it stores keeps the log complete. */
  lemma WriteIsLogged(s: Store, a: Announcement, action: AuditAction, actor: string, publishes: bool)
    requires LogTellsAll(s)
    requires OpensTrail(action) ==> TrailOf(a.row) == Trail(actor, Draft, None, None, None, None, None, None)
    requires !OpensTrail(action) ==>
               a.key in s.rows && ReadOne(TrailOf(s.rows[a.key]), Entry(actor, action, a.key, s.now)) == TrailOf(a.row)
    ensures LogTellsAll(Write(s, a, action, actor, publishes))
  {
    var e := Entry(actor, action, a.key, s.now);
    ReplayLast(s.audit, e);
    assert Trails(s.rows[a.key := a.row]) == Trails(s.rows)[a.key := TrailOf(a.row)];
  }

  lemma AcceptedIsLogged(s: Store, c: Command, top: Key, d: Decision)
    requires StoreOk(s) && LogTellsAll(s) && top in s.rows
    requires d == Decide(s.rows[top], c, s.now) && d.Accept?
    ensures LogTellsAll(Write(s, Announcement(if c.Revise? then Key(top.id, top.revision + 1) else top, d.row),
                              d.action, c.actor, d.publishes))
  {
    var a := Announcement(if c.Revise? then Key(top.id, top.revision + 1) else top, d.row);
    if !c.Revise? {
      DecisionIsLogged(s.rows[top], c, s.now, Entry(c.actor, d.action, top, s.now));
    }
    WriteIsLogged(s, a, d.action, c.actor, d.publishes);
  }

  /** Every transaction logs enough to rebuild what it changed. */
  lemma PerformIsLogged(s: Store, c: Command)
    requires StoreOk(s) && LogTellsAll(s)
    ensures LogTellsAll(Perform(s, c).0)
  {
    if Perform(s, c).1.Ok? {
      if c.Create? {
        WriteIsLogged(s, Perform(s, c).1.value, DraftCreated, c.actor, false);
      } else {
        var top, d := PerformDecides(s, c);
        AcceptedIsLogged(s, c, top, d);
      }
    }
  }

  lemma SendOneIsLogged(s: Store, k: Key)
    requires StoreOk(s) && LogTellsAll(s) && k in s.rows && s.rows[k].status == Scheduled
    ensures LogTellsAll(SendOne(s, k))
  {
    hide Replay, Trails, RowOk, RevisionsOk, OutboxOk, Enqueue, FanoutTargets;
    var r := s.rows[k];
    var a := Announcement(k, PublishedRow(r, ScheduledConfirmer(r), s.now));
    WriteIsLogged(s, a, PublishConfirmed, SCHEDULER, true);
    WriteIsLogged(Write(s, a, PublishConfirmed, SCHEDULER, true), a,
                  ScheduledSent(r.scheduledFor, r.requestedBy, r.confirmedBy), SCHEDULER, false);
    assert s.rows[k := a.row][k := a.row] == s.rows[k := a.row];
    assert Write(Write(s, a, PublishConfirmed, SCHEDULER, true), a,
                 ScheduledSent(r.scheduledFor, r.requestedBy, r.confirmedBy), SCHEDULER, false).audit
           == SendOne(s, k).audit;
  }

  /** So does every scheduler pass, although its log actor is never the stored confirmer of an approved row. */
  lemma {:induction false} SendDueIsLogged(s: Store, due: seq<Key>)
    requires StoreOk(s) && LogTellsAll(s) && AllScheduled(s.rows, due)
    ensures LogTellsAll(SendDue(s, due))
  {
    if due != [] {
      var init, k := due[..|due| - 1], due[|due| - 1];
      assert due == init + [k];
      assert k !in init;
      SendDueIsLogged(s, init);
      SendDueEffect(s, init);
      SendOneIsLogged(SendDue(s, init), k);
    }
  }
}
