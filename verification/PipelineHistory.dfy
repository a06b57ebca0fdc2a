/**
 * Every column of a row is what the last command that wrote it wrote, in every state of every run; so which
 * commands are accepted can be told from the commands before them.
 */
module PipelineHistory {
  import opened Types
  import opened Text
  import opened Outbox
  import opened Announcements
  import opened Lifecycle
  import opened Decisions
  import opened Fanout
  import opened Pipeline
  import opened PipelineInvariant
  import opened PipelineRuns

  // ---- columns and what writes them -------------------------------------------------------------

  datatype Write<+T> = Keeps | Writes(value: Option<T>)

  function Applied<T>(w: Write<T>, before: Option<T>): Option<T> {
    if w.Keeps? then before else w.value
  }

  /**
   * A column: its value in a row, what an accepted command that leaves a row writes to it at a time, and what
   * the scheduler writes when it sends a row.
   */
  datatype Column<!T> = Column(of: Row -> Option<T>, written: (Command, Row, int) -> Write<T>,
                               sent: (Row, int) -> Write<T>)

  predicate IsTakeBack(c: Command) {
    c.Withdraw? || c.Reject? || c.Cancel?
  }

  predicate IsAsk(c: Command) {
    c.Request? || c.Schedule?
  }

  /** Confirming, or publishing a row that needs no confirmation. */
  predicate IsGo(c: Command, r: Row) {
    c.Confirm? || c.ConfirmSchedule? || (c.Request? && r.status == Published)
  }

  /** Every accepted command and every send sets the status. */
  const STATUS: Column<Status> := Column(
    (r: Row) => Some(r.status), (c: Command, r: Row, now: int) => Writes(Some(r.status)),
    (r: Row, now: int) => Writes(Some(Published)))

  const CONTENT: Column<Content> := Column(
    (r: Row) => Some(r.content),
    (c: Command, r: Row, now: int) => if c.Create? || c.Revise? then Writes(Some(c.content)) else Keeps,
    (r: Row, now: int) => Keeps)

  const CREATED_BY: Column<string> := Column(
    (r: Row) => Some(r.createdBy),
    (c: Command, r: Row, now: int) => if c.Create? || c.Revise? then Writes(Some(c.actor)) else Keeps,
    (r: Row, now: int) => Keeps)

  /** Asking for a row that must wait names the requester; taking back clears it. */
  const REQUESTED_BY: Column<string> := Column(
    (r: Row) => r.requestedBy,
    (c: Command, r: Row, now: int) =>
      if IsAsk(c) && r.status == PublishRequested then Writes(Some(c.actor))
      else if IsTakeBack(c) then Writes(None)
      else Keeps,
    (r: Row, now: int) => Keeps)

  const SCHEDULED_FOR: Column<int> := Column(
    (r: Row) => r.scheduledFor,
    (c: Command, r: Row, now: int) =>
      if c.Schedule? then Writes(c.when) else if IsTakeBack(c) then Writes(None) else Keeps,
    (r: Row, now: int) => Keeps)

  /** Whoever confirmed or published; the scheduler, for what needed neither. */
  const CONFIRMED_BY: Column<string> := Column(
    (r: Row) => r.confirmedBy,
    (c: Command, r: Row, now: int) =>
      if IsGo(c, r) then Writes(Some(c.actor)) else if c.Cancel? then Writes(None) else Keeps,
    (r: Row, now: int) => if r.confirmedBy.None? then Writes(Some("scheduler")) else Keeps)

  const PUBLISHED_AT: Column<int> := Column(
    (r: Row) => r.publishedAt,
    (c: Command, r: Row, now: int) => if r.status == Published then Writes(Some(now)) else Keeps,
    (r: Row, now: int) => Writes(Some(now)))

  /** A rejection names who and why; the next one, a withdrawal or a cancellation replaces or clears both. */
  const REJECTED_BY: Column<string> := Column(
    (r: Row) => r.rejectedBy,
    (c: Command, r: Row, now: int) =>
      if c.Reject? then Writes(Some(c.actor)) else if IsTakeBack(c) then Writes(None) else Keeps,
    (r: Row, now: int) => Keeps)

  const REJECTED_REASON: Column<string> := Column(
    (r: Row) => r.rejectedReason,
    (c: Command, r: Row, now: int) =>
      if c.Reject? then Writes(Some(Trim(c.reason))) else if IsTakeBack(c) then Writes(None) else Keeps,
    (r: Row, now: int) => Keeps)

  // ---- what one command does to one column ------------------------------------------------------

  ghost predicate ObeysCommand<T(!new)>(column: Column<T>, o: Row, c: Command, r: Row, now: int) {
    column.of(r) == Applied(column.written(c, r, now), column.of(o))
  }

  ghost predicate StartsFresh<T(!new)>(column: Column<T>, c: Command, slug: string, now: int)
    requires c.Create? || c.Revise?
  {
    var r := Fresh(c.content, slug, c.actor);
    column.of(r) == Applied(column.written(c, r, now), None)
  }

  ghost predicate ObeysSend<T(!new)>(column: Column<T>, o: Row, now: int) {
    column.of(PublishedRow(o, ScheduledConfirmer(o), now)) == Applied(column.sent(o, now), column.of(o))
  }

  /** The column does what its table says. */
  ghost predicate Obeys<T(!new)>(column: Column<T>) {
    && (forall o: Row, c: Command, now: int | RowOk(o) && !c.Create? && !c.Revise? && Decide(o, c, now).Accept? ::
          ObeysCommand(column, o, c, Decide(o, c, now).row, now))
    && (forall c: Command, slug: string, now: int | c.Create? || c.Revise? :: StartsFresh(column, c, slug, now))
    && (forall o: Row, now: int | RowOk(o) && o.status == Scheduled :: ObeysSend(column, o, now))
  }

  lemma StateAfterCommand(o: Row, c: Command, now: int)
    requires RowOk(o) && !c.Create? && !c.Revise? && Decide(o, c, now).Accept?
    ensures var r := Decide(o, c, now).row;
            && ObeysCommand(STATUS, o, c, r, now) && ObeysCommand(CONTENT, o, c, r, now)
            && ObeysCommand(CREATED_BY, o, c, r, now) && ObeysCommand(PUBLISHED_AT, o, c, r, now)
  {
    hide Trim, Lower;
  }

  lemma ApprovalAfterCommand(o: Row, c: Command, now: int)
    requires RowOk(o) && !c.Create? && !c.Revise? && Decide(o, c, now).Accept?
    ensures var r := Decide(o, c, now).row;
            ObeysCommand(CONFIRMED_BY, o, c, r, now) && ObeysCommand(SCHEDULED_FOR, o, c, r, now)
  {
    hide Trim, Lower;
  }

  lemma RequesterAfterCommand(o: Row, c: Command, now: int)
    requires RowOk(o) && !c.Create? && !c.Revise? && Decide(o, c, now).Accept?
    ensures ObeysCommand(REQUESTED_BY, o, c, Decide(o, c, now).row, now)
  {
    hide Trim, Lower;
    var r := Decide(o, c, now).row;
    if IsAsk(c) && r.status == PublishRequested {
      assert r.requestedBy == Some(c.actor);
    } else if !IsTakeBack(c) {
      assert r.requestedBy == o.requestedBy;
    }
  }

  lemma RejectionAfterCommand(o: Row, c: Command, now: int)
    requires RowOk(o) && !c.Create? && !c.Revise? && Decide(o, c, now).Accept?
    ensures var r := Decide(o, c, now).row;
            ObeysCommand(REJECTED_BY, o, c, r, now) && ObeysCommand(REJECTED_REASON, o, c, r, now)
  {
    hide Trim, Lower;
  }

  lemma ColumnsAfterCommand(o: Row, c: Command, now: int)
    requires RowOk(o) && !c.Create? && !c.Revise? && Decide(o, c, now).Accept?
    ensures var r := Decide(o, c, now).row;
            && ObeysCommand(STATUS, o, c, r, now) && ObeysCommand(CONTENT, o, c, r, now)
            && ObeysCommand(CREATED_BY, o, c, r, now) && ObeysCommand(REQUESTED_BY, o, c, r, now)
            && ObeysCommand(SCHEDULED_FOR, o, c, r, now) && ObeysCommand(CONFIRMED_BY, o, c, r, now)
            && ObeysCommand(PUBLISHED_AT, o, c, r, now) && ObeysCommand(REJECTED_BY, o, c, r, now)
            && ObeysCommand(REJECTED_REASON, o, c, r, now)
  {
    hide RowOk, Decide, ObeysCommand;
    StateAfterCommand(o, c, now);
    ApprovalAfterCommand(o, c, now);
    RequesterAfterCommand(o, c, now);
    RejectionAfterCommand(o, c, now);
  }

  lemma ColumnsOfFresh(c: Command, slug: string, now: int)
    requires c.Create? || c.Revise?
    ensures StartsFresh(STATUS, c, slug, now) && StartsFresh(CONTENT, c, slug, now)
    ensures StartsFresh(CREATED_BY, c, slug, now) && StartsFresh(REQUESTED_BY, c, slug, now)
    ensures StartsFresh(SCHEDULED_FOR, c, slug, now) && StartsFresh(CONFIRMED_BY, c, slug, now)
    ensures StartsFresh(PUBLISHED_AT, c, slug, now) && StartsFresh(REJECTED_BY, c, slug, now)
    ensures StartsFresh(REJECTED_REASON, c, slug, now)
  {
  }

  lemma ColumnsAfterSend(o: Row, now: int)
    requires RowOk(o) && o.status == Scheduled
    ensures ObeysSend(STATUS, o, now) && ObeysSend(CONTENT, o, now) && ObeysSend(CREATED_BY, o, now)
    ensures ObeysSend(REQUESTED_BY, o, now) && ObeysSend(SCHEDULED_FOR, o, now) && ObeysSend(CONFIRMED_BY, o, now)
    ensures ObeysSend(PUBLISHED_AT, o, now) && ObeysSend(REJECTED_BY, o, now) && ObeysSend(REJECTED_REASON, o, now)
  {
  }

  lemma ColumnsObey()
    ensures Obeys(STATUS) && Obeys(CONTENT) && Obeys(CREATED_BY) && Obeys(REQUESTED_BY) && Obeys(SCHEDULED_FOR)
    ensures Obeys(CONFIRMED_BY) && Obeys(PUBLISHED_AT) && Obeys(REJECTED_BY) && Obeys(REJECTED_REASON)
  {
    hide RowOk, Decide, ObeysCommand, StartsFresh, ObeysSend;
    forall o: Row, c: Command, now: int | RowOk(o) && !c.Create? && !c.Revise? && Decide(o, c, now).Accept? {
      ColumnsAfterCommand(o, c, now);
    }
    forall c: Command, slug: string, now: int | c.Create? || c.Revise? {
      ColumnsOfFresh(c, slug, now);
    }
    forall o: Row, now: int | RowOk(o) && o.status == Scheduled {
      ColumnsAfterSend(o, now);
    }
  }

  // ---- over runs --------------------------------------------------------------------------------

  /** The column of row `key` in state `n`, if it is stored. */
  ghost function ColumnIn<T>(column: Column<T>, ws: seq<World>, n: nat, key: Key): Option<T> {
    if n < |ws| && key in ws[n].db.rows then column.of(ws[n].db.rows[key]) else None
  }

  /** Step `i` is a command on `key` that is accepted. */
  ghost predicate Does(ws: seq<World>, es: seq<Event>, i: nat, key: Key) {
    i < |es| < |ws| && Succeeds(ws, es, i, key)
  }

  /** Step `i` is the scheduler's, and sends `key`. */
  ghost predicate Sends(ws: seq<World>, es: seq<Event>, i: nat, key: Key) {
    i < |es| < |ws| && es[i].SendScheduled? && key in es[i].due && key in ws[i].db.rows
  }

  /** What step `i` writes to the column of row `key`. */
  ghost function WrittenAt<T>(column: Column<T>, ws: seq<World>, es: seq<Event>, i: nat, key: Key): Write<T> {
    if Does(ws, es, i, key) && key in ws[i + 1].db.rows then
      column.written(es[i].command, ws[i + 1].db.rows[key], ws[i].db.now)
    else if Sends(ws, es, i, key) then column.sent(ws[i].db.rows[key], ws[i].db.now)
    else Keeps
  }

  /** A command that makes a revision: the row is new and starts as a draft. */
  lemma NewRevision(s: Store, c: Command, key: Key)
    requires StoreOk(s) && (c.Create? || c.Revise?) && Perform(s, c).1.Ok? && Perform(s, c).1.value.key == key
    ensures key !in s.rows && key in Perform(s, c).0.rows
    ensures exists slug :: Perform(s, c).0.rows[key] == Fresh(c.content, slug, c.actor)
  {
    if c.Create? {
      assert Perform(s, c).0.rows[key] == Fresh(c.content, FreeSlug(s.rows, c.base, 1).value, c.actor);
    } else {
      var top, d := PerformDecides(s, c);
      assert Perform(s, c).0.rows[key] == Fresh(c.content, s.rows[top].slug, c.actor);
    }
  }

  lemma CommandWrites<T(!new)>(column: Column<T>, ws: seq<World>, es: seq<Event>, n: nat, key: Key)
    requires IsRun(ws, es) && Obeys(column) && Does(ws, es, n, key)
    ensures ColumnIn(column, ws, n + 1, key) ==
            Applied(WrittenAt(column, ws, es, n, key), ColumnIn(column, ws, n, key))
  {
    hide Inv, RowOk, Decide, Next, Enabled, Perform;
    StepAt(ws, es, n);
    TablesAreOk(ws[n]);
    var s, c := ws[n].db, es[n].command;
    ActPerforms(ws[n], es[n]);
    if c.Create? || c.Revise? {
      NewRevision(s, c, key);
      var slug :| Perform(s, c).0.rows[key] == Fresh(c.content, slug, c.actor);
      assert StartsFresh(column, c, slug, s.now);
    } else {
      SucceedsDecides(s, c, key);
      StoredRowOk(ws[n], key);
      assert ObeysCommand(column, s.rows[key], c, Decide(s.rows[key], c, s.now).row, s.now);
    }
  }

  lemma ActPerforms(w: World, e: Event)
    requires e.Act? && Enabled(w, e)
    ensures Next(w, e).db == Perform(w.db, e.command).0
  {
  }

  lemma SendWrites<T(!new)>(column: Column<T>, ws: seq<World>, es: seq<Event>, n: nat, key: Key)
    requires IsRun(ws, es) && Obeys(column) && n < |es| && es[n].SendScheduled?
    ensures n < |es| < |ws|
    ensures ColumnIn(column, ws, n + 1, key) ==
            Applied(WrittenAt(column, ws, es, n, key), ColumnIn(column, ws, n, key))
  {
    hide Inv, RowOk, Decide, Perform, SendDue, StoreOk, IsDueBatch;
    StepAt(ws, es, n);
    TablesAreOk(ws[n]);
    var s := ws[n].db;
    DueAreScheduled(s, es[n].batch, es[n].due);
    SendDueEffect(s, es[n].due);
    if key in s.rows && key in es[n].due {
      StoredRowOk(ws[n], key);
      assert ObeysSend(column, s.rows[key], s.now);
    }
  }

  lemma StepWrites<T(!new)>(column: Column<T>, ws: seq<World>, es: seq<Event>, n: nat, key: Key)
    requires IsRun(ws, es) && Obeys(column) && n < |es|
    ensures ColumnIn(column, ws, n + 1, key) ==
            Applied(WrittenAt(column, ws, es, n, key), ColumnIn(column, ws, n, key))
  {
    hide Inv, RowOk, Decide, Perform, Obeys, Next, Enabled;
    StepAt(ws, es, n);
    if Does(ws, es, n, key) {
      CommandWrites(column, ws, es, n, key);
    } else if es[n].SendScheduled? {
      SendWrites(column, ws, es, n, key);
    } else if es[n].Act? {
      ActPerforms(ws[n], es[n]);
      OtherRowUntouched(ws[n].db, es[n].command, key);
    } else {
      OtherStepKeepsRows(ws[n], es[n]);
    }
  }

  /** Step `p` wrote `v` to the column of row `key`, and no step since then wrote to it. */
  ghost predicate WroteLast<T(!new)>(column: Column<T>, ws: seq<World>, es: seq<Event>, p: nat, n: nat, key: Key,
                                     v: T)
  {
    && p < n && WrittenAt(column, ws, es, p, key) == Writes(Some(v))
    && forall j: nat :: p < j < n ==> WrittenAt(column, ws, es, j, key) == Keeps
  }

  lemma {:induction false} LastWriteDecides<T(!new)>(column: Column<T>, ws: seq<World>, es: seq<Event>, n: nat,
                                                     key: Key, v: T)
    requires IsRun(ws, es) && Obeys(column) && n <= |es|
    ensures ColumnIn(column, ws, n, key) == Some(v) <==> exists p: nat :: WroteLast(column, ws, es, p, n, key, v)
  {
    hide IsRun, WrittenAt, Obeys, ColumnIn;
    if n == 0 {
      NothingAtFirst(column, ws, es, key);
    } else {
      LastWriteDecides(column, ws, es, n - 1, key, v);
      StepWrites(column, ws, es, n - 1, key);
      if WrittenAt(column, ws, es, n - 1, key).Writes? {
        assert WrittenAt(column, ws, es, n - 1, key) == Writes(Some(v)) ==>
                 WroteLast(column, ws, es, n - 1, n, key, v);
      } else {
        QuietKeepsLast(column, ws, es, n - 1, n, key, v);
      }
    }
  }

  /** A step that does not write the column leaves its last write the last. */
  lemma QuietKeepsLast<T(!new)>(column: Column<T>, ws: seq<World>, es: seq<Event>, n: nat, m: nat, key: Key, v: T)
    requires m == n + 1 && WrittenAt(column, ws, es, n, key) == Keeps
    ensures (exists p: nat :: WroteLast(column, ws, es, p, n, key, v)) <==>
            exists p: nat :: WroteLast(column, ws, es, p, m, key, v)
  {
    hide WrittenAt;
    if p: nat :| WroteLast(column, ws, es, p, n, key, v) {
      assert WroteLast(column, ws, es, p, m, key, v);
    }
    if p: nat :| WroteLast(column, ws, es, p, m, key, v) {
      assert WroteLast(column, ws, es, p, n, key, v);
    }
  }

  lemma NothingAtFirst<T>(column: Column<T>, ws: seq<World>, es: seq<Event>, key: Key)
    requires IsRun(ws, es)
    ensures ColumnIn(column, ws, 0, key) == None
  {
  }

  /** The column of row `key` holds what the last write to it wrote. */
  ghost predicate HoldsTheLastWrite<T(!new)>(column: Column<T>, ws: seq<World>, es: seq<Event>, n: nat, key: Key) {
    forall v :: ColumnIn(column, ws, n, key) == Some(v) <==> exists p: nat :: WroteLast(column, ws, es, p, n, key, v)
  }

  lemma ColumnHoldsTheLastWrite<T(!new)>(column: Column<T>, ws: seq<World>, es: seq<Event>, n: nat, key: Key)
    requires IsRun(ws, es) && Obeys(column) && n <= |es|
    ensures HoldsTheLastWrite(column, ws, es, n, key)
  {
    hide IsRun, WroteLast, Obeys, ColumnIn;
    forall v: T
      ensures ColumnIn(column, ws, n, key) == Some(v) <==> exists p: nat :: WroteLast(column, ws, es, p, n, key, v)
    {
      LastWriteDecides(column, ws, es, n, key, v);
    }
  }

  /** In every state of every run each column of every row holds what the last write to it wrote. */
  lemma ColumnsHoldTheLastWrites(ws: seq<World>, es: seq<Event>, n: nat, key: Key)
    requires IsRun(ws, es) && n <= |es|
    ensures HoldsTheLastWrite(STATUS, ws, es, n, key) && HoldsTheLastWrite(CONTENT, ws, es, n, key)
    ensures HoldsTheLastWrite(CREATED_BY, ws, es, n, key) && HoldsTheLastWrite(REQUESTED_BY, ws, es, n, key)
    ensures HoldsTheLastWrite(SCHEDULED_FOR, ws, es, n, key) && HoldsTheLastWrite(CONFIRMED_BY, ws, es, n, key)
    ensures HoldsTheLastWrite(PUBLISHED_AT, ws, es, n, key) && HoldsTheLastWrite(REJECTED_BY, ws, es, n, key)
    ensures HoldsTheLastWrite(REJECTED_REASON, ws, es, n, key)
  {
    hide IsRun, HoldsTheLastWrite, Obeys;
    ColumnsObey();
    ColumnHoldsTheLastWrite(STATUS, ws, es, n, key);
    ColumnHoldsTheLastWrite(CONTENT, ws, es, n, key);
    ColumnHoldsTheLastWrite(CREATED_BY, ws, es, n, key);
    ColumnHoldsTheLastWrite(REQUESTED_BY, ws, es, n, key);
    ColumnHoldsTheLastWrite(SCHEDULED_FOR, ws, es, n, key);
    ColumnHoldsTheLastWrite(CONFIRMED_BY, ws, es, n, key);
    ColumnHoldsTheLastWrite(PUBLISHED_AT, ws, es, n, key);
    ColumnHoldsTheLastWrite(REJECTED_BY, ws, es, n, key);
    ColumnHoldsTheLastWrite(REJECTED_REASON, ws, es, n, key);
  }

  // ---- which commands are accepted --------------------------------------------------------------

  /** Step `p` is the last before state `n` to command or send row `key`. */
  ghost predicate IsLast(ws: seq<World>, es: seq<Event>, p: nat, n: nat, key: Key) {
    && p < n <= |es| < |ws| && (Does(ws, es, p, key) || Sends(ws, es, p, key))
    && forall j: nat :: p < j < n ==> !Does(ws, es, j, key) && !Sends(ws, es, j, key)
  }

  lemma UntouchedRowStays(ws: seq<World>, es: seq<Event>, n: nat, key: Key)
    requires IsRun(ws, es) && n < |es| && !Does(ws, es, n, key) && !Sends(ws, es, n, key)
    ensures key in ws[n + 1].db.rows <==> key in ws[n].db.rows
    ensures key in ws[n].db.rows ==> ws[n + 1].db.rows[key] == ws[n].db.rows[key]
  {
    hide Inv, RowOk, Perform, Next, Enabled, SendDue, StoreOk, IsDueBatch;
    StepAt(ws, es, n);
    if es[n].SendScheduled? {
      SendStepSends(ws[n], es[n]);
      TablesAreOk(ws[n]);
      DueAreScheduled(ws[n].db, es[n].batch, es[n].due);
      SendDueEffect(ws[n].db, es[n].due);
    } else if es[n].Act? {
      ActPerforms(ws[n], es[n]);
      OtherRowUntouched(ws[n].db, es[n].command, key);
    } else {
      OtherStepKeepsRows(ws[n], es[n]);
    }
  }

  lemma SendStepSends(w: World, e: Event)
    requires e.SendScheduled? && Enabled(w, e)
    ensures IsDueBatch(w.db.rows, w.db.now, e.batch, e.due)
    ensures (forall k :: k in e.due ==> k in w.db.rows) && Next(w, e).db == SendDue(w.db, e.due)
  {
    hide SendDue;
  }

  lemma {:induction false} RowSinceLast(ws: seq<World>, es: seq<Event>, p: nat, n: nat, key: Key)
    requires IsRun(ws, es) && IsLast(ws, es, p, n, key) && key in ws[p + 1].db.rows
    ensures key in ws[n].db.rows && ws[n].db.rows[key] == ws[p + 1].db.rows[key]
  {
    hide IsRun, Does, Sends;
    if p + 1 < n {
      assert IsLast(ws, es, p, n - 1, key);
      RowSinceLast(ws, es, p, n - 1, key);
      UntouchedRowStays(ws, es, n - 1, key);
    }
  }

  /** Every stored row was commanded. */
  lemma {:induction false} LastExists(ws: seq<World>, es: seq<Event>, n: nat, key: Key) returns (p: nat)
    requires IsRun(ws, es) && n <= |es| < |ws| && key in ws[n].db.rows
    ensures IsLast(ws, es, p, n, key) && key in ws[p + 1].db.rows && ws[n].db.rows[key] == ws[p + 1].db.rows[key]
  {
    hide IsRun, Does, Sends;
    if n == 0 {
      NothingAtFirst(STATUS, ws, es, key);
      assert false;
    } else {
      p := n - 1;
      if !Does(ws, es, n - 1, key) && !Sends(ws, es, n - 1, key) {
        UntouchedRowStays(ws, es, n - 1, key);
        p := LastExists(ws, es, n - 1, key);
      }
    }
  }

  /** Where an accepted command leads. */
  lemma CommandLeads(o: Row, c: Command, now: int)
    requires RowOk(o) && !c.Create? && !c.Revise? && Decide(o, c, now).Accept?
    ensures var r := Decide(o, c, now).row;
            var critical := o.content.severity == Critical;
            && r.content == o.content
            && (r.status == Draft <==> IsTakeBack(c))
            && (r.status == PublishRequested <==> IsAsk(c) && critical)
            && (r.status == Scheduled <==> c.ConfirmSchedule? || (c.Schedule? && !critical))
            && (r.status == PublishRequested ==>
                  r.requestedBy == Some(c.actor) && (r.scheduledFor.Some? <==> c.Schedule?))
  {
  }

  /** What the last command says about the row. */
  predicate Tells(c: Command, r: Row) {
    var critical := r.content.severity == Critical;
    && (r.status == Draft <==> c.Create? || c.Revise? || IsTakeBack(c))
    && (r.status == PublishRequested <==> IsAsk(c) && critical)
    && (r.status == Scheduled <==> c.ConfirmSchedule? || (c.Schedule? && !critical))
    && (r.status == PublishRequested ==>
          r.requestedBy == Some(c.actor) && (r.scheduledFor.Some? <==> c.Schedule?))
  }

  lemma LastTells(ws: seq<World>, es: seq<Event>, p: nat, n: nat, key: Key)
    requires IsRun(ws, es) && IsLast(ws, es, p, n, key)
    ensures key in ws[n].db.rows
    ensures if Does(ws, es, p, key) then Tells(es[p].command, ws[n].db.rows[key])
            else ws[n].db.rows[key].status == Published
  {
    hide Inv, RowOk, Perform, Next, Enabled, Tells, Decide, IsRun;
    StepAt(ws, es, p);
    TablesAreOk(ws[p]);
    if Does(ws, es, p, key) {
      CommandTells(ws, es, p, key);
    } else {
      SendStepSends(ws[p], es[p]);
      DueAreScheduled(ws[p].db, es[p].batch, es[p].due);
      SendDueEffect(ws[p].db, es[p].due);
      hide SendDue, IsDueBatch, StoreOk;
    }
    RowSinceLast(ws, es, p, n, key);
  }

  lemma CommandTells(ws: seq<World>, es: seq<Event>, p: nat, key: Key)
    requires IsRun(ws, es) && Does(ws, es, p, key)
    ensures key in ws[p + 1].db.rows && Tells(es[p].command, ws[p + 1].db.rows[key])
  {
    hide Inv, RowOk, Next, Enabled, Decide, IsRun, StoreOk;
    StepAt(ws, es, p);
    TablesAreOk(ws[p]);
    var s, c := ws[p].db, es[p].command;
    ActPerforms(ws[p], es[p]);
    if c.Create? || c.Revise? {
      NewRevision(s, c, key);
    } else {
      SucceedsDecides(s, c, key);
      StoredRowOk(ws[p], key);
      CommandLeads(s.rows[key], c, s.now);
    }
    hide Perform;
  }

  /** Which commands are accepted right after which, on the newest revision of an announcement. */
  predicate MayFollow(c: Command, last: Command, critical: bool) {
    var same := Names(Some(last.actor), c.actor);
    match c
    case Create(_, _, _, _) => false
    case Confirm(_, _) => last.Request? && critical && !same
    case ConfirmSchedule(_, _) => last.Schedule? && critical && !same
    case Cancel(_, _) => last.Schedule? || last.ConfirmSchedule?
    case Withdraw(_, _) => IsAsk(last) && critical && same
    case Reject(_, _, _) => IsAsk(last) && critical && !same
    case _ => last.Create? || last.Revise? || IsTakeBack(last)
  }

  /** What is checked before anything is looked up: a time in the future, a reason that is not blank. */
  predicate ArgumentsOk(c: Command, now: int) {
    && (c.Schedule? ==> c.when.Some? && now < c.when.value)
    && (c.Reject? ==> exists i :: 0 <= i < |c.reason| && !IsSpace(c.reason[i]))
  }

  /** The newest revision's last command, if it allows `c`. */
  ghost predicate IsAllowedBy(ws: seq<World>, es: seq<Event>, n: nat, c: Command, key: Key, p: nat) {
    && IsLast(ws, es, p, n, key) && Does(ws, es, p, key) && key in ws[n].db.rows
    && IsNewest(ws[n].db.rows, c.id, key)
    && MayFollow(c, es[p].command, ws[n].db.rows[key].content.severity == Critical)
  }

  /** On the newest revision, in the columns of its row. */
  predicate MayFollowRow(c: Command, r: Row) {
    match c
    case Create(_, _, _, _) => false
    case Confirm(_, _) =>
      r.status == PublishRequested && r.scheduledFor.None?
      && !(r.content.severity == Critical && Names(r.requestedBy, c.actor))
    case ConfirmSchedule(_, _) =>
      r.status == PublishRequested && r.scheduledFor.Some?
      && !(r.content.severity == Critical && Names(r.requestedBy, c.actor))
    case Cancel(_, _) => r.status == Scheduled || (r.status == PublishRequested && r.scheduledFor.Some?)
    case Withdraw(_, _) => r.status == PublishRequested && Names(r.requestedBy, c.actor)
    case Reject(_, _, _) => r.status == PublishRequested && !Names(r.requestedBy, c.actor)
    case _ => r.status == Draft
  }

  lemma AcceptedByTheRow(s: Store, c: Command, key: Key)
    requires !c.Create? && IsNewest(s.rows, c.id, key) && ArgumentsOk(c, s.now)
    ensures Perform(s, c).1.Ok? <==> MayFollowRow(c, s.rows[key])
  {
    hide Perform, Names;
    match c
    case Revise(_, _, _) => ReviseAnswers(s, c, key);
    case Discard(_, _) => DiscardAnswers(s, c, key);
    case Request(_, _) => RequestAnswers(s, c, key);
    case Schedule(_, _, _) => ScheduleAnswers(s, c, key);
    case Confirm(_, _) => ConfirmAnswers(s, c, key);
    case ConfirmSchedule(_, _) => ConfirmScheduleAnswers(s, c, key);
    case Cancel(_, _) => CancelAnswers(s, c, key);
    case Withdraw(_, _) => WithdrawAnswers(s, c, key);
    case Reject(_, _, _) => RejectAnswers(s, c, key);
  }

  lemma RowFollowsLast(r: Row, c: Command, last: Command)
    requires !c.Create? && Tells(last, r)
    ensures MayFollowRow(c, r) <==> MayFollow(c, last, r.content.severity == Critical)
  {
    hide Names;
  }

  /**
   * A command is accepted exactly when its arguments are in order and the last command on the newest revision
   * allows it: a withdrawal, for one, exactly when that was a request or a schedule by the same publisher, and
   * so with nothing taken back, approved or sent in between.
   */
  lemma AcceptedExactlyAfter(ws: seq<World>, es: seq<Event>, n: nat, c: Command)
    requires IsRun(ws, es) && n <= |es| < |ws| && !c.Create?
    ensures Perform(ws[n].db, c).1.Ok? <==>
            ArgumentsOk(c, ws[n].db.now) && exists key, p: nat :: IsAllowedBy(ws, es, n, c, key, p)
  {
    hide IsRun, Perform, MayFollow, MayFollowRow, Tells, IsLast, Does;
    var s := ws[n].db;
    ArgumentsAreCheckedFirst(s, c);
    if ArgumentsOk(c, s.now) {
      if !Exists(s.rows, c.id) {
        UnknownIdIsNotFound(s, c);
      } else {
        var key := NewestExists(s.rows, c.id);
        var p := LastExists(ws, es, n, key);
        LastAllows(ws, es, n, c, key, p);
        AcceptedByTheRow(s, c, key);
        forall j, q: nat | IsAllowedBy(ws, es, n, c, j, q) ensures MayFollowRow(c, s.rows[key]) {
          OneNewest(s.rows, c.id, j, key);
          LastAllows(ws, es, n, c, key, q);
        }
      }
    }
  }

  lemma OneNewest(rows: map<Key, Row>, id: string, j: Key, k: Key)
    requires IsNewest(rows, id, j) && IsNewest(rows, id, k)
    ensures j == k
  {
  }

  lemma NewestExists(rows: map<Key, Row>, id: string) returns (k: Key)
    requires Exists(rows, id)
    ensures IsNewest(rows, id, k)
  {
    k := Latest(rows, id).value;
    LatestIsNewest(rows, id, k);
  }

  lemma LastAllows(ws: seq<World>, es: seq<Event>, n: nat, c: Command, key: Key, p: nat)
    requires IsRun(ws, es) && n <= |es| < |ws| && !c.Create? && IsLast(ws, es, p, n, key) && key in ws[n].db.rows
    requires IsNewest(ws[n].db.rows, c.id, key)
    ensures MayFollowRow(c, ws[n].db.rows[key]) <==> IsAllowedBy(ws, es, n, c, key, p)
  {
    hide IsRun, Perform, Tells, MayFollow, IsLast, Does, Names, IsNewest;
    LastTells(ws, es, p, n, key);
    if Does(ws, es, p, key) {
      DoesActs(ws, es, p, key);
      RowFollowsLast(ws[n].db.rows[key], c, es[p].command);
    }
  }

  lemma DoesActs(ws: seq<World>, es: seq<Event>, p: nat, key: Key)
    requires Does(ws, es, p, key)
    ensures p < |es| && es[p].Act?
  {
  }

  /**
   * A withdrawal that succeeds undoes the publisher's own request: before it, the same lower-cased name asked for
   * that revision, with that content, and nobody took it back in between.
   */
  lemma WithdrawnByItsRequester(ws: seq<World>, es: seq<Event>, n: nat, key: Key)
    requires IsRun(ws, es) && n < |es| < |ws| && Succeeds(ws, es, n, key) && es[n].command.Withdraw?
    ensures exists p: nat, who: string ::
              && p < n && AsksFor(ws, es, p, key, who) && Lower(who) == Lower(es[n].command.actor)
              && (forall j: nat | p < j < n :: !TakesBack(ws, es, j, key))
              && key in ws[n].db.rows && ws[p].db.rows[key].content == ws[n].db.rows[key].content
  {
    hide Inv, RowOk, Next, Enabled, Decide, IsRun, AsksFor, TakesBack;
    StepAt(ws, es, n);
    var s, c := ws[n].db, es[n].command;
    SucceedsDecides(s, c, key);
    var top, d := PerformDecides(s, c);
    StoredRowOk(ws[n], key);
    LatestIsNewest(s.rows, c.id, key);
    WithdrawAnswers(s, c, key);
    var who := s.rows[key].requestedBy.value;
    NamesIsSamePerson(s.rows[key].requestedBy, c.actor);
    RequestedIsCritical(s.rows[key]);
    RunBacksEveryRow(ws, es, n, key);
    hide Perform, Names;
    var p :| Standing(ws, es, p, n, key, who);
  }

  lemma RequestedIsCritical(r: Row)
    requires RowOk(r) && r.status == PublishRequested
    ensures r.content.severity == Critical
  {
  }

  // ---- what the scheduler sends -----------------------------------------------------------------

  /** The row is scheduled, and for `t`. */
  predicate IsScheduledFor(rows: map<Key, Row>, k: Key, t: int) {
    k in rows && rows[k].status == Scheduled && rows[k].scheduledFor == Some(t)
  }

  /**
   * A scheduler step sends scheduled rows whose time has come, each once, soonest first, at most a batch; a row
   * whose time has come is left out only when a full batch of rows no later than it is sent.
   */
  lemma SchedulerSendsTheDueSoonestFirst(ws: seq<World>, es: seq<Event>, n: nat)
    requires IsRun(ws, es) && n < |es| < |ws| && es[n].SendScheduled?
    ensures var rows, now, due := ws[n].db.rows, ws[n].db.now, es[n].due;
            && |due| <= es[n].batch && (forall i, j :: 0 <= i < j < |due| ==> due[i] != due[j])
            && (forall k :: k in due ==> exists t :: t <= now && IsScheduledFor(rows, k, t))
            && (forall i, j, s, t | 0 <= i < j < |due| && IsScheduledFor(rows, due[i], s)
                                    && IsScheduledFor(rows, due[j], t) :: s <= t)
            && (forall k, t :: IsScheduledFor(rows, k, t) && t <= now && k !in due ==>
                  |due| == es[n].batch && forall j, s :: j in due && IsScheduledFor(rows, j, s) ==> s <= t)
  {
    hide Inv, SendDue, Next;
    StepAt(ws, es, n);
    SendStepSends(ws[n], es[n]);
    DueInColumns(ws[n].db.rows, ws[n].db.now, es[n].batch, es[n].due);
    hide IsRun, IsDueBatch;
  }

  lemma DueInColumns(rows: map<Key, Row>, now: int, batch: nat, due: seq<Key>)
    requires IsDueBatch(rows, now, batch, due)
    ensures |due| <= batch && (forall i, j :: 0 <= i < j < |due| ==> due[i] != due[j])
    ensures forall k :: k in due ==> exists t :: t <= now && IsScheduledFor(rows, k, t)
    ensures forall i, j, s, t | 0 <= i < j < |due| && IsScheduledFor(rows, due[i], s)
                                && IsScheduledFor(rows, due[j], t) :: s <= t
    ensures forall k, t :: IsScheduledFor(rows, k, t) && t <= now && k !in due ==>
              |due| == batch && forall j, s :: j in due && IsScheduledFor(rows, j, s) ==> s <= t
  {
    forall k | k in due ensures exists t :: t <= now && IsScheduledFor(rows, k, t) {
      assert IsDue(rows, k, now) && IsScheduledFor(rows, k, rows[k].scheduledFor.value);
    }
    forall k, t | IsScheduledFor(rows, k, t) && t <= now && k !in due
      ensures |due| == batch && forall j, s :: j in due && IsScheduledFor(rows, j, s) ==> s <= t
    {
      assert IsDue(rows, k, now) && DueTime(rows, k) == t;
      forall j, s | j in due && IsScheduledFor(rows, j, s) ensures s <= t {
        assert DueTime(rows, j) == s;
      }
    }
    forall i, j, s, t | 0 <= i < j < |due| && IsScheduledFor(rows, due[i], s) && IsScheduledFor(rows, due[j], t)
      ensures s <= t
    {
      assert DueTime(rows, due[i]) == s && DueTime(rows, due[j]) == t;
    }
  }

  // ---- what a worker claims ---------------------------------------------------------------------

  /** The delivery is unfinished, due at `now`, of a channel the worker has an adapter for, and in nobody's batch. */
  predicate IsClaimable(w: World, k: LedgerKey, known: set<Channel>) {
    && k in w.db.ledger && (w.db.ledger[k].status == Pending || w.db.ledger[k].status == Failed)
    && w.db.ledger[k].nextAt <= w.db.now && k.target.channel in known
    && forall i :: i in w.batches ==> k !in w.batches[i].held
  }

  /** The first delivery was due no later than the second. */
  predicate NotLater(ledger: map<LedgerKey, Delivery>, j: LedgerKey, k: LedgerKey) {
    j in ledger && k in ledger && ledger[j].nextAt <= ledger[k].nextAt
  }

  /**
   * A worker claims due, unfinished deliveries nobody else holds, each once, oldest first, at most its limit; one
   * is left out only for a full batch of older ones.
   */
  lemma WorkersClaimTheOldestDue(ws: seq<World>, es: seq<Event>, n: nat)
    requires IsRun(ws, es) && n < |es| < |ws| && es[n].BeginBatch?
    ensures var w, e := ws[n], es[n];
            && |e.claim| <= e.limit && (forall i, j :: 0 <= i < j < |e.claim| ==> e.claim[i] != e.claim[j])
            && (forall k :: k in e.claim ==> IsClaimable(w, k, e.known))
            && (forall i, j :: 0 <= i < j < |e.claim| ==> NotLater(w.db.ledger, e.claim[i], e.claim[j]))
            && (forall k :: IsClaimable(w, k, e.known) && k !in e.claim ==>
                  |e.claim| == e.limit && forall j :: j in e.claim ==> NotLater(w.db.ledger, j, k))
  {
    hide Inv, Next;
    StepAt(ws, es, n);
    ClaimInColumns(ws[n], es[n]);
    hide IsRun, Enabled;
  }

  lemma ClaimInColumns(w: World, e: Event)
    requires e.BeginBatch? && Enabled(w, e)
    ensures |e.claim| <= e.limit && (forall i, j :: 0 <= i < j < |e.claim| ==> e.claim[i] != e.claim[j])
    ensures forall k :: k in e.claim ==> IsClaimable(w, k, e.known)
    ensures forall i, j :: 0 <= i < j < |e.claim| ==> NotLater(w.db.ledger, e.claim[i], e.claim[j])
    ensures forall k :: IsClaimable(w, k, e.known) && k !in e.claim ==>
              |e.claim| == e.limit && forall j :: j in e.claim ==> NotLater(w.db.ledger, j, k)
  {
    var locked := Locked(w.batches);
    assert IsClaim(w.db.ledger, w.db.now, e.known, locked, e.limit, e.claim);
    forall k ensures k in locked <==> exists i :: i in w.batches && k in w.batches[i].held {
    }
    forall k ensures IsClaimable(w, k, e.known) <==> IsEligible(w.db.ledger, k, w.db.now, e.known) && k !in locked {
    }
    forall i, j | 0 <= i < j < |e.claim| ensures NotLater(w.db.ledger, e.claim[i], e.claim[j]) {
      assert IsClaimable(w, e.claim[i], e.known) && IsClaimable(w, e.claim[j], e.known);
      assert NextAt(w.db.ledger, e.claim[i]) <= NextAt(w.db.ledger, e.claim[j]);
    }
    forall k, j | IsClaimable(w, k, e.known) && k !in e.claim && j in e.claim ensures NotLater(w.db.ledger, j, k) {
      assert IsClaimable(w, j, e.known) && NextAt(w.db.ledger, j) <= NextAt(w.db.ledger, k);
    }
  }

  // ---- whom a publish reaches -------------------------------------------------------------------

  /** Step `n` publishes `key`: a command on it, or the scheduler. */
  ghost predicate Publishes(ws: seq<World>, es: seq<Event>, n: nat, key: Key) {
    && n < |es| < |ws| && (Does(ws, es, n, key) || Sends(ws, es, n, key))
    && key in ws[n].db.rows && ws[n].db.rows[key].status != Published
    && key in ws[n + 1].db.rows && ws[n + 1].db.rows[key].status == Published
  }

  lemma PublishingAddsTheTargets(ws: seq<World>, es: seq<Event>, n: nat, key: Key, t: Target)
    requires IsRun(ws, es) && Publishes(ws, es, n, key)
    ensures var s := ws[n].db;
            && LedgerKey(key, Publish, t) !in s.ledger && TablesOk(s.settings, s.subs)
            && (LedgerKey(key, Publish, t) in ws[n + 1].db.ledger <==>
                t in FanoutTargets(s.rows[key].content, s.settings, s.subs, s.enabled))
  {
    hide Inv, Next, Enabled, FanoutTargets, Perform, SendDue;
    StepAt(ws, es, n);
    TablesAreOk(ws[n]);
    if Does(ws, es, n, key) {
      PublishingFillsTheOutbox(ws, es, n, key);
    } else {
      SendingFillsTheOutbox(ws, es, n);
    }
  }

  /**
   * Whom a publish reaches: of the subscribers of enabled channels, as their rows stood in that transaction,
   * exactly the verified ones whose four lists meet the content get an outbox row.
   */
  lemma PublishReachesExactlyTheWilling(ws: seq<World>, es: seq<Event>, n: nat, key: Key, s: Subscription)
    requires IsRun(ws, es) && Publishes(ws, es, n, key) && s in ws[n].db.subs
    ensures var l := LedgerKey(key, Publish, Target(s.channel, s.id));
            && l !in ws[n].db.ledger
            && (l in ws[n + 1].db.ledger <==>
                s.channel in ws[n].db.enabled && Wants(s, ws[n].db.rows[key].content))
  {
    hide IsRun, Wants, FanoutTargets, TablesOk, Publishes;
    PublishingIsThere(ws, es, n, key);
    var d := ws[n].db;
    PublishingAddsTheTargets(ws, es, n, key, Target(s.channel, s.id));
    SubscribersAreChosenByTheirLists(d.rows[key].content, d.settings, d.subs, d.enabled, s);
  }

  lemma PublishingIsThere(ws: seq<World>, es: seq<Event>, n: nat, key: Key)
    requires Publishes(ws, es, n, key)
    ensures n < |es| < |ws| && key in ws[n].db.rows
  {
  }

  /** And of the destinations of enabled channels exactly those whose settings meet it. */
  lemma PublishReachesExactlyTheDestinations(ws: seq<World>, es: seq<Event>, n: nat, key: Key, s: Setting)
    requires IsRun(ws, es) && Publishes(ws, es, n, key) && s in ws[n].db.settings
    ensures var l := LedgerKey(key, Publish, Target(s.channel, s.key));
            && l !in ws[n].db.ledger
            && (l in ws[n + 1].db.ledger <==>
                s.channel in ws[n].db.enabled && Takes(s, ws[n].db.rows[key].content))
  {
    hide IsRun, Takes, FanoutTargets, TablesOk, Publishes;
    PublishingIsThere(ws, es, n, key);
    var d := ws[n].db;
    PublishingAddsTheTargets(ws, es, n, key, Target(s.channel, s.key));
    DestinationsAreChosenByTheirLists(d.rows[key].content, d.settings, d.subs, d.enabled, s);
  }
}
