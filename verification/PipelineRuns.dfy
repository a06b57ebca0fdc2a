/** Theorems about whole runs of the pipeline: any number of people, workers, alerters, crashes. */
module PipelineRuns {
  import opened Types
  import opened Text
  import opened Outbox
  import opened Announcements
  import opened Lifecycle
  import opened AuditReplay
  import opened Fanout
  import opened Health
  import opened Pipeline
  import opened PipelineInvariant

  lemma StepAt(ws: seq<World>, es: seq<Event>, n: nat)
    requires IsRun(ws, es) && n < |es|
    ensures Inv(ws[n]) && Inv(ws[n + 1]) && Enabled(ws[n], es[n]) && ws[n + 1] == Next(ws[n], es[n])
  {
    hide Inv;
    RunKeepsInv(ws, es, n);
    RunKeepsInv(ws, es, n + 1);
    assert IsStep(ws, es, n);
  }

  // ---- four eyes --------------------------------------------------------------------------------

  /** Step `n` is a transaction on `key` that succeeded. */
  ghost predicate Succeeds(ws: seq<World>, es: seq<Event>, n: nat, key: Key)
    requires n < |es| <= |ws|
  {
    && es[n].Act?
    && Perform(ws[n].db, es[n].command).1.Ok?
    && Perform(ws[n].db, es[n].command).1.value.key == key
  }

  /** At step `n` publisher `who` asks for `key` to go out, now or at a set time, and it must wait for approval. */
  ghost predicate AsksFor(ws: seq<World>, es: seq<Event>, n: nat, key: Key, who: string)
    requires n < |es| <= |ws|
  {
    && Succeeds(ws, es, n, key) && key in ws[n].db.rows
    && (es[n].command.Request? || es[n].command.Schedule?)
    && es[n].command.actor == who
    && Perform(ws[n].db, es[n].command).1.value.row.status == PublishRequested
  }

  ghost predicate Approves(ws: seq<World>, es: seq<Event>, n: nat, key: Key, who: string)
    requires n < |es| <= |ws|
  {
    && Succeeds(ws, es, n, key)
    && (es[n].command.Confirm? || es[n].command.ConfirmSchedule?)
    && es[n].command.actor == who
  }

  ghost predicate TakesBack(ws: seq<World>, es: seq<Event>, n: nat, key: Key)
    requires n < |es| <= |ws|
  {
    Succeeds(ws, es, n, key) && (es[n].command.Withdraw? || es[n].command.Reject? || es[n].command.Cancel?)
  }

  /** The request of step `p` still stands in state `n`, for the same content. */
  ghost predicate Standing(ws: seq<World>, es: seq<Event>, p: nat, n: nat, key: Key, who: string)
    requires n <= |es| < |ws|
  {
    && p < n && AsksFor(ws, es, p, key, who)
    && key in ws[n].db.rows && ws[n].db.rows[key].content == ws[p].db.rows[key].content
    && (forall j: nat | p < j < n :: !TakesBack(ws, es, j, key))
  }

  ghost predicate Approved(ws: seq<World>, es: seq<Event>, p: nat, q: nat, n: nat, key: Key, who: string)
    requires n <= |es| < |ws|
  {
    p < q < n && Approves(ws, es, q, key, who)
  }

  /** What the past must contain for a critical row to be in its present status. */
  ghost predicate Backed(ws: seq<World>, es: seq<Event>, n: nat, key: Key)
    requires n <= |es| < |ws|
  {
    key in ws[n].db.rows && ws[n].db.rows[key].content.severity == Critical ==>
      var r := ws[n].db.rows[key];
      && (r.status == PublishRequested && r.requestedBy.Some? ==>
            exists p :: Standing(ws, es, p, n, key, r.requestedBy.value))
      && ((r.status == Scheduled || r.status == Published) && r.requestedBy.Some? && r.confirmedBy.Some? ==>
            exists p, q :: Standing(ws, es, p, n, key, r.requestedBy.value)
                           && Approved(ws, es, p, q, n, key, r.confirmedBy.value))
  }

  lemma StandsOn(ws: seq<World>, es: seq<Event>, p: nat, n: nat, key: Key, who: string)
    requires n < |es| < |ws| && Standing(ws, es, p, n, key, who) && !TakesBack(ws, es, n, key)
    requires key in ws[n + 1].db.rows && ws[n + 1].db.rows[key].content == ws[n].db.rows[key].content
    ensures Standing(ws, es, p, n + 1, key, who)
  {
    forall j: nat | p < j < n + 1 ensures !TakesBack(ws, es, j, key) {
      if j < n {
        assert !TakesBack(ws, es, j, key);
      }
    }
  }

  /** The columns that carry approval. */
  predicate SameApproval(a: Row, b: Row) {
    a.content == b.content && a.requestedBy == b.requestedBy && a.confirmedBy == b.confirmedBy
  }

  /** A step that leaves a row's approval alone, or only sends a scheduled row, leaves its backing alone. */
  lemma BackingCarries(ws: seq<World>, es: seq<Event>, n: nat, key: Key)
    requires n < |es| < |ws| && Backed(ws, es, n, key) && !TakesBack(ws, es, n, key)
    requires key in ws[n].db.rows && key in ws[n + 1].db.rows
    requires var a, b := ws[n].db.rows[key], ws[n + 1].db.rows[key];
             SameApproval(a, b) && (a.status == b.status || (a.status == Scheduled && b.status == Published))
    ensures Backed(ws, es, n + 1, key)
  {
    var a, b := ws[n].db.rows[key], ws[n + 1].db.rows[key];
    if a.content.severity == Critical && a.requestedBy.Some? {
      if a.status == PublishRequested {
        var p :| Standing(ws, es, p, n, key, a.requestedBy.value);
        StandsOn(ws, es, p, n, key, a.requestedBy.value);
      } else if (a.status == Scheduled || a.status == Published) && a.confirmedBy.Some? {
        var p, q :| Standing(ws, es, p, n, key, a.requestedBy.value)
          && Approved(ws, es, p, q, n, key, a.confirmedBy.value);
        StandsOn(ws, es, p, n, key, a.requestedBy.value);
        assert Approved(ws, es, p, q, n + 1, key, a.confirmedBy.value);
      }
    }
  }

  /** Which commands lead to a waiting, approved or undone critical row. */
  lemma DecideNeedsApproval(r: Row, c: Command, now: int)
    requires RowOk(r) && !c.Revise? && r.content.severity == Critical && Decide(r, c, now).Accept?
    ensures var t := Decide(r, c, now).row;
            && (t.status == PublishRequested ==> (c.Request? || c.Schedule?) && t.requestedBy == Some(c.actor))
            && (t.status == Scheduled || t.status == Published ==>
                  && (c.Confirm? || c.ConfirmSchedule?) && t.confirmedBy == Some(c.actor)
                  && r.status == PublishRequested && t.requestedBy == r.requestedBy && r.requestedBy.Some?)
            && (c.Withdraw? || c.Reject? || c.Cancel? ==> t.status == Draft)
  {
  }

  /** The row a successful command other than create or revise leaves is what Decide says. */
  lemma SucceedsDecides(s: Store, c: Command, key: Key)
    requires !c.Create? && !c.Revise? && Perform(s, c).1.Ok? && Perform(s, c).1.value.key == key
    ensures key in s.rows && Decide(s.rows[key], c, s.now).Accept?
    ensures Perform(s, c).0.rows == s.rows[key := Decide(s.rows[key], c, s.now).row]
    ensures Perform(s, c).1.value.row == Decide(s.rows[key], c, s.now).row
  {
    var top, d := PerformDecides(s, c);
  }

  lemma CommandKeepsBacking(ws: seq<World>, es: seq<Event>, n: nat, key: Key)
    requires IsRun(ws, es) && n < |es| && Succeeds(ws, es, n, key) && Backed(ws, es, n, key)
    ensures Backed(ws, es, n + 1, key)
  {
    hide Inv, RowOk, Perform, Decide;
    StepAt(ws, es, n);
    var s, c := ws[n].db, es[n].command;
    if c.Create? || c.Revise? {
      NewRevisionIsDraft(s, c);
    } else {
      SucceedsDecides(s, c, key);
      StoredRowOk(ws[n], key);
      var r := s.rows[key];
      var t := Decide(r, c, s.now).row;
      assert t == ws[n + 1].db.rows[key];
      DecideKeepsRowOk(r, c, s.now);
      if r.content.severity == Critical {
        DecideNeedsApproval(r, c, s.now);
        if t.status == PublishRequested {
          assert Standing(ws, es, n, n + 1, key, c.actor);
        } else if t.status == Scheduled || t.status == Published {
          var p :| Standing(ws, es, p, n, key, r.requestedBy.value);
          StandsOn(ws, es, p, n, key, r.requestedBy.value);
          assert Approved(ws, es, p, n, n + 1, key, c.actor);
        }
      }
    }
  }

  /** A command on another row leaves this one alone. */
  lemma OtherRowUntouched(s: Store, c: Command, key: Key)
    requires Perform(s, c).1.Err? || Perform(s, c).1.value.key != key
    ensures key in Perform(s, c).0.rows <==> key in s.rows
    ensures key in s.rows ==> Perform(s, c).0.rows[key] == s.rows[key]
  {
    if Perform(s, c).1.Ok? && !c.Create? {
      var top, d := PerformDecides(s, c);
    }
  }

  lemma ActKeepsBacking(ws: seq<World>, es: seq<Event>, n: nat, key: Key)
    requires IsRun(ws, es) && n < |es| && es[n].Act? && Backed(ws, es, n, key)
    ensures Backed(ws, es, n + 1, key)
  {
    hide Inv, Perform, Standing, Approved;
    StepAt(ws, es, n);
    var s := ws[n].db;
    if Succeeds(ws, es, n, key) {
      CommandKeepsBacking(ws, es, n, key);
    } else {
      OtherRowUntouched(s, es[n].command, key);
      if key in s.rows {
        BackingCarries(ws, es, n, key);
      }
    }
  }

  lemma SendingKeepsBacking(ws: seq<World>, es: seq<Event>, n: nat, key: Key)
    requires IsRun(ws, es) && n < |es| && es[n].SendScheduled? && Backed(ws, es, n, key)
    ensures Backed(ws, es, n + 1, key)
  {
    hide Inv, StoreOk, SendDue, RowOk, IsDueBatch, Standing, Approved, AllScheduled;
    StepAt(ws, es, n);
    TablesAreOk(ws[n]);
    var s, t := ws[n].db, ws[n + 1].db;
    DueAreScheduled(s, es[n].batch, es[n].due);
    SendDueEffect(s, es[n].due);
    if key in s.rows {
      ScheduledKeepsApprover(s, key);
      if key in es[n].due && s.rows[key].content.severity != Critical {
        assert t.rows[key].content == s.rows[key].content;
      } else {
        BackingCarries(ws, es, n, key);
      }
    }
  }

  lemma OtherStepKeepsRows(w: World, e: Event)
    requires Enabled(w, e) && !e.Act? && !e.SendScheduled?
    ensures Next(w, e).db.rows == w.db.rows
  {
    hide Turn, Issues;
  }

  lemma StepKeepsBacking(ws: seq<World>, es: seq<Event>, n: nat, key: Key)
    requires IsRun(ws, es) && n < |es| && Backed(ws, es, n, key)
    ensures Backed(ws, es, n + 1, key)
  {
    hide Inv, Next, Standing, Approved;
    if es[n].Act? {
      ActKeepsBacking(ws, es, n, key);
    } else if es[n].SendScheduled? {
      SendingKeepsBacking(ws, es, n, key);
    } else {
      StepAt(ws, es, n);
      OtherStepKeepsRows(ws[n], es[n]);
      if key in ws[n].db.rows {
        BackingCarries(ws, es, n, key);
      }
    }
  }

  lemma ScheduledKeepsApprover(s: Store, key: Key)
    requires StoreOk(s) && key in s.rows
    ensures s.rows[key].status == Scheduled && s.rows[key].content.severity == Critical ==>
              PublishedRow(s.rows[key], ScheduledConfirmer(s.rows[key]), s.now).confirmedBy == s.rows[key].confirmedBy
  {
    assert RowOk(s.rows[key]);
  }

  lemma {:induction false} RunBacksEveryRow(ws: seq<World>, es: seq<Event>, n: nat, key: Key)
    requires IsRun(ws, es) && n <= |es|
    ensures Backed(ws, es, n, key)
  {
    if n > 0 {
      RunBacksEveryRow(ws, es, n - 1, key);
      StepKeepsBacking(ws, es, n - 1, key);
    }
  }

  /** The adapter call step `n` makes. */
  ghost predicate Delivers(ws: seq<World>, es: seq<Event>, n: nat, c: Call)
    requires n < |es| < |ws|
  {
    es[n].HandleRow? && ws[n + 1].calls == ws[n].calls + [c]
  }

  /** An adapter is called with a stored, published row that satisfies the row invariant. */
  lemma DeliveredRow(ws: seq<World>, es: seq<Event>, n: nat, c: Call)
    requires IsRun(ws, es) && n < |es| && Delivers(ws, es, n, c)
    ensures c.key.key in ws[n].db.rows && c.row == ws[n].db.rows[c.key.key]
    ensures RowOk(c.row) && c.row.status == Published
  {
    hide Inv, RowOk;
    StepAt(ws, es, n);
    assert c == ws[n + 1].calls[|ws[n].calls|];
    var b := ws[n].batches[es[n].worker];
    OpenBatchOk(ws[n], es[n].worker);
    assert c.key in b.held;
    StoredDeliveryOk(ws[n], c.key);
  }

  lemma TwoPeopleApproved(r: Row)
    requires RowOk(r) && r.status == Published && r.content.severity == Critical
    ensures r.requestedBy.Some? && r.confirmedBy.Some? && Lower(r.requestedBy.value) != Lower(r.confirmedBy.value)
  {
  }

  /** A critical row is published only after two people agreed on its content. */
  lemma PublishedWasApproved(ws: seq<World>, es: seq<Event>, n: nat, key: Key)
    requires IsRun(ws, es) && n <= |es| && key in ws[n].db.rows && RowOk(ws[n].db.rows[key])
    requires ws[n].db.rows[key].status == Published && ws[n].db.rows[key].content.severity == Critical
    ensures exists p: nat, q: nat, asker: string, approver: string ::
              && p < q < n && AsksFor(ws, es, p, key, asker) && Approves(ws, es, q, key, approver)
              && Lower(asker) != Lower(approver)
              && (forall j: nat | p < j < n :: !TakesBack(ws, es, j, key))
              && ws[p].db.rows[key].content == ws[n].db.rows[key].content
  {
    hide Inv, Next, Enabled, IsStep;
    var r := ws[n].db.rows[key];
    TwoPeopleApproved(r);
    hide RowOk, AsksFor, Approves, TakesBack;
    RunBacksEveryRow(ws, es, n, key);
    var asker, approver := r.requestedBy.value, r.confirmedBy.value;
    var p, q :| Standing(ws, es, p, n, key, asker) && Approved(ws, es, p, q, n, key, approver);
    assert AsksFor(ws, es, p, key, asker) && Approves(ws, es, q, key, approver);
  }

  /**
   * Whenever an adapter is called for a critical announcement, one publisher asked for that revision
   * before, another whose lower-cased name differs approved it later, nobody withdrew, rejected or
   * cancelled it in between, and what is delivered is exactly the content that was asked for.
   */
  lemma FourEyes(ws: seq<World>, es: seq<Event>, n: nat, c: Call)
    requires IsRun(ws, es) && n < |es| && Delivers(ws, es, n, c)
    requires c.row.content.severity == Critical
    ensures exists p: nat, q: nat, asker: string, approver: string ::
              && p < q < n && AsksFor(ws, es, p, c.key.key, asker) && Approves(ws, es, q, c.key.key, approver)
              && Lower(asker) != Lower(approver)
              && (forall j: nat | p < j < n :: !TakesBack(ws, es, j, c.key.key))
              && ws[p].db.rows[c.key.key].content == c.row.content
  {
    hide Inv, Next, Enabled, RowOk, AsksFor, Approves, TakesBack;
    DeliveredRow(ws, es, n, c);
    PublishedWasApproved(ws, es, n, c.key.key);
  }

  // ---- publishing -------------------------------------------------------------------------------

  /** A step that publishes a row fills the outbox with that transaction's targets, each once, and nothing else. */
  lemma PublishingFillsTheOutbox(ws: seq<World>, es: seq<Event>, n: nat, key: Key)
    requires IsRun(ws, es) && n < |es| && Succeeds(ws, es, n, key)
    requires key in ws[n].db.rows && ws[n].db.rows[key].status != Published
             && ws[n + 1].db.rows[key].status == Published
    ensures var s, t := ws[n].db, ws[n + 1].db;
            var targets := FanoutTargets(s.rows[key].content, s.settings, s.subs, s.enabled);
            && Distinct(targets)
            && (forall l :: l in t.ledger <==>
                  l in s.ledger || (l.key == key && l.kind == Publish && l.target in targets))
            && (forall l :: l in s.ledger ==> l.key != key && t.ledger[l] == s.ledger[l])
            && (forall l :: l in t.ledger && l.key == key ==> t.ledger[l] == NewDelivery(s.now))
  {
    StepAt(ws, es, n);
    var s, c := ws[n].db, es[n].command;
    NewRevisionIsDraft(s, c);
    assert !c.Create? && !c.Revise?;
    SucceedsDecides(s, c, key);
    var top, d := PerformDecides(s, c);
    DecideKeepsRowOk(s.rows[key], c, s.now);
    PublishInsertsEveryTarget(s, Announcement(key, d.row));
  }

  /** A scheduler step does the same for every row it publishes. */
  lemma SendingFillsTheOutbox(ws: seq<World>, es: seq<Event>, n: nat)
    requires IsRun(ws, es) && n < |es| && es[n].SendScheduled?
    ensures var s, t, due := ws[n].db, ws[n + 1].db, es[n].due;
            && (forall k :: k in due ==> k in s.rows && s.rows[k].status == Scheduled && t.rows[k].status == Published)
            && (forall l :: l in t.ledger <==> l in s.ledger || (l.key in due && IsTargetRow(s, l)))
            && (forall l :: l in s.ledger ==> l.key !in due && t.ledger[l] == s.ledger[l])
            && (forall l :: l in t.ledger && l.key in due ==> t.ledger[l] == NewDelivery(s.now))
  {
    hide Inv, SendDue, IsTargetRow;
    StepAt(ws, es, n);
    var s := ws[n].db;
    TablesAreOk(ws[n]);
    DueAreScheduled(s, es[n].batch, es[n].due);
    SendDueEffect(s, es[n].due);
    SendDueFills(s, es[n].due);
    LedgerIsPublished(s);
    hide StoreOk, IsDueBatch;
  }

  lemma LedgerIsPublished(s: Store)
    requires StoreOk(s)
    ensures forall l :: l in s.ledger ==> l.key in s.rows && s.rows[l.key].status == Published
  {
  }

  lemma NewRevisionIsDraft(s: Store, c: Command)
    ensures (c.Create? || c.Revise?) && Perform(s, c).1.Ok? ==>
              var key := Perform(s, c).1.value.key;
              key in Perform(s, c).0.rows && Perform(s, c).0.rows[key].status == Draft
  {
    if c.Revise? && Perform(s, c).1.Ok? {
      var top, d := PerformDecides(s, c);
    }
  }

  /** A worker never meets an outbox row whose announcement is missing or unpublished. */
  lemma MissingAnnouncementIsUnreachable(ws: seq<World>, es: seq<Event>, n: nat)
    requires IsRun(ws, es) && n < |es| && es[n].HandleRow?
    ensures var b := ws[n].batches[es[n].worker];
            var key := b.held[b.done].key;
            key in ws[n].db.rows && ws[n].db.rows[key].status == Published
  {
    hide Inv;
    StepAt(ws, es, n);
    var b := ws[n].batches[es[n].worker];
    StoredDeliveryOk(ws[n], b.held[b.done]);
  }

  // ---- the log ----------------------------------------------------------------------------------

  /** In every state of every run the audit log alone rebuilds the rows' lifecycle columns. */
  lemma LogRebuildsRows(ws: seq<World>, es: seq<Event>, n: nat)
    requires IsRun(ws, es) && n <= |es|
    ensures Replay(ws[n].db.audit) == Trails(ws[n].db.rows)
  {
    RunKeepsInv(ws, es, n);
  }

  lemma {:induction false} SendDueAppends(s: Store, due: seq<Key>)
    requires forall k :: k in due ==> k in s.rows
    ensures s.audit <= SendDue(s, due).audit
  {
    if due != [] {
      var init := due[..|due| - 1];
      assert forall k :: k in init ==> k in due;
      SendDueAppends(s, init);
    }
  }

  lemma StepAppends(ws: seq<World>, es: seq<Event>, n: nat)
    requires IsRun(ws, es) && n < |es|
    ensures ws[n].db.audit <= ws[n + 1].db.audit
  {
    assert IsStep(ws, es, n);
    if es[n].Act? {
      PerformAppends(ws[n].db, es[n].command);
    } else if es[n].SendScheduled? {
      DueAreScheduled(ws[n].db, es[n].batch, es[n].due);
      SendDueAppends(ws[n].db, es[n].due);
    } else {
      assert ws[n + 1].db.audit == ws[n].db.audit;
    }
  }

  lemma PerformAppends(s: Store, c: Command)
    ensures s.audit <= Perform(s, c).0.audit
  {
    if Perform(s, c).1.Ok? && !c.Create? {
      var top, d := PerformDecides(s, c);
    }
  }

  /** The log is append-only. */
  lemma {:induction false} LogOnlyGrows(ws: seq<World>, es: seq<Event>, m: nat, n: nat)
    requires IsRun(ws, es) && m <= n <= |es|
    ensures ws[m].db.audit <= ws[n].db.audit
  {
    if m < n {
      LogOnlyGrows(ws, es, m, n - 1);
      StepAppends(ws, es, n - 1);
    }
  }

  // ---- rows that never change again -------------------------------------------------------------

  lemma StepFreezes(ws: seq<World>, es: seq<Event>, n: nat, k: Key)
    requires IsRun(ws, es) && n < |es| && k in ws[n].db.rows
    ensures k in ws[n + 1].db.rows && ws[n + 1].db.rows[k].content == ws[n].db.rows[k].content
    ensures ws[n].db.rows[k].status == Published ==> ws[n + 1].db.rows[k] == ws[n].db.rows[k]
  {
    hide Inv;
    StepAt(ws, es, n);
    if es[n].Act? || es[n].SendScheduled? || es[n].Sleep? || es[n].Configure? {
      DatabaseStepKeepsInv(ws[n], es[n]);
    }
  }

  /** Content is immutable, rows are never deleted, and a published row is never left or rewritten. */
  lemma {:induction false} PublishedIsFinal(ws: seq<World>, es: seq<Event>, m: nat, n: nat, k: Key)
    requires IsRun(ws, es) && m <= n <= |es| && k in ws[m].db.rows
    ensures k in ws[n].db.rows && ws[n].db.rows[k].content == ws[m].db.rows[k].content
    ensures ws[m].db.rows[k].status == Published ==> ws[n].db.rows[k] == ws[m].db.rows[k]
  {
    if m < n {
      PublishedIsFinal(ws, es, m, n - 1, k);
      StepFreezes(ws, es, n - 1, k);
    }
  }

  lemma CommitOnlyWritesOpenRows(s: Store, b: Batch)
    requires WritesOk(s.rows, s.ledger, b)
    ensures forall k :: k in b.writes ==> k in s.ledger && !IsTerminal(s.ledger[k])
  {
    CalledIsWritten(s, b);
  }

  lemma StepKeepsFinished(ws: seq<World>, es: seq<Event>, n: nat, k: LedgerKey)
    requires IsRun(ws, es) && n < |es| && k in ws[n].db.ledger
    ensures k in ws[n + 1].db.ledger
    ensures IsTerminal(ws[n].db.ledger[k]) ==> ws[n + 1].db.ledger[k] == ws[n].db.ledger[k]
  {
    hide Inv;
    StepAt(ws, es, n);
    if es[n].Act? || es[n].SendScheduled? || es[n].Sleep? || es[n].Configure? {
      DatabaseStepKeepsInv(ws[n], es[n]);
    } else if es[n].CommitBatch? {
      OpenBatchOk(ws[n], es[n].worker);
      CommitOnlyWritesOpenRows(ws[n].db, ws[n].batches[es[n].worker]);
      hide WritesOk;
    }
  }

  /** Delivered and exhausted outbox rows stay exactly as they are. */
  lemma {:induction false} FinishedIsFinal(ws: seq<World>, es: seq<Event>, m: nat, n: nat, k: LedgerKey)
    requires IsRun(ws, es) && m <= n <= |es| && k in ws[m].db.ledger
    ensures k in ws[n].db.ledger
    ensures IsTerminal(ws[m].db.ledger[k]) ==> ws[n].db.ledger[k] == ws[m].db.ledger[k]
  {
    if m < n {
      FinishedIsFinal(ws, es, m, n - 1, k);
      StepKeepsFinished(ws, es, n - 1, k);
    }
  }

  // ---- workers ----------------------------------------------------------------------------------

  /** The batch step `n` commits writes outbox row `k`. */
  ghost predicate Commits(ws: seq<World>, es: seq<Event>, n: nat, k: LedgerKey)
    requires n < |es| < |ws|
  {
    es[n].CommitBatch? && es[n].worker in ws[n].batches && k in ws[n].batches[es[n].worker].writes
  }

  /** Once a commit has recorded a success, no later commit writes that row: one committed success at most. */
  lemma OneCommittedSuccess(ws: seq<World>, es: seq<Event>, p: nat, q: nat, k: LedgerKey)
    requires IsRun(ws, es) && p < |es| && q < |es| && Commits(ws, es, p, k) && Commits(ws, es, q, k)
    requires ws[p].batches[es[p].worker].writes[k].status == Delivered
    ensures q <= p
  {
    hide Inv, WritesOk;
    StepAt(ws, es, p);
    StepAt(ws, es, q);
    OpenBatchOk(ws[p], es[p].worker);
    OpenBatchOk(ws[q], es[q].worker);
    CommitOnlyWritesOpenRows(ws[p].db, ws[p].batches[es[p].worker]);
    CommitOnlyWritesOpenRows(ws[q].db, ws[q].batches[es[q].worker]);
    assert ws[p + 1].db.ledger[k].status == Delivered;
    if p < q {
      FinishedIsFinal(ws, es, p + 1, q, k);
    }
  }

  /** No two open batches hold the same row, and no open batch holds a finished one. */
  lemma ClaimsAreDisjoint(ws: seq<World>, es: seq<Event>, n: nat, i: nat, j: nat, k: LedgerKey)
    requires IsRun(ws, es) && n <= |es| && i in ws[n].batches && j in ws[n].batches
    requires k in ws[n].batches[i].held && k in ws[n].batches[j].held
    ensures i == j && k in ws[n].db.ledger && !IsTerminal(ws[n].db.ledger[k])
  {
    RunKeepsInv(ws, es, n);
    OpenBatchOk(ws[n], i);
    hide DatabaseOk, TriesOk, CallsOk, AlertKeysOk, AlertsOk;
  }

  /** Aborted batches, up to state `n`, that held row `k`. */
  ghost function AbortsHolding(ws: seq<World>, es: seq<Event>, n: nat, k: LedgerKey): nat
    requires n <= |es| < |ws|
  {
    if n == 0 then 0
    else
      var e := es[n - 1];
      AbortsHolding(ws, es, n - 1, k)
      + (if e.AbortBatch? && e.worker in ws[n - 1].batches && k in ws[n - 1].batches[e.worker].held then 1 else 0)
  }

  lemma OnlyAbortsLose(w: World, e: Event)
    requires Enabled(w, e)
    ensures Next(w, e).lost == if e.AbortBatch? then w.lost + [Called(w.db.rows, w.batches[e.worker])] else w.lost
  {
    hide Turn, Issues, Perform, SendDue, Called;
  }

  lemma StepLosesHeldRows(w: World, e: Event, k: LedgerKey)
    requires Inv(w) && Enabled(w, e)
    ensures LostFor(Next(w, e).lost, k)
         <= LostFor(w.lost, k) + (if e.AbortBatch? && k in w.batches[e.worker].held then 1 else 0)
  {
    hide Inv, Next, WritesOk, Called;
    OnlyAbortsLose(w, e);
    if e.AbortBatch? {
      OpenBatchOk(w, e.worker);
      CalledIsWritten(w.db, w.batches[e.worker]);
      LostForLast(w.lost, Called(w.db.rows, w.batches[e.worker]), k);
    }
  }

  lemma {:induction false} LostIsAborted(ws: seq<World>, es: seq<Event>, n: nat, k: LedgerKey)
    requires IsRun(ws, es) && n <= |es|
    ensures LostFor(ws[n].lost, k) <= AbortsHolding(ws, es, n, k)
  {
    hide Inv, Next, IsStep, LostFor, IsInit;
    if n > 0 {
      LostIsAborted(ws, es, n - 1, k);
      StepAt(ws, es, n - 1);
      StepLosesHeldRows(ws[n - 1], es[n - 1], k);
    } else {
      NothingLostYet(ws[0], k);
    }
  }

  lemma NothingLostYet(w: World, k: LedgerKey)
    requires IsInit(w)
    ensures LostFor(w.lost, k) == 0
  {
  }

  /**
   * Every adapter call for a row is a committed attempt, belongs to an aborted batch that held the row,
   * or is the one its open batch has made; attempts never exceed five.
   */
  lemma EveryCallIsAccountedFor(ws: seq<World>, es: seq<Event>, n: nat, k: LedgerKey)
    requires IsRun(ws, es) && n <= |es| && k in ws[n].db.ledger
    ensures var w := ws[n];
            && w.db.ledger[k].attempts <= MAX_ATTEMPTS
            && CallsFor(w.calls, k) == w.db.ledger[k].attempts + LostFor(w.lost, k) + Flying(w.batches, k)
            && CallsFor(w.calls, k) <= w.db.ledger[k].attempts + AbortsHolding(ws, es, n, k) + Flying(w.batches, k)
  {
    RunKeepsInv(ws, es, n);
    assert Balanced(ws[n].db.ledger, ws[n].calls, ws[n].lost, ws[n].batches, k);
    LostIsAborted(ws, es, n, k);
  }

  lemma LedgerOnLadder(w: World)
    requires Inv(w)
    ensures LedgerClimbs(w.db.ledger)
  {
    hide StoreOk, LogTellsAll, LedgerClimbs, BatchesOk, TriesOk, CallsOk, AlertKeysOk, AlertsOk;
  }

  /** Committing a batch whose channels all have adapters uses up at least one attempt per claimed row. */
  lemma CommitsDrain(ws: seq<World>, es: seq<Event>, n: nat)
    requires IsRun(ws, es) && n < |es| && es[n].CommitBatch?
    requires forall k :: k in ws[n].batches[es[n].worker].held ==> k.target.channel in ws[n].batches[es[n].worker].built
    ensures Potential(ws[n + 1].db.ledger) + |ws[n].batches[es[n].worker].held| <= Potential(ws[n].db.ledger)
  {
    hide Inv, WritesOk;
    StepAt(ws, es, n);
    var w := ws[n];
    var b := w.batches[es[n].worker];
    LedgerOnLadder(w);
    OpenBatchOk(w, es[n].worker);
    CommitSpends(w.db.rows, w.db.ledger, b);
    WritesCoverClaim(w.db.rows, w.db.ledger, b);
  }

  // ---- the retry ladder -------------------------------------------------------------------------

  /** An exhausted row was tried exactly five times over at least 37 minutes, all after its publication. */
  lemma ExhaustionTakes37Minutes(ws: seq<World>, es: seq<Event>, n: nat, k: LedgerKey)
    requires IsRun(ws, es) && n <= |es| && k in ws[n].db.ledger && ws[n].db.ledger[k].status == Exhausted
    ensures var times := TriesOf(ws[n].tries, k);
            && |times| == 5 && times[4] - times[0] >= 37 * MINUTE
            && k.key in ws[n].db.rows && ws[n].db.rows[k.key].publishedAt.Some?
            && ws[n].db.rows[k.key].publishedAt.value <= times[0] && times[4] <= ws[n].db.now
  {
    RunKeepsInv(ws, es, n);
    StoredDeliveryOk(ws[n], k);
    var times := TriesOf(ws[n].tries, k);
    hide DatabaseOk, BatchesOk, CallsOk, AlertKeysOk, AlertsOk, RowOk;
    assert HistoryOk(ws[n].db.ledger[k], times, PublishedAt(ws[n].db.rows, k.key));
    assert times[1] >= times[0] + BACKOFF_MINUTES[0] * MINUTE && times[2] >= times[1] + BACKOFF_MINUTES[1] * MINUTE;
    assert times[3] >= times[2] + BACKOFF_MINUTES[2] * MINUTE && times[4] >= times[3] + BACKOFF_MINUTES[3] * MINUTE;
    assert times[4] in ws[n].tries[k];
  }

  lemma LedgerRowIsPublished(s: Store, k: LedgerKey)
    requires StoreOk(s) && k in s.ledger
    ensures k.kind == Publish && k.key in s.rows && s.rows[k.key].status == Published && s.rows[k.key].publishedAt.Some?
    ensures forall j :: j in s.ledger && SameGroup(j, k) ==> j == k
  {
    assert RowOk(s.rows[k.key]);
  }

  /**
   * The grace period is shorter than the ladder: between 30 and 37 minutes after publication every
   * destination that has not succeeded is reported as silent although no row can be exhausted yet.
   */
  lemma SilenceIsReportedBeforeExhaustion(ws: seq<World>, es: seq<Event>, n: nat, k: LedgerKey, since: int)
    requires IsRun(ws, es) && n <= |es| && k in ws[n].db.ledger && since >= 37 * MINUTE
    requires GRACE < ws[n].db.now - PublishedAt(ws[n].db.rows, k.key) < 37 * MINUTE
    ensures ws[n].db.ledger[k].status != Exhausted
    ensures IsSilent(ws[n].db.rows, ws[n].db.ledger, k, ws[n].db.now, since) <==> ws[n].db.ledger[k].status != Delivered
  {
    hide Inv, StoreOk, RowOk;
    RunKeepsInv(ws, es, n);
    var s := ws[n].db;
    TablesAreOk(ws[n]);
    LedgerRowIsPublished(s, k);
    if s.ledger[k].status == Exhausted {
      ExhaustionTakes37Minutes(ws, es, n, k);
    }
    assert SameGroup(k, k);
  }

  // ---- alerts -----------------------------------------------------------------------------------

  /** Each key is in at most one committed email, and is marked notified exactly when there is one. */
  lemma OneAlertPerProblem(ws: seq<World>, es: seq<Event>, n: nat, key: string)
    requires IsRun(ws, es) && n <= |es|
    ensures key in ws[n].db.alerts && ws[n].db.alerts[key].Some? <==> exists i :: Reports(ws[n].mails, i, key)
    ensures forall i, j :: Reports(ws[n].mails, i, key) && Reports(ws[n].mails, j, key) ==> i == j
  {
    RunKeepsInv(ws, es, n);
  }

  /** A failed or abandoned round leaves every key it held unnotified and claimable by the next one. */
  lemma FailedAlertIsRetried(ws: seq<World>, es: seq<Event>, n: nat, key: string)
    requires IsRun(ws, es) && n < |es|
    requires es[n].AbortAlerts? || (es[n].MailAlerts? && !es[n].ok)
    requires Claims(ws[n].alerters, es[n].alerter, key)
    ensures Claimable(ws[n + 1].db.alerts, ws[n + 1].alerters, {key}) == {key}
  {
    RunKeepsInv(ws, es, n);
    assert IsStep(ws, es, n);
    ReleasedKeyIsClaimable(ws[n].db.alerts, ws[n].alerters, ws[n].mails, es[n].alerter, key);
  }

  lemma ReleasedKeyIsClaimable(alerts: map<string, Option<int>>, alerters: map<nat, Alerter>, mails: seq<Mail>, id: nat,
                               key: string)
    requires AlertsOk(alerts, alerters, mails) && Claims(alerters, id, key)
    ensures Claimable(alerts, alerters - {id}, {key}) == {key}
  {
    var after := alerters - {id};
    forall a | a in after && !after[a].Looking? ensures key !in after[a].keys {
      assert Claims(after, a, key) ==> Claims(alerters, a, key);
    }
    assert key !in Claimed(after);
  }

  lemma ReportedIsStored(ws: seq<World>, es: seq<Event>, n: nat, m: int, key: string) returns (j: Issue)
    requires IsRun(ws, es) && n <= |es| && Reports(ws[n].mails, m, key)
    ensures Inv(ws[n]) && AlertKey(j) == key && LedgerKey(j.key, Publish, j.target) in ws[n].db.ledger
    ensures j.kind.ExhaustedRow? ==> ws[n].db.ledger[LedgerKey(j.key, Publish, j.target)].status == Exhausted
  {
    RunKeepsInv(ws, es, n);
    hide DatabaseOk, BatchesOk, TriesOk, CallsOk;
    assert key in ws[n].db.alerts.Keys;
    j :| Explains(ws[n].db.ledger, j, key);
  }

  /**
   * From approval to alarm: an alert email about an exhausted delivery of a critical announcement names
   * a row that was tried five times over at least 37 minutes after two people approved that content.
   */
  lemma AlertedFailureWasApproved(ws: seq<World>, es: seq<Event>, n: nat, m: int, i: Issue)
    requires IsRun(ws, es) && n <= |es| && Reports(ws[n].mails, m, AlertKey(i)) && i.kind.ExhaustedRow?
    requires ':' !in i.key.id && forall k :: k in ws[n].db.rows ==> ':' !in k.id
    ensures var k := LedgerKey(i.key, Publish, i.target);
            && k in ws[n].db.ledger && ws[n].db.ledger[k].status == Exhausted && i.key in ws[n].db.rows
            && |TriesOf(ws[n].tries, k)| == 5
            && TriesOf(ws[n].tries, k)[4] - TriesOf(ws[n].tries, k)[0] >= 37 * MINUTE
            && (ws[n].db.rows[i.key].content.severity == Critical ==>
                  exists p: nat, q: nat, asker: string, approver: string ::
                    && p < q < n && AsksFor(ws, es, p, i.key, asker) && Approves(ws, es, q, i.key, approver)
                    && Lower(asker) != Lower(approver)
                    && ws[p].db.rows[i.key].content == ws[n].db.rows[i.key].content)
  {
    hide Explains, RowOk, AlertKey, Inv, Next, Enabled, IsStep, AsksFor, Approves, TakesBack;
    var j := ReportedIsStored(ws, es, n, m, AlertKey(i));
    StoredDeliveryOk(ws[n], LedgerKey(j.key, Publish, j.target));
    AlertKeyInjective(i, j);
    ExhaustionTakes37Minutes(ws, es, n, LedgerKey(i.key, Publish, i.target));
    if ws[n].db.rows[i.key].content.severity == Critical {
      PublishedWasApproved(ws, es, n, i.key);
    }
  }
}
