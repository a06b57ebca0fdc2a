/** What every state of every run satisfies, step by step. */
module PipelineInvariant {
  import opened Types
  import opened Outbox
  import opened Announcements
  import opened Lifecycle
  import opened AuditReplay
  import opened Fanout
  import opened Health
  import opened Pipeline

  // ---- how the database may change under open batches -----------------------------------------

  /**
   * Steps outside the fan-out only add to the outbox: published rows are frozen, content never
   * changes, old outbox rows stay, and new ones belong to rows published just now.
   */
  predicate Grows(s: Store, t: Store) {
    && s.now <= t.now
    && (forall k :: k in s.rows ==> k in t.rows && t.rows[k].content == s.rows[k].content)
    && (forall k :: k in s.rows && s.rows[k].status == Published ==> t.rows[k] == s.rows[k])
    && (forall l :: l in s.ledger ==> l in t.ledger && t.ledger[l] == s.ledger[l])
    && (forall l :: l in t.ledger && l !in s.ledger ==>
          t.ledger[l] == NewDelivery(s.now) && l.key in t.rows && t.rows[l.key].publishedAt == Some(s.now))
    && t.alerts == s.alerts
  }

  lemma WriteGrows(s: Store, top: Key, r: Row, action: AuditAction, actor: string, publishes: bool)
    requires StoreOk(s) && top in s.rows && s.rows[top].status != Published && r.content == s.rows[top].content
    requires publishes ==> r.publishedAt == Some(s.now)
    ensures Grows(s, Write(s, Announcement(top, r), action, actor, publishes))
  {
    PublishInsertsEveryTarget(s, Announcement(top, r));
  }

  lemma DecidePublishes(r: Row, c: Command, now: int)
    requires Decide(r, c, now).Accept? && Decide(r, c, now).publishes
    ensures Decide(r, c, now).row.publishedAt == Some(now) && !c.Revise?
  {
  }

  lemma CreateGrows(s: Store, c: Command)
    requires StoreOk(s) && c.Create?
    ensures Grows(s, Perform(s, c).0)
  {
    hide RowOk, RevisionsOk, OutboxOk;
  }

  lemma ReviseGrows(s: Store, c: Command)
    requires StoreOk(s) && c.Revise? && Perform(s, c).1.Ok?
    ensures Grows(s, Perform(s, c).0)
  {
    hide RowOk, OutboxOk;
    var top, d := PerformDecides(s, c);
  }

  lemma DecisionGrows(s: Store, c: Command)
    requires StoreOk(s) && !c.Create? && !c.Revise? && Perform(s, c).1.Ok?
    ensures Grows(s, Perform(s, c).0)
  {
    var top, d := PerformDecides(s, c);
    hide RowOk, RevisionsOk, OutboxOk, Decide, Write, Grows;
    DecideKeepsRowOk(s.rows[top], c, s.now);
    if d.publishes {
      DecidePublishes(s.rows[top], c, s.now);
    }
    WriteGrows(s, top, d.row, d.action, c.actor, d.publishes);
  }

  lemma PerformGrows(s: Store, c: Command)
    requires StoreOk(s)
    ensures Grows(s, Perform(s, c).0)
  {
    if c.Create? {
      CreateGrows(s, c);
    } else if Perform(s, c).1.Ok? {
      if c.Revise? {
        ReviseGrows(s, c);
      } else {
        DecisionGrows(s, c);
      }
    } else {
      RefusedChangesNothing(s, c);
    }
  }

  lemma RefusedChangesNothing(s: Store, c: Command)
    requires Perform(s, c).1.Err?
    ensures Perform(s, c).0 == s
  {
  }

  lemma DueAreScheduled(s: Store, batch: nat, due: seq<Key>)
    requires IsDueBatch(s.rows, s.now, batch, due)
    ensures AllScheduled(s.rows, due)
  {
    assert forall k :: k in due ==> IsDue(s.rows, k, s.now);
  }

  lemma SendDueGrows(s: Store, due: seq<Key>)
    requires StoreOk(s) && AllScheduled(s.rows, due)
    ensures Grows(s, SendDue(s, due))
  {
    SendDueEffect(s, due);
    SendDueFills(s, due);
  }

  // ---- the parts of the invariant -------------------------------------------------------------

  predicate DatabaseOk(s: Store) {
    StoreOk(s) && LogTellsAll(s) && LedgerClimbs(s.ledger)
  }

  /** Open batches hold disjoint unfinished rows and began in the past. */
  ghost predicate BatchesOk(s: Store, batches: map<nat, Batch>) {
    && (forall i :: i in batches ==> WritesOk(s.rows, s.ledger, batches[i]) && batches[i].startedAt <= s.now)
    && (forall i, j, k :: i in batches && j in batches && k in batches[i].held && k in batches[j].held ==> i == j)
  }

  /** The committed attempts of one row: never before publication, each after the wait before it. */
  predicate HistoryOk(d: Delivery, times: seq<int>, published: int) {
    && |times| == d.attempts
    && d.nextAt >= published
    && (times != [] ==> times[0] >= published)
    && (forall i :: 0 <= i < |times| - 1 && i < 4 ==> times[i + 1] >= times[i] + BACKOFF_MINUTES[i] * MINUTE)
    && (d.status.Failed? ==> 1 <= d.attempts < 5
                             && d.nextAt == times[d.attempts - 1] + BACKOFF_MINUTES[d.attempts - 1] * MINUTE)
    && (d.status.Exhausted? ==> d.attempts == 5 && d.nextAt == times[4] + BACKOFF_MINUTES[4] * MINUTE)
  }

  function PublishedAt(rows: map<Key, Row>, k: Key): int {
    if k in rows && rows[k].publishedAt.Some? then rows[k].publishedAt.value else 0
  }

  ghost predicate TriesOk(s: Store, tries: map<LedgerKey, seq<int>>) {
    && tries.Keys <= s.ledger.Keys
    && (forall k, t :: k in tries && t in tries[k] ==> t <= s.now)
    && (forall k :: k in s.ledger ==> HistoryOk(s.ledger[k], TriesOf(tries, k), PublishedAt(s.rows, k.key)))
  }

  function CallsFor(calls: seq<Call>, k: LedgerKey): nat {
    if calls == [] then 0
    else CallsFor(calls[..|calls| - 1], k) + (if calls[|calls| - 1].key == k then 1 else 0)
  }

  function LostFor(lost: seq<set<LedgerKey>>, k: LedgerKey): nat {
    if lost == [] then 0
    else LostFor(lost[..|lost| - 1], k) + (if k in lost[|lost| - 1] then 1 else 0)
  }

  predicate InFlight(batches: map<nat, Batch>, k: LedgerKey) {
    exists i :: i in batches && k in batches[i].writes
  }

  function Flying(batches: map<nat, Batch>, k: LedgerKey): nat {
    if InFlight(batches, k) then 1 else 0
  }

  /** A row's adapter calls are its committed attempts, those of aborted batches, and the one still open. */
  predicate Balanced(ledger: map<LedgerKey, Delivery>, calls: seq<Call>, lost: seq<set<LedgerKey>>,
                     batches: map<nat, Batch>, k: LedgerKey)
    requires k in ledger
  {
    CallsFor(calls, k) == ledger[k].attempts + LostFor(lost, k) + Flying(batches, k)
  }

  /** Every adapter call is accounted for, and delivered what is still stored. */
  ghost predicate CallsOk(s: Store, calls: seq<Call>, lost: seq<set<LedgerKey>>, batches: map<nat, Batch>) {
    && (forall k :: k in s.ledger ==> Balanced(s.ledger, calls, lost, batches, k))
    && (forall c :: c in calls ==> c.key in s.ledger && c.key.key in s.rows && c.row == s.rows[c.key.key])
    && (forall keys, k :: keys in lost && k in keys ==> k in s.ledger)
  }

  /** Which stored problem an alert key is about, if it still is one. */
  predicate Explains(ledger: map<LedgerKey, Delivery>, i: Issue, key: string) {
    && AlertKey(i) == key
    && var k := LedgerKey(i.key, Publish, i.target);
       && k in ledger
       && (i.kind.ExhaustedRow? ==> ledger[k].status == Exhausted)
       && (i.kind.PublishFailed? ==> ledger[k].status == Delivered)
  }

  ghost predicate AlertKeysOk(ledger: map<LedgerKey, Delivery>, keys: set<string>) {
    forall key :: key in keys ==> exists i :: Explains(ledger, i, key)
  }

  /** Alerter `a` has the row of key `k` locked. */
  predicate Claims(alerters: map<nat, Alerter>, a: nat, k: string) {
    a in alerters && !alerters[a].Looking? && k in alerters[a].keys
  }

  /** The `i`th email reported key `k` and its transaction committed. */
  predicate Reports(mails: seq<Mail>, i: int, k: string) {
    0 <= i < |mails| && mails[i].committed && k in mails[i].keys
  }

  /**
   * Locked alert rows are unnotified and locked once; a key is notified exactly when a committed email
   * reported it; no two committed emails report the same key.
   */
  ghost predicate AlertsOk(alerts: map<string, Option<int>>, alerters: map<nat, Alerter>, mails: seq<Mail>) {
    && (forall a :: a in alerters ==> alerters[a].keys <= alerts.Keys)
    && (forall a, k | Claims(alerters, a, k) :: alerts[k].None?)
    && (forall a, b, k | Claims(alerters, a, k) && Claims(alerters, b, k) :: a == b)
    && (forall a :: a in alerters && alerters[a].Mailed? ==>
          alerters[a].mail < |mails| && mails[alerters[a].mail] == Mail(alerters[a].keys, false))
    && (forall a, b | a in alerters && b in alerters && alerters[a].Mailed? && alerters[b].Mailed? && a != b ::
          alerters[a].mail != alerters[b].mail)
    && (forall k :: k in alerts && alerts[k].Some? <==> exists i :: Reports(mails, i, k))
    && (forall i, j, k | Reports(mails, i, k) && Reports(mails, j, k) :: i == j)
  }

  ghost predicate Inv(w: World) {
    && DatabaseOk(w.db)
    && BatchesOk(w.db, w.batches)
    && TriesOk(w.db, w.tries)
    && CallsOk(w.db, w.calls, w.lost, w.batches)
    && AlertKeysOk(w.db.ledger, w.db.alerts.Keys)
    && AlertsOk(w.db.alerts, w.alerters, w.mails)
  }

  // What the runs' theorems use of it.

  lemma TablesAreOk(w: World)
    requires Inv(w)
    ensures StoreOk(w.db)
  {
    hide StoreOk, LogTellsAll, LedgerClimbs, BatchesOk, TriesOk, CallsOk, AlertKeysOk, AlertsOk;
  }

  lemma StoredRowOk(w: World, k: Key)
    requires Inv(w) && k in w.db.rows
    ensures RowOk(w.db.rows[k])
  {
    TablesAreOk(w);
    hide Inv, RowOk, RevisionsOk, OutboxOk;
  }

  lemma StoredDeliveryOk(w: World, k: LedgerKey)
    requires Inv(w) && k in w.db.ledger
    ensures k.kind == Publish && k.key in w.db.rows
    ensures w.db.rows[k.key].status == Published && w.db.rows[k.key].publishedAt.Some? && RowOk(w.db.rows[k.key])
  {
    TablesAreOk(w);
    hide Inv, RevisionsOk;
    assert RowOk(w.db.rows[k.key]);
  }

  lemma OpenBatchOk(w: World, id: nat)
    requires Inv(w) && id in w.batches
    ensures WritesOk(w.db.rows, w.db.ledger, w.batches[id]) && w.batches[id].startedAt <= w.db.now
  {
    hide DatabaseOk, TriesOk, CallsOk, AlertKeysOk, AlertsOk, WritesOk;
  }

  lemma InitOk(w: World)
    requires IsInit(w)
    ensures Inv(w)
  {
    assert Trails(w.db.rows) == map[];
  }

  // ---- steps of publishers, the scheduler, the clock and the operators --------------------------

  lemma GrowthKeepsBatches(s: Store, t: Store, batches: map<nat, Batch>)
    requires BatchesOk(s, batches) && Grows(s, t)
    ensures BatchesOk(t, batches)
  {
    forall i | i in batches ensures WritesOk(t.rows, t.ledger, batches[i]) {
      assert WritesOk(s.rows, s.ledger, batches[i]);
      WritesFrame(s.rows, s.ledger, t.rows, t.ledger, batches[i]);
    }
  }

  lemma GrowthKeepsTries(s: Store, t: Store, tries: map<LedgerKey, seq<int>>)
    requires StoreOk(s) && TriesOk(s, tries) && Grows(s, t)
    ensures TriesOk(t, tries)
  {
    hide RowOk, RevisionsOk;
    forall k | k in t.ledger
      ensures HistoryOk(t.ledger[k], TriesOf(tries, k), PublishedAt(t.rows, k.key))
    {
      if k in s.ledger {
        hide HistoryOk;
        assert t.rows[k.key] == s.rows[k.key];
      }
    }
  }

  lemma {:induction false} UnknownRowWasNeverCalled(calls: seq<Call>, k: LedgerKey)
    requires forall c :: c in calls ==> c.key != k
    ensures CallsFor(calls, k) == 0
  {
    if calls != [] {
      assert calls[|calls| - 1] in calls;
      UnknownRowWasNeverCalled(calls[..|calls| - 1], k);
    }
  }

  lemma {:induction false} UnknownRowWasNeverLost(lost: seq<set<LedgerKey>>, k: LedgerKey)
    requires forall s :: s in lost ==> k !in s
    ensures LostFor(lost, k) == 0
  {
    if lost != [] {
      assert lost[|lost| - 1] in lost;
      UnknownRowWasNeverLost(lost[..|lost| - 1], k);
    }
  }

  lemma GrowthKeepsCalls(s: Store, t: Store, calls: seq<Call>, lost: seq<set<LedgerKey>>, batches: map<nat, Batch>)
    requires StoreOk(s) && BatchesOk(s, batches) && CallsOk(s, calls, lost, batches) && Grows(s, t)
    ensures CallsOk(t, calls, lost, batches)
  {
    forall k | k in t.ledger ensures Balanced(t.ledger, calls, lost, batches, k) {
      if k in s.ledger {
        assert Balanced(s.ledger, calls, lost, batches, k);
      } else {
        UnknownRowWasNeverCalled(calls, k);
        UnknownRowWasNeverLost(lost, k);
        forall i | i in batches ensures k !in batches[i].writes {
          assert WritesOk(s.rows, s.ledger, batches[i]);
        }
      }
    }
  }

  lemma GrowthKeepsAlertKeys(a: map<LedgerKey, Delivery>, b: map<LedgerKey, Delivery>, keys: set<string>)
    requires AlertKeysOk(a, keys)
    requires forall k :: k in a ==> k in b && (IsTerminal(a[k]) ==> b[k].status == a[k].status)
    ensures AlertKeysOk(b, keys)
  {
    forall key | key in keys ensures exists i :: Explains(b, i, key) {
      var i :| Explains(a, i, key);
      assert Explains(b, i, key);
    }
  }

  lemma GrowthKeepsInv(w: World, t: Store)
    requires Inv(w) && Grows(w.db, t) && DatabaseOk(t)
    ensures Inv(w.(db := t))
  {
    GrowthKeepsBatches(w.db, t, w.batches);
    GrowthKeepsTries(w.db, t, w.tries);
    GrowthKeepsCalls(w.db, t, w.calls, w.lost, w.batches);
    GrowthKeepsAlertKeys(w.db.ledger, t.ledger, w.db.alerts.Keys);
  }

  lemma NewRowsClimb(s: Store, t: Store)
    requires LedgerClimbs(s.ledger) && Grows(s, t)
    ensures LedgerClimbs(t.ledger)
  {
  }

  lemma DatabaseStepKeepsInv(w: World, e: Event)
    requires Inv(w) && Enabled(w, e) && (e.Act? || e.SendScheduled? || e.Sleep? || e.Configure?)
    ensures Inv(Next(w, e))
    ensures Grows(w.db, Next(w, e).db)
  {
    var t := Next(w, e).db;
    if e.Act? {
      PerformKeepsStore(w.db, e.command);
      PerformIsLogged(w.db, e.command);
      PerformGrows(w.db, e.command);
    } else if e.SendScheduled? {
      DueAreScheduled(w.db, e.batch, e.due);
      SendDueEffect(w.db, e.due);
      SendDueIsLogged(w.db, e.due);
      SendDueGrows(w.db, e.due);
    }
    NewRowsClimb(w.db, t);
    GrowthKeepsInv(w, t);
  }

  // ---- steps of the delivery workers ------------------------------------------------------------

  lemma BatchJoins(s: Store, batches: map<nat, Batch>, id: nat, b: Batch)
    requires BatchesOk(s, batches) && WritesOk(s.rows, s.ledger, b) && b.startedAt <= s.now
    requires id !in batches && forall k :: k in b.held ==> k !in Locked(batches)
    ensures BatchesOk(s, batches[id := b])
  {
    forall i, k | i in batches && k in batches[i].held ensures k !in b.held {
      assert k in Locked(batches);
    }
  }

  lemma BatchTurns(s: Store, batches: map<nat, Batch>, id: nat, b: Batch)
    requires BatchesOk(s, batches) && id in batches && WritesOk(s.rows, s.ledger, b)
    requires b.held == batches[id].held && b.startedAt == batches[id].startedAt
    ensures BatchesOk(s, batches[id := b])
  {
  }

  lemma BatchLeaves(s: Store, batches: map<nat, Batch>, id: nat)
    requires BatchesOk(s, batches)
    ensures BatchesOk(s, batches - {id})
  {
  }

  /** Writes of another batch touch no row an open batch holds. */
  lemma CommitKeepsBatches(s: Store, batches: map<nat, Batch>, id: nat)
    requires BatchesOk(s, batches) && id in batches
    ensures BatchesOk(s.(ledger := s.ledger + batches[id].writes), batches - {id})
  {
    var ledger := s.ledger + batches[id].writes;
    assert WritesOk(s.rows, s.ledger, batches[id]);
    assert forall k :: k in batches[id].writes ==> k in batches[id].held;
    forall i | i in batches - {id} ensures WritesOk(s.rows, ledger, batches[i]) {
      assert WritesOk(s.rows, s.ledger, batches[i]);
      assert forall k :: k in batches[i].held ==> k !in batches[id].held;
      WritesFrame(s.rows, s.ledger, s.rows, ledger, batches[i]);
    }
  }

  /** The row an open batch holds is written by that batch or by none. */
  lemma OnlyHolder(s: Store, batches: map<nat, Batch>, id: nat, k: LedgerKey)
    requires BatchesOk(s, batches) && id in batches && k in batches[id].held
    ensures !InFlight(batches - {id}, k)
    ensures InFlight(batches, k) <==> k in batches[id].writes
  {
    forall i | i in batches && i != id ensures k !in batches[i].writes {
      assert WritesOk(s.rows, s.ledger, batches[i]);
      assert k !in batches[i].held;
    }
  }

  lemma FlightWithout(batches: map<nat, Batch>, id: nat, k: LedgerKey)
    requires id in batches ==> k !in batches[id].writes
    ensures InFlight(batches - {id}, k) <==> InFlight(batches, k)
  {
    if i :| i in batches && k in batches[i].writes {
      assert i in batches - {id} && k in (batches - {id})[i].writes;
    }
  }

  lemma FlightWith(batches: map<nat, Batch>, id: nat, b: Batch, k: LedgerKey)
    requires (id in batches && k in batches[id].writes) <==> k in b.writes
    ensures InFlight(batches[id := b], k) <==> InFlight(batches, k)
  {
    var after := batches[id := b];
    if i :| i in batches && k in batches[i].writes {
      assert i in after && k in after[i].writes;
    }
    if i :| i in after && k in after[i].writes {
      assert i in batches && k in batches[i].writes;
    }
  }

  lemma SameFlightKeepsCalls(s: Store, calls: seq<Call>, lost: seq<set<LedgerKey>>,
                             a: map<nat, Batch>, b: map<nat, Batch>)
    requires CallsOk(s, calls, lost, a) && forall k :: k in s.ledger ==> (InFlight(a, k) <==> InFlight(b, k))
    ensures CallsOk(s, calls, lost, b)
  {
    forall k | k in s.ledger ensures Balanced(s.ledger, calls, lost, b, k) {
      assert Balanced(s.ledger, calls, lost, a, k);
    }
  }

  lemma BeginKeepsInv(w: World, id: nat, known: set<Channel>, built: set<Channel>, hasNote: bool, limit: nat,
                      claim: seq<LedgerKey>)
    requires Inv(w) && id !in w.batches && IsClaim(w.db.ledger, w.db.now, known, Locked(w.batches), limit, claim)
    ensures Inv(w.(batches := w.batches[id := Opened(w.db.now, built, hasNote, claim)]))
  {
    var b := Opened(w.db.now, built, hasNote, claim);
    assert OutboxOk(w.db.rows, w.db.ledger);
    ClaimOpens(w.db.rows, w.db.ledger, w.db.now, known, Locked(w.batches), limit, built, hasNote, claim);
    BatchJoins(w.db, w.batches, id, b);
    forall k | k in w.db.ledger ensures InFlight(w.batches, k) <==> InFlight(w.batches[id := b], k) {
      FlightWith(w.batches, id, b, k);
    }
    SameFlightKeepsCalls(w.db, w.calls, w.lost, w.batches, w.batches[id := b]);
  }

  lemma CallsForLast(calls: seq<Call>, c: Call, k: LedgerKey)
    ensures CallsFor(calls + [c], k) == CallsFor(calls, k) + (if c.key == k then 1 else 0)
  {
    assert (calls + [c])[..|calls|] == calls;
  }

  lemma LostForLast(lost: seq<set<LedgerKey>>, keys: set<LedgerKey>, k: LedgerKey)
    ensures LostFor(lost + [keys], k) == LostFor(lost, k) + (if k in keys then 1 else 0)
  {
    assert (lost + [keys])[..|lost|] == lost;
  }

  /** The row the loop stands on has not been written by any open batch. */
  lemma CurrentRowIsNew(s: Store, batches: map<nat, Batch>, id: nat)
    requires BatchesOk(s, batches) && id in batches && batches[id].done < |batches[id].held|
    ensures !InFlight(batches, batches[id].held[batches[id].done])
  {
    var b := batches[id];
    var k := b.held[b.done];
    assert WritesOk(s.rows, s.ledger, b);
    assert k in b.held && k !in b.held[..b.done];
    OnlyHolder(s, batches, id, k);
  }

  /** A turn's adapter call is balanced by its uncommitted write. */
  lemma HandleKeepsCalls(s: Store, calls: seq<Call>, lost: seq<set<LedgerKey>>, batches: map<nat, Batch>, id: nat,
                         o: Outcome)
    requires BatchesOk(s, batches) && CallsOk(s, calls, lost, batches)
    requires id in batches && batches[id].done < |batches[id].held|
    ensures var b := batches[id];
            var k := b.held[b.done];
            k in s.ledger && k.key in s.rows
            && CallsOk(s, if Calls(s.rows, b) then calls + [Call(id, k, s.rows[k.key], o.Sent?)] else calls, lost,
                       batches[id := Turn(s.rows, s.ledger, b, o)])
  {
    var b := batches[id];
    var k := b.held[b.done];
    assert WritesOk(s.rows, s.ledger, b) && k in b.held;
    hide WritesOk, IsTry, Attempt;
    var t := Turn(s.rows, s.ledger, b, o);
    var after := batches[id := t];
    CurrentRowIsNew(s, batches, id);
    forall j | j in s.ledger && (j != k || !Calls(s.rows, b)) ensures InFlight(batches, j) <==> InFlight(after, j) {
      FlightWith(batches, id, t, j);
    }
    if Calls(s.rows, b) {
      var c := Call(id, k, s.rows[k.key], o.Sent?);
      assert k in after[id].writes;
      forall j | j in s.ledger ensures Balanced(s.ledger, calls + [c], lost, after, j) {
        assert Balanced(s.ledger, calls, lost, batches, j);
        CallsForLast(calls, c, j);
      }
    } else {
      SameFlightKeepsCalls(s, calls, lost, batches, after);
    }
  }

  lemma HandleKeepsParts(s: Store, calls: seq<Call>, lost: seq<set<LedgerKey>>, batches: map<nat, Batch>, id: nat,
                         o: Outcome)
    requires BatchesOk(s, batches) && CallsOk(s, calls, lost, batches)
    requires id in batches && batches[id].done < |batches[id].held|
    ensures var b := batches[id];
            var k := b.held[b.done];
            var after := batches[id := Turn(s.rows, s.ledger, b, o)];
            && k in s.ledger && k.key in s.rows && BatchesOk(s, after)
            && CallsOk(s, if Calls(s.rows, b) then calls + [Call(id, k, s.rows[k.key], o.Sent?)] else calls,
                       lost, after)
  {
    hide CallsOk;
    HandleKeepsCalls(s, calls, lost, batches, id, o);
    assert WritesOk(s.rows, s.ledger, batches[id]);
    TurnKeepsWrites(s.rows, s.ledger, batches[id], o);
    BatchTurns(s, batches, id, Turn(s.rows, s.ledger, batches[id], o));
  }

  lemma HandleKeepsInv(w: World, id: nat, o: Outcome)
    requires Inv(w) && id in w.batches && w.batches[id].done < |w.batches[id].held|
    ensures Enabled(w, HandleRow(id, o)) && Inv(Next(w, HandleRow(id, o)))
  {
    hide DatabaseOk, BatchesOk, TriesOk, CallsOk, AlertKeysOk, AlertsOk, Turn, Calls;
    HandleKeepsParts(w.db, w.calls, w.lost, w.batches, id, o);
  }

  /** Every write of an open batch is an adapter call for a stored row it holds. */
  lemma CalledIsWritten(s: Store, b: Batch)
    requires WritesOk(s.rows, s.ledger, b)
    ensures Called(s.rows, b) == b.writes.Keys
    ensures b.writes.Keys <= s.ledger.Keys
    ensures forall k :: k in b.writes ==> k in b.held
  {
    forall k | k in b.writes ensures k in b.held && k.key in s.rows && k in s.ledger {
      assert k in b.held[..b.done];
    }
  }

  lemma AbortKeepsCalls(s: Store, calls: seq<Call>, lost: seq<set<LedgerKey>>, batches: map<nat, Batch>, id: nat)
    requires BatchesOk(s, batches) && CallsOk(s, calls, lost, batches) && id in batches
    ensures CallsOk(s, calls, lost + [Called(s.rows, batches[id])], batches - {id})
  {
    var called := Called(s.rows, batches[id]);
    CalledIsWritten(s, batches[id]);
    forall k | k in s.ledger ensures Balanced(s.ledger, calls, lost + [called], batches - {id}, k) {
      assert Balanced(s.ledger, calls, lost, batches, k);
      LostForLast(lost, called, k);
      if k in called {
        OnlyHolder(s, batches, id, k);
      } else {
        FlightWithout(batches, id, k);
      }
    }
  }

  lemma AbortKeepsInv(w: World, id: nat)
    requires Inv(w) && id in w.batches
    ensures Inv(Next(w, AbortBatch(id)))
  {
    hide DatabaseOk, BatchesOk, TriesOk, CallsOk, AlertKeysOk, AlertsOk, Called;
    AbortKeepsCalls(w.db, w.calls, w.lost, w.batches, id);
    BatchLeaves(w.db, w.batches, id);
  }

  /** Appending a committed attempt to a row's history keeps the ladder. */
  lemma AttemptExtendsHistory(d: Delivery, o: Outcome, startedAt: int, hasNote: bool, times: seq<int>, published: int)
    requires LadderOk(d) && !IsTerminal(d) && d.nextAt <= startedAt && HistoryOk(d, times, published)
    ensures HistoryOk(Attempt(d, o, startedAt, hasNote), times + [startedAt], published)
  {
    var r, after := Attempt(d, o, startedAt, hasNote), times + [startedAt];
    AttemptClimbs(d, o, startedAt, hasNote);
    assert startedAt >= published;
    assert r.nextAt >= published;
    if times != [] {
      assert d.status.Failed?;
      assert after[0] == times[0];
      assert after[|times| - 1] == times[|times| - 1] && after[|times|] == startedAt;
    }
  }

  lemma CommitExtendsOne(s: Store, tries: map<LedgerKey, seq<int>>, b: Batch, k: LedgerKey)
    requires LedgerClimbs(s.ledger) && WritesOk(s.rows, s.ledger, b) && k in s.ledger
    requires HistoryOk(s.ledger[k], TriesOf(tries, k), PublishedAt(s.rows, k.key))
    ensures HistoryOk((s.ledger + b.writes)[k], TriesOf(Tried(tries, Called(s.rows, b), b.startedAt), k),
                      PublishedAt(s.rows, k.key))
  {
    CalledIsWritten(s, b);
    if k in b.writes {
      var o :| IsTry(s.ledger, b, k, o);
      AttemptExtendsHistory(s.ledger[k], o, b.startedAt, b.hasNote, TriesOf(tries, k), PublishedAt(s.rows, k.key));
    }
  }

  lemma TriedInPast(tries: map<LedgerKey, seq<int>>, called: set<LedgerKey>, at: int, now: int)
    requires at <= now && forall k, t :: k in tries && t in tries[k] ==> t <= now
    ensures forall k, t :: k in Tried(tries, called, at) && t in Tried(tries, called, at)[k] ==> t <= now
  {
  }

  lemma CommitKeepsTries(s: Store, tries: map<LedgerKey, seq<int>>, b: Batch)
    requires LedgerClimbs(s.ledger) && TriesOk(s, tries) && WritesOk(s.rows, s.ledger, b) && b.startedAt <= s.now
    ensures TriesOk(s.(ledger := s.ledger + b.writes), Tried(tries, Called(s.rows, b), b.startedAt))
  {
    var t, after := s.(ledger := s.ledger + b.writes), Tried(tries, Called(s.rows, b), b.startedAt);
    CalledIsWritten(s, b);
    TriedInPast(tries, Called(s.rows, b), b.startedAt, s.now);
    forall k | k in t.ledger ensures HistoryOk(t.ledger[k], TriesOf(after, k), PublishedAt(t.rows, k.key)) {
      CommitExtendsOne(s, tries, b, k);
    }
  }

  lemma CommitKeepsCalls(s: Store, calls: seq<Call>, lost: seq<set<LedgerKey>>, batches: map<nat, Batch>, id: nat)
    requires LedgerClimbs(s.ledger) && BatchesOk(s, batches) && CallsOk(s, calls, lost, batches) && id in batches
    ensures CallsOk(s.(ledger := s.ledger + batches[id].writes), calls, lost, batches - {id})
  {
    var b := batches[id];
    var ledger := s.ledger + b.writes;
    assert WritesOk(s.rows, s.ledger, b);
    CalledIsWritten(s, b);
    forall k | k in ledger ensures Balanced(ledger, calls, lost, batches - {id}, k) {
      assert Balanced(s.ledger, calls, lost, batches, k);
      if k in b.writes {
        WriteClimbs(s.rows, s.ledger, b, k);
        OnlyHolder(s, batches, id, k);
      } else {
        FlightWithout(batches, id, k);
      }
    }
  }

  lemma CommitKeepsOutbox(rows: map<Key, Row>, ledger: map<LedgerKey, Delivery>, writes: map<LedgerKey, Delivery>)
    requires OutboxOk(rows, ledger) && writes.Keys <= ledger.Keys
    ensures OutboxOk(rows, ledger + writes)
  {
  }

  lemma CommitKeepsDatabase(s: Store, b: Batch)
    requires DatabaseOk(s) && WritesOk(s.rows, s.ledger, b)
    ensures DatabaseOk(s.(ledger := s.ledger + b.writes))
  {
    CommitSpends(s.rows, s.ledger, b);
    CommitKeepsOutbox(s.rows, s.ledger, b.writes);
  }

  /** A commit forgets no row and leaves finished ones as they were. */
  lemma CommitOnlyMovesOn(s: Store, b: Batch)
    requires WritesOk(s.rows, s.ledger, b)
    ensures var after := s.ledger + b.writes;
            forall k :: k in s.ledger ==>
              k in after && (IsTerminal(s.ledger[k]) ==> after[k].status == s.ledger[k].status)
  {
    CalledIsWritten(s, b);
  }

  lemma CommitKeepsInv(w: World, id: nat)
    requires Inv(w) && id in w.batches && w.batches[id].done == |w.batches[id].held|
    ensures Inv(Next(w, CommitBatch(id)))
  {
    var b := w.batches[id];
    assert WritesOk(w.db.rows, w.db.ledger, b) && b.startedAt <= w.db.now;
    assert LedgerClimbs(w.db.ledger);
    CommitOnlyMovesOn(w.db, b);
    hide DatabaseOk, BatchesOk, TriesOk, CallsOk, AlertKeysOk, AlertsOk, Called, WritesOk, LedgerClimbs;
    CommitKeepsDatabase(w.db, b);
    CommitKeepsBatches(w.db, w.batches, id);
    CommitKeepsTries(w.db, w.tries, b);
    CommitKeepsCalls(w.db, w.calls, w.lost, w.batches, id);
    GrowthKeepsAlertKeys(w.db.ledger, w.db.ledger + b.writes, w.db.alerts.Keys);
  }

  // ---- steps of the alerters --------------------------------------------------------------------

  /** Steps that only touch alert state and mail keep the rest of the invariant. */
  lemma AlertStepKeepsInv(w: World, alerts: map<string, Option<int>>, alerters: map<nat, Alerter>, mails: seq<Mail>)
    requires Inv(w) && AlertKeysOk(w.db.ledger, alerts.Keys) && AlertsOk(alerts, alerters, mails)
    ensures Inv(w.(db := w.db.(alerts := alerts), alerters := alerters, mails := mails))
  {
    var t := w.db.(alerts := alerts);
    assert BatchesOk(t, w.batches);
    forall k | k in t.ledger ensures Balanced(t.ledger, w.calls, w.lost, w.batches, k) {
      assert Balanced(w.db.ledger, w.calls, w.lost, w.batches, k);
    }
  }

  lemma IssueIsStored(s: Store, hasNote: bool, since: int, i: Issue)
    requires OutboxOk(s.rows, s.ledger) && i in Issues(s.rows, s.ledger, hasNote, s.now, since)
    ensures Explains(s.ledger, i, AlertKey(i))
  {
    var k :| k in s.ledger && k.target == i.target && k.key == i.key
             && (i.kind.ExhaustedRow? ==> s.ledger[k].status == Exhausted)
             && (i.kind.PublishFailed? ==> s.ledger[k].status == Delivered);
    assert k == LedgerKey(i.key, Publish, i.target);
  }

  lemma LookedKeysAreStored(s: Store, hasNote: bool, since: int)
    requires OutboxOk(s.rows, s.ledger)
    ensures AlertKeysOk(s.ledger, AlertKeys(Issues(s.rows, s.ledger, hasNote, s.now, since)))
  {
    var issues := Issues(s.rows, s.ledger, hasNote, s.now, since);
    forall key | key in AlertKeys(issues) ensures exists i :: Explains(s.ledger, i, key) {
      var i :| i in issues && key == AlertKey(i);
      IssueIsStored(s, hasNote, since, i);
    }
  }

  lemma LookKeepsAlerts(alerts: map<string, Option<int>>, alerters: map<nat, Alerter>, mails: seq<Mail>, id: nat,
                        keys: set<string>)
    requires AlertsOk(alerts, alerters, mails) && id !in alerters
    ensures AlertsOk(Noted(alerts, keys), alerters[id := Looking(keys)], mails)
  {
    var noted, after := Noted(alerts, keys), alerters[id := Looking(keys)];
    assert noted.Keys == alerts.Keys + keys;
    assert forall k :: k in noted && noted[k].Some? <==> k in alerts && alerts[k].Some?;
    assert forall a, k :: Claims(after, a, k) <==> Claims(alerters, a, k);
    assert forall a :: a in after ==> after[a].keys <= noted.Keys;
    assert forall a, k | Claims(after, a, k) :: noted[k].None?;
    assert forall a :: a in after && after[a].Mailed? ==> a in alerters && after[a] == alerters[a];
  }

  lemma ClaimKeepsAlerts(alerts: map<string, Option<int>>, alerters: map<nat, Alerter>, mails: seq<Mail>, id: nat,
                         at: int)
    requires AlertsOk(alerts, alerters, mails) && id in alerters && alerters[id].Looking?
    ensures var keys := Claimable(alerts, alerters, alerters[id].keys);
            AlertsOk(alerts, alerters[id := Holding(at, keys)], mails)
  {
    var keys := Claimable(alerts, alerters, alerters[id].keys);
    forall a, k | Claims(alerters, a, k) ensures k !in keys {
      assert k in Claimed(alerters);
    }
    var after := alerters[id := Holding(at, keys)];
    assert forall a, k :: Claims(after, a, k) <==> Claims(alerters, a, k) || (a == id && k in keys);
    assert forall a :: a in after ==> after[a].keys <= alerts.Keys;
    assert forall a, k | Claims(after, a, k) :: alerts[k].None?;
    assert forall a, b, k | Claims(after, a, k) && Claims(after, b, k) :: a == b;
  }

  lemma DropKeepsAlerts(alerts: map<string, Option<int>>, alerters: map<nat, Alerter>, mails: seq<Mail>, id: nat)
    requires AlertsOk(alerts, alerters, mails)
    ensures AlertsOk(alerts, alerters - {id}, mails)
  {
    assert forall a, k :: Claims(alerters - {id}, a, k) ==> Claims(alerters, a, k);
  }

  lemma MailKeepsAlerts(alerts: map<string, Option<int>>, alerters: map<nat, Alerter>, mails: seq<Mail>, id: nat)
    requires AlertsOk(alerts, alerters, mails) && id in alerters && alerters[id].Holding?
    ensures var a := alerters[id];
            AlertsOk(alerts, alerters[id := Mailed(a.startedAt, a.keys, |mails|)], mails + [Mail(a.keys, false)])
  {
    var a := alerters[id];
    var after := alerters[id := Mailed(a.startedAt, a.keys, |mails|)];
    assert forall b, k :: Claims(after, b, k) <==> Claims(alerters, b, k);
    assert forall i, k :: Reports(mails + [Mail(a.keys, false)], i, k) <==> Reports(mails, i, k);
  }

  /** The commit that marks the keys is the first committed email to report them. */
  lemma CommitKeepsAlerts(alerts: map<string, Option<int>>, alerters: map<nat, Alerter>, mails: seq<Mail>, id: nat)
    requires AlertsOk(alerts, alerters, mails) && id in alerters && alerters[id].Mailed?
    ensures var a := alerters[id];
            a.mail < |mails|
            && AlertsOk(Notified(alerts, a.keys, a.startedAt), alerters - {id},
                        mails[a.mail := mails[a.mail].(committed := true)])
  {
    var a := alerters[id];
    var alerts', alerters' := Notified(alerts, a.keys, a.startedAt), alerters - {id};
    var mails' := mails[a.mail := mails[a.mail].(committed := true)];
    assert forall i, k :: Reports(mails', i, k) <==> Reports(mails, i, k) || (i == a.mail && k in a.keys);
    assert forall b, k :: Claims(alerters', b, k) <==> Claims(alerters, b, k) && b != id;
    assert forall k :: k in a.keys ==> Claims(alerters, id, k);
    forall k ensures k in alerts' && alerts'[k].Some? <==> exists i :: Reports(mails', i, k) {
      if k in a.keys {
        assert Reports(mails', a.mail, k);
      } else if i :| Reports(mails, i, k) {
        assert Reports(mails', i, k);
      }
    }
  }

  // ---- every step, every run --------------------------------------------------------------------

  lemma NotedKeysAreExplained(ledger: map<LedgerKey, Delivery>, alerts: map<string, Option<int>>, keys: set<string>)
    requires AlertKeysOk(ledger, alerts.Keys) && AlertKeysOk(ledger, keys)
    ensures AlertKeysOk(ledger, Noted(alerts, keys).Keys)
  {
    hide Explains;
    assert Noted(alerts, keys).Keys == alerts.Keys + keys;
  }

  lemma NotifiedKeepsKeys(alerts: map<string, Option<int>>, keys: set<string>, at: int)
    ensures Notified(alerts, keys, at).Keys == alerts.Keys
  {
  }

  lemma DatabaseHasOutbox(s: Store)
    requires DatabaseOk(s)
    ensures OutboxOk(s.rows, s.ledger)
  {
  }

  lemma LookKeepsInv(w: World, e: Event)
    requires Inv(w) && e.Look? && Enabled(w, e)
    ensures Inv(Next(w, e))
  {
    hide DatabaseOk, BatchesOk, TriesOk, CallsOk, AlertsOk, AlertKeysOk, OutboxOk, Issues, Noted;
    DatabaseHasOutbox(w.db);
    var keys := AlertKeys(Issues(w.db.rows, w.db.ledger, e.hasNote, w.db.now, e.since));
    LookedKeysAreStored(w.db, e.hasNote, e.since);
    NotedKeysAreExplained(w.db.ledger, w.db.alerts, keys);
    LookKeepsAlerts(w.db.alerts, w.alerters, w.mails, e.alerter, keys);
    AlertStepKeepsInv(w, Noted(w.db.alerts, keys), w.alerters[e.alerter := Looking(keys)], w.mails);
  }

  lemma ClaimKeepsInv(w: World, e: Event)
    requires Inv(w) && e.ClaimAlerts? && Enabled(w, e)
    ensures Inv(Next(w, e))
  {
    hide DatabaseOk, BatchesOk, TriesOk, CallsOk, AlertsOk, AlertKeysOk, Claimable;
    ClaimKeepsAlerts(w.db.alerts, w.alerters, w.mails, e.alerter, w.db.now);
    DropKeepsAlerts(w.db.alerts, w.alerters, w.mails, e.alerter);
    var t := Next(w, e);
    AlertStepKeepsInv(w, w.db.alerts, t.alerters, w.mails);
  }

  lemma MailKeepsInv(w: World, e: Event)
    requires Inv(w) && e.MailAlerts? && Enabled(w, e)
    ensures Inv(Next(w, e))
  {
    hide DatabaseOk, BatchesOk, TriesOk, CallsOk, AlertsOk, AlertKeysOk;
    MailKeepsAlerts(w.db.alerts, w.alerters, w.mails, e.alerter);
    DropKeepsAlerts(w.db.alerts, w.alerters, w.mails, e.alerter);
    var t := Next(w, e);
    AlertStepKeepsInv(w, w.db.alerts, t.alerters, t.mails);
  }

  lemma CommitAlertsKeepsInv(w: World, e: Event)
    requires Inv(w) && e.CommitAlerts? && Enabled(w, e)
    ensures Inv(Next(w, e))
  {
    hide DatabaseOk, BatchesOk, TriesOk, CallsOk, AlertsOk, AlertKeysOk, Notified;
    var a := w.alerters[e.alerter];
    NotifiedKeepsKeys(w.db.alerts, a.keys, a.startedAt);
    CommitKeepsAlerts(w.db.alerts, w.alerters, w.mails, e.alerter);
    var t := Next(w, e);
    AlertStepKeepsInv(w, t.db.alerts, t.alerters, t.mails);
  }

  lemma AbortAlertsKeepsInv(w: World, e: Event)
    requires Inv(w) && e.AbortAlerts? && Enabled(w, e)
    ensures Inv(Next(w, e))
  {
    hide DatabaseOk, BatchesOk, TriesOk, CallsOk, AlertsOk, AlertKeysOk;
    DropKeepsAlerts(w.db.alerts, w.alerters, w.mails, e.alerter);
    AlertStepKeepsInv(w, w.db.alerts, w.alerters - {e.alerter}, w.mails);
  }

  lemma AlerterStepKeepsInv(w: World, e: Event)
    requires Inv(w) && Enabled(w, e)
    requires e.Look? || e.ClaimAlerts? || e.MailAlerts? || e.CommitAlerts? || e.AbortAlerts?
    ensures Inv(Next(w, e))
  {
    hide Inv, Next, Enabled;
    match e {
      case Look(_, _, _) => LookKeepsInv(w, e);
      case ClaimAlerts(_) => ClaimKeepsInv(w, e);
      case MailAlerts(_, _) => MailKeepsInv(w, e);
      case CommitAlerts(_) => CommitAlertsKeepsInv(w, e);
      case AbortAlerts(_) => AbortAlertsKeepsInv(w, e);
    }
  }

  lemma BeginStepKeepsInv(w: World, e: Event)
    requires Inv(w) && e.BeginBatch? && Enabled(w, e)
    ensures Inv(Next(w, e))
  {
    hide Inv, IsClaim;
    BeginKeepsInv(w, e.worker, e.known, e.built, e.hasNote, e.limit, e.claim);
  }

  lemma StepKeepsInv(w: World, e: Event)
    requires Inv(w) && Enabled(w, e)
    ensures Inv(Next(w, e))
  {
    hide Inv, Next;
    match e
    case Act(_) => DatabaseStepKeepsInv(w, e);
    case SendScheduled(_, _) => DatabaseStepKeepsInv(w, e);
    case Sleep(_) => DatabaseStepKeepsInv(w, e);
    case Configure(_, _, _) => DatabaseStepKeepsInv(w, e);
    case BeginBatch(_, _, _, _, _, _) => BeginStepKeepsInv(w, e);
    case HandleRow(id, o) => HandleKeepsInv(w, id, o);
    case CommitBatch(id) => CommitKeepsInv(w, id);
    case AbortBatch(id) => AbortKeepsInv(w, id);
    case Look(_, _, _) => AlerterStepKeepsInv(w, e);
    case ClaimAlerts(_) => AlerterStepKeepsInv(w, e);
    case MailAlerts(_, _) => AlerterStepKeepsInv(w, e);
    case CommitAlerts(_) => AlerterStepKeepsInv(w, e);
    case AbortAlerts(_) => AlerterStepKeepsInv(w, e);
  }

  /** Every state of every run satisfies the invariant. */
  lemma {:induction false} RunKeepsInv(ws: seq<World>, es: seq<Event>, n: nat)
    requires IsRun(ws, es) && n <= |es|
    ensures Inv(ws[n])
  {
    hide Inv, Enabled, Next, IsInit;
    if n == 0 {
      InitOk(ws[0]);
    } else {
      RunKeepsInv(ws, es, n - 1);
      assert IsStep(ws, es, n - 1);
      StepKeepsInv(ws[n - 1], es[n - 1]);
    }
  }
}
