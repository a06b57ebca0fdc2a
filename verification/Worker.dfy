/**
 * The worker's own code, run without interruption: a fan-out pass (src/worker/fanout.ts), the health
 * evaluation (src/core/health.ts), an alert round (src/core/alerts.ts) and the tick that joins them
 * (src/worker/tick.ts). Adapter and mail answers are parameters.
 */
module Worker {
  import opened Types
  import opened Outbox
  import opened Announcements
  import opened Fanout
  import opened Health
  import opened Pipeline
  import opened DatabaseTables

  lemma {:induction false} OldestExists(ledger: map<LedgerKey, Delivery>, pool: set<LedgerKey>)
    requires pool != {}
    ensures exists k :: k in pool && forall j :: j in pool ==> NextAt(ledger, k) <= NextAt(ledger, j)
  {
    var y :| y in pool;
    var rest := pool - {y};
    assert pool == rest + {y};
    if rest != {} {
      OldestExists(ledger, rest);
      var k :| k in rest && forall j :: j in rest ==> NextAt(ledger, k) <= NextAt(ledger, j);
      var first := if NextAt(ledger, y) < NextAt(ledger, k) then y else k;
      assert first in pool && forall j :: j in pool ==> NextAt(ledger, first) <= NextAt(ledger, j);
    }
  }

  /** The claim query, which skips the rows other workers hold locked. */
  method SelectClaim(ledger: map<LedgerKey, Delivery>, now: int, known: set<Channel>, locked: set<LedgerKey>,
                     batch: nat)
    returns (due: seq<LedgerKey>)
    ensures IsClaim(ledger, now, known, locked, batch, due)
  {
    due := [];
    var pool := set k | k in ledger && IsEligible(ledger, k, now, known) && k !in locked;
    while pool != {} && |due| < batch
      invariant |due| <= batch && Distinct(due)
      invariant forall k :: IsEligible(ledger, k, now, known) && k !in locked <==> k in pool || k in due
      invariant forall k :: k in pool ==> k !in due
      invariant forall i, j :: 0 <= i < j < |due| ==> NextAt(ledger, due[i]) <= NextAt(ledger, due[j])
      invariant forall j, k :: j in due && k in pool ==> NextAt(ledger, j) <= NextAt(ledger, k)
      decreases pool
    {
      OldestExists(ledger, pool);
      var k :| k in pool && forall j :: j in pool ==> NextAt(ledger, k) <= NextAt(ledger, j);
      due, pool := due + [k], pool - {k};
    }
  }

  /** `written` and the two counters are those of the open batch `t` over `ledger`. */
  predicate Mirrors(ledger: map<LedgerKey, Delivery>, t: Batch, written: map<LedgerKey, Delivery>, delivered: nat,
                    failed: nat)
  {
    HoldsRows(ledger, t) && written == ledger + t.writes && delivered == t.delivered && failed == t.failed
  }

  lemma MirrorsWrite(ledger: map<LedgerKey, Delivery>, t: Batch, d: Delivery)
    requires HoldsRows(ledger, t) && t.done < |t.held|
    ensures var k := t.held[t.done];
            && k in ledger && (ledger + t.writes)[k] == ledger[k]
            && (ledger + t.writes)[k := d] == ledger + t.writes[k := d]
  {
    var k := t.held[t.done];
    assert k in t.held && k !in t.held[..t.done];
    assert k !in t.writes;
  }

  /** One turn of runFanoutOnce's loop: read the claimed row, call its adapter, write the outcome. */
  method HandleOne(rows: map<Key, Row>, ghost ledger: map<LedgerKey, Delivery>, ghost t: Batch, k: LedgerKey,
                   outcome: Outcome, now: int, built: set<Channel>, hasNote: bool,
                   before: map<LedgerKey, Delivery>, delivered: nat, failed: nat)
    returns (after: map<LedgerKey, Delivery>, delivered': nat, failed': nat)
    requires Mirrors(ledger, t, before, delivered, failed) && t.done < |t.held| && t.held[t.done] == k
    requires t.startedAt == now && t.built == built && t.hasNote == hasNote
    ensures k in ledger && Mirrors(ledger, Turn(rows, ledger, t, outcome), after, delivered', failed')
  {
    after, delivered', failed' := before, delivered, failed;
    TurnHolds(rows, ledger, t, outcome);
    MirrorsWrite(ledger, t, Poisoned(ledger[k], now));
    MirrorsWrite(ledger, t, Attempt(ledger[k], outcome, now, hasNote));
    var row := before[k];
    if k.key !in rows {
      after := before[k := Poisoned(row, now)];
    } else if k.target.channel in built {
      after := before[k := Attempt(row, outcome, now, hasNote)];
      if outcome.Sent? {
        delivered' := delivered + 1;
      } else {
        failed' := failed + 1;
      }
    }
  }

  lemma MirrorsStart(ledger: map<LedgerKey, Delivery>, b: Batch)
    requires Distinct(b.held) && (forall k :: k in b.held ==> k in ledger)
    requires b.done == 0 && b.writes == map[] && b.delivered == 0 && b.failed == 0
    ensures Mirrors(ledger, b, ledger, 0, 0)
  {
    assert ledger + map[] == ledger;
  }

  /** The loop over the claimed rows: what the transaction would commit, and the two counters. */
  method HandleAll(rows: map<Key, Row>, ledger: map<LedgerKey, Delivery>, claim: seq<LedgerKey>, now: int,
                   built: set<Channel>, hasNote: bool, answer: LedgerKey -> Outcome)
    returns (after: map<LedgerKey, Delivery>, delivered: nat, failed: nat)
    requires Distinct(claim) && forall k :: k in claim ==> k in ledger
    ensures Mirrors(ledger, Pass(rows, ledger, Opened(now, built, hasNote, claim), answer), after, delivered, failed)
  {
    hide Mirrors, Turn, Turns, HoldsRows, Distinct;
    after, delivered, failed := ledger, 0, 0;
    MirrorsStart(ledger, Opened(now, built, hasNote, claim));
    NoTurns(rows, ledger, Opened(now, built, hasNote, claim), answer);
    ghost var b := Opened(now, built, hasNote, claim);
    ghost var t := b;
    for i := 0 to |claim|
      invariant t == Turns(rows, ledger, b, i, answer)
      invariant Mirrors(ledger, t, after, delivered, failed)
    {
      TurnsNext(rows, ledger, b, i, answer);
      after, delivered, failed :=
        HandleOne(rows, ledger, t, claim[i], answer(claim[i]), now, built, hasNote, after, delivered, failed);
      t := Turn(rows, ledger, t, answer(claim[i]));
    }
  }

  /** runFanoutOnce: claim, deliver, commit. */
  method RunFanoutOnce(db: Database, known: set<Channel>, built: set<Channel>, hasNote: bool, locked: set<LedgerKey>,
                       batch: nat, answer: LedgerKey -> Outcome)
    returns (delivered: nat, failed: nat, ghost due: seq<LedgerKey>)
    modifies db`ledger
    ensures known == {} ==> due == []
    ensures known != {} ==> IsClaim(old(db.ledger), db.now, known, locked, batch, due)
    ensures forall k :: k in due ==> k in old(db.ledger)
    ensures var p := Pass(db.rows, old(db.ledger), Opened(db.now, built, hasNote, due), answer);
            db.ledger == old(db.ledger) + p.writes && delivered == p.delivered && failed == p.failed
  {
    delivered, failed, due := 0, 0, [];
    if known == {} {
      return;
    }
    var claim := SelectClaim(db.ledger, db.now, known, locked, batch);
    ClaimIsStored(db.ledger, db.now, known, locked, batch, claim);
    due := claim;
    var after;
    after, delivered, failed := HandleAll(db.rows, db.ledger, claim, db.now, built, hasNote, answer);
    db.ledger := after;
  }

  lemma ClaimIsStored(ledger: map<LedgerKey, Delivery>, now: int, known: set<Channel>, locked: set<LedgerKey>,
                      batch: nat, claim: seq<LedgerKey>)
    requires IsClaim(ledger, now, known, locked, batch, claim)
    ensures forall k :: k in claim ==> k in ledger
    ensures Distinct(claim)
  {
    assert forall k :: k in claim ==> IsEligible(ledger, k, now, known);
  }

  /** evaluateChannelHealth: three scans of the ledger, the last one grouped by destination. */
  method EvaluateChannelHealth(rows: map<Key, Row>, ledger: map<LedgerKey, Delivery>, hasNote: bool, now: int,
                               since: int)
    returns (issues: seq<Issue>)
    ensures forall i :: i in issues <==> i in Issues(rows, ledger, hasNote, now, since)
  {
    issues := [];
    var todo := ledger.Keys;
    while todo != {}
      invariant todo <= ledger.Keys
      invariant forall i :: i in issues <==>
                  exists k :: k in ledger && k !in todo && IsExhausted(ledger[k], now, since)
                    && i == Issue(ExhaustedRow, k.target, k.key)
      decreases todo
    {
      var k :| k in todo;
      todo := todo - {k};
      if IsExhausted(ledger[k], now, since) {
        issues := issues + [Issue(ExhaustedRow, k.target, k.key)];
      }
    }
    ghost var first := issues;
    if hasNote {
      todo := ledger.Keys;
      while todo != {}
        invariant todo <= ledger.Keys
        invariant forall i :: i in issues <==>
                    (i in first || exists k :: k in ledger && k !in todo && IsUnpublished(ledger[k], now, since)
                                               && i == Issue(PublishFailed, k.target, k.key))
        decreases todo
      {
        var k :| k in todo;
        todo := todo - {k};
        if IsUnpublished(ledger[k], now, since) {
          issues := issues + [Issue(PublishFailed, k.target, k.key)];
        }
      }
    }
    ghost var second := issues;
    todo := ledger.Keys;
    while todo != {}
      invariant todo <= ledger.Keys
      invariant forall i :: i in issues <==>
                  (i in second || exists k :: k in ledger && k !in todo && IsSilent(rows, ledger, k, now, since)
                                              && i == Issue(NoDelivery, k.target, k.key))
      decreases todo
    {
      var k :| k in todo;
      todo := todo - {k};
      if IsSilent(rows, ledger, k, now, since) && Issue(NoDelivery, k.target, k.key) !in issues {
        issues := issues + [Issue(NoDelivery, k.target, k.key)];
      }
    }
  }

  function Unnotified(alerts: map<string, Option<int>>, keys: set<string>): set<string> {
    set k | k in keys && k in alerts && alerts[k].None?
  }

  /** alert_state after an uninterrupted round: keys are noted either way, and stamped only if the email went out. */
  function Dispatched(alerts: map<string, Option<int>>, keys: set<string>, ok: bool, now: int): map<string, Option<int>>
  {
    var noted := Noted(alerts, keys);
    if ok then Notified(noted, Unnotified(noted, keys), now) else noted
  }

  /** One `insert … on conflict do nothing` per key. */
  method NoteKeys(alerts: map<string, Option<int>>, keys: set<string>) returns (noted: map<string, Option<int>>)
    ensures noted == Noted(alerts, keys)
  {
    noted := alerts;
    var todo := keys;
    while todo != {}
      invariant todo <= keys && noted == Noted(alerts, keys - todo)
      decreases todo
    {
      var k :| k in todo;
      if k !in noted {
        noted := noted[k := None];
      }
      todo := todo - {k};
    }
    assert keys - todo == keys;
  }

  /** The issues behind the claimed keys, one per key. */
  method IssuesFor(issues: seq<Issue>, claimed: set<string>) returns (news: seq<Issue>)
    requires forall k :: k in claimed ==> exists i :: i in issues && AlertKey(i) == k
    ensures forall i :: i in news ==> AlertKey(i) in claimed
    ensures forall k :: k in claimed ==> exists i :: i in news && AlertKey(i) == k
    ensures |news| == |claimed|
  {
    hide AlertKey;
    news := [];
    var todo := claimed;
    while todo != {}
      invariant todo <= claimed && |news| == |claimed| - |todo|
      invariant forall i :: i in news ==> AlertKey(i) in claimed
      invariant forall k :: k in claimed && k !in todo ==> exists i :: i in news && AlertKey(i) == k
      decreases todo
    {
      var k :| k in todo;
      var i :| i in issues && AlertKey(i) == k;
      ghost var earlier := news;
      news := news + [i];
      assert forall j :: j in earlier ==> j in news;
      todo := todo - {k};
    }
  }

  /**
   * dispatchHealthAlerts: `news` (the source's `fresh`) is what the one email lists; a throwing send
   * stamps nothing.
   */
  method DispatchHealthAlerts(db: Database, recipients: seq<string>, hasNote: bool, since: int, sendWorks: bool)
    returns (news: seq<Issue>, threw: bool)
    modifies db`alerts
    ensures recipients == [] ==> db.alerts == old(db.alerts) && news == [] && !threw
    ensures recipients != [] ==>
              var keys := AlertKeys(Issues(db.rows, db.ledger, hasNote, db.now, since));
              var claimed := Unnotified(Noted(old(db.alerts), keys), keys);
              && db.alerts == Dispatched(old(db.alerts), keys, sendWorks, db.now)
              && (forall i :: i in news ==> AlertKey(i) in claimed)
              && (forall k :: k in claimed ==> exists i :: i in news && AlertKey(i) == k)
              && |news| == |claimed|
              && (threw <==> news != [] && !sendWorks)
  {
    hide AlertKey, Issues;
    news, threw := [], false;
    if recipients == [] {
      return;
    }
    var issues := EvaluateChannelHealth(db.rows, db.ledger, hasNote, db.now, since);
    var keys := set i | i in issues :: AlertKey(i);
    assert keys == AlertKeys(Issues(db.rows, db.ledger, hasNote, db.now, since));
    var noted := NoteKeys(db.alerts, keys);
    db.alerts := noted;
    var claimed := Unnotified(noted, keys);
    news := IssuesFor(issues, claimed);
    if news == [] {
      assert claimed == {};
      assert Notified(noted, claimed, db.now) == noted;
    } else if !sendWorks {
      threw := true;
    } else {
      db.alerts := Notified(noted, claimed, db.now);
    }
  }

  /** The tables after an uninterrupted fan-out pass over `claim`. */
  function Fanned(s: Store, channels: set<Channel>, hasNote: bool, claim: seq<LedgerKey>,
                  answer: LedgerKey -> Outcome): Store
    requires forall k :: k in claim ==> k in s.ledger
  {
    s.(ledger := s.ledger + Pass(s.rows, s.ledger, Opened(s.now, channels, hasNote, claim), answer).writes)
  }

  /** The tables after an uninterrupted alert round. */
  function Alerted(s: Store, recipients: seq<string>, hasNote: bool, sendWorks: bool): Store {
    if recipients == [] then s
    else s.(alerts := Dispatched(s.alerts, AlertKeys(Issues(s.rows, s.ledger, hasNote, s.now, 24 * HOUR)), sendWorks,
                                 s.now))
  }

  /** How many problems that round reports for the first time. */
  function NewlyAlerted(s: Store, recipients: seq<string>, hasNote: bool, sendWorks: bool): nat {
    var keys := AlertKeys(Issues(s.rows, s.ledger, hasNote, s.now, 24 * HOUR));
    if recipients == [] || !sendWorks then 0 else |Unnotified(Noted(s.alerts, keys), keys)|
  }

  /** What fan-out and alerts do to tables `s` in one tick. */
  ghost predicate IsDelivered(s: Store, t: Store, channels: set<Channel>, hasNote: bool,
                              locked: set<LedgerKey>, answer: LedgerKey -> Outcome,
                              recipients: seq<string>, sendWorks: bool, delivered: nat, failed: nat, alerted: nat,
                              claim: seq<LedgerKey>)
  {
    && (forall k :: k in claim ==> k in s.ledger)
    && (if channels == {} then claim == [] else IsClaim(s.ledger, s.now, channels, locked, 20, claim))
    && var p := Pass(s.rows, s.ledger, Opened(s.now, channels, hasNote, claim), answer);
       var fanned := Fanned(s, channels, hasNote, claim, answer);
       && delivered == p.delivered && failed == p.failed
       && alerted == NewlyAlerted(fanned, recipients, hasNote, sendWorks)
       && t == Alerted(fanned, recipients, hasNote, sendWorks)
  }

  /** The second section of runTick. */
  method DeliverAndAlert(db: Database, channels: set<Channel>, hasNote: bool, locked: set<LedgerKey>,
                         answer: LedgerKey -> Outcome, recipients: seq<string>, sendWorks: bool)
    returns (delivered: nat, failed: nat, alerted: nat, ghost claim: seq<LedgerKey>)
    modifies db`ledger, db`alerts
    ensures IsDelivered(old(db.Tables()), db.Tables(), channels, hasNote, locked, answer, recipients, sendWorks,
                        delivered, failed, alerted, claim)
  {
    hide Pass, IsClaim, Issues, AlertKey;
    delivered, failed, claim := RunFanoutOnce(db, channels, channels, hasNote, locked, 20, answer);
    assert db.Tables() == Fanned(old(db.Tables()), channels, hasNote, claim, answer);
    var alerts, threw := DispatchHealthAlerts(db, recipients, hasNote, 24 * HOUR, sendWorks);
    alerted := if threw then 0 else |alerts|;
  }

  /**
   * runTick: scheduler, fan-out, alerts, in that order. A section that throws is rolled back and does
   * not stop the tick, except that a failing fan-out skips this tick's alerts.
   */
  method RunTick(db: Database, channels: set<Channel>, hasNote: bool, locked: set<LedgerKey>,
                 answer: LedgerKey -> Outcome, recipients: seq<string>, sendWorks: bool, schedulerUp: bool,
                 fanoutUp: bool)
    returns (published: seq<Announcement>, delivered: nat, failed: nat, alerted: nat,
             ghost due: seq<Key>, ghost claim: seq<LedgerKey>)
    modifies db
    ensures if schedulerUp then IsDueBatch(old(db.rows), db.now, 20, due) else due == []
    ensures |published| == |due| && forall i :: 0 <= i < |due| ==> published[i].key == due[i]
    ensures var sent := SendDue(old(db.Tables()), due);
            if fanoutUp then
              IsDelivered(sent, db.Tables(), channels, hasNote, locked, answer, recipients, sendWorks, delivered,
                          failed, alerted, claim)
            else
              db.Tables() == sent && delivered == failed == alerted == 0
  {
    assert SendDue(db.Tables(), []) == db.Tables();
    hide SendDue, IsDueBatch, IsDelivered;
    published, delivered, failed, alerted, claim := [], 0, 0, 0, [];
    due := [];
    if schedulerUp {
      published, due := db.PublishDueScheduled(20);
    }
    if fanoutUp {
      delivered, failed, alerted, claim := DeliverAndAlert(db, channels, hasNote, locked, answer, recipients,
                                                           sendWorks);
    }
  }

  // ---- uninterrupted passes are runs of the pipeline ----------------------------------------------

  /** The events take the first world through the others, one enabled step each. */
  ghost predicate IsSegment(ws: seq<World>, es: seq<Event>) {
    && |ws| == |es| + 1
    && forall i: nat {:trigger es[i]} :: i < |es| ==> IsStep(ws, es, i)
  }

  lemma SegmentGrows(ws: seq<World>, es: seq<Event>, e: Event)
    requires IsSegment(ws, es) && Enabled(ws[|es|], e)
    ensures IsSegment(ws + [Next(ws[|es|], e)], es + [e])
  {
    hide Next, Enabled;
    var vs, fs := ws + [Next(ws[|es|], e)], es + [e];
    forall i: nat | i < |fs| ensures IsStep(vs, fs, i) {
      if i < |es| {
        assert fs[i] == es[i] && IsStep(ws, es, i);
      }
    }
  }

  lemma HandleStep(w: World, id: nat, o: Outcome)
    requires id in w.batches && w.batches[id].done < |w.batches[id].held|
    requires w.batches[id].held[w.batches[id].done] in w.db.ledger
    ensures Enabled(w, HandleRow(id, o))
    ensures var n := Next(w, HandleRow(id, o));
            n == w.(batches := w.batches[id := Turn(w.db.rows, w.db.ledger, w.batches[id], o)], calls := n.calls)
  {
  }

  /** `u` is `w` with one batch in the middle of its loop, up to the calls made. */
  predicate IsMidBatch(w: World, u: World, id: nat, b: Batch) {
    u == w.(batches := w.batches[id := b], calls := u.calls)
  }

  lemma MidStep(w: World, u: World, id: nat, b: Batch, o: Outcome)
    requires IsMidBatch(w, u, id, b) && b.done < |b.held| && b.held[b.done] in w.db.ledger
    ensures Enabled(u, HandleRow(id, o))
    ensures IsMidBatch(w, Next(u, HandleRow(id, o)), id, Turn(w.db.rows, w.db.ledger, b, o))
  {
    HandleStep(u, id, o);
    var t := Turn(w.db.rows, w.db.ledger, b, o);
    assert w.batches[id := b][id := t] == w.batches[id := t];
  }

  /** From the start of a batch, its first `n` rows can be handled one step each. */
  lemma {:induction false} HandlingIsSteps(w: World, u: World, id: nat, b: Batch, n: nat, answer: LedgerKey -> Outcome)
    returns (ws: seq<World>, es: seq<Event>)
    requires IsMidBatch(w, u, id, b) && b.done + n <= |b.held| && forall k :: k in b.held ==> k in w.db.ledger
    ensures IsSegment(ws, es) && ws[0] == u && |es| == n
    ensures IsMidBatch(w, ws[n], id, Turns(w.db.rows, w.db.ledger, b, n, answer))
  {
    hide Next, Enabled, Turn, Turns, IsSegment, IsMidBatch;
    if n == 0 {
      NoTurns(w.db.rows, w.db.ledger, b, answer);
      NoSteps(u);
      ws, es := [u], [];
    } else {
      ws, es := HandlingIsSteps(w, u, id, b, n - 1, answer);
      SegmentLength(ws, es);
      ws, es := HandlesOneMore(w, u, id, b, n - 1, answer, ws, es);
    }
  }

  lemma NoSteps(u: World)
    ensures IsSegment([u], [])
  {
  }

  lemma SegmentLength(ws: seq<World>, es: seq<Event>)
    requires IsSegment(ws, es)
    ensures |ws| == |es| + 1
  {
  }

  lemma HandlesOneMore(w: World, u: World, id: nat, b: Batch, n: nat, answer: LedgerKey -> Outcome,
                       vs: seq<World>, fs: seq<Event>) returns (ws: seq<World>, es: seq<Event>)
    requires b.done + n < |b.held| && forall k :: k in b.held ==> k in w.db.ledger
    requires IsSegment(vs, fs) && |vs| == n + 1 && |fs| == n && vs[0] == u
    requires IsMidBatch(w, vs[n], id, Turns(w.db.rows, w.db.ledger, b, n, answer))
    ensures IsSegment(ws, es) && |ws| == n + 2 && |es| == n + 1 && ws[0] == u
    ensures IsMidBatch(w, ws[n + 1], id, Turns(w.db.rows, w.db.ledger, b, n + 1, answer))
  {
    hide Next, Enabled, Turn, Turns, IsSegment, IsMidBatch;
    var e := HandleRow(id, answer(b.held[b.done + n]));
    assert b.held[b.done + n] in b.held;
    MidStep(w, vs[n], id, Turns(w.db.rows, w.db.ledger, b, n, answer), e.outcome);
    SegmentGrows(vs, fs, e);
    TurnsNext(w.db.rows, w.db.ledger, b, n, answer);
    ws, es := vs + [Next(vs[n], e)], fs + [e];
  }

  lemma BeginStep(w: World, begin: Event)
    requires begin.BeginBatch? && Enabled(w, begin)
    ensures IsMidBatch(w, Next(w, begin), begin.worker, Opened(w.db.now, begin.built, begin.hasNote, begin.claim))
    ensures begin.worker !in w.batches
    ensures forall k :: k in begin.claim ==> k in w.db.ledger
  {
    assert forall k :: k in begin.claim ==> IsEligible(w.db.ledger, k, w.db.now, begin.known);
  }

  lemma CommitStep(w: World, u: World, id: nat, b: Batch)
    requires IsMidBatch(w, u, id, b) && b.done == |b.held| && id !in w.batches
    ensures Enabled(u, CommitBatch(id))
    ensures Next(u, CommitBatch(id)).db == w.db.(ledger := w.db.ledger + b.writes)
    ensures Next(u, CommitBatch(id)).batches == w.batches
  {
  }

  lemma SegmentsJoin(w: World, e: Event, ws: seq<World>, es: seq<Event>)
    requires IsSegment(ws, es) && Enabled(w, e) && ws[0] == Next(w, e)
    ensures IsSegment([w] + ws, [e] + es)
  {
    hide Next, Enabled;
    var vs, fs := [w] + ws, [e] + es;
    forall i: nat | i < |fs| ensures IsStep(vs, fs, i) {
      if i > 0 {
        assert fs[i] == es[i - 1] && IsStep(ws, es, i - 1);
      }
    }
  }

  /** What RunFanoutOnce leaves is what a begin, one handle per claimed row and a commit leave. */
  lemma PassIsSteps(w: World, begin: Event, answer: LedgerKey -> Outcome) returns (ws: seq<World>, es: seq<Event>)
    requires begin.BeginBatch? && Enabled(w, begin)
    ensures forall k :: k in begin.claim ==> k in w.db.ledger
    ensures IsSegment(ws, es) && ws[0] == w && |es| == |begin.claim| + 2
    ensures ws[|es|].db == Fanned(w.db, begin.built, begin.hasNote, begin.claim, answer)
    ensures ws[|es|].batches == w.batches
  {
    BeginStep(w, begin);
    var n, id := |begin.claim|, begin.worker;
    var b := Opened(w.db.now, begin.built, begin.hasNote, begin.claim);
    ws, es := HandlingIsSteps(w, Next(w, begin), id, b, n, answer);
    CommitStep(w, ws[n], id, Turns(w.db.rows, w.db.ledger, b, n, answer));
    SegmentGrows(ws, es, CommitBatch(id));
    ws, es := ws + [Next(ws[n], CommitBatch(id))], es + [CommitBatch(id)];
    SegmentsJoin(w, begin, ws, es);
    ws, es := [w] + ws, [begin] + es;
  }

  lemma OnlyAlerterGetsAll(alerts: map<string, Option<int>>, alerters: map<nat, Alerter>, id: nat, keys: set<string>)
    requires alerters == map[]
    ensures Claimable(alerts, alerters[id := Looking(keys)], keys) == Unnotified(alerts, keys)
  {
    assert Claimed(alerters[id := Looking(keys)]) == {};
  }

  lemma NotifyNobody(alerts: map<string, Option<int>>, at: int)
    ensures Notified(alerts, {}, at) == alerts
  {
  }

  lemma LookStep(w: World, id: nat, hasNote: bool, since: int)
    requires id !in w.alerters
    ensures Enabled(w, Look(id, hasNote, since))
    ensures var keys := AlertKeys(Issues(w.db.rows, w.db.ledger, hasNote, w.db.now, since));
            Next(w, Look(id, hasNote, since)) ==
            w.(db := w.db.(alerts := Noted(w.db.alerts, keys)), alerters := w.alerters[id := Looking(keys)])
  {
    hide Issues, AlertKeys, Noted;
  }

  lemma ClaimStep(u: World, id: nat, keys: set<string>)
    requires id in u.alerters && u.alerters[id] == Looking(keys)
    ensures Enabled(u, ClaimAlerts(id)) && Next(u, ClaimAlerts(id)).db == u.db
    ensures var got := Claimable(u.db.alerts, u.alerters, keys);
            got != {} ==> Next(u, ClaimAlerts(id)) == u.(alerters := u.alerters[id := Holding(u.db.now, got)])
  {
    hide Claimable;
  }

  lemma MailSteps(u: World, id: nat, at: int, got: set<string>)
    requires id in u.alerters && u.alerters[id] == Holding(at, got)
    ensures Enabled(u, MailAlerts(id, true)) && Enabled(u, MailAlerts(id, false))
    ensures Next(u, MailAlerts(id, false)).db == u.db
    ensures var w3 := Next(u, MailAlerts(id, true));
            Enabled(w3, CommitAlerts(id)) && Next(w3, CommitAlerts(id)).db.alerts == Notified(u.db.alerts, got, at)
  {
    hide Notified;
  }

  /** What DispatchHealthAlerts leaves is what a look, a claim, an email and a commit of one alerter leave. */
  lemma AlertRoundIsSteps(w: World, id: nat, hasNote: bool, since: int)
    requires w.alerters == map[]
    ensures Enabled(w, Look(id, hasNote, since))
    ensures var keys := AlertKeys(Issues(w.db.rows, w.db.ledger, hasNote, w.db.now, since));
            var w1 := Next(w, Look(id, hasNote, since));
            && Enabled(w1, ClaimAlerts(id))
            && var w2 := Next(w1, ClaimAlerts(id));
               if Unnotified(Noted(w.db.alerts, keys), keys) == {} then
                 w2.db.alerts == Dispatched(w.db.alerts, keys, true, w.db.now)
                 == Dispatched(w.db.alerts, keys, false, w.db.now)
               else
                 && Enabled(w2, MailAlerts(id, true)) && Enabled(w2, MailAlerts(id, false))
                 && Next(w2, MailAlerts(id, false)).db.alerts == Dispatched(w.db.alerts, keys, false, w.db.now)
                 && var w3 := Next(w2, MailAlerts(id, true));
                    && Enabled(w3, CommitAlerts(id))
                    && Next(w3, CommitAlerts(id)).db.alerts == Dispatched(w.db.alerts, keys, true, w.db.now)
  {
    hide Next, Enabled, Issues, AlertKeys, Noted, Notified, Claimable, Claimed, Unnotified;
    var keys := AlertKeys(Issues(w.db.rows, w.db.ledger, hasNote, w.db.now, since));
    LookStep(w, id, hasNote, since);
    var w1 := Next(w, Look(id, hasNote, since));
    ClaimStep(w1, id, keys);
    var w2 := Next(w1, ClaimAlerts(id));
    OnlyAlerterGetsAll(Noted(w.db.alerts, keys), w.alerters, id, keys);
    NotifyNobody(Noted(w.db.alerts, keys), w.db.now);
    if Unnotified(Noted(w.db.alerts, keys), keys) != {} {
      MailSteps(w2, id, w.db.now, Unnotified(Noted(w.db.alerts, keys), keys));
    }
  }
}
