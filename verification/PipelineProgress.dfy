/**
 * Nothing in the pipeline gets stuck: in every state of every run an idle worker, the scheduler and a new alert
 * round can begin, whatever is open can go on or die, and people and settings are free.
 */
module PipelineProgress {
  import opened Types
  import opened Outbox
  import opened Announcements
  import opened Fanout
  import opened Health
  import opened Pipeline
  import opened PipelineInvariant
  import opened PipelineRuns
  import opened DatabaseTables
  import opened Worker

  // ---- the two claim queries always have an answer ----------------------------------------------

  lemma {:induction false} ClaimExists(ledger: map<LedgerKey, Delivery>, now: int, known: set<Channel>,
                                       locked: set<LedgerKey>, batch: nat) returns (due: seq<LedgerKey>)
    ensures IsClaim(ledger, now, known, locked, batch, due)
  {
    hide IsEligible, NextAt;
    due := [];
    if batch > 0 {
      due := ClaimExists(ledger, now, known, locked, batch - 1);
      var pool := Claimables(ledger, now, known, locked) - Elements(due);
      assert forall k :: k in pool <==> IsEligible(ledger, k, now, known) && k !in locked && k !in due;
      if |due| == batch - 1 && pool != {} {
        OldestExists(ledger, pool);
        var k :| k in pool && forall j :: j in pool ==> NextAt(ledger, k) <= NextAt(ledger, j);
        OneMoreClaimed(ledger, now, known, locked, batch - 1, due, k);
        due := due + [k];
      }
    }
  }

  function Claimables(ledger: map<LedgerKey, Delivery>, now: int, known: set<Channel>, locked: set<LedgerKey>)
    : (r: set<LedgerKey>)
    ensures forall k :: k in r <==> IsEligible(ledger, k, now, known) && k !in locked
  {
    set k | k in ledger && IsEligible(ledger, k, now, known) && k !in locked
  }

  lemma OneMoreClaimed(ledger: map<LedgerKey, Delivery>, now: int, known: set<Channel>, locked: set<LedgerKey>,
                       n: nat, due: seq<LedgerKey>, k: LedgerKey)
    requires IsClaim(ledger, now, known, locked, n, due) && |due| == n
    requires IsEligible(ledger, k, now, known) && k !in locked && k !in due
    requires forall j :: IsEligible(ledger, j, now, known) && j !in locked && j !in due ==>
               NextAt(ledger, k) <= NextAt(ledger, j)
    ensures IsClaim(ledger, now, known, locked, n + 1, due + [k])
  {
    hide IsEligible, NextAt;
  }

  lemma {:induction false} DueBatchExists(rows: map<Key, Row>, now: int, batch: nat) returns (due: seq<Key>)
    ensures IsDueBatch(rows, now, batch, due)
  {
    hide IsDue, DueTime;
    due := [];
    if batch > 0 {
      due := DueBatchExists(rows, now, batch - 1);
      var pool := set k | k in DueRows(rows, now) && k !in due;
      assert forall k :: k in pool <==> IsDue(rows, k, now) && k !in due;
      if |due| == batch - 1 && pool != {} {
        EarliestExists(rows, pool);
        var k :| k in pool && forall j :: j in pool ==> DueTime(rows, k) <= DueTime(rows, j);
        OneMoreDue(rows, now, batch - 1, due, k);
        due := due + [k];
      }
    }
  }

  function DueRows(rows: map<Key, Row>, now: int): (r: set<Key>)
    ensures forall k :: k in r <==> IsDue(rows, k, now)
  {
    set k | k in rows && IsDue(rows, k, now)
  }

  lemma OneMoreDue(rows: map<Key, Row>, now: int, n: nat, due: seq<Key>, k: Key)
    requires IsDueBatch(rows, now, n, due) && |due| == n && IsDue(rows, k, now) && k !in due
    requires forall j :: IsDue(rows, j, now) && j !in due ==> DueTime(rows, k) <= DueTime(rows, j)
    ensures IsDueBatch(rows, now, n + 1, due + [k])
  {
    hide IsDue, DueTime;
  }

  // ---- who can go on ----------------------------------------------------------------------------

  /** An idle worker can claim in every state, and the scheduler can run. */
  lemma IdleWorkersMayBegin(w: World, id: nat, known: set<Channel>, built: set<Channel>, hasNote: bool, limit: nat)
    requires id !in w.batches && known != {} && built <= known
    ensures exists claim :: Enabled(w, BeginBatch(id, known, built, hasNote, limit, claim))
    ensures exists due :: Enabled(w, SendScheduled(limit, due))
  {
    hide IsClaim, IsDueBatch;
    var claim := ClaimExists(w.db.ledger, w.db.now, known, Locked(w.batches), limit);
    assert Enabled(w, BeginBatch(id, known, built, hasNote, limit, claim));
    var due := DueBatchExists(w.db.rows, w.db.now, limit);
    assert Enabled(w, SendScheduled(limit, due));
  }

  /** An open batch can handle its next row, whatever the adapter answers, or else commit; and it can die. */
  lemma OpenBatchesMayGoOn(ws: seq<World>, es: seq<Event>, n: nat, id: nat, outcome: Outcome)
    requires IsRun(ws, es) && n <= |es| && id in ws[n].batches
    ensures var w := ws[n];
            && (if w.batches[id].done < |w.batches[id].held| then Enabled(w, HandleRow(id, outcome))
                else Enabled(w, CommitBatch(id)))
            && Enabled(w, AbortBatch(id)) && Next(w, AbortBatch(id)).db == w.db
            && Next(w, AbortBatch(id)).batches == w.batches - {id}
  {
    hide Inv, Turn, WritesOk, Perform, SendDue, Issues, IsClaim, IsDueBatch;
    RunKeepsInv(ws, es, n);
    BatchHoldsRows(ws[n], id);
  }

  lemma BatchHoldsRows(w: World, id: nat)
    requires Inv(w) && id in w.batches
    ensures var b := w.batches[id]; b.done <= |b.held| && forall k :: k in b.held ==> k in w.db.ledger
  {
    hide Inv;
    OpenBatchOk(w, id);
    assert HoldsRows(w.db.ledger, w.batches[id]);
  }

  /** An open alert round can take its next statement; a new one can begin; and any can die. */
  lemma OpenRoundsMayGoOn(ws: seq<World>, es: seq<Event>, n: nat, a: nat, hasNote: bool, since: int, ok: bool)
    requires IsRun(ws, es) && n <= |es|
    ensures var w := ws[n];
            && (a !in w.alerters ==> Enabled(w, Look(a, hasNote, since)))
            && (a in w.alerters ==>
                  && match w.alerters[a] {
                       case Looking(_) => Enabled(w, ClaimAlerts(a))
                       case Holding(_, _) => Enabled(w, MailAlerts(a, ok))
                       case Mailed(_, _, _) => Enabled(w, CommitAlerts(a))
                     }
                  && Enabled(w, AbortAlerts(a)) && Next(w, AbortAlerts(a)) == w.(alerters := w.alerters - {a}))
  {
    hide Inv, Turn, WritesOk, Perform, SendDue, Issues, IsClaim, IsDueBatch;
    RunKeepsInv(ws, es, n);
    if a in ws[n].alerters {
      EmailsStand(ws[n], a);
    }
  }

  lemma EmailsStand(w: World, a: nat)
    requires Inv(w) && a in w.alerters
    ensures w.alerters[a].Mailed? ==> w.alerters[a].mail < |w.mails|
  {
    assert AlertsOk(w.db.alerts, w.alerters, w.mails);
  }

  /** Any command can be tried at any time, time can pass, and operators and subscribers can change their tables. */
  lemma PeopleAreFree(w: World, c: Command, time: nat, settings: seq<Setting>, subs: seq<Subscription>,
                      enabled: set<Channel>)
    ensures Enabled(w, Act(c)) && Next(w, Act(c)) == w.(db := Perform(w.db, c).0)
    ensures Enabled(w, Sleep(time)) && Next(w, Sleep(time)) == w.(db := w.db.(now := w.db.now + time))
    ensures TablesOk(settings, subs) ==>
              var e := Configure(settings, subs, enabled);
              Enabled(w, e) && Next(w, e) == w.(db := w.db.(settings := settings, subs := subs, enabled := enabled))
  {
    hide Perform, TablesOk;
  }

  // ---- no empty email ---------------------------------------------------------------------------

  /** An alerter that holds keys holds some, and so does every email sent. */
  predicate ListsSomething(w: World) {
    && (forall a :: a in w.alerters && !w.alerters[a].Looking? ==> w.alerters[a].keys != {})
    && (forall m :: m in w.mails ==> m.keys != {})
  }

  lemma StepListsSomething(w: World, e: Event)
    requires Enabled(w, e) && ListsSomething(w)
    ensures ListsSomething(Next(w, e))
  {
    hide Perform, SendDue, Turn, Issues, IsClaim, IsDueBatch, TablesOk, Noted, Notified, Claimable;
  }

  /** No alert email is sent without a problem to report. */
  lemma {:induction false} NoEmptyMail(ws: seq<World>, es: seq<Event>, n: nat)
    requires IsRun(ws, es) && n <= |es|
    ensures ListsSomething(ws[n])
  {
    hide Next, Enabled, ListsSomething;
    if n == 0 {
      assert IsInit(ws[0]) && ListsSomething(ws[0]) by {
        NothingListed(ws[0]);
      }
    } else {
      NoEmptyMail(ws, es, n - 1);
      assert IsStep(ws, es, n - 1);
      StepListsSomething(ws[n - 1], es[n - 1]);
    }
  }

  lemma NothingListed(w: World)
    requires IsInit(w)
    ensures ListsSomething(w)
  {
  }
}
