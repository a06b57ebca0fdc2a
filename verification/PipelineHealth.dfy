/** What the health scans report about a delivery, in every state of every run (src/core/health.ts). */
module PipelineHealth {
  import opened Types
  import opened Outbox
  import opened Announcements
  import opened Lifecycle
  import opened Fanout
  import opened Health
  import opened Pipeline
  import opened PipelineInvariant
  import opened PipelineRuns
  import opened Worker

  // ---- the three scans, in columns --------------------------------------------------------------

  /** The delivery was given up less than `since` after the time its row stores. */
  predicate GaveUpLately(d: Delivery, now: int, since: int) {
    d.status == Exhausted && now < d.nextAt + since
  }

  /** The delivery went through less than `since` ago, and its note begins with "failed:". */
  predicate FailedToPublishLately(d: Delivery, now: int, since: int) {
    && d.status == Delivered && d.deliveredAt.Some? && now < d.deliveredAt.value + since
    && d.note.Some? && |d.note.value| >= 7 && d.note.value[..7] == "failed:"
  }

  /** The announcement went out more than 30 minutes and less than `since` ago. */
  predicate WentOut(r: Row, now: int, since: int) {
    && r.status == Published && r.publishedAt.Some?
    && r.publishedAt.value + 1_800_000 < now && now < r.publishedAt.value + since
  }

  /** The deliveries of one announcement to one destination. */
  function Deliveries(ledger: map<LedgerKey, Delivery>, key: Key, t: Target): set<LedgerKey> {
    set k | k in ledger && k.key == key && k.target == t
  }

  /** Each scan reports a destination exactly when its columns say so. */
  lemma ScansReportExactly(rows: map<Key, Row>, ledger: map<LedgerKey, Delivery>, hasNote: bool, now: int, since: int,
                           key: Key, t: Target)
    ensures var issues, group := Issues(rows, ledger, hasNote, now, since), Deliveries(ledger, key, t);
            && (Issue(ExhaustedRow, t, key) in issues <==>
                exists k :: k in group && GaveUpLately(ledger[k], now, since))
            && (Issue(PublishFailed, t, key) in issues <==>
                hasNote && exists k :: k in group && FailedToPublishLately(ledger[k], now, since))
            && (Issue(NoDelivery, t, key) in issues <==>
                && key in rows && WentOut(rows[key], now, since)
                && (forall k :: k in group ==> ledger[k].status != Delivered)
                && (exists k :: k in group && ledger[k].status != Exhausted))
  {
    NotesThatFailed(ledger, key, t, now, since);
    SilentInColumns(rows, ledger, key, t, now, since);
    ExhaustedInColumns(ledger, key, t, now, since);
    hide ExhaustedIssues, UnpublishedIssues, SilentIssues, WentOut, GaveUpLately, FailedToPublishLately;
    KindsApart(rows, ledger, now, since);
  }

  /** Each scan reports its own kind. */
  lemma KindsApart(rows: map<Key, Row>, ledger: map<LedgerKey, Delivery>, now: int, since: int)
    ensures forall i :: i in ExhaustedIssues(ledger, now, since) ==> i.kind == ExhaustedRow
    ensures forall i :: i in UnpublishedIssues(ledger, now, since) ==> i.kind == PublishFailed
    ensures forall i :: i in SilentIssues(rows, ledger, now, since) ==> i.kind == NoDelivery
  {
  }

  lemma ExhaustedInColumns(ledger: map<LedgerKey, Delivery>, key: Key, t: Target, now: int, since: int)
    ensures Issue(ExhaustedRow, t, key) in ExhaustedIssues(ledger, now, since) <==>
            exists k :: k in Deliveries(ledger, key, t) && GaveUpLately(ledger[k], now, since)
  {
  }

  lemma NotesThatFailed(ledger: map<LedgerKey, Delivery>, key: Key, t: Target, now: int, since: int)
    ensures Issue(PublishFailed, t, key) in UnpublishedIssues(ledger, now, since) <==>
            exists k :: k in Deliveries(ledger, key, t) && FailedToPublishLately(ledger[k], now, since)
  {
    forall k | k in ledger
      ensures IsUnpublished(ledger[k], now, since) <==> FailedToPublishLately(ledger[k], now, since)
    {
      if ledger[k].note.Some? {
        BeginsWith(ledger[k].note.value);
      }
    }
    hide IsUnpublished, FailedToPublishLately;
  }

  lemma BeginsWith(note: string)
    ensures "failed:" <= note <==> |note| >= 7 && note[..7] == "failed:"
  {
  }

  lemma SilentInColumns(rows: map<Key, Row>, ledger: map<LedgerKey, Delivery>, key: Key, t: Target, now: int,
                        since: int)
    ensures Issue(NoDelivery, t, key) in SilentIssues(rows, ledger, now, since) <==>
            && key in rows && WentOut(rows[key], now, since)
            && (forall k :: k in Deliveries(ledger, key, t) ==> ledger[k].status != Delivered)
            && (exists k :: k in Deliveries(ledger, key, t) && ledger[k].status != Exhausted)
  {
    var group := Deliveries(ledger, key, t);
    forall k | k in group
      ensures IsSilent(rows, ledger, k, now, since) <==>
              && key in rows && WentOut(rows[key], now, since)
              && (forall j :: j in group ==> ledger[j].status != Delivered)
              && (exists j :: j in group && ledger[j].status != Exhausted)
    {
      assert forall j :: j in ledger && SameGroup(j, k) <==> j in group;
    }
    if Issue(NoDelivery, t, key) in SilentIssues(rows, ledger, now, since) {
      var k :| k in ledger && IsSilent(rows, ledger, k, now, since) && k.target == t && k.key == key;
      assert k in group;
    }
    hide IsSilent, WentOut;
  }

  // ---- over runs --------------------------------------------------------------------------------

  /** In a run a destination has one delivery of each announcement. */
  lemma OneDelivery(ws: seq<World>, es: seq<Event>, n: nat, k: LedgerKey)
    requires IsRun(ws, es) && n <= |es| < |ws| && k in ws[n].db.ledger
    ensures Deliveries(ws[n].db.ledger, k.key, k.target) == {k}
  {
    hide Inv, StoreOk, RowOk;
    RunKeepsInv(ws, es, n);
    TablesAreOk(ws[n]);
    LedgerRowIsPublished(ws[n].db, k);
    forall j | j in Deliveries(ws[n].db.ledger, k.key, k.target) ensures j == k {
      assert SameGroup(j, k);
    }
  }

  /**
   * A delivery is reported as given up exactly when its fifth committed attempt failed, from then on until 30
   * minutes and `since` after that attempt began.
   */
  lemma GivenUpIsReportedExactly(ws: seq<World>, es: seq<Event>, n: nat, k: LedgerKey, hasNote: bool, since: int)
    requires IsRun(ws, es) && n <= |es| < |ws| && k in ws[n].db.ledger
    ensures var s, times := ws[n].db, TriesOf(ws[n].tries, k);
            Issue(ExhaustedRow, k.target, k.key) in Issues(s.rows, s.ledger, hasNote, s.now, since) <==>
            && |times| == 5 && s.ledger[k].status != Delivered && s.now < times[4] + 30 * MINUTE + since
  {
    hide Inv, Issues;
    RunKeepsInv(ws, es, n);
    ScansReportExactly(ws[n].db.rows, ws[n].db.ledger, hasNote, ws[n].db.now, since, k.key, k.target);
    OneDelivery(ws, es, n, k);
    FiveTries(ws[n], k);
    hide WentOut, FailedToPublishLately;
  }

  /** Five committed attempts without a success are a delivery given up, at 30 minutes after the fifth. */
  lemma FiveTries(w: World, k: LedgerKey)
    requires Inv(w) && k in w.db.ledger
    ensures var d, times := w.db.ledger[k], TriesOf(w.tries, k);
            && (d.status == Exhausted <==> |times| == 5 && d.status != Delivered)
            && (d.status == Exhausted ==> d.nextAt == times[4] + 30 * MINUTE)
  {
    LedgerOnLadder(w);
    hide DatabaseOk, BatchesOk, CallsOk, AlertKeysOk, AlertsOk;
    assert HistoryOk(w.db.ledger[k], TriesOf(w.tries, k), PublishedAt(w.db.rows, k.key));
    assert LadderOk(w.db.ledger[k]);
  }

  /** It is reported as silent exactly while it is unfinished, from 30 minutes until `since` after its publication. */
  lemma SilenceIsReportedExactly(ws: seq<World>, es: seq<Event>, n: nat, k: LedgerKey, hasNote: bool, since: int)
    requires IsRun(ws, es) && n <= |es| < |ws| && k in ws[n].db.ledger
    ensures var s := ws[n].db; var age := s.now - PublishedAt(s.rows, k.key);
            Issue(NoDelivery, k.target, k.key) in Issues(s.rows, s.ledger, hasNote, s.now, since) <==>
            30 * MINUTE < age < since && s.ledger[k].status != Delivered && s.ledger[k].status != Exhausted
  {
    hide Inv, Issues, StoreOk, RowOk;
    RunKeepsInv(ws, es, n);
    TablesAreOk(ws[n]);
    LedgerRowIsPublished(ws[n].db, k);
    ScansReportExactly(ws[n].db.rows, ws[n].db.ledger, hasNote, ws[n].db.now, since, k.key, k.target);
    OneDelivery(ws, es, n, k);
    hide GaveUpLately, FailedToPublishLately;
  }

  // ---- alert rounds -----------------------------------------------------------------------------

  /** The event is a statement of alerter `a`. */
  predicate IsOf(e: Event, a: nat) {
    (e.Look? || e.ClaimAlerts? || e.MailAlerts? || e.CommitAlerts? || e.AbortAlerts?) && e.alerter == a
  }

  /** From step `i` alerter `a` looks, claims at `j`, mails at `m` with a working sender, and commits at `l`. */
  ghost predicate IsRound(es: seq<Event>, i: nat, j: nat, m: nat, l: nat, a: nat) {
    && i < j < m < l < |es| && es[i].Look? && es[i].alerter == a
    && es[j] == ClaimAlerts(a) && es[m] == MailAlerts(a, true) && es[l] == CommitAlerts(a)
    && forall x :: i < x < l && x != j && x != m ==> !IsOf(es[x], a)
  }

  predicate IsNotified(alerts: map<string, Option<int>>, key: string) {
    key in alerts && alerts[key].Some?
  }

  lemma OthersLeaveAlerter(w: World, e: Event, a: nat)
    requires Enabled(w, e) && !IsOf(e, a)
    ensures a in Next(w, e).alerters <==> a in w.alerters
    ensures a in w.alerters ==> Next(w, e).alerters[a] == w.alerters[a]
  {
    hide Turn, Issues, Perform, SendDue, Claimable, Noted, Notified;
  }

  lemma PerformKeepsAlerts(s: Store, c: Command)
    ensures Perform(s, c).0.alerts == s.alerts
  {
  }

  lemma {:induction false} SendDueKeepsAlerts(s: Store, due: seq<Key>)
    requires forall k :: k in due ==> k in s.rows
    ensures SendDue(s, due).alerts == s.alerts
  {
    if due != [] {
      var init := due[..|due| - 1];
      assert forall k :: k in init ==> k in due;
      SendDueKeepsAlerts(s, init);
    }
  }

  /** Noted keys stay noted and notified ones notified. */
  lemma AlertsOnlyAdvance(w: World, e: Event, key: string)
    requires Enabled(w, e)
    ensures key in w.db.alerts ==> key in Next(w, e).db.alerts
    ensures IsNotified(w.db.alerts, key) ==> IsNotified(Next(w, e).db.alerts, key)
  {
    hide Turn, Issues, Perform, SendDue, Claimable;
    if e.Act? {
      PerformKeepsAlerts(w.db, e.command);
    } else if e.SendScheduled? {
      SendDueKeepsAlerts(w.db, e.due);
    }
  }

  lemma {:induction false} AlerterWaits(ws: seq<World>, es: seq<Event>, x: nat, y: nat, a: nat)
    requires IsRun(ws, es) && x <= y <= |es| < |ws| && forall z :: x <= z < y ==> !IsOf(es[z], a)
    ensures a in ws[x].alerters ==> a in ws[y].alerters && ws[y].alerters[a] == ws[x].alerters[a]
  {
    hide Next, Enabled, Inv;
    if x < y {
      AlerterWaits(ws, es, x, y - 1, a);
      StepAt(ws, es, y - 1);
      OthersLeaveAlerter(ws[y - 1], es[y - 1], a);
    }
  }

  lemma {:induction false} NotifiedStays(ws: seq<World>, es: seq<Event>, x: nat, y: nat, key: string)
    requires IsRun(ws, es) && x <= y <= |es| < |ws|
    ensures key in ws[x].db.alerts ==> key in ws[y].db.alerts
    ensures IsNotified(ws[x].db.alerts, key) ==> IsNotified(ws[y].db.alerts, key)
  {
    hide Next, Enabled, Inv, IsNotified;
    if x < y {
      NotifiedStays(ws, es, x, y - 1, key);
      StepAt(ws, es, y - 1);
      AlertsOnlyAdvance(ws[y - 1], es[y - 1], key);
    }
  }

  lemma LookNotes(w: World, e: Event, key: string)
    requires e.Look? && Enabled(w, e)
    ensures var keys := AlertKeys(Issues(w.db.rows, w.db.ledger, e.hasNote, w.db.now, e.since));
            var n := Next(w, e);
            e.alerter in n.alerters && n.alerters[e.alerter] == Looking(keys) && (key in keys ==> key in n.db.alerts)
  {
    hide Issues, AlertKeys;
  }

  lemma ClaimHolds(w: World, a: nat, keys: set<string>, key: string)
    requires a in w.alerters && w.alerters[a] == Looking(keys) && key in keys && key in w.db.alerts
    ensures var n := Next(w, ClaimAlerts(a));
            || IsNotified(w.db.alerts, key) || (exists b :: b != a && Claims(w.alerters, b, key))
            || (a in n.alerters && n.alerters[a].Holding? && key in n.alerters[a].keys)
  {
    if key in Claimed(w.alerters) {
      var b :| b in w.alerters && !w.alerters[b].Looking? && key in w.alerters[b].keys;
      assert b != a && Claims(w.alerters, b, key);
    } else if w.db.alerts[key].None? {
      assert key in Claimable(w.db.alerts, w.alerters, keys);
    }
  }

  lemma MailKeepsKeys(w: World, a: nat)
    requires Enabled(w, MailAlerts(a, true))
    ensures var n := Next(w, MailAlerts(a, true));
            a in n.alerters && n.alerters[a].Mailed? && n.alerters[a].keys == w.alerters[a].keys
  {
  }

  lemma CommitNotifies(w: World, a: nat, key: string)
    requires Enabled(w, CommitAlerts(a)) && key in w.alerters[a].keys && key in w.db.alerts
    ensures IsNotified(Next(w, CommitAlerts(a)).db.alerts, key)
  {
  }

  /**
   * When a round with a working sender has committed, every problem it saw is marked notified, unless another
   * alerter had its key locked when the round claimed.
   */
  lemma RoundNotifiesWhatItSaw(ws: seq<World>, es: seq<Event>, i: nat, j: nat, m: nat, l: nat, a: nat, p: Issue)
    requires IsRun(ws, es) && |es| < |ws| && IsRound(es, i, j, m, l, a)
    requires p in Issues(ws[i].db.rows, ws[i].db.ledger, es[i].hasNote, ws[i].db.now, es[i].since)
    ensures IsNotified(ws[l + 1].db.alerts, AlertKey(p)) || exists b :: b != a && Claims(ws[j].alerters, b, AlertKey(p))
  {
    hide IsRun, Next, Enabled, Inv, IsNotified, Issues, AlertKey, Claims;
    var key := AlertKey(p);
    StepAt(ws, es, i);
    LookNotes(ws[i], es[i], key);
    AlerterWaits(ws, es, i + 1, j, a);
    NotifiedStays(ws, es, i + 1, j, key);
    StepAt(ws, es, j);
    ClaimHolds(ws[j], a, ws[j].alerters[a].keys, key);
    NotifiedStays(ws, es, j, l + 1, key);
    if !IsNotified(ws[j].db.alerts, key) && !exists b :: b != a && Claims(ws[j].alerters, b, key) {
      RoundCommits(ws, es, j, m, l, a, key);
    }
  }

  lemma RoundCommits(ws: seq<World>, es: seq<Event>, j: nat, m: nat, l: nat, a: nat, key: string)
    requires IsRun(ws, es) && j < m < l < |es| < |ws| && es[m] == MailAlerts(a, true) && es[l] == CommitAlerts(a)
    requires forall x :: j < x < l && x != m ==> !IsOf(es[x], a)
    requires key in ws[j].db.alerts && a in ws[j + 1].alerters && key in ws[j + 1].alerters[a].keys
    ensures IsNotified(ws[l + 1].db.alerts, key)
  {
    hide IsRun, Next, Enabled, Inv, IsNotified;
    AlerterWaits(ws, es, j + 1, m, a);
    StepAt(ws, es, m);
    MailKeepsKeys(ws[m], a);
    AlerterWaits(ws, es, m + 1, l, a);
    NotifiedStays(ws, es, j, l, key);
    StepAt(ws, es, l);
    CommitNotifies(ws[l], a, key);
  }

  /**
   * A delivery given up is alerted: a round that looks within 30 minutes and `since` of its fifth attempt, and
   * commits with a working sender, leaves its key notified, unless another alerter held it.
   */
  lemma GivenUpIsAlerted(ws: seq<World>, es: seq<Event>, i: nat, j: nat, m: nat, l: nat, a: nat, k: LedgerKey)
    requires IsRun(ws, es) && |es| < |ws| && IsRound(es, i, j, m, l, a) && k in ws[i].db.ledger
    requires var times := TriesOf(ws[i].tries, k);
             && |times| == 5 && ws[i].db.ledger[k].status != Delivered
             && ws[i].db.now < times[4] + 30 * MINUTE + es[i].since
    ensures var key := AlertKey(Issue(ExhaustedRow, k.target, k.key));
            IsNotified(ws[l + 1].db.alerts, key) || exists b :: b != a && Claims(ws[j].alerters, b, key)
  {
    hide IsRun, IsNotified, Issues, AlertKey, Claims;
    GivenUpIsReportedExactly(ws, es, i, k, es[i].hasNote, es[i].since);
    RoundNotifiesWhatItSaw(ws, es, i, j, m, l, a, Issue(ExhaustedRow, k.target, k.key));
  }

  /** An uninterrupted round: what it saw is noted, and newly stamped if and only if the email went out. */
  lemma RoundStampsExactly(s: Store, recipients: seq<string>, hasNote: bool, sendWorks: bool, key: string)
    requires recipients != []
    ensures var saw := exists p :: p in Issues(s.rows, s.ledger, hasNote, s.now, 86_400_000) && AlertKey(p) == key;
            var after := Alerted(s, recipients, hasNote, sendWorks).alerts;
            && (key in after <==> key in s.alerts || saw)
            && (key in after ==>
                  after[key] == if key in s.alerts && (s.alerts[key].Some? || !saw) then s.alerts[key]
                                else if sendWorks then Some(s.now) else None)
  {
    hide Issues, AlertKey;
  }

  /** Without recipients a round does nothing; its count is that of the keys it stamped. */
  lemma RoundCountsExactly(s: Store, recipients: seq<string>, hasNote: bool, sendWorks: bool)
    ensures var t := Alerted(s, recipients, hasNote, sendWorks);
            && t == s.(alerts := t.alerts) && (recipients == [] ==> t == s)
            && NewlyAlerted(s, recipients, hasNote, sendWorks)
            == |set k | k in t.alerts && t.alerts[k].Some? && !IsNotified(s.alerts, k)|
  {
    hide Issues, AlertKey;
    var keys := AlertKeys(Issues(s.rows, s.ledger, hasNote, s.now, 24 * HOUR));
    var t := Alerted(s, recipients, hasNote, sendWorks);
    var stamped := set k | k in t.alerts && t.alerts[k].Some? && !IsNotified(s.alerts, k);
    if recipients == [] || !sendWorks {
      assert stamped == {};
    } else {
      assert stamped == Unnotified(Noted(s.alerts, keys), keys);
    }
  }

  // ---- a tick -----------------------------------------------------------------------------------

  /**
   * A tick's fan-out and alerts: the oldest due rows are tried once and counted, nothing else moves, and the alerts
   * see the ledger after it.
   */
  lemma TickLeaves(s: Store, t: Store, channels: set<Channel>, hasNote: bool, locked: set<LedgerKey>,
                   answer: LedgerKey -> Outcome, recipients: seq<string>, sendWorks: bool, delivered: nat,
                   failed: nat, alerted: nat, claim: seq<LedgerKey>)
    requires IsDelivered(s, t, channels, hasNote, locked, answer, recipients, sendWorks, delivered, failed, alerted,
                         claim)
    ensures if channels == {} then claim == [] else IsClaim(s.ledger, s.now, channels, locked, 20, claim)
    ensures t == s.(ledger := t.ledger, alerts := t.alerts)
    ensures t.alerts == Alerted(s.(ledger := t.ledger), recipients, hasNote, sendWorks).alerts
    ensures t.ledger.Keys == s.ledger.Keys
    ensures forall k :: k in s.ledger ==>
              t.ledger[k] == if k !in claim then s.ledger[k]
                             else if k.key in s.rows then Attempt(s.ledger[k], answer(k), s.now, hasNote)
                             else Poisoned(s.ledger[k], s.now)
    ensures delivered == |set k | k in claim && k.key in s.rows && answer(k).Sent?|
    ensures failed == |set k | k in claim && k.key in s.rows && answer(k).Threw?|
    ensures alerted == |set k | k in t.alerts && t.alerts[k].Some? && !IsNotified(s.alerts, k)|
  {
    hide Issues, AlertKey, Alerted, NewlyAlerted, Attempt, Poisoned, Pass, IsNotified, IsClaim;
    ClaimReachesAdapters(s, channels, locked, claim);
    PassLeaves(s, channels, hasNote, answer, claim);
    RoundCountsExactly(Fanned(s, channels, hasNote, claim, answer), recipients, hasNote, sendWorks);
  }

  /** A fan-out pass over a claim: each row whose announcement exists is tried and counted, and no other row moves. */
  lemma PassLeaves(s: Store, channels: set<Channel>, hasNote: bool, answer: LedgerKey -> Outcome,
                   claim: seq<LedgerKey>)
    requires Distinct(claim) && forall k :: k in claim ==> k in s.ledger && k.target.channel in channels
    ensures var p := Pass(s.rows, s.ledger, Opened(s.now, channels, hasNote, claim), answer);
            var after := s.ledger + p.writes;
            && after.Keys == s.ledger.Keys
            && (forall k :: k in s.ledger ==>
                  after[k] == if k !in claim then s.ledger[k]
                              else if k.key in s.rows then Attempt(s.ledger[k], answer(k), s.now, hasNote)
                              else Poisoned(s.ledger[k], s.now))
            && p.delivered == |set k | k in claim && k.key in s.rows && answer(k).Sent?|
            && p.failed == |set k | k in claim && k.key in s.rows && answer(k).Threw?|
  {
    hide Attempt, Poisoned, Turns, Distinct;
    var b := Opened(s.now, channels, hasNote, claim);
    TurnsWriteEach(s.rows, s.ledger, b, |claim|, answer);
    assert claim[..|claim|] == claim;
    var tried := Elements(claim);
    assert Ended(s.rows, channels, tried, answer, true) == set k | k in claim && k.key in s.rows && answer(k).Sent?;
    assert Ended(s.rows, channels, tried, answer, false) == set k | k in claim && k.key in s.rows && answer(k).Threw?;
  }

  lemma ClaimReachesAdapters(s: Store, channels: set<Channel>, locked: set<LedgerKey>, claim: seq<LedgerKey>)
    requires if channels == {} then claim == [] else IsClaim(s.ledger, s.now, channels, locked, 20, claim)
    ensures Distinct(claim) && forall k :: k in claim ==> k in s.ledger && k.target.channel in channels
  {
    if channels != {} {
      assert forall k :: k in claim ==> IsEligible(s.ledger, k, s.now, channels);
    }
  }
}
