/**
 * The whole tool as a state machine: publishers, the scheduler, any number of delivery workers and
 * alerters, a moving clock, and tables that operators and subscribers change. A transaction of
 * src/core/announcements.ts is one step; a fan-out batch (src/worker/fanout.ts) and an alert round
 * (src/core/alerts.ts) stay open over several, and may abort after their effects left the building.
 */
module Pipeline {
  import opened Types
  import opened Outbox
  import opened Announcements
  import opened Fanout
  import opened Health

  /** One adapter call that really happened, committed or not. */
  datatype Call = Call(worker: nat, key: LedgerKey, row: Row, ok: bool)

  /** One alert email that really went out. */
  datatype Mail = Mail(keys: set<string>, committed: bool)

  /** An alerter between its statements: keys evaluated and inserted; rows locked; email sent. */
  datatype Alerter =
    | Looking(keys: set<string>)
    | Holding(startedAt: int, keys: set<string>)
    | Mailed(startedAt: int, keys: set<string>, mail: nat)

  /**
   * The database, the open transactions, and the history: adapter calls, start times of the committed
   * attempts of each outbox row, rows called by each aborted batch, alert emails.
   */
  datatype World = World(
    db: Store, batches: map<nat, Batch>, calls: seq<Call>, tries: map<LedgerKey, seq<int>>, lost: seq<set<LedgerKey>>,
    alerters: map<nat, Alerter>, mails: seq<Mail>)

  datatype Event =
    | Act(command: Command)
    | SendScheduled(batch: nat, due: seq<Key>)
    | Sleep(time: nat)
    | Configure(settings: seq<Setting>, subs: seq<Subscription>, enabled: set<Channel>)
    | BeginBatch(worker: nat, known: set<Channel>, built: set<Channel>, hasNote: bool, limit: nat,
                 claim: seq<LedgerKey>)
    | HandleRow(worker: nat, outcome: Outcome)
    | CommitBatch(worker: nat)
    | AbortBatch(worker: nat)
    | Look(alerter: nat, hasNote: bool, since: int)
    | ClaimAlerts(alerter: nat)
    | MailAlerts(alerter: nat, ok: bool)
    | CommitAlerts(alerter: nat)
    | AbortAlerts(alerter: nat)

  predicate IsInit(w: World) {
    && w.db.rows == map[] && w.db.ledger == map[] && w.db.audit == [] && w.db.alerts == map[]
    && TablesOk(w.db.settings, w.db.subs)
    && w.batches == map[] && w.calls == [] && w.tries == map[] && w.lost == []
    && w.alerters == map[] && w.mails == []
  }

  /** The outbox rows some open batch holds locked. */
  function Locked(batches: map<nat, Batch>): set<LedgerKey> {
    set w, k | w in batches && k in batches[w].held :: k
  }

  /** The rows an open batch has called an adapter for. */
  function Called(rows: map<Key, Row>, b: Batch): set<LedgerKey> {
    set k | k in b.writes && k.key in rows
  }

  function TriesOf(tries: map<LedgerKey, seq<int>>, k: LedgerKey): seq<int> {
    if k in tries then tries[k] else []
  }

  function Tried(tries: map<LedgerKey, seq<int>>, called: set<LedgerKey>, at: int): map<LedgerKey, seq<int>> {
    map k | k in tries.Keys + called :: if k in called then TriesOf(tries, k) + [at] else tries[k]
  }

  function Claimed(alerters: map<nat, Alerter>): set<string> {
    set a, k | a in alerters && !alerters[a].Looking? && k in alerters[a].keys :: k
  }

  /** Which alert rows an alerter that evaluated `keys` gets: not yet notified and not locked by another. */
  function Claimable(alerts: map<string, Option<int>>, alerters: map<nat, Alerter>, keys: set<string>): set<string> {
    set k | k in keys && k in alerts && alerts[k].None? && k !in Claimed(alerters)
  }

  /** `insert … on conflict do nothing` for each key. */
  function Noted(alerts: map<string, Option<int>>, keys: set<string>): map<string, Option<int>> {
    map k | k in alerts.Keys + keys :: if k in alerts then alerts[k] else None
  }

  function Notified(alerts: map<string, Option<int>>, keys: set<string>, at: int): map<string, Option<int>> {
    map k | k in alerts :: if k in keys then Some(at) else alerts[k]
  }

  ghost predicate Enabled(w: World, e: Event) {
    match e
    case Act(_) => true
    case SendScheduled(batch, due) => IsDueBatch(w.db.rows, w.db.now, batch, due)
    case Sleep(_) => true
    case Configure(settings, subs, _) => TablesOk(settings, subs)
    case BeginBatch(id, known, built, _, limit, claim) =>
      && id !in w.batches && known != {} && built <= known
      && IsClaim(w.db.ledger, w.db.now, known, Locked(w.batches), limit, claim)
    case HandleRow(id, _) =>
      && id in w.batches && w.batches[id].done < |w.batches[id].held|
      && w.batches[id].held[w.batches[id].done] in w.db.ledger
    case CommitBatch(id) => id in w.batches && w.batches[id].done == |w.batches[id].held|
    case AbortBatch(id) => id in w.batches
    case Look(id, _, _) => id !in w.alerters
    case ClaimAlerts(id) => id in w.alerters && w.alerters[id].Looking?
    case MailAlerts(id, _) => id in w.alerters && w.alerters[id].Holding?
    case CommitAlerts(id) => id in w.alerters && w.alerters[id].Mailed? && w.alerters[id].mail < |w.mails|
    case AbortAlerts(id) => id in w.alerters
  }

  /** A failed send throws, so its transaction rolls back; nothing claimable ends the round without an email. */
  ghost function Next(w: World, e: Event): World
    requires Enabled(w, e)
  {
    match e
    case Act(c) => w.(db := Perform(w.db, c).0)
    case SendScheduled(_, due) => w.(db := SendDue(w.db, due))
    case Sleep(time) => w.(db := w.db.(now := w.db.now + time))
    case Configure(settings, subs, enabled) =>
      w.(db := w.db.(settings := settings, subs := subs, enabled := enabled))
    case BeginBatch(id, _, built, hasNote, _, claim) =>
      w.(batches := w.batches[id := Opened(w.db.now, built, hasNote, claim)])
    case HandleRow(id, outcome) =>
      var b := w.batches[id];
      var k := b.held[b.done];
      w.(batches := w.batches[id := Turn(w.db.rows, w.db.ledger, b, outcome)],
         calls := if Calls(w.db.rows, b) then w.calls + [Call(id, k, w.db.rows[k.key], outcome.Sent?)] else w.calls)
    case CommitBatch(id) =>
      var b := w.batches[id];
      w.(db := w.db.(ledger := w.db.ledger + b.writes),
         batches := w.batches - {id},
         tries := Tried(w.tries, Called(w.db.rows, b), b.startedAt))
    case AbortBatch(id) =>
      w.(batches := w.batches - {id}, lost := w.lost + [Called(w.db.rows, w.batches[id])])
    case Look(id, hasNote, since) =>
      var keys := AlertKeys(Issues(w.db.rows, w.db.ledger, hasNote, w.db.now, since));
      w.(db := w.db.(alerts := Noted(w.db.alerts, keys)), alerters := w.alerters[id := Looking(keys)])
    case ClaimAlerts(id) =>
      var keys := Claimable(w.db.alerts, w.alerters, w.alerters[id].keys);
      w.(alerters := if keys == {} then w.alerters - {id} else w.alerters[id := Holding(w.db.now, keys)])
    case MailAlerts(id, ok) =>
      var a := w.alerters[id];
      if !ok then w.(alerters := w.alerters - {id})
      else
        w.(mails := w.mails + [Mail(a.keys, false)],
           alerters := w.alerters[id := Mailed(a.startedAt, a.keys, |w.mails|)])
    case CommitAlerts(id) =>
      var a := w.alerters[id];
      w.(db := w.db.(alerts := Notified(w.db.alerts, a.keys, a.startedAt)),
         mails := w.mails[a.mail := w.mails[a.mail].(committed := true)],
         alerters := w.alerters - {id})
    case AbortAlerts(id) => w.(alerters := w.alerters - {id})
  }

  ghost predicate IsStep(ws: seq<World>, es: seq<Event>, i: nat)
    requires i < |es| < |ws|
  {
    Enabled(ws[i], es[i]) && ws[i + 1] == Next(ws[i], es[i])
  }

  /** A run: states joined by enabled steps from an initial one. */
  ghost predicate IsRun(ws: seq<World>, es: seq<Event>) {
    && |ws| == |es| + 1
    && IsInit(ws[0])
    && forall i: nat {:trigger es[i]} :: i < |es| ==> IsStep(ws, es, i)
  }
}
