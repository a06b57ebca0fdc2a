/** The delivery worker (src/worker/fanout.ts): one transaction claims, delivers, and records a batch. */
module Fanout {
  import opened Types
  import opened Outbox

  const BACKOFF_MINUTES: seq<int> := [2, 5, 10, 20, 30]
  const MAX_ATTEMPTS := 5
  const MINUTE := 60_000

  /** What an adapter call does: resolve, perhaps with a publish note, or throw. */
  datatype Outcome = Sent(note: Option<string>) | Threw(message: string)

  function Truncated(s: string, n: nat): string {
    if |s| <= n then s else s[..n]
  }

  function CleanNote(note: Option<string>): Option<string> {
    if note.Some? && note.value != "" then Some(Truncated(note.value, 200)) else None
  }

  function BackoffMinutes(attempts: nat): int
    requires attempts >= 1
  {
    BACKOFF_MINUTES[if attempts - 1 < 4 then attempts - 1 else 4]
  }

  /** The row after one adapter call in a transaction that began at `startedAt`. */
  function Attempt(d: Delivery, o: Outcome, startedAt: int, hasNote: bool): Delivery {
    var attempts := d.attempts + 1;
    match o
    case Sent(note) =>
      d.(status := Delivered, attempts := attempts, deliveredAt := Some(startedAt),
         note := if hasNote then CleanNote(note) else d.note)
    case Threw(message) =>
      d.(status := if attempts >= MAX_ATTEMPTS then Exhausted else Failed, attempts := attempts,
         lastError := Some(Truncated(message, 500)), nextAt := startedAt + BackoffMinutes(attempts) * MINUTE)
  }

  /** The row of an announcement that no longer exists. */
  function Poisoned(d: Delivery, startedAt: int): Delivery {
    d.(status := Exhausted, lastError := Some("announcement missing"), nextAt := startedAt)
  }

  predicate IsTerminal(d: Delivery) {
    d.status.Delivered? || d.status.Exhausted?
  }

  predicate IsEligible(ledger: map<LedgerKey, Delivery>, k: LedgerKey, now: int, known: set<Channel>) {
    k in ledger && !IsTerminal(ledger[k]) && ledger[k].nextAt <= now && k.target.channel in known
  }

  function NextAt(ledger: map<LedgerKey, Delivery>, k: LedgerKey): int {
    if k in ledger then ledger[k].nextAt else 0
  }

  /** The claim query: due rows no other worker holds, oldest first, at most `batch`. */
  ghost predicate IsClaim(ledger: map<LedgerKey, Delivery>, now: int, known: set<Channel>, locked: set<LedgerKey>,
                          batch: nat, due: seq<LedgerKey>)
  {
    && Distinct(due)
    && |due| <= batch
    && (forall k :: k in due ==> IsEligible(ledger, k, now, known) && k !in locked)
    && (forall i, j :: 0 <= i < j < |due| ==> NextAt(ledger, due[i]) <= NextAt(ledger, due[j]))
    && (forall k :: IsEligible(ledger, k, now, known) && k !in locked && k !in due ==>
          |due| == batch && forall j :: j in due ==> NextAt(ledger, j) <= NextAt(ledger, k))
  }

  /** An open fan-out transaction: the rows it locked, how far its loop is, and its uncommitted writes. */
  datatype Batch = Batch(
    startedAt: int, built: set<Channel>, hasNote: bool, held: seq<LedgerKey>,
    done: nat, writes: map<LedgerKey, Delivery>, delivered: nat, failed: nat)

  function Opened(now: int, built: set<Channel>, hasNote: bool, due: seq<LedgerKey>): Batch {
    Batch(now, built, hasNote, due, 0, map[], 0, 0)
  }

  /** Whether the loop's current row reaches its adapter. */
  predicate Calls(rows: map<Key, Row>, b: Batch)
    requires b.done < |b.held|
  {
    b.held[b.done].key in rows && b.held[b.done].target.channel in b.built
  }

  /** One turn of the loop. */
  function Turn(rows: map<Key, Row>, ledger: map<LedgerKey, Delivery>, b: Batch, o: Outcome): Batch
    requires b.done < |b.held| && b.held[b.done] in ledger
  {
    var k := b.held[b.done];
    var next := b.(done := b.done + 1);
    if k.key !in rows then next.(writes := b.writes[k := Poisoned(ledger[k], b.startedAt)])
    else if k.target.channel !in b.built then next
    else
      var tried := next.(writes := b.writes[k := Attempt(ledger[k], o, b.startedAt, b.hasNote)]);
      if o.Sent? then tried.(delivered := b.delivered + 1) else tried.(failed := b.failed + 1)
  }

  predicate HoldsRows(ledger: map<LedgerKey, Delivery>, b: Batch) {
    && b.done <= |b.held| && Distinct(b.held)
    && (forall k :: k in b.held ==> k in ledger)
    && (forall k :: k in b.writes ==> k in b.held[..b.done])
  }

  /** The first `n` turns of an uninterrupted batch, each call answered by `answer`. */
  function Turns(rows: map<Key, Row>, ledger: map<LedgerKey, Delivery>, b: Batch, n: nat, answer: LedgerKey -> Outcome)
    : (r: Batch)
    requires b.done + n <= |b.held| && (forall k :: k in b.held ==> k in ledger)
    ensures r.held == b.held && r.startedAt == b.startedAt && r.built == b.built && r.hasNote == b.hasNote
    ensures r.done == b.done + n
  {
    if n == 0 then b
    else
      var before := Turns(rows, ledger, b, n - 1, answer);
      Turn(rows, ledger, before, answer(b.held[b.done + n - 1]))
  }

  lemma TurnsNext(rows: map<Key, Row>, ledger: map<LedgerKey, Delivery>, b: Batch, n: nat, answer: LedgerKey -> Outcome)
    requires b.done + n < |b.held| && (forall k :: k in b.held ==> k in ledger)
    ensures Turns(rows, ledger, b, n + 1, answer) ==
            Turn(rows, ledger, Turns(rows, ledger, b, n, answer), answer(b.held[b.done + n]))
  {
  }

  /** A whole pass: what it commits to the ledger, and its counters. */
  function Pass(rows: map<Key, Row>, ledger: map<LedgerKey, Delivery>, b: Batch, answer: LedgerKey -> Outcome): Batch
    requires b.done == 0 && (forall k :: k in b.held ==> k in ledger)
  {
    Turns(rows, ledger, b, |b.held|, answer)
  }

  // ---- what a turn does -----------------------------------------------------------------------

  /** An unfinished row: fewer than five attempts behind it. */
  predicate LadderOk(d: Delivery) {
    && d.attempts <= MAX_ATTEMPTS
    && (!IsTerminal(d) ==> d.attempts < MAX_ATTEMPTS)
    && (d.status.Pending? ==> d.attempts == 0)
    && (d.status.Failed? ==> d.attempts >= 1)
    && (d.status.Delivered? ==> d.attempts >= 1 && d.deliveredAt.Some?)
  }

  /** One call counts one attempt, ends the row when it succeeds or is the fifth, and otherwise waits its backoff. */
  lemma AttemptClimbs(d: Delivery, o: Outcome, startedAt: int, hasNote: bool)
    requires LadderOk(d) && !IsTerminal(d)
    ensures var r := Attempt(d, o, startedAt, hasNote);
            && LadderOk(r) && r.attempts == d.attempts + 1
            && (r.status.Delivered? <==> o.Sent?)
            && (r.status.Exhausted? <==> o.Threw? && d.attempts == 4)
            && (r.status.Failed? ==> r.nextAt == startedAt + BACKOFF_MINUTES[d.attempts] * MINUTE
                                     && r.nextAt <= startedAt + 20 * MINUTE)
  {
  }

  /** `after` is the first `n` characters of `before`, or all of it. */
  predicate IsCut(after: string, before: string, n: nat) {
    after <= before && (|after| == n || (|after| < n && after == before))
  }

  /** What a success writes, column by column: the note as the adapter gave it, up to 200 characters. */
  lemma SuccessWrites(d: Delivery, note: Option<string>, startedAt: int, hasNote: bool)
    ensures var r := Attempt(d, Sent(note), startedAt, hasNote);
            && r.status == Delivered && r.attempts == d.attempts + 1 && r.deliveredAt == Some(startedAt)
            && r.nextAt == d.nextAt && r.lastError == d.lastError
            && (!hasNote ==> r.note == d.note)
            && (hasNote && (note == None || note == Some("")) ==> r.note == None)
            && (hasNote && note.Some? && note.value != "" ==> r.note.Some? && IsCut(r.note.value, note.value, 200))
  {
  }

  /** What a failure writes: the message, up to 500 characters, and the wait its attempt calls for. */
  lemma FailureWrites(d: Delivery, message: string, startedAt: int, hasNote: bool)
    ensures var r := Attempt(d, Threw(message), startedAt, hasNote);
            && r.attempts == d.attempts + 1 && r.deliveredAt == d.deliveredAt && r.note == d.note
            && (r.status == Exhausted <==> d.attempts >= 4) && (r.status == Failed <==> d.attempts < 4)
            && r.lastError.Some? && IsCut(r.lastError.value, message, 500)
            && r.nextAt == startedAt + 60_000 * (if d.attempts == 0 then 2 else if d.attempts == 1 then 5
                                                 else if d.attempts == 2 then 10 else if d.attempts == 3 then 20
                                                 else 30)
  {
  }

  /**
   * One turn of the loop: a row whose announcement is missing is given up without a call, a row without an adapter
   * is left as it is, and any other row is tried and counted.
   */
  lemma TurnWrites(rows: map<Key, Row>, ledger: map<LedgerKey, Delivery>, b: Batch, o: Outcome)
    requires b.done < |b.held| && b.held[b.done] in ledger
    ensures var k, r := b.held[b.done], Turn(rows, ledger, b, o);
            var d := ledger[k];
            && r == b.(done := b.done + 1, writes := r.writes, delivered := r.delivered, failed := r.failed)
            && (k.key !in rows ==>
                  && r.writes == b.writes[k := Delivery(Exhausted, d.attempts, b.startedAt,
                                                        Some("announcement missing"), d.deliveredAt, d.note)]
                  && r.delivered == b.delivered && r.failed == b.failed)
            && (k.key in rows && k.target.channel !in b.built ==>
                  r.writes == b.writes && r.delivered == b.delivered && r.failed == b.failed)
            && (k.key in rows && k.target.channel in b.built ==>
                  && r.writes == b.writes[k := Attempt(d, o, b.startedAt, b.hasNote)]
                  && r.delivered == b.delivered + (if o.Sent? then 1 else 0)
                  && r.failed == b.failed + (if o.Sent? then 0 else 1))
  {
    hide Attempt;
  }

  /** The rows of `tried` whose adapter call ends as `sent` says. */
  ghost function Ended(rows: map<Key, Row>, built: set<Channel>, tried: set<LedgerKey>, answer: LedgerKey -> Outcome,
                       sent: bool): set<LedgerKey>
  {
    set k | k in tried && k.key in rows && k.target.channel in built && answer(k).Sent? == sent
  }

  lemma EndedNext(rows: map<Key, Row>, built: set<Channel>, tried: set<LedgerKey>, k: LedgerKey,
                  answer: LedgerKey -> Outcome, sent: bool)
    requires k !in tried
    ensures var calls := k.key in rows && k.target.channel in built && answer(k).Sent? == sent;
            |Ended(rows, built, tried + {k}, answer, sent)|
            == |Ended(rows, built, tried, answer, sent)| + (if calls then 1 else 0)
  {
    var before, after := Ended(rows, built, tried, answer, sent), Ended(rows, built, tried + {k}, answer, sent);
    if k in after {
      assert after == before + {k};
    } else {
      assert after == before;
    }
  }

  function Elements(keys: seq<LedgerKey>): (r: set<LedgerKey>)
    ensures forall k :: k in r <==> k in keys
  {
    set k | k in keys
  }

  /** What the turns over `tried` have written: each row they reached once, and nothing else. */
  ghost predicate WroteEach(rows: map<Key, Row>, ledger: map<LedgerKey, Delivery>, b: Batch, tried: set<LedgerKey>,
                            answer: LedgerKey -> Outcome, writes: map<LedgerKey, Delivery>)
    requires forall k :: k in tried ==> k in ledger
  {
    && (forall k :: k in writes <==> k in tried && (k.key !in rows || k.target.channel in b.built))
    && (forall k :: k in writes ==>
          writes[k] == if k.key in rows then Attempt(ledger[k], answer(k), b.startedAt, b.hasNote)
                       else Poisoned(ledger[k], b.startedAt))
  }

  /** What the turns over `tried` have counted. */
  ghost predicate CountedEach(rows: map<Key, Row>, b: Batch, tried: set<LedgerKey>, answer: LedgerKey -> Outcome,
                              r: Batch)
  {
    && r.delivered == |Ended(rows, b.built, tried, answer, true)|
    && r.failed == |Ended(rows, b.built, tried, answer, false)|
  }

  lemma WroteNext(rows: map<Key, Row>, ledger: map<LedgerKey, Delivery>, b: Batch, tried: set<LedgerKey>,
                  answer: LedgerKey -> Outcome, r: Batch)
    requires r.done < |b.held| && b.held[r.done] !in tried && forall k :: k in b.held || k in tried ==> k in ledger
    requires r == b.(done := r.done, writes := r.writes, delivered := r.delivered, failed := r.failed)
    requires WroteEach(rows, ledger, b, tried, answer, r.writes)
    ensures var k := b.held[r.done];
            WroteEach(rows, ledger, b, tried + {k}, answer, Turn(rows, ledger, r, answer(k)).writes)
  {
    hide Attempt, Poisoned;
  }

  lemma CountedNext(rows: map<Key, Row>, ledger: map<LedgerKey, Delivery>, b: Batch, tried: set<LedgerKey>,
                    answer: LedgerKey -> Outcome, r: Batch)
    requires r.done < |b.held| && b.held[r.done] !in tried && b.held[r.done] in ledger
    requires r == b.(done := r.done, writes := r.writes, delivered := r.delivered, failed := r.failed)
    requires CountedEach(rows, b, tried, answer, r)
    ensures var k := b.held[r.done];
            CountedEach(rows, b, tried + {k}, answer, Turn(rows, ledger, r, answer(k)))
  {
    hide Attempt, Poisoned, Ended;
    EndedNext(rows, b.built, tried, b.held[r.done], answer, true);
    EndedNext(rows, b.built, tried, b.held[r.done], answer, false);
  }

  lemma NothingEach(rows: map<Key, Row>, ledger: map<LedgerKey, Delivery>, b: Batch, answer: LedgerKey -> Outcome)
    requires b.writes == map[] && b.delivered == b.failed == 0
    ensures WroteEach(rows, ledger, b, {}, answer, b.writes) && CountedEach(rows, b, {}, answer, b)
    ensures Elements(b.held[..0]) == {}
  {
  }

  lemma TurnAdvances(rows: map<Key, Row>, ledger: map<LedgerKey, Delivery>, b: Batch, o: Outcome)
    requires b.done < |b.held| && b.held[b.done] in ledger
    ensures var r := Turn(rows, ledger, b, o);
            r == b.(done := b.done + 1, writes := r.writes, delivered := r.delivered, failed := r.failed)
  {
    hide Attempt, Poisoned;
  }

  lemma NextIsUntried(held: seq<LedgerKey>, n: nat)
    requires n < |held| && Distinct(held)
    ensures Elements(held[..n + 1]) == Elements(held[..n]) + {held[n]} && held[n] !in held[..n]
  {
    assert held[..n + 1] == held[..n] + [held[n]];
  }

  /** A pass tries each claimed row at most once, writes what its call ended in, and counts the calls. */
  lemma {:induction false} TurnsWriteEach(rows: map<Key, Row>, ledger: map<LedgerKey, Delivery>, b: Batch, n: nat,
                                          answer: LedgerKey -> Outcome)
    requires b.done == 0 && b.writes == map[] && b.delivered == b.failed == 0 && Distinct(b.held)
    requires n <= |b.held| && forall k :: k in b.held ==> k in ledger
    ensures var r := Turns(rows, ledger, b, n, answer);
            && r == b.(done := n, writes := r.writes, delivered := r.delivered, failed := r.failed)
            && WroteEach(rows, ledger, b, Elements(b.held[..n]), answer, r.writes)
            && CountedEach(rows, b, Elements(b.held[..n]), answer, r)
  {
    hide Attempt, Poisoned, Distinct, Turn, Turns, WroteEach, CountedEach, Elements, Ended;
    if n == 0 {
      NothingEach(rows, ledger, b, answer);
      NoTurns(rows, ledger, b, answer);
    } else {
      var before := Turns(rows, ledger, b, n - 1, answer);
      TurnsWriteEach(rows, ledger, b, n - 1, answer);
      TurnsNext(rows, ledger, b, n - 1, answer);
      NextIsUntried(b.held, n - 1);
      WroteNext(rows, ledger, b, Elements(b.held[..n - 1]), answer, before);
      CountedNext(rows, ledger, b, Elements(b.held[..n - 1]), answer, before);
      TurnAdvances(rows, ledger, before, answer(b.held[n - 1]));
    }
  }

  // ---- the work that is left ------------------------------------------------------------------

  function Left(d: Delivery): nat {
    if IsTerminal(d) || d.attempts >= MAX_ATTEMPTS then 0 else MAX_ATTEMPTS - d.attempts
  }

  /** The sum of (5 − attempts) over the unfinished rows among `keys`. */
  ghost function LeftOver(ledger: map<LedgerKey, Delivery>, keys: set<LedgerKey>): nat
    requires keys <= ledger.Keys
  {
    if keys == {} then 0
    else
      var k :| k in keys;
      Left(ledger[k]) + LeftOver(ledger, keys - {k})
  }

  ghost function Potential(ledger: map<LedgerKey, Delivery>): nat {
    LeftOver(ledger, ledger.Keys)
  }

  lemma {:induction false} LeftOverPick(ledger: map<LedgerKey, Delivery>, keys: set<LedgerKey>, k: LedgerKey)
    requires keys <= ledger.Keys && k in keys
    ensures LeftOver(ledger, keys) == Left(ledger[k]) + LeftOver(ledger, keys - {k})
  {
    var j :| j in keys && LeftOver(ledger, keys) == Left(ledger[j]) + LeftOver(ledger, keys - {j});
    if j != k {
      LeftOverPick(ledger, keys - {j}, k);
      LeftOverPick(ledger, keys - {k}, j);
      assert keys - {j} - {k} == keys - {k} - {j};
    }
  }

  lemma {:induction false} LeftOverFrame(a: map<LedgerKey, Delivery>, b: map<LedgerKey, Delivery>, keys: set<LedgerKey>)
    requires keys <= a.Keys && keys <= b.Keys
    requires forall k :: k in keys ==> a[k] == b[k]
    ensures LeftOver(a, keys) == LeftOver(b, keys)
  {
    if keys != {} {
      var k :| k in keys;
      LeftOverPick(a, keys, k);
      LeftOverPick(b, keys, k);
      LeftOverFrame(a, b, keys - {k});
    }
  }

  lemma PotentialUpdate(ledger: map<LedgerKey, Delivery>, k: LedgerKey, d: Delivery)
    requires k in ledger
    ensures Potential(ledger[k := d]) + Left(ledger[k]) == Potential(ledger) + Left(d)
  {
    var after := ledger[k := d];
    assert after.Keys == ledger.Keys;
    LeftOverPick(ledger, ledger.Keys, k);
    LeftOverPick(after, ledger.Keys, k);
    LeftOverFrame(ledger, after, ledger.Keys - {k});
  }

  lemma MergeLast(ledger: map<LedgerKey, Delivery>, writes: map<LedgerKey, Delivery>, k: LedgerKey)
    requires k in writes
    ensures (writes - {k}).Keys == writes.Keys - {k} && |writes - {k}| + 1 == |writes|
    ensures ledger + writes == (ledger + (writes - {k}))[k := writes[k]]
  {
    var rest := writes - {k};
    assert rest.Keys == writes.Keys - {k};
    assert |rest.Keys| == |rest| && |writes.Keys| == |writes|;
  }

  /** If every row that changed has at least one attempt less to go, the total falls by at least that many. */
  lemma {:induction false} WritesSpend(ledger: map<LedgerKey, Delivery>, writes: map<LedgerKey, Delivery>)
    requires writes.Keys <= ledger.Keys
    requires forall k :: k in writes ==> Left(writes[k]) < Left(ledger[k])
    ensures Potential(ledger + writes) + |writes| <= Potential(ledger)
    decreases |writes|
  {
    if |writes| == 0 {
      assert ledger + writes == ledger;
    } else {
      var k :| k in writes.Keys;
      var rest := writes - {k};
      MergeLast(ledger, writes, k);
      WritesSpend(ledger, rest);
      var a := ledger + rest;
      assert k in a && a[k] == ledger[k];
      PotentialUpdate(a, k, writes[k]);
    }
  }

  // ---- a whole pass ---------------------------------------------------------------------------

  predicate LedgerClimbs(ledger: map<LedgerKey, Delivery>) {
    forall k :: k in ledger ==> LadderOk(ledger[k])
  }

  predicate IsOpen(rows: map<Key, Row>, ledger: map<LedgerKey, Delivery>, b: Batch)
    requires forall k :: k in b.held ==> k in ledger
  {
    forall k :: k in b.held ==> !IsTerminal(ledger[k]) && ledger[k].nextAt <= b.startedAt && k.key in rows
  }

  /** Which of the rows the loop has reached were written. */
  predicate ReachesBuilt(b: Batch)
    requires b.done <= |b.held|
  {
    forall i :: 0 <= i < b.done ==> (b.held[i] in b.writes <==> b.held[i].target.channel in b.built)
  }

  predicate IsTry(ledger: map<LedgerKey, Delivery>, b: Batch, k: LedgerKey, o: Outcome)
    requires k in b.writes && k in ledger
  {
    b.writes[k] == Attempt(ledger[k], o, b.startedAt, b.hasNote)
  }

  /** What the uncommitted writes of an open batch are. */
  ghost predicate WritesOk(rows: map<Key, Row>, ledger: map<LedgerKey, Delivery>, b: Batch) {
    && HoldsRows(ledger, b)
    && IsOpen(rows, ledger, b)
    && ReachesBuilt(b)
    && (forall k :: k in b.writes ==> k in ledger && exists o :: IsTry(ledger, b, k, o))
  }

  lemma WritesHold(rows: map<Key, Row>, ledger: map<LedgerKey, Delivery>, b: Batch)
    requires WritesOk(rows, ledger, b)
    ensures forall k :: k in b.held ==> k in ledger
  {
  }

  lemma TurnHolds(rows: map<Key, Row>, ledger: map<LedgerKey, Delivery>, b: Batch, o: Outcome)
    requires HoldsRows(ledger, b) && b.done < |b.held|
    ensures HoldsRows(ledger, Turn(rows, ledger, b, o))
  {
    hide Attempt, Poisoned, Distinct;
    assert b.held[..b.done + 1] == b.held[..b.done] + [b.held[b.done]];
  }

  lemma TurnIsAttempt(rows: map<Key, Row>, ledger: map<LedgerKey, Delivery>, b: Batch, o: Outcome)
    requires WritesOk(rows, ledger, b) && b.done < |b.held|
    ensures var k, r := b.held[b.done], Turn(rows, ledger, b, o);
            && k in ledger && k !in b.writes
            && r.held == b.held && r.done == b.done + 1 && r.startedAt == b.startedAt && r.built == b.built
            && r.hasNote == b.hasNote
            && r.writes == if k.target.channel in b.built
              then b.writes[k := Attempt(ledger[k], o, b.startedAt, b.hasNote)]
                           else b.writes
  {
    hide Attempt, Poisoned;
    assert b.held[b.done] in b.held && b.held[b.done] !in b.held[..b.done];
  }

  /** What a batch wrote depends only on the rows it holds. */
  lemma WritesFrame(rows: map<Key, Row>, ledger: map<LedgerKey, Delivery>, rows': map<Key, Row>,
                    ledger': map<LedgerKey, Delivery>,
                    b: Batch)
    requires WritesOk(rows, ledger, b) && rows.Keys <= rows'.Keys
    requires forall k :: k in b.held ==> k in ledger' && ledger'[k] == ledger[k]
    ensures WritesOk(rows', ledger', b)
  {
    assert forall k :: k in b.writes ==> k in b.held;
    forall k | k in b.writes ensures k in ledger' && exists o :: IsTry(ledger', b, k, o) {
      var o :| IsTry(ledger, b, k, o);
      assert IsTry(ledger', b, k, o);
    }
  }

  /** The row whose turn it is was not handled before. */
  lemma HeldApart(ledger: map<LedgerKey, Delivery>, b: Batch)
    requires HoldsRows(ledger, b) && b.done < |b.held|
    ensures forall i :: 0 <= i < b.done ==> b.held[i] != b.held[b.done]
  {
  }

  lemma TurnReachesBuilt(rows: map<Key, Row>, ledger: map<LedgerKey, Delivery>, b: Batch, o: Outcome)
    requires WritesOk(rows, ledger, b) && b.done < |b.held|
    ensures HoldsRows(ledger, Turn(rows, ledger, b, o)) && ReachesBuilt(Turn(rows, ledger, b, o))
  {
    hide Attempt, IsTry, IsOpen;
    TurnHolds(rows, ledger, b, o);
    TurnIsAttempt(rows, ledger, b, o);
    HeldApart(ledger, b);
    hide Turn, HoldsRows;
  }

  lemma TurnTries(rows: map<Key, Row>, ledger: map<LedgerKey, Delivery>, b: Batch, o: Outcome)
    requires WritesOk(rows, ledger, b) && b.done < |b.held|
    ensures var r := Turn(rows, ledger, b, o);
            forall k :: k in r.writes ==> k in ledger && exists p :: IsTry(ledger, r, k, p)
  {
    TurnIsAttempt(rows, ledger, b, o);
    var r := Turn(rows, ledger, b, o);
    hide Turn, Attempt, IsOpen, ReachesBuilt;
    forall k | k in r.writes ensures k in ledger && exists p :: IsTry(ledger, r, k, p) {
      if k == b.held[b.done] && k !in b.writes {
        assert IsTry(ledger, r, k, o);
      } else {
        assert k in b.held;
        var p :| IsTry(ledger, b, k, p);
        assert IsTry(ledger, r, k, p);
      }
    }
  }

  lemma TurnKeepsWrites(rows: map<Key, Row>, ledger: map<LedgerKey, Delivery>, b: Batch, o: Outcome)
    requires WritesOk(rows, ledger, b) && b.done < |b.held|
    ensures WritesOk(rows, ledger, Turn(rows, ledger, b, o))
  {
    hide Attempt, IsTry, ReachesBuilt;
    TurnReachesBuilt(rows, ledger, b, o);
    TurnTries(rows, ledger, b, o);
    TurnIsAttempt(rows, ledger, b, o);
    hide Turn, HoldsRows;
  }

  lemma NoTurns(rows: map<Key, Row>, ledger: map<LedgerKey, Delivery>, b: Batch, answer: LedgerKey -> Outcome)
    requires b.done <= |b.held| && (forall k :: k in b.held ==> k in ledger)
    ensures Turns(rows, ledger, b, 0, answer) == b
  {
  }

  lemma TurnsKeepWrites(rows: map<Key, Row>, ledger: map<LedgerKey, Delivery>, b: Batch, n: nat,
                        answer: LedgerKey -> Outcome)
    requires WritesOk(rows, ledger, b) && b.done + n <= |b.held|
    ensures WritesOk(rows, ledger, Turns(rows, ledger, b, n, answer))
  {
    WritesHold(rows, ledger, b);
    HeldTurnsKeepWrites(rows, ledger, b, n, answer);
  }

  lemma {:induction false} HeldTurnsKeepWrites(rows: map<Key, Row>, ledger: map<LedgerKey, Delivery>, b: Batch, n: nat,
                                               answer: LedgerKey -> Outcome)
    requires (forall k :: k in b.held ==> k in ledger) && b.done + n <= |b.held| && WritesOk(rows, ledger, b)
    ensures WritesOk(rows, ledger, Turns(rows, ledger, b, n, answer))
  {
    hide WritesOk, Turn, Turns;
    if n == 0 {
      NoTurns(rows, ledger, b, answer);
    } else {
      HeldTurnsKeepWrites(rows, ledger, b, n - 1, answer);
      TurnsNext(rows, ledger, b, n - 1, answer);
      TurnKeepsWrites(rows, ledger, Turns(rows, ledger, b, n - 1, answer), answer(b.held[b.done + n - 1]));
    }
  }

  lemma WriteClimbs(rows: map<Key, Row>, ledger: map<LedgerKey, Delivery>, b: Batch, k: LedgerKey)
    requires LedgerClimbs(ledger) && WritesOk(rows, ledger, b) && k in b.writes
    ensures k in ledger && LadderOk(b.writes[k]) && Left(b.writes[k]) < Left(ledger[k])
    ensures b.writes[k].attempts == ledger[k].attempts + 1
    ensures b.writes[k].nextAt <= b.startedAt + 20 * MINUTE || IsTerminal(b.writes[k])
  {
    assert k in b.held;
    var o :| IsTry(ledger, b, k, o);
    AttemptClimbs(ledger[k], o, b.startedAt, b.hasNote);
  }

  /** Committing a batch uses up at least one attempt per row it reached and keeps every row on the ladder. */
  lemma CommitSpends(rows: map<Key, Row>, ledger: map<LedgerKey, Delivery>, b: Batch)
    requires LedgerClimbs(ledger) && WritesOk(rows, ledger, b)
    ensures b.writes.Keys <= ledger.Keys
    ensures LedgerClimbs(ledger + b.writes)
    ensures Potential(ledger + b.writes) + |b.writes| <= Potential(ledger)
  {
    forall k | k in b.writes ensures k in ledger && LadderOk(b.writes[k]) && Left(b.writes[k]) < Left(ledger[k]) {
      WriteClimbs(rows, ledger, b, k);
    }
    WritesSpend(ledger, b.writes);
  }

  // ---- repeated passes ------------------------------------------------------------------------

  /** One uninterrupted pass: when it ran, what it claimed, how each adapter answered. */
  datatype Tick = Tick(now: int, due: seq<LedgerKey>, answer: LedgerKey -> Outcome)

  ghost predicate IsTick(rows: map<Key, Row>, before: map<LedgerKey, Delivery>, t: Tick, known: set<Channel>,
                         hasNote: bool, batch: nat, after: map<LedgerKey, Delivery>)
  {
    && IsClaim(before, t.now, known, {}, batch, t.due)
    && after == before + Pass(rows, before, Opened(t.now, known, hasNote, t.due), t.answer).writes
  }

  /** Every row has its announcement and climbs the ladder; if its channel is known and it is unfinished, it is due. */
  predicate DueBy(rows: map<Key, Row>, ledger: map<LedgerKey, Delivery>, known: set<Channel>, now: int) {
    && LedgerClimbs(ledger)
    && (forall k :: k in ledger ==> k.key in rows)
    && (forall k :: k in ledger && k.target.channel in known && !IsTerminal(ledger[k]) ==> ledger[k].nextAt <= now)
  }

  /** The rows of the channels that have adapters. */
  function Reachable(ledger: map<LedgerKey, Delivery>, known: set<Channel>): set<LedgerKey> {
    set k | k in ledger && k.target.channel in known
  }

  /** The attempts left on them. */
  ghost function LeftFor(ledger: map<LedgerKey, Delivery>, known: set<Channel>): nat {
    LeftOver(ledger, Reachable(ledger, known))
  }

  lemma {:induction false} LeftOverSplits(ledger: map<LedgerKey, Delivery>, a: set<LedgerKey>, b: set<LedgerKey>)
    requires a + b <= ledger.Keys && a !! b
    ensures LeftOver(ledger, a + b) == LeftOver(ledger, a) + LeftOver(ledger, b)
    decreases |a|
  {
    if a == {} {
      assert a + b == b;
    } else {
      var k :| k in a;
      LeftOverSplits(ledger, a - {k}, b);
      LeftOverPick(ledger, a, k);
      LeftOverPick(ledger, a + b, k);
      assert a + b - {k} == (a - {k}) + b;
    }
  }

  /** Writes to reachable rows spend what they spend on reachable rows, and leave the others as they were. */
  lemma ReachableSpend(ledger: map<LedgerKey, Delivery>, writes: map<LedgerKey, Delivery>, known: set<Channel>)
    requires writes.Keys <= ledger.Keys && forall k :: k in writes ==> k.target.channel in known
    requires Potential(ledger + writes) + |writes| <= Potential(ledger)
    ensures LeftFor(ledger + writes, known) + |writes| <= LeftFor(ledger, known)
    ensures forall k :: k in ledger && k.target.channel !in known ==> (ledger + writes)[k] == ledger[k]
  {
    var after := ledger + writes;
    var ours := Reachable(ledger, known);
    var others := ledger.Keys - ours;
    assert after.Keys == ledger.Keys && Reachable(after, known) == ours && ours + others == ledger.Keys;
    LeftOverSplits(ledger, ours, others);
    LeftOverSplits(after, ours, others);
    LeftOverFrame(ledger, after, others);
  }

  lemma ClaimOpens(rows: map<Key, Row>, ledger: map<LedgerKey, Delivery>, now: int, known: set<Channel>,
                   locked: set<LedgerKey>, batch: nat, built: set<Channel>, hasNote: bool, due: seq<LedgerKey>)
    requires IsClaim(ledger, now, known, locked, batch, due) && forall k :: k in ledger ==> k.key in rows
    ensures WritesOk(rows, ledger, Opened(now, built, hasNote, due))
  {
  }

  /** While attempts are left on reachable rows and those are due, a claim finds something. */
  lemma ClaimFindsWork(rows: map<Key, Row>, ledger: map<LedgerKey, Delivery>, now: int, known: set<Channel>,
                       batch: nat, due: seq<LedgerKey>)
    requires DueBy(rows, ledger, known, now) && IsClaim(ledger, now, known, {}, batch, due)
    requires batch >= 1 && LeftFor(ledger, known) > 0
    ensures due != []
  {
    if due == [] {
      var ours := Reachable(ledger, known);
      assert forall k :: k in ours && !IsTerminal(ledger[k]) ==> IsEligible(ledger, k, now, known);
      assert forall k :: k in ours ==> IsTerminal(ledger[k]);
      NothingDueNothingLeft(ledger, ours);
      assert false;
    }
  }

  /** After a commit every unfinished row is due by its old deadline or 20 minutes after the batch began. */
  lemma CommitWaits(rows: map<Key, Row>, ledger: map<LedgerKey, Delivery>, b: Batch, known: set<Channel>, due: int,
                    next: int)
    requires DueBy(rows, ledger, known, due) && WritesOk(rows, ledger, b)
    requires due <= next && b.startedAt + 20 * MINUTE <= next
    ensures (ledger + b.writes).Keys == ledger.Keys
    ensures DueBy(rows, ledger + b.writes, known, next)
  {
    forall k | k in b.writes
      ensures k in ledger && LadderOk(b.writes[k])
      ensures b.writes[k].nextAt <= next || IsTerminal(b.writes[k])
    {
      WriteClimbs(rows, ledger, b, k);
    }
  }

  /** Any tick spends an attempt on each row it claims, and one that claims nothing changes nothing. */
  lemma TickSpends(rows: map<Key, Row>, before: map<LedgerKey, Delivery>, t: Tick, known: set<Channel>,
                   hasNote: bool, batch: nat, after: map<LedgerKey, Delivery>, due: int, next: int)
    requires DueBy(rows, before, known, due) && IsTick(rows, before, t, known, hasNote, batch, after)
    requires due <= next && t.now + 20 * MINUTE <= next
    ensures after.Keys == before.Keys && DueBy(rows, after, known, next)
    ensures LeftFor(after, known) + |t.due| <= LeftFor(before, known)
    ensures t.due == [] ==> after == before
    ensures SameElsewhere(before, after, known)
  {
    var b := Opened(t.now, known, hasNote, t.due);
    ClaimOpens(rows, before, t.now, known, {}, batch, known, hasNote, t.due);
    TurnsKeepWrites(rows, before, b, |b.held|, t.answer);
    var r := Pass(rows, before, b, t.answer);
    CommitSpends(rows, before, r);
    WritesCoverClaim(rows, before, r);
    CommitWaits(rows, before, r, known, due, next);
    ReachableSpend(before, r.writes, known);
  }

  /** Rows of channels without an adapter are the same. */
  predicate SameElsewhere(a: map<LedgerKey, Delivery>, b: map<LedgerKey, Delivery>, known: set<Channel>) {
    forall k :: k in a && k.target.channel !in known ==> k in b && b[k] == a[k]
  }

  /** Every claimed row of a finished pass whose adapters exist is written. */
  lemma WritesCoverClaim(rows: map<Key, Row>, ledger: map<LedgerKey, Delivery>, b: Batch)
    requires WritesOk(rows, ledger, b) && b.done == |b.held|
    requires forall k :: k in b.held ==> k.target.channel in b.built
    ensures |b.writes| == |b.held|
  {
    var s := set k | k in b.held;
    assert b.held[..b.done] == b.held;
    forall k | k in b.held ensures k in b.writes {
      var i :| 0 <= i < |b.held| && b.held[i] == k;
      assert b.held[i] in b.writes;
    }
    assert b.writes.Keys == s;
    DistinctCount(b.held);
  }

  lemma {:induction false} DistinctCount(s: seq<LedgerKey>)
    requires Distinct(s)
    ensures |set k | k in s| == |s|
  {
    if s == [] {
      assert (set k | k in s) == {};
    } else {
      var init, last := s[..|s| - 1], s[|s| - 1];
      DistinctCount(init);
      assert s == init + [last];
      assert (set k | k in s) == (set k | k in init) + {last};
    }
  }

  lemma {:induction false} NothingDueNothingLeft(ledger: map<LedgerKey, Delivery>, keys: set<LedgerKey>)
    requires keys <= ledger.Keys && forall k :: k in keys ==> IsTerminal(ledger[k])
    ensures LeftOver(ledger, keys) == 0
  {
    if keys != {} {
      var k :| k in keys;
      LeftOverPick(ledger, keys, k);
      NothingDueNothingLeft(ledger, keys - {k});
    }
  }

  /** Passes in the order of a clock that never goes back, however close together. */
  ghost predicate AreTicks(rows: map<Key, Row>, ledgers: seq<map<LedgerKey, Delivery>>, ticks: seq<Tick>,
                           known: set<Channel>, hasNote: bool, batch: nat)
  {
    && |ledgers| == |ticks| + 1
    && (forall i :: 0 <= i < |ticks| ==> IsTick(rows, ledgers[i], ticks[i], known, hasNote, batch, ledgers[i + 1]))
    && (forall i, j :: 0 <= i <= j < |ticks| ==> ticks[i].now <= ticks[j].now)
  }

  /** From tick `lo` to tick `hi` nothing is lost: deadlines stay within 20 minutes of the last tick. */
  lemma {:induction false} TicksSpend(rows: map<Key, Row>, ledgers: seq<map<LedgerKey, Delivery>>, ticks: seq<Tick>,
                                      known: set<Channel>, hasNote: bool, batch: nat, lo: nat, hi: nat, due: int,
                                      next: int)
    requires AreTicks(rows, ledgers, ticks, known, hasNote, batch) && lo <= hi <= |ticks|
    requires DueBy(rows, ledgers[lo], known, due) && due <= next
             && (hi > lo ==> ticks[hi - 1].now + 20 * MINUTE <= next)
    ensures ledgers[hi].Keys == ledgers[lo].Keys && DueBy(rows, ledgers[hi], known, next)
    ensures LeftFor(ledgers[hi], known) <= LeftFor(ledgers[lo], known)
    ensures LeftFor(ledgers[hi], known) == LeftFor(ledgers[lo], known) ==> ledgers[hi] == ledgers[lo]
    ensures SameElsewhere(ledgers[lo], ledgers[hi], known)
  {
    hide DueBy, IsTick, LeftFor;
    if hi > lo {
      if hi - 1 > lo {
        assert ticks[hi - 2].now <= ticks[hi - 1].now;
      }
      TicksSpend(rows, ledgers, ticks, known, hasNote, batch, lo, hi - 1, due, next);
      assert IsTick(rows, ledgers[hi - 1], ticks[hi - 1], known, hasNote, batch, ledgers[hi - 1 + 1]);
      TickSpends(rows, ledgers[hi - 1], ticks[hi - 1], known, hasNote, batch, ledgers[hi], next, next);
    } else {
      DueLater(rows, ledgers[lo], known, due, next);
    }
  }

  lemma DueLater(rows: map<Key, Row>, ledger: map<LedgerKey, Delivery>, known: set<Channel>, due: int, next: int)
    requires DueBy(rows, ledger, known, due) && due <= next
    ensures DueBy(rows, ledger, known, next)
  {
  }

  /**
   * Once every row is due by tick `mark`, an attempt has been spent by then: by a tick in between, or by
   * this one.
   */
  lemma MarkSpends(rows: map<Key, Row>, ledgers: seq<map<LedgerKey, Delivery>>, ticks: seq<Tick>, known: set<Channel>,
                   hasNote: bool, batch: nat, lo: nat, mark: nat, due: int)
    requires AreTicks(rows, ledgers, ticks, known, hasNote, batch) && batch >= 1 && lo <= mark < |ticks|
    requires DueBy(rows, ledgers[lo], known, due) && due <= ticks[mark].now
    ensures ledgers[mark + 1].Keys == ledgers[lo].Keys
    ensures DueBy(rows, ledgers[mark + 1], known, ticks[mark].now + 20 * MINUTE)
    ensures LeftFor(ledgers[lo], known) == 0 || LeftFor(ledgers[mark + 1], known) < LeftFor(ledgers[lo], known)
    ensures LeftFor(ledgers[mark + 1], known) <= LeftFor(ledgers[lo], known)
  {
    hide DueBy, IsTick, LeftFor;
    var next := ticks[mark].now + 20 * MINUTE;
    TicksSpend(rows, ledgers, ticks, known, hasNote, batch, lo, mark, due, next);
    TicksSpend(rows, ledgers, ticks, known, hasNote, batch, lo, mark + 1, due, next);
    var t := ticks[mark];
    assert IsTick(rows, ledgers[mark], t, known, hasNote, batch, ledgers[mark + 1]);
    TickSpends(rows, ledgers[mark], t, known, hasNote, batch, ledgers[mark + 1], next, next);
    if ledgers[mark] == ledgers[lo] && LeftFor(ledgers[lo], known) > 0 {
      DueLater(rows, ledgers[lo], known, due, t.now);
      TickClaims(rows, ledgers[mark], t, known, hasNote, batch, ledgers[mark + 1]);
    }
  }

  /** A tick at which everything unfinished is due claims something. */
  lemma TickClaims(rows: map<Key, Row>, before: map<LedgerKey, Delivery>, t: Tick, known: set<Channel>,
                   hasNote: bool, batch: nat, after: map<LedgerKey, Delivery>)
    requires DueBy(rows, before, known, t.now) && batch >= 1 && LeftFor(before, known) > 0
    requires IsTick(rows, before, t, known, hasNote, batch, after)
    ensures |t.due| > 0
  {
    ClaimFindsWork(rows, before, t.now, known, batch, t.due);
  }

  /** Some of the ticks, each at least 20 minutes after the one before it. */
  predicate AreMarks(ticks: seq<Tick>, marks: seq<nat>) {
    && (forall j :: 0 <= j < |marks| ==> marks[j] < |ticks|)
    && (forall j :: 0 < j < |marks| ==>
          marks[j - 1] < marks[j] && ticks[marks[j - 1]].now + 20 * MINUTE <= ticks[marks[j]].now)
  }

  lemma {:induction false} MarksSpend(rows: map<Key, Row>, ledgers: seq<map<LedgerKey, Delivery>>, ticks: seq<Tick>,
                                      marks: seq<nat>, known: set<Channel>, hasNote: bool, batch: nat, due: int, n: nat)
    requires AreTicks(rows, ledgers, ticks, known, hasNote, batch) && batch >= 1 && AreMarks(ticks, marks)
    requires n < |marks| && DueBy(rows, ledgers[0], known, due) && due <= ticks[marks[0]].now
    ensures var after := ledgers[marks[n] + 1];
            && after.Keys == ledgers[0].Keys && DueBy(rows, after, known, ticks[marks[n]].now + 20 * MINUTE)
            && (LeftFor(after, known) == 0 || LeftFor(after, known) + n + 1 <= LeftFor(ledgers[0], known))
  {
    hide DueBy, IsTick, LeftFor;
    if n == 0 {
      MarkSpends(rows, ledgers, ticks, known, hasNote, batch, 0, marks[0], due);
    } else {
      MarksSpend(rows, ledgers, ticks, marks, known, hasNote, batch, due, n - 1);
      MarkSpends(rows, ledgers, ticks, known, hasNote, batch, marks[n - 1] + 1, marks[n],
                 ticks[marks[n - 1]].now + 20 * MINUTE);
    }
  }

  /** Every row of a channel with an adapter is finished; the others are as they were. */
  predicate Drained(before: map<LedgerKey, Delivery>, after: map<LedgerKey, Delivery>, known: set<Channel>) {
    && (forall k :: k in before && k.target.channel in known ==> k in after && IsTerminal(after[k]))
    && SameElsewhere(before, after, known)
  }

  lemma NothingLeftReachable(rows: map<Key, Row>, ledger: map<LedgerKey, Delivery>, known: set<Channel>, due: int)
    requires DueBy(rows, ledger, known, due) && LeftFor(ledger, known) == 0
    ensures forall k :: k in ledger && k.target.channel in known ==> IsTerminal(ledger[k])
  {
    forall k | k in ledger && k.target.channel in known ensures IsTerminal(ledger[k]) {
      LeftOverPick(ledger, Reachable(ledger, known), k);
    }
  }

  /**
   * Ticks at any cadence finish every delivery of a channel that has an adapter, whatever the adapters answer,
   * once as many of them as there are attempts left lie at least one longest wait apart; deliveries of other
   * channels stay as they are.
   */
  lemma TicksDrainTheOutbox(rows: map<Key, Row>, ledgers: seq<map<LedgerKey, Delivery>>, ticks: seq<Tick>,
                            marks: seq<nat>, known: set<Channel>, hasNote: bool, batch: nat, due: int)
    requires AreTicks(rows, ledgers, ticks, known, hasNote, batch) && batch >= 1 && AreMarks(ticks, marks)
    requires DueBy(rows, ledgers[0], known, due) && (marks != [] ==> due <= ticks[marks[0]].now)
    requires |marks| >= LeftFor(ledgers[0], known)
    ensures Drained(ledgers[0], ledgers[|ticks|], known)
  {
    hide IsTick, DueBy, LeftFor;
    var lo, last := 0, due;
    if marks != [] {
      var n := |marks| - 1;
      MarksSpend(rows, ledgers, ticks, marks, known, hasNote, batch, due, n);
      lo, last := marks[n] + 1, ticks[marks[n]].now + 20 * MINUTE;
    }
    var next := if |ticks| > 0 && last < ticks[|ticks| - 1].now + 20 * MINUTE
                then ticks[|ticks| - 1].now + 20 * MINUTE else last;
    TicksSpend(rows, ledgers, ticks, known, hasNote, batch, lo, |ticks|, last, next);
    TicksSpend(rows, ledgers, ticks, known, hasNote, batch, 0, |ticks|, due, if next < due then due else next);
    NothingLeftReachable(rows, ledgers[|ticks|], known, next);
  }

  /** The worker's own cadence: a tick every `step` milliseconds from `start`. */
  predicate IsSteady(ticks: seq<Tick>, start: int, step: nat) {
    forall i :: 0 <= i < |ticks| ==> ticks[i].now == start + i * step
  }

  function EveryNth(stride: nat, n: nat): (marks: seq<nat>)
    ensures |marks| == n && forall j :: 0 <= j < n ==> marks[j] == j * stride
  {
    seq(n, (j: nat) => j * stride)
  }

  /** Multiplication, one stride on. */
  lemma OneStride(j: nat, stride: nat, step: nat, n: nat, length: nat)
    requires j < n && n * stride <= length && stride > 0
    ensures j * stride < length
    ensures j > 0 ==> (j - 1) * stride < j * stride && (j * stride) * step == ((j - 1) * stride) * step + stride * step
  {
    assert (j + 1) * stride <= n * stride;
    if j > 0 {
      var m := (j - 1) * stride;
      assert j * stride == m + stride;
      assert (m + stride) * step == m * step + stride * step;
    }
  }

  lemma SteadyMarks(ticks: seq<Tick>, start: int, step: nat, stride: nat, n: nat)
    requires IsSteady(ticks, start, step) && stride > 0 && stride * step >= 20 * MINUTE && n * stride <= |ticks|
    ensures AreMarks(ticks, EveryNth(stride, n))
    ensures n > 0 ==> EveryNth(stride, n)[0] == 0 < |ticks| && ticks[0].now == start
  {
    var marks := EveryNth(stride, n);
    forall j: nat | j < n ensures marks[j] < |ticks| {
      OneStride(j, stride, step, n, |ticks|);
    }
    forall j: nat | 0 < j < n
      ensures marks[j - 1] < marks[j] && ticks[marks[j - 1]].now + 20 * MINUTE <= ticks[marks[j]].now
    {
      SteadyGap(ticks, start, step, stride, n, j);
    }
  }

  lemma SteadyGap(ticks: seq<Tick>, start: int, step: nat, stride: nat, n: nat, j: nat)
    requires IsSteady(ticks, start, step) && stride > 0 && stride * step >= 20 * MINUTE && n * stride <= |ticks|
    requires 0 < j < n
    ensures (j - 1) * stride < j * stride < |ticks|
    ensures ticks[(j - 1) * stride].now + 20 * MINUTE <= ticks[j * stride].now
  {
    OneStride(j, stride, step, n, |ticks|);
    var a, b := (j - 1) * stride, j * stride;
    assert ticks[a].now == start + a * step && ticks[b].now == start + b * step;
  }

  /**
   * Ticks every 15 seconds, say, drain the outbox: when `stride` of them span 20 minutes, `stride` ticks for
   * every attempt left are enough.
   */
  lemma SteadyTicksDrainTheOutbox(rows: map<Key, Row>, ledgers: seq<map<LedgerKey, Delivery>>, ticks: seq<Tick>,
                                  known: set<Channel>, hasNote: bool, batch: nat, start: int, step: nat, stride: nat)
    requires AreTicks(rows, ledgers, ticks, known, hasNote, batch) && batch >= 1 && IsSteady(ticks, start, step)
    requires DueBy(rows, ledgers[0], known, start)
    requires stride > 0 && stride * step >= 20 * MINUTE && |ticks| >= LeftFor(ledgers[0], known) * stride
    ensures Drained(ledgers[0], ledgers[|ticks|], known)
  {
    hide IsTick, DueBy, LeftFor, Drained, IsSteady, AreMarks;
    SteadyMarks(ticks, start, step, stride, LeftFor(ledgers[0], known));
    TicksDrainTheOutbox(rows, ledgers, ticks, EveryNth(stride, LeftFor(ledgers[0], known)), known, hasNote, batch,
                        start);
  }
}
