/** Subscribe and register calls that lose a race for an address, over all runs of interleaved calls. */
module SubscriptionRaces {
  import opened Types
  import opened Text
  import opened Subscriptions
  import opened SubscriptionWorld
  import opened SubscriptionRuns

  // ---- one call, statement by statement ---------------------------------------------------------

  lemma StepsFrom(es: seq<Event>, c: nat, n: nat)
    requires n <= |es| && StepsOf(es, c, n) != []
    ensures n < |es|
    ensures var steps, rest := StepsOf(es, c, n), StepsOf(es, c, n + 1);
            if es[n].Step? && es[n].call == c then steps[0] == n && steps[1..] == rest else steps == rest
  {
  }

  /** A step of the run that does not execute a statement of the call. */
  lemma WaitsOrGivenUp(ws: seq<World>, es: seq<Event>, c: nat, n: nat)
    requires IsRun(ws, es) && n < |es| && c in ws[n].calls && !(es[n].Step? && es[n].call == c)
    ensures c in ws[n + 1].calls
    ensures if es[n] == Abandon(c) then ws[n + 1].calls[c].at.Done? else ws[n + 1].calls[c] == ws[n].calls[c]
  {
    hide IsRun, WorldOk, Statement, TableOk, IsFresh, Issues, Grows, Fits;
    SameLength(ws, es);
    RunStep(ws, es, n);
  }

  lemma ExecutesNow(ws: seq<World>, es: seq<Event>, c: nat, n: nat)
    requires IsRun(ws, es) && n < |es| && c in ws[n].calls && es[n].Step? && es[n].call == c
    ensures Executes(ws, es, n, c)
  {
    hide IsRun, WorldOk, Statement, TableOk, IsFresh, Issues, Grows, Fits;
    SameLength(ws, es);
    RunStep(ws, es, n);
  }

  /** A call waits at its statement until it executes it, or is given up. */
  lemma {:induction false} FirstStep(ws: seq<World>, es: seq<Event>, c: nat, n: nat)
    requires IsRun(ws, es) && n <= |es| && c in ws[n].calls && StepsOf(es, c, n) != []
    ensures var k := StepsOf(es, c, n)[0];
            && Executes(ws, es, k, c) && ws[k].calls[c] == ws[n].calls[c]
            && StepsOf(es, c, n)[1..] == StepsOf(es, c, k + 1)
    decreases |es| - n
  {
    hide IsRun, StepsOf, CanStep;
    SameLength(ws, es);
    StepsFrom(es, c, n);
    if es[n].Step? && es[n].call == c {
      ExecutesNow(ws, es, c, n);
    } else {
      WaitsOrGivenUp(ws, es, c, n);
      if es[n] == Abandon(c) {
        NoStepsWhenDone(ws, es, n + 1, c);
      } else {
        FirstStep(ws, es, c, n + 1);
      }
    }
  }

  /** A call without further statements stays where it is, or is given up. */
  lemma {:induction false} NoMoreSteps(ws: seq<World>, es: seq<Event>, c: nat, n: nat)
    requires IsRun(ws, es) && n <= |es| && c in ws[n].calls && StepsOf(es, c, n) == []
    ensures c in ws[|es|].calls && ws[|es|].calls[c].request == ws[n].calls[c].request
    ensures ws[|es|].calls[c].at == ws[n].calls[c].at || ws[|es|].calls[c].at == Done(Threw)
    decreases |es| - n
  {
    hide IsRun, WorldOk, Statement, TableOk, IsFresh, Issues, Grows, Fits;
    SameLength(ws, es);
    if n < |es| {
      RunStep(ws, es, n);
      NoMoreSteps(ws, es, c, n + 1);
    }
  }

  /** What executing a statement does to the call and to the clockless rest of the world. */
  lemma StepLeads(ws: seq<World>, es: seq<Event>, k: nat, c: nat)
    requires IsRun(ws, es) && Executes(ws, es, k, c)
    ensures WorldOk(ws[k]) && c in ws[k + 1].calls && ws[k + 1].calls[c].request == ws[k].calls[c].request
    ensures var f := ws[k].calls[c];
            ws[k + 1].calls[c].at == Statement(ws[k].db, f.request, f.at, es[k].draw, es[k].ok).1
  {
    hide IsRun, WorldOk, Statement, TableOk, IsFresh, Issues, Grows, Fits;
    SameLength(ws, es);
    RunStep(ws, es, k);
  }

  /** With fresh names the only unique key an insert can meet is the address. */
  lemma ConflictIsTheAddress(w: World, channel: Channel, endpoint: string, patch: FilterPatch, d: Draw)
    requires WorldOk(w) && TableOk(w.db.rows) && IsFresh(d, w.issued)
    ensures IsTaken(w.db.rows, NewSubscription(channel, endpoint, patch, d, w.db.now)) <==>
            ByEndpoint(w.db.rows, channel, endpoint).Some?
  {
    hide WorldOk, Patched;
    forall i | i in w.db.rows ensures i != d.id && w.db.rows[i].unsubscribeToken != d.unsubscribeToken
                                      && w.db.rows[i].verifyToken != Some(d.verifyToken)
    {
      RowIsOkIn(w, i);
    }
  }

  // ---- subscribe calls that end in "already exists" ---------------------------------------------

  /** At the `j`-th statement of the steps, the address has a row. */
  predicate RowThere(ws: seq<World>, steps: seq<nat>, channel: Channel, endpoint: string, j: nat) {
    j < |steps| && steps[j] < |ws| && TableOk(ws[steps[j]].db.rows)
    && ByEndpoint(ws[steps[j]].db.rows, channel, endpoint).Some?
  }

  function Replies(ws: seq<World>, steps: seq<nat>, channel: Channel, endpoint: string): nat -> bool {
    (j: nat) => RowThere(ws, steps, channel, endpoint, j)
  }

  predicate InRetry(p: Point) {
    p.Finding? || p.Inserting? || p.Refinding? || p.LastInserting?
  }

  /** Statements of a subscribe call that has left its retry for good. */
  predicate HasLeft(p: Point) {
    p.Proposing? || p.Reissuing? || p.Posting? || p.Patching? || (p.Done? && p.reply != AlreadyExists)
  }

  lemma LeavingLeads(s: State, q: Request, p: Point, d: Draw, ok: bool)
    requires TableOk(s.rows) && q.Subscribe? && Fits(q, p) && HasLeft(p) && !p.Done?
    requires forall id :: !VerifyTaken(s.rows, id, d.freshToken) && !PendingTaken(s.rows, id, d.freshToken)
    ensures HasLeft(Statement(s, q, p, d, ok).1)
  {
    hide TableOk, ByEndpoint, IsTaken, VerifyTaken, PendingTaken, HasEmptyList, Address, PatchOf;
  }

  /** Once it has left its retry, it does not end in "already exists". */
  lemma {:induction false} LeftForGood(ws: seq<World>, es: seq<Event>, c: nat, n: nat)
    requires IsRun(ws, es) && n <= |es| && c in ws[n].calls && ws[n].calls[c].request.Subscribe?
    requires HasLeft(ws[n].calls[c].at)
    ensures c in ws[|es|].calls && HasLeft(ws[|es|].calls[c].at)
    decreases |es| - n
  {
    hide IsRun, WorldOk, Statement, TableOk, IsFresh, Issues, Grows, Fits, VerifyTaken, PendingTaken;
    SameLength(ws, es);
    if n < |es| {
      RunStep(ws, es, n);
      if es[n].Step? && es[n].call == c {
        forall id
          ensures !VerifyTaken(ws[n].db.rows, id, es[n].draw.freshToken)
                  && !PendingTaken(ws[n].db.rows, id, es[n].draw.freshToken)
        {
          FreshIsNotHeld(ws[n], id, es[n].draw);
        }
        LeavingLeads(ws[n].db, ws[n].calls[c].request, ws[n].calls[c].at, es[n].draw, es[n].ok);
      }
      LeftForGood(ws, es, c, n + 1);
    }
  }

  /** Where a statement of the retry leads, by whether it meets a row. */
  lemma RetryLeads(w: World, q: Request, p: Point, d: Draw, ok: bool)
    requires WorldOk(w) && TableOk(w.db.rows) && IsFresh(d, w.issued) && q.Subscribe? && Fits(q, p) && InRetry(p)
    ensures var next := Statement(w.db, q, p, d, ok).1;
            var seen := ByEndpoint(w.db.rows, Email, Address(q.email)).Some?;
            var empty := HasEmptyList(PatchOf(q.filters));
            if p.LastInserting? then
              if seen && !empty then next == Done(AlreadyExists) else HasLeft(next)
            else if p.Inserting? && empty then HasLeft(next)
            else
              match Branch(p, seen)
              case Some(after) => next == after
              case None => HasLeft(next)
  {
    hide WorldOk, TableOk, IsTaken, HasEmptyList, PatchOf, Address, ByEndpoint, NewSubscription, IsFresh;
    ConflictIsTheAddress(w, Email, Address(q.email), PatchOf(q.filters), d);
  }

  /** From a point of the retry on, the call fails as the replies its own statements meet say. */
  lemma {:induction false} FailsAsFollowed(ws: seq<World>, es: seq<Event>, c: nat, steps: seq<nat>, n: nat, i: nat,
                                           q: Request, p: Point)
    requires IsRun(ws, es) && n <= |es| && c in ws[n].calls && ws[n].calls[c] == Frame(q, p)
    requires q.Subscribe? && InRetry(p) && i <= |steps| && steps[i..] == StepsOf(es, c, n)
    ensures c in ws[|es|].calls
    ensures ws[|es|].calls[c].at == Done(AlreadyExists) <==>
            && !HasEmptyList(PatchOf(q.filters))
            && Follow(p, Replies(ws, steps, Email, Address(q.email)), i) == UniqueViolation
    decreases |steps| - i
  {
    hide IsRun, WorldOk, Statement, TableOk, IsFresh, Fits, HasEmptyList, PatchOf, Address, StepsOf, Follow, ByEndpoint;
    SameLength(ws, es);
    if steps[i..] == [] {
      NoMoreSteps(ws, es, c, n);
      QuietEndsWell(p, Replies(ws, steps, Email, Address(q.email)), i);
    } else {
      FirstStep(ws, es, c, n);
      var k := steps[i];
      assert steps[i..][0] == k && steps[i..][1..] == steps[i + 1..];
      FailsOneMore(ws, es, c, steps, k, i, q, p);
    }
  }

  lemma FollowNext(p: Point, reply: nat -> bool, i: nat)
    requires InRetry(p)
    ensures Follow(p, reply, i) ==
            if p.LastInserting? then if reply(i) then UniqueViolation else NewRow
            else match Branch(p, reply(i))
                 case Some(next) => Follow(next, reply, i + 1)
                 case None => if p.Refinding? then OldRow else NewRow
  {
  }

  lemma ReplyIs(ws: seq<World>, steps: seq<nat>, channel: Channel, endpoint: string, i: nat)
    requires i < |steps| && steps[i] < |ws| && TableOk(ws[steps[i]].db.rows)
    ensures Replies(ws, steps, channel, endpoint)(i) <==> ByEndpoint(ws[steps[i]].db.rows, channel, endpoint).Some?
  {
    hide TableOk, ByEndpoint;
  }

  lemma FailsOneMore(ws: seq<World>, es: seq<Event>, c: nat, steps: seq<nat>, k: nat, i: nat, q: Request, p: Point)
    requires IsRun(ws, es) && ExecutesAt(ws, es, k, c, q, p) && q.Subscribe? && InRetry(p)
    requires i < |steps| && steps[i] == k && steps[i + 1..] == StepsOf(es, c, k + 1)
    ensures c in ws[|es|].calls
    ensures ws[|es|].calls[c].at == Done(AlreadyExists) <==>
            && !HasEmptyList(PatchOf(q.filters))
            && Follow(p, Replies(ws, steps, Email, Address(q.email)), i) == UniqueViolation
    decreases |steps| - i, 0
  {
    hide IsRun, WorldOk, Statement, TableOk, IsFresh, HasEmptyList, PatchOf, Address, StepsOf, Follow, ByEndpoint;
    hide Branch;
    SameLength(ws, es);
    StepLeads(ws, es, k, c);
    TableIsOkIn(ws[k]);
    RetryLeads(ws[k], q, p, es[k].draw, es[k].ok);
    var reply := Replies(ws, steps, Email, Address(q.email));
    FollowNext(p, reply, i);
    ReplyIs(ws, steps, Email, Address(q.email), i);
    hide Replies, Fits;
    var next := ws[k + 1].calls[c].at;
    if !p.LastInserting? {
      BranchStaysInRetry(p, reply(i));
    }
    if HasLeft(next) {
      LeftForGood(ws, es, c, k + 1);
    } else if next == Done(AlreadyExists) {
      DoneStaysDone(ws, es, k + 1, c);
    } else {
      FailsAsFollowed(ws, es, c, steps, k + 1, i + 1, q, next);
    }
  }

  lemma BranchStaysInRetry(p: Point, seen: bool)
    requires p.Finding? || p.Inserting? || p.Refinding?
    ensures Branch(p, seen).Some? ==> InRetry(Branch(p, seen).value)
  {
  }

  /**
   * Exactly when a subscribe call ends in "already exists", over all runs: at its own statements the table
   * shows the address, then not, then again, then not, and again at the last, unguarded create.
   */
  lemma AlreadyExistsExactlyOnDoubleVanish(ws: seq<World>, es: seq<Event>, n: nat, c: nat, q: Request)
    requires IsRun(ws, es) && n < |es| && es[n] == Begin(c, q) && q.Subscribe?
    ensures c in ws[|es|].calls
    ensures ws[|es|].calls[c].at == Done(AlreadyExists) <==>
            && !HasEmptyList(PatchOf(q.filters))
            && DoubleVanish(Replies(ws, StepsOf(es, c, n + 1), Email, Address(q.email)))
  {
    hide IsRun, WorldOk, Statement, TableOk, IsFresh, Fits, HasEmptyList, PatchOf, Address, StepsOf, Follow;
    hide DoubleVanish;
    hide Grows, Issues, Replies;
    SameLength(ws, es);
    RunStep(ws, es, n);
    var steps := StepsOf(es, c, n + 1);
    assert steps[0..] == steps;
    FailsAsFollowed(ws, es, c, steps, n + 1, 0, q, Finding(0));
    ThrowsExactlyOnDoubleVanish(Replies(ws, steps, Email, Address(q.email)));
  }

  // ---- register calls that lose the race --------------------------------------------------------

  /** The first three statements of a registration without a secret. */
  lemma RacingLeads(w: World, q: Request, p: Point, d: Draw, ok: bool)
    requires WorldOk(w) && TableOk(w.db.rows) && IsFresh(d, w.issued) && q.Register? && q.secret.None? && Fits(q, p)
    requires !HasEmptyList(PatchOf(q.filters)) && (p.SeekingUrl? || p.Registering? || p.SeekingWinner?)
    ensures var next := Statement(w.db, q, p, d, ok).1;
            match ByEndpoint(w.db.rows, Webhook, q.url)
            case None =>
              next == if p.SeekingUrl? then Registering
                      else if p.Registering? then Done(Registered(d.secret, d.unsubscribeToken))
                      else Done(AlreadyExists)
            case Some(id) =>
              next == if p.SeekingUrl? then Done(Answer(false))
                      else if p.Registering? then SeekingWinner
                      else if q.filters.Some? then LoserPatching(id) else Done(Answer(false))
    ensures p.Registering? ==>
              (InsertResult(w.db.rows, PatchOf(q.filters),
                            NewSubscription(Webhook, q.url, PatchOf(q.filters), d, w.db.now)).Conflict?
               <==> ByEndpoint(w.db.rows, Webhook, q.url).Some?)
  {
    hide WorldOk, TableOk, IsTaken, HasEmptyList, PatchOf, ByEndpoint, NewSubscription, IsFresh;
    ConflictIsTheAddress(w, Webhook, q.url, PatchOf(q.filters), d);
  }

  /** The call starts without a secret, is allowed to go on, and asks for no empty list. */
  predicate StartsRacing(q: Request) {
    q.Register? && q.secret.None? && q.allowed && !HasEmptyList(PatchOf(q.filters))
  }

  /** Row `id` is the one with the URL at the `j`-th of the steps. */
  predicate UrlIsOf(ws: seq<World>, steps: seq<nat>, url: string, j: nat, id: string) {
    j < |steps| && steps[j] < |ws| && TableOk(ws[steps[j]].db.rows)
    && ByEndpoint(ws[steps[j]].db.rows, Webhook, url) == Some(id)
  }

  /** The registration saw no row of its URL, and its insert met one. */
  predicate LosesRace(ws: seq<World>, steps: seq<nat>, url: string) {
    |steps| >= 2 && !RowThere(ws, steps, Webhook, url, 0) && RowThere(ws, steps, Webhook, url, 1)
  }

  /** The answer of a registration that has ended its race without patching. */
  predicate EndsRace(p: Point) {
    p.Done? && p.reply != AlreadyExists
  }

  /** From one statement of a call to its next. */
  lemma NextStep(ws: seq<World>, es: seq<Event>, c: nat, steps: seq<nat>, i: nat)
    requires IsRun(ws, es) && i + 1 < |steps| && Executes(ws, es, steps[i], c)
    requires steps[i + 1..] == StepsOf(es, c, steps[i] + 1)
    ensures Executes(ws, es, steps[i + 1], c) && c in ws[steps[i] + 1].calls
    ensures ws[steps[i + 1]].calls[c] == ws[steps[i] + 1].calls[c]
    ensures steps[i + 2..] == StepsOf(es, c, steps[i + 1] + 1)
  {
    hide IsRun, WorldOk, Statement, StepsOf, CanStep;
    SameLength(ws, es);
    StepLeads(ws, es, steps[i], c);
    var rest := steps[i + 1..];
    assert rest[0] == steps[i + 1] && rest[1..] == steps[i + 2..];
    FirstStep(ws, es, c, steps[i] + 1);
  }

  /** One statement of a race, and whether another one follows. */
  lemma RaceNext(ws: seq<World>, es: seq<Event>, c: nat, q: Request, steps: seq<nat>, i: nat, p: Point)
    requires IsRun(ws, es) && i < |steps| && ExecutesAt(ws, es, steps[i], c, q, p) && StartsRacing(q)
    requires p.SeekingUrl? || p.Registering? || p.SeekingWinner?
    requires steps[i + 1..] == StepsOf(es, c, steps[i] + 1)
    ensures TableOk(ws[steps[i]].db.rows) && c in ws[steps[i] + 1].calls && ws[steps[i] + 1].calls[c].request == q
    ensures var next := ws[steps[i] + 1].calls[c].at;
            match ByEndpoint(ws[steps[i]].db.rows, Webhook, q.url)
            case None => if p.SeekingUrl? then next == Registering
                         else if p.Registering? then EndsRace(next)
                         else next == Done(AlreadyExists)
            case Some(id) => if p.SeekingUrl? then EndsRace(next)
                             else if p.Registering? then next == SeekingWinner
                             else if q.filters.Some? then next == LoserPatching(id) else EndsRace(next)
    ensures RowThere(ws, steps, Webhook, q.url, i) <==> ByEndpoint(ws[steps[i]].db.rows, Webhook, q.url).Some?
    ensures ws[steps[i] + 1].calls[c].at.Done? ==> i + 1 == |steps|
  {
    hide IsRun, WorldOk, Statement, TableOk, IsFresh, HasEmptyList, PatchOf, StepsOf, ByEndpoint;
    SameLength(ws, es);
    var k := steps[i];
    StepLeads(ws, es, k, c);
    TableIsOkIn(ws[k]);
    RacingLeads(ws[k], q, p, es[k].draw, es[k].ok);
    if ws[k + 1].calls[c].at.Done? {
      NoStepsWhenDone(ws, es, k + 1, c);
    }
  }

  /** The first statement of a registration. */
  lemma RaceStarts(ws: seq<World>, es: seq<Event>, n: nat, c: nat, q: Request, steps: seq<nat>)
    requires IsRun(ws, es) && n < |es| && es[n] == Begin(c, q) && StartsRacing(q)
    requires steps == StepsOf(es, c, n + 1) && steps != []
    ensures ExecutesAt(ws, es, steps[0], c, q, SeekingUrl) && steps[1..] == StepsOf(es, c, steps[0] + 1)
  {
    hide IsRun, WorldOk, Statement, TableOk, IsFresh, HasEmptyList, PatchOf, StepsOf, Grows, Issues;
    SameLength(ws, es);
    RunStep(ws, es, n);
    FirstStep(ws, es, c, n + 1);
  }

  /** Where a registration stands at its second statement. */
  lemma RaceSecond(ws: seq<World>, es: seq<Event>, n: nat, c: nat, q: Request, steps: seq<nat>)
    requires IsRun(ws, es) && n < |es| && es[n] == Begin(c, q) && StartsRacing(q)
    requires steps == StepsOf(es, c, n + 1) && |steps| >= 2
    ensures ExecutesAt(ws, es, steps[1], c, q, Registering) && steps[2..] == StepsOf(es, c, steps[1] + 1)
    ensures !RowThere(ws, steps, Webhook, q.url, 0)
  {
    hide IsRun, TableOk, IsFresh, StartsRacing, StepsOf, ByEndpoint, RowThere, First, Fits, Statement;
    RaceStarts(ws, es, n, c, q, steps);
    RaceNext(ws, es, c, q, steps, 0, SeekingUrl);
    NextStep(ws, es, c, steps, 0);
  }

  /** And at its third. */
  lemma RaceThird(ws: seq<World>, es: seq<Event>, n: nat, c: nat, q: Request, steps: seq<nat>)
    requires IsRun(ws, es) && n < |es| && es[n] == Begin(c, q) && StartsRacing(q)
    requires steps == StepsOf(es, c, n + 1) && |steps| >= 3
    ensures ExecutesAt(ws, es, steps[2], c, q, SeekingWinner) && steps[3..] == StepsOf(es, c, steps[2] + 1)
    ensures LosesRace(ws, steps, q.url)
  {
    hide IsRun, TableOk, IsFresh, StartsRacing, StepsOf, ByEndpoint, RowThere;
    RaceSecond(ws, es, n, c, q, steps);
    RaceNext(ws, es, c, q, steps, 1, Registering);
    NextStep(ws, es, c, steps, 1);
  }

  /** A loser's update is its last statement. */
  lemma RaceEnds(ws: seq<World>, es: seq<Event>, n: nat, c: nat, q: Request, steps: seq<nat>)
    requires IsRun(ws, es) && n < |es| && es[n] == Begin(c, q) && StartsRacing(q)
    requires steps == StepsOf(es, c, n + 1) && |steps| >= 4
    ensures |steps| == 4 && q.filters.Some? && LosesRace(ws, steps, q.url) && RowThere(ws, steps, Webhook, q.url, 2)
    ensures TableOk(ws[steps[2]].db.rows)
    ensures ExecutesAt(ws, es, steps[3], c, q,
                       LoserPatching(ByEndpoint(ws[steps[2]].db.rows, Webhook, q.url).value))
  {
    hide IsRun, TableOk, IsFresh, StartsRacing, StepsOf, ByEndpoint, RowThere, Statement;
    RaceThird(ws, es, n, c, q, steps);
    RaceNext(ws, es, c, q, steps, 2, SeekingWinner);
    NextStep(ws, es, c, steps, 2);
    LastPatch(ws, es, c, steps);
  }

  lemma LastPatch(ws: seq<World>, es: seq<Event>, c: nat, steps: seq<nat>)
    requires IsRun(ws, es) && |steps| >= 4 && Executes(ws, es, steps[3], c) && ws[steps[3]].calls[c].at.LoserPatching?
    requires steps[4..] == StepsOf(es, c, steps[3] + 1)
    ensures |steps| == 4
  {
    hide IsRun, TableOk, IsFresh, StepsOf, HasEmptyList, Filtered, WorldOk;
    StepLeads(ws, es, steps[3], c);
    NoStepsWhenDone(ws, es, steps[3] + 1, c);
  }

  lemma FirstOfRefused(q: Request)
    requires q.Register? && q.secret.None? && !StartsRacing(q)
    ensures First(q) == Done(Answer(false))
  {
    hide HasEmptyList;
  }

  lemma RefusedHasNoSteps(ws: seq<World>, es: seq<Event>, n: nat, c: nat, q: Request)
    requires IsRun(ws, es) && n < |es| && es[n] == Begin(c, q) && q.Register? && q.secret.None? && !StartsRacing(q)
    ensures StepsOf(es, c, n + 1) == [] && c in ws[|es|].calls && ws[|es|].calls[c].at == Done(Answer(false))
  {
    hide IsRun, WorldOk, TableOk, IsFresh, StartsRacing, StepsOf, Grows, Statement, Issues, First;
    SameLength(ws, es);
    FirstOfRefused(q);
    RunStep(ws, es, n);
    NoStepsWhenDone(ws, es, n + 1, c);
    DoneStaysDone(ws, es, n + 1, c);
  }

  /** Step `k` is the filter update of a registration that lost its race. */
  predicate PatchesAsLoser(ws: seq<World>, es: seq<Event>, k: nat, c: nat, q: Request, id: string) {
    ExecutesAt(ws, es, k, c, q, LoserPatching(id))
  }

  /**
   * Step `k` is the fourth statement of a registration begun at step `n`, without a secret and with filters:
   * its first select saw no row of its URL, its insert met one, and its second select found `id`.
   */
  predicate LosesTo(ws: seq<World>, es: seq<Event>, n: nat, k: nat, c: nat, q: Request, id: string) {
    && n < |es| && es[n] == Begin(c, q) && q.Register? && q.secret.None? && q.filters.Some?
    && var steps := StepsOf(es, c, n + 1);
       |steps| == 4 && k == steps[3] && LosesRace(ws, steps, q.url) && UrlIsOf(ws, steps, q.url, 2, id)
  }

  /** Exactly when a registration without a secret updates row `id`. */
  lemma LoserPatchesExactly(ws: seq<World>, es: seq<Event>, n: nat, c: nat, q: Request, k: nat, id: string)
    requires IsRun(ws, es) && n < |es| && es[n] == Begin(c, q) && q.Register? && q.secret.None?
    requires n < k < |es| && es[k].Step? && es[k].call == c
    ensures PatchesAsLoser(ws, es, k, c, q, id) <==> LosesTo(ws, es, n, k, c, q, id)
  {
    hide IsRun, TableOk, IsFresh, StepsOf, ByEndpoint, StartsRacing, Executes, RowThere;
    var steps := StepsOf(es, c, n + 1);
    assert k in steps;
    var j :| 0 <= j < |steps| && steps[j] == k;
    if !StartsRacing(q) {
      RefusedHasNoSteps(ws, es, n, c, q);
    } else if j <= 2 {
      EarlyStepsPatchNothing(ws, es, n, c, q, steps, j);
      if |steps| == 4 {
        StepsRise(es, c, steps, j, 3);
      }
    } else {
      RaceEnds(ws, es, n, c, q, steps);
      LastPatchNames(ws, es, c, q, steps, id);
    }
  }

  lemma LastPatchNames(ws: seq<World>, es: seq<Event>, c: nat, q: Request, steps: seq<nat>, id: string)
    requires q.Register? && |steps| == 4 && RowThere(ws, steps, Webhook, q.url, 2)
    requires ExecutesAt(ws, es, steps[3], c, q, LoserPatching(ByEndpoint(ws[steps[2]].db.rows, Webhook, q.url).value))
    ensures PatchesAsLoser(ws, es, steps[3], c, q, id) <==> UrlIsOf(ws, steps, q.url, 2, id)
  {
    hide TableOk, IsFresh, ByEndpoint, CanStep;
  }

  lemma EarlyStepsPatchNothing(ws: seq<World>, es: seq<Event>, n: nat, c: nat, q: Request, steps: seq<nat>, j: nat)
    requires IsRun(ws, es) && n < |es| && es[n] == Begin(c, q) && StartsRacing(q)
    requires steps == StepsOf(es, c, n + 1) && j < |steps| && j <= 2
    ensures c in ws[steps[j]].calls && !ws[steps[j]].calls[c].at.LoserPatching?
    ensures steps[j + 1..] == StepsOf(es, c, steps[j] + 1)
  {
    hide IsRun, TableOk, IsFresh, StepsOf, StartsRacing, LosesRace, RowThere, First, Fits;
    if j == 0 {
      RaceStarts(ws, es, n, c, q, steps);
    } else if j == 1 {
      RaceSecond(ws, es, n, c, q, steps);
    } else {
      RaceThird(ws, es, n, c, q, steps);
    }
  }

  lemma StepsRise(es: seq<Event>, c: nat, steps: seq<nat>, i: nat, j: nat)
    requires i < j < |steps| && steps[i] < |es| && steps[i + 1..] == StepsOf(es, c, steps[i] + 1)
    ensures steps[i] < steps[j]
  {
    hide StepsOf;
    assert steps[j] == steps[i + 1..][j - i - 1];
  }

  /** What such an insert meets is a conflict, and nothing else makes a fresh registration fail to insert. */
  lemma LosersMeetAConflict(ws: seq<World>, es: seq<Event>, n: nat, c: nat, q: Request)
    requires IsRun(ws, es) && n < |es| && es[n] == Begin(c, q) && StartsRacing(q) && |StepsOf(es, c, n + 1)| >= 2
    ensures var steps := StepsOf(es, c, n + 1);
            var w, d := ws[steps[1]], es[steps[1]].draw;
            LosesRace(ws, steps, q.url) <==>
            InsertResult(w.db.rows, PatchOf(q.filters),
                         NewSubscription(Webhook, q.url, PatchOf(q.filters), d, w.db.now)).Conflict?
  {
    hide IsRun, WorldOk, TableOk, IsFresh, StepsOf, ByEndpoint, InsertResult, HasEmptyList, PatchOf, NewSubscription;
    var steps := StepsOf(es, c, n + 1);
    RaceSecond(ws, es, n, c, q, steps);
    StepLeads(ws, es, steps[1], c);
    TableIsOkIn(ws[steps[1]]);
    RacingLeads(ws[steps[1]], q, Registering, es[steps[1]].draw, es[steps[1]].ok);
  }

  /** Statements of a registration that shows a secret. */
  predicate IsOwners(p: Point) {
    p.SeekingUrl? || p.Patching? || p.Testing? || p.Verifying? || (p.Done? && p.reply != AlreadyExists)
  }

  lemma OwnerLeads(s: State, q: Request, p: Point, d: Draw, ok: bool)
    requires TableOk(s.rows) && q.Register? && q.secret.Some? && Fits(q, p) && IsOwners(p) && !p.Done?
    ensures IsOwners(Statement(s, q, p, d, ok).1)
  {
    hide TableOk, ByEndpoint, IsTaken, HasEmptyList, PatchOf;
  }

  lemma {:induction false} OwnersNeverFail(ws: seq<World>, es: seq<Event>, c: nat, n: nat)
    requires IsRun(ws, es) && n <= |es| && c in ws[n].calls && ws[n].calls[c].request.Register?
    requires ws[n].calls[c].request.secret.Some? && IsOwners(ws[n].calls[c].at)
    ensures c in ws[|es|].calls && IsOwners(ws[|es|].calls[c].at)
    decreases |es| - n
  {
    hide IsRun, WorldOk, Statement, TableOk, IsFresh, Issues, Grows, Fits;
    SameLength(ws, es);
    if n < |es| {
      RunStep(ws, es, n);
      if es[n].Step? && es[n].call == c {
        OwnerLeads(ws[n].db, ws[n].calls[c].request, ws[n].calls[c].at, es[n].draw, es[n].ok);
      }
      OwnersNeverFail(ws, es, c, n + 1);
    }
  }

  /**
   * Exactly when a registration ends in "already exists": it showed no secret, its first select saw no row of
   * its URL, its insert met one, and at its second select that URL had no row again.
   */
  lemma RegistrationFailsExactly(ws: seq<World>, es: seq<Event>, n: nat, c: nat, q: Request)
    requires IsRun(ws, es) && n < |es| && es[n] == Begin(c, q) && q.Register?
    ensures c in ws[|es|].calls
    ensures var steps := StepsOf(es, c, n + 1);
            ws[|es|].calls[c].at == Done(AlreadyExists) <==>
            && q.secret.None? && |steps| >= 3
            && LosesRace(ws, steps, q.url) && !RowThere(ws, steps, Webhook, q.url, 2)
  {
    hide IsRun, WorldOk, TableOk, IsFresh, StepsOf, ByEndpoint, LosesRace, RowThere, Grows, Statement, Issues;
    hide HasEmptyList;
    SameLength(ws, es);
    if q.secret.Some? {
      RunStep(ws, es, n);
      OwnersNeverFail(ws, es, c, n + 1);
    } else if !StartsRacing(q) {
      RefusedHasNoSteps(ws, es, n, c, q);
    } else {
      RaceFailsExactly(ws, es, n, c, q, StepsOf(es, c, n + 1));
    }
  }

  /** How a call ends whose last statement was `steps[i]`. */
  lemma EndsAfter(ws: seq<World>, es: seq<Event>, c: nat, steps: seq<nat>, i: nat)
    requires IsRun(ws, es) && i + 1 == |steps| && Executes(ws, es, steps[i], c)
    requires steps[i + 1..] == StepsOf(es, c, steps[i] + 1)
    ensures c in ws[|es|].calls && c in ws[steps[i] + 1].calls
    ensures var p := ws[steps[i] + 1].calls[c].at;
            ws[|es|].calls[c].at == p || (!p.Done? && ws[|es|].calls[c].at == Done(Threw))
  {
    hide IsRun, WorldOk, TableOk, IsFresh, StepsOf, Statement;
    SameLength(ws, es);
    StepLeads(ws, es, steps[i], c);
    NoMoreSteps(ws, es, c, steps[i] + 1);
    if ws[steps[i] + 1].calls[c].at.Done? {
      DoneStaysDone(ws, es, steps[i] + 1, c);
    }
  }

  lemma RaceFailsExactly(ws: seq<World>, es: seq<Event>, n: nat, c: nat, q: Request, steps: seq<nat>)
    requires IsRun(ws, es) && n < |es| && es[n] == Begin(c, q) && StartsRacing(q) && steps == StepsOf(es, c, n + 1)
    ensures c in ws[|es|].calls
    ensures ws[|es|].calls[c].at == Done(AlreadyExists) <==>
            |steps| >= 3 && LosesRace(ws, steps, q.url) && !RowThere(ws, steps, Webhook, q.url, 2)
  {
    hide IsRun, WorldOk, TableOk, IsFresh, StepsOf, ByEndpoint, LosesRace, RowThere, Grows, Statement, Issues;
    hide HasEmptyList;
    hide StartsRacing, First, Fits, CanStep;
    SameLength(ws, es);
    if steps == [] {
      BegunOnly(ws, es, n, c, q);
    } else if |steps| == 1 {
      RaceStarts(ws, es, n, c, q, steps);
      RaceNext(ws, es, c, q, steps, 0, SeekingUrl);
      EndsAfter(ws, es, c, steps, 0);
    } else if |steps| == 2 {
      RaceSecond(ws, es, n, c, q, steps);
      RaceNext(ws, es, c, q, steps, 1, Registering);
      EndsAfter(ws, es, c, steps, 1);
    } else if |steps| == 3 {
      RaceThird(ws, es, n, c, q, steps);
      RaceNext(ws, es, c, q, steps, 2, SeekingWinner);
      EndsAfter(ws, es, c, steps, 2);
    } else {
      RaceEnds(ws, es, n, c, q, steps);
      LosersAnswerFalse(ws, es, c, steps);
    }
  }

  lemma BegunOnly(ws: seq<World>, es: seq<Event>, n: nat, c: nat, q: Request)
    requires IsRun(ws, es) && n < |es| && es[n] == Begin(c, q) && StartsRacing(q) && StepsOf(es, c, n + 1) == []
    ensures c in ws[|es|].calls && ws[|es|].calls[c].at != Done(AlreadyExists)
  {
    hide IsRun, WorldOk, TableOk, IsFresh, StepsOf, Grows, Statement, Issues, HasEmptyList;
    SameLength(ws, es);
    RunStep(ws, es, n);
    NoMoreSteps(ws, es, c, n + 1);
  }

  lemma LosersAnswerFalse(ws: seq<World>, es: seq<Event>, c: nat, steps: seq<nat>)
    requires IsRun(ws, es) && |steps| == 4 && Executes(ws, es, steps[3], c) && ws[steps[3]].calls[c].at.LoserPatching?
    ensures c in ws[|es|].calls && ws[|es|].calls[c].at == Done(Answer(false))
  {
    hide IsRun, TableOk, IsFresh, StepsOf, HasEmptyList, Filtered, WorldOk;
    SameLength(ws, es);
    StepLeads(ws, es, steps[3], c);
    DoneStaysDone(ws, es, steps[3] + 1, c);
  }
}
