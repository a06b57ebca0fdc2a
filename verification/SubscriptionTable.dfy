/**
 * The subscription calls as the source makes them: statements that read and update one stored table, with
 * whatever other calls do to it in between.
 */
module SubscriptionStore {
  import opened Types
  import opened Text
  import opened Subscriptions
  import opened SubscriptionCalls

  class SubscriptionTable {
    var rows: Table
    var letters: seq<Letter>
    var deletions: seq<Deletion>
    var now: int

    function View(): State
      reads this
    {
      State(rows, letters, deletions, now)
    }

    constructor (now: int)
      ensures View() == State(map[], [], [], now)
    {
      rows, letters, deletions := map[], [], [];
      this.now := now;
    }

    // ---- statements -----------------------------------------------------------------------------

    /** Until the next statement is executed, others do what they do. */
    method Await(e: Env)
      modifies this
      ensures View() == e.before(old(View()))
    {
      var s := e.before(View());
      rows, letters, deletions, now := s.rows, s.letters, s.deletions, s.now;
    }

    /** Inserts the row, unless a list is empty or a unique key is taken. */
    method CreateSubscription(channel: Channel, endpoint: string, patch: FilterPatch, d: Draw) returns (r: Inserted)
      modifies this`rows
      ensures r.EmptyList? <==> HasEmptyList(patch)
      ensures r.Conflict? <==> !r.EmptyList? && IsTaken(old(rows), NewSubscription(channel, endpoint, patch, d, now))
      ensures rows == if r.Stored? then old(rows)[d.id := NewSubscription(channel, endpoint, patch, d, now)]
                      else old(rows)
    {
      var row := NewSubscription(channel, endpoint, patch, d, now);
      r := InsertResult(rows, patch, row);
      if r.Stored? {
        rows := rows[d.id := row];
      }
    }

    method UpdateSubscriptionFilters(id: string, patch: FilterPatch) returns (threw: bool)
      modifies this`rows
      ensures threw <==> HasEmptyList(patch)
      ensures rows == if threw then old(rows) else Filtered(old(rows), id, patch)
    {
      threw := HasEmptyList(patch);
      if !threw && id in rows {
        rows := rows[id := rows[id].(filters := Patched(rows[id].filters, patch))];
      }
    }

    method VerifySubscription(id: string)
      modifies this`rows
      ensures rows == Verified(old(rows), id)
    {
      if id in rows {
        rows := rows[id := rows[id].(verified := true, verifyToken := None, verifyIssuedAt := None)];
      }
    }

    method SetVerifyToken(id: string, token: string) returns (conflict: bool)
      modifies this`rows
      ensures conflict <==> VerifyTaken(old(rows), id, token)
      ensures rows == if conflict then old(rows) else Reissued(old(rows), id, token, now)
    {
      conflict := VerifyTaken(rows, id, token);
      if !conflict && id in rows {
        rows := rows[id := rows[id].(verifyToken := Some(token), verifyIssuedAt := Some(now))];
      }
    }

    method SetPending(id: string, patch: FilterPatch, token: string) returns (conflict: bool)
      modifies this`rows
      ensures conflict <==> PendingTaken(old(rows), id, token)
      ensures rows == if conflict then old(rows) else Proposed(old(rows), id, patch, token, now)
    {
      conflict := PendingTaken(rows, id, token);
      if !conflict && id in rows {
        rows := rows[id := rows[id].(pendingFilters := Some(patch), pendingToken := Some(token),
                                     pendingIssuedAt := Some(now))];
      }
    }

    method ClearPending(id: string)
      modifies this`rows
      ensures rows == Cleared(old(rows), id)
    {
      if id in rows {
        rows := rows[id := rows[id].(pendingFilters := None, pendingToken := None, pendingIssuedAt := None)];
      }
    }

    /** Hand a letter to the mailer; it goes out or the call throws. */
    method Send(letter: Letter, works: bool) returns (threw: bool)
      modifies this`letters
      ensures threw <==> !works
      ensures letters == if works then old(letters) + [letter] else old(letters)
    {
      threw := !works;
      if works {
        letters := letters + [letter];
      }
    }

    // ---- calls ----------------------------------------------------------------------------------

    /** The last statement of a subscribe call: the letter and the answer. */
    method SendAndAnswer(ghost q: Request, letter: Letter, answer: Reply, env: nat -> Env, i: nat)
      returns (reply: Reply)
      requires TableOk(rows) && KeepsKeys(env) && Fits(q, Posting(letter, answer))
      modifies this
      ensures (View(), reply) == Drive(old(View()), q, Posting(letter, answer), env, i)
    {
      hide TableOk, KeepsKeys, Drive, Rank, RegisterStatement, LinkStatement;
      DriveOnce(View(), q, Posting(letter, answer), env, i);
      Await(env(i));
      var threw := Send(letter, env(i).ok);
      reply := if threw then Threw else answer;
      DriveEnds(View(), q, Done(reply), env, i + 1);
    }

    method UpdateExistingAndNotify(email: string, filters: Option<FilterPatch>, attempt: nat, env: nat -> Env, i: nat)
      returns (reply: Reply)
      requires TableOk(rows) && KeepsKeys(env) && attempt <= 1 && Address(email) == email
      modifies this
      ensures (View(), reply) == Drive(old(View()), Subscribe(email, filters), Refinding(attempt), env, i)
      decreases Rank(Refinding(attempt))
    {
      hide TableOk, KeepsKeys, Drive, RegisterStatement, LinkStatement, IsTaken, VerifyTaken, PendingTaken;
      hide HasEmptyList, PatchOf;
      hide Address, ByEndpoint, NewSubscription;
      ghost var q := Subscribe(email, filters);
      DriveOnce(View(), q, Refinding(attempt), env, i);
      Await(env(i));
      var existing := ByEndpoint(rows, Email, email);
      if existing.None? {
        if attempt == 0 {
          reply := StartEmailSubscription(email, filters, 1, env, i + 1);
          return;
        }
        DriveOnce(View(), q, LastInserting, env, i + 1);
        Await(env(i + 1));
        var created := CreateSubscription(Email, email, PatchOf(filters), env(i + 1).draw);
        if !created.Stored? {
          reply := if created.Conflict? then AlreadyExists else Threw;
          DriveEnds(View(), q, Done(reply), env, i + 2);
          return;
        }
        reply := SendAndAnswer(q, ConfirmLink(email, env(i + 1).draw.verifyToken), ConfirmationSent, env, i + 2);
        return;
      }
      var id := existing.value;
      if rows[id].verified {
        reply := NotifyVerified(email, id, filters, env, i + 1);
      } else {
        reply := RenewUnverified(email, id, filters, env, i + 1);
      }
    }

    /** The branch for a verified address: ask for a confirmation of the change, or tell that nothing changed. */
    method NotifyVerified(email: string, id: string, filters: Option<FilterPatch>, env: nat -> Env, i: nat)
      returns (reply: Reply)
      requires TableOk(rows) && KeepsKeys(env) && Address(email) == email
      modifies this
      ensures (View(), reply) == Drive(old(View()), Subscribe(email, filters),
                                       AfterSighting(Subscribe(email, filters), id, true), env, i)
    {
      hide TableOk, KeepsKeys, Drive, Rank, RegisterStatement, LinkStatement, VerifyTaken, PendingTaken, Address;
      ghost var q := Subscribe(email, filters);
      if filters.None? {
        reply := SendAndAnswer(q, Notice(email), PreferencesUpdated, env, i);
        return;
      }
      DriveOnce(View(), q, Proposing(id), env, i);
      Await(env(i));
      var conflict := SetPending(id, filters.value, env(i).draw.freshToken);
      if conflict {
        DriveEnds(View(), q, Done(AlreadyExists), env, i + 1);
        return AlreadyExists;
      }
      reply := SendAndAnswer(q, ChangeLink(email, env(i).draw.freshToken), ChangePending, env, i + 1);
    }

    /** The branch for an unverified address: apply the filters, draw a fresh token, send it. */
    method RenewUnverified(email: string, id: string, filters: Option<FilterPatch>, env: nat -> Env, i: nat)
      returns (reply: Reply)
      requires TableOk(rows) && KeepsKeys(env) && Address(email) == email
      modifies this
      ensures (View(), reply) == Drive(old(View()), Subscribe(email, filters), Patching(id, PatchOf(filters)), env, i)
    {
      hide TableOk, KeepsKeys, Drive, Rank, RegisterStatement, VerifyTaken, PendingTaken, HasEmptyList, PatchOf;
      hide Address;
      ghost var q := Subscribe(email, filters);
      DriveOnce(View(), q, Patching(id, PatchOf(filters)), env, i);
      Await(env(i));
      var threw := UpdateSubscriptionFilters(id, PatchOf(filters));
      if threw {
        DriveEnds(View(), q, Done(Threw), env, i + 1);
        return Threw;
      }
      DriveOnce(View(), q, Reissuing(id), env, i + 1);
      Await(env(i + 1));
      var conflict := SetVerifyToken(id, env(i + 1).draw.freshToken);
      if conflict {
        DriveEnds(View(), q, Done(AlreadyExists), env, i + 2);
        return AlreadyExists;
      }
      reply := SendAndAnswer(q, ConfirmLink(email, env(i + 1).draw.freshToken), ConfirmationSent, env, i + 2);
    }

    method StartEmailSubscription(rawEmail: string, filters: Option<FilterPatch>, attempt: nat, env: nat -> Env, i: nat)
      returns (reply: Reply)
      requires TableOk(rows) && KeepsKeys(env) && attempt <= 1
      modifies this
      ensures (View(), reply) == Drive(old(View()), Subscribe(rawEmail, filters), Finding(attempt), env, i)
      decreases Rank(Finding(attempt))
    {
      var email := Address(rawEmail);
      ghost var q := Subscribe(email, filters);
      hide TableOk, KeepsKeys, Drive, RegisterStatement, LinkStatement, IsTaken, HasEmptyList, PatchOf, Address;
      hide ByEndpoint, NewSubscription;
      AddressIsNormal(rawEmail);
      DriveByAddress(View(), q, Subscribe(rawEmail, filters), Finding(attempt), env, i);
      DriveOnce(View(), q, Finding(attempt), env, i);
      Await(env(i));
      var existing := ByEndpoint(rows, Email, email);
      if existing.Some? {
        reply := UpdateExistingAndNotify(email, filters, attempt, env, i + 1);
        return;
      }
      DriveOnce(View(), q, Inserting(attempt), env, i + 1);
      Await(env(i + 1));
      var created := CreateSubscription(Email, email, PatchOf(filters), env(i + 1).draw);
      match created
      case EmptyList =>
        DriveEnds(View(), q, Done(Threw), env, i + 2);
        reply := Threw;
      case Conflict => reply := UpdateExistingAndNotify(email, filters, attempt, env, i + 2);
      case Stored =>
        reply := SendAndAnswer(q, ConfirmLink(email, env(i + 1).draw.verifyToken), ConfirmationSent, env, i + 2);
    }

    /** The update that marks a row verified, and the answer. */
    method MarkVerified(ghost q: Request, id: string, env: nat -> Env, i: nat) returns (reply: Reply)
      requires TableOk(rows) && KeepsKeys(env) && Fits(q, Verifying(id))
      modifies this
      ensures (View(), reply) == Drive(old(View()), q, Verifying(id), env, i)
    {
      hide TableOk, KeepsKeys, Drive, Rank, SubscribeStatement, RegisterStatement;
      DriveOnce(View(), q, Verifying(id), env, i);
      Await(env(i));
      VerifySubscription(id);
      DriveEnds(View(), q, Done(Answer(true)), env, i + 1);
      return Answer(true);
    }

    method ConfirmSubscription(token: string, env: nat -> Env) returns (reply: Reply)
      requires TableOk(rows) && KeepsKeys(env)
      modifies this
      ensures (View(), reply) == Drive(old(View()), ConfirmEmail(token), SeekingToken, env, 0)
    {
      hide TableOk, KeepsKeys, Drive, Rank, SubscribeStatement, RegisterStatement, ByVerifyToken;
      ghost var q := ConfirmEmail(token);
      DriveOnce(View(), q, SeekingToken, env, 0);
      Await(env(0));
      var sub := ByVerifyToken(rows, token, now);
      if sub.None? {
        DriveEnds(View(), q, Done(Answer(false)), env, 1);
        return Answer(false);
      }
      reply := MarkVerified(q, sub.value, env, 1);
    }

    /** The two updates that apply a proposal and clear it. */
    method ApplyChange(ghost q: Request, id: string, patch: FilterPatch, env: nat -> Env, i: nat) returns (reply: Reply)
      requires TableOk(rows) && KeepsKeys(env) && q.ConfirmChange?
      modifies this
      ensures (View(), reply) == Drive(old(View()), q, Patching(id, patch), env, i)
    {
      hide TableOk, KeepsKeys, Drive, Rank, SubscribeStatement, RegisterStatement, HasEmptyList, Patched;
      DriveOnce(View(), q, Patching(id, patch), env, i);
      Await(env(i));
      var threw := UpdateSubscriptionFilters(id, patch);
      if threw {
        DriveEnds(View(), q, Done(Threw), env, i + 1);
        return Threw;
      }
      DriveOnce(View(), q, Clearing(id), env, i + 1);
      Await(env(i + 1));
      ClearPending(id);
      DriveEnds(View(), q, Done(Answer(true)), env, i + 2);
      return Answer(true);
    }

    method ConfirmFilterChange(token: string, env: nat -> Env) returns (reply: Reply)
      requires TableOk(rows) && KeepsKeys(env)
      modifies this
      ensures (View(), reply) == Drive(old(View()), ConfirmChange(token), SeekingChange, env, 0)
    {
      hide TableOk, KeepsKeys, Drive, Rank, SubscribeStatement, RegisterStatement, ByPendingToken, HasEmptyList;
      hide PatchOf;
      ghost var q := ConfirmChange(token);
      DriveOnce(View(), q, SeekingChange, env, 0);
      Await(env(0));
      var sub := ByPendingToken(rows, token, now);
      if sub.None? {
        DriveEnds(View(), q, Done(Answer(false)), env, 1);
        return Answer(false);
      }
      reply := ApplyChange(q, sub.value, PatchOf(rows[sub.value].pendingFilters), env, 1);
    }

    /** The signed test, and the update when the endpoint answers with 2xx. */
    method RunVerification(ghost q: Request, id: string, env: nat -> Env, i: nat) returns (reply: Reply)
      requires TableOk(rows) && KeepsKeys(env) && Fits(q, Testing(id))
      modifies this
      ensures (View(), reply) == Drive(old(View()), q, Testing(id), env, i)
    {
      hide TableOk, KeepsKeys, Drive, Rank, SubscribeStatement, RegisterStatement;
      DriveOnce(View(), q, Testing(id), env, i);
      Await(env(i));
      if !env(i).ok {
        DriveEnds(View(), q, Done(Answer(false)), env, i + 1);
        return Answer(false);
      }
      reply := MarkVerified(q, id, env, i + 1);
    }

    method RegisterWebhook(url: string, filters: Option<FilterPatch>, secret: Option<string>, allowed: bool,
                           env: nat -> Env)
      returns (reply: Reply)
      requires TableOk(rows) && KeepsKeys(env)
      modifies this
      ensures var q := Register(url, filters, secret, allowed);
              (View(), reply) == Drive(old(View()), q, First(q), env, 0)
    {
      ghost var q := Register(url, filters, secret, allowed);
      hide TableOk, KeepsKeys, Drive, Rank, SubscribeStatement, ByEndpoint, HasEmptyList, PatchOf, IsTaken;
      hide NewSubscription;
      if !allowed || HasEmptyList(PatchOf(filters)) {
        DriveEnds(View(), q, Done(Answer(false)), env, 0);
        return Answer(false);
      }
      DriveOnce(View(), q, SeekingUrl, env, 0);
      Await(env(0));
      var existing := ByEndpoint(rows, Webhook, url);
      if existing.Some? {
        if secret.None? || secret != rows[existing.value].secret {
          DriveEnds(View(), q, Done(Answer(false)), env, 1);
          return Answer(false);
        }
        reply := ReRegister(q, existing.value, filters, env, 1);
      } else if secret.Some? {
        DriveEnds(View(), q, Done(Answer(false)), env, 1);
        return Answer(false);
      } else {
        reply := RegisterNew(url, filters, allowed, env, 1);
      }
    }

    /** The owner's path: apply the filters asked for, then test. */
    method ReRegister(ghost q: Request, id: string, filters: Option<FilterPatch>, env: nat -> Env, i: nat)
      returns (reply: Reply)
      requires TableOk(rows) && KeepsKeys(env) && q.Register? && q.secret.Some? && q.allowed && q.filters == filters
      modifies this
      ensures (View(), reply) == Drive(old(View()), q, AfterUrl(q, id, q.secret), env, i)
    {
      hide TableOk, KeepsKeys, Drive, Rank, SubscribeStatement, HasEmptyList;
      if filters.None? {
        reply := RunVerification(q, id, env, i);
        return;
      }
      DriveOnce(View(), q, Patching(id, filters.value), env, i);
      Await(env(i));
      var threw := UpdateSubscriptionFilters(id, filters.value);
      if threw {
        DriveEnds(View(), q, Done(Answer(false)), env, i + 1);
        return Answer(false);
      }
      reply := RunVerification(q, id, env, i + 1);
    }

    /** The path of a registration that saw no row: insert, or, having lost the race, patch the winner's row. */
    method RegisterNew(url: string, filters: Option<FilterPatch>, allowed: bool, env: nat -> Env, i: nat)
      returns (reply: Reply)
      requires TableOk(rows) && KeepsKeys(env)
      modifies this
      ensures (View(), reply) == Drive(old(View()), Register(url, filters, None, allowed), Registering, env, i)
    {
      hide TableOk, KeepsKeys, Drive, Rank, SubscribeStatement, LinkStatement, ByEndpoint, HasEmptyList, PatchOf;
      hide IsTaken, NewSubscription;
      ghost var q := Register(url, filters, None, allowed);
      DriveOnce(View(), q, Registering, env, i);
      Await(env(i));
      var d := env(i).draw;
      var created := CreateSubscription(Webhook, url, PatchOf(filters), d);
      match created
      case EmptyList =>
        DriveEnds(View(), q, Done(Threw), env, i + 1);
        reply := Threw;
      case Stored =>
        reply := Registered(d.secret, d.unsubscribeToken);
        DriveEnds(View(), q, Done(reply), env, i + 1);
      case Conflict => reply := PatchAsLoser(q, url, filters, env, i + 1);
    }

    /** The path of a registration that lost the insert race: patch the winner's row, without a test. */
    method PatchAsLoser(ghost q: Request, url: string, filters: Option<FilterPatch>, env: nat -> Env, i: nat)
      returns (reply: Reply)
      requires TableOk(rows) && KeepsKeys(env)
      requires q.Register? && q.secret.None? && q.url == url && q.filters == filters
      modifies this
      ensures (View(), reply) == Drive(old(View()), q, SeekingWinner, env, i)
    {
      hide TableOk, KeepsKeys, Drive, Rank, SubscribeStatement, LinkStatement, ByEndpoint, HasEmptyList;
      DriveOnce(View(), q, SeekingWinner, env, i);
      Await(env(i));
      var winner := ByEndpoint(rows, Webhook, url);
      if winner.None? {
        DriveEnds(View(), q, Done(AlreadyExists), env, i + 1);
        return AlreadyExists;
      }
      reply := Answer(false);
      if filters.Some? {
        DriveOnce(View(), q, LoserPatching(winner.value), env, i + 1);
        Await(env(i + 1));
        var _ := UpdateSubscriptionFilters(winner.value, filters.value);
        DriveEnds(View(), q, Done(reply), env, i + 2);
      } else {
        DriveEnds(View(), q, Done(reply), env, i + 1);
      }
    }

    method SendWebhookTest(token: string, allowed: bool, env: nat -> Env) returns (reply: Reply)
      requires TableOk(rows) && KeepsKeys(env)
      modifies this
      ensures (View(), reply) == Drive(old(View()), SendTest(token, allowed), SeekingManaged, env, 0)
    {
      hide TableOk, KeepsKeys, Drive, Rank, SubscribeStatement, RegisterStatement, ByUnsubscribeToken;
      ghost var q := SendTest(token, allowed);
      DriveOnce(View(), q, SeekingManaged, env, 0);
      Await(env(0));
      var sub := ByUnsubscribeToken(rows, token);
      if sub.None? || rows[sub.value].channel != Webhook || rows[sub.value].secret.None?
         || rows[sub.value].secret == Some("") || !allowed
      {
        DriveEnds(View(), q, Done(Answer(false)), env, 1);
        return Answer(false);
      }
      RowHasItsId(rows, sub.value);
      reply := RunVerification(q, sub.value, env, 1);
    }

    method UnsubscribeByToken(token: string, env: nat -> Env) returns (reply: Reply)
      requires TableOk(rows) && KeepsKeys(env)
      modifies this
      ensures (View(), reply) == Drive(old(View()), Unsubscribe(token), SeekingManaged, env, 0)
    {
      hide TableOk, KeepsKeys, Drive, Rank, SubscribeStatement, RegisterStatement, ByUnsubscribeToken;
      ghost var q := Unsubscribe(token);
      DriveOnce(View(), q, SeekingManaged, env, 0);
      Await(env(0));
      var sub := ByUnsubscribeToken(rows, token);
      if sub.None? {
        DriveEnds(View(), q, Done(Answer(false)), env, 1);
        return Answer(false);
      }
      RowHasItsId(rows, sub.value);
      var entry := Deletion(sub.value, rows[sub.value].channel);
      DriveOnce(View(), q, Deleting(entry), env, 1);
      Await(env(1));
      rows := rows - {entry.id};
      deletions := deletions + [entry];
      DriveEnds(View(), q, Done(Answer(true)), env, 2);
      return Answer(true);
    }

    method UpdateFiltersByToken(token: string, patch: FilterPatch, env: nat -> Env) returns (reply: Reply)
      requires TableOk(rows) && KeepsKeys(env)
      modifies this
      ensures var q := ManageFilters(token, patch); (View(), reply) == Drive(old(View()), q, First(q), env, 0)
    {
      hide TableOk, KeepsKeys, Drive, Rank, SubscribeStatement, RegisterStatement, ByUnsubscribeToken, HasEmptyList;
      ghost var q := ManageFilters(token, patch);
      if HasEmptyList(patch) {
        DriveEnds(View(), q, Done(Threw), env, 0);
        return Threw;
      }
      DriveOnce(View(), q, SeekingManaged, env, 0);
      Await(env(0));
      var sub := ByUnsubscribeToken(rows, token);
      if sub.None? {
        DriveEnds(View(), q, Done(Answer(false)), env, 1);
        return Answer(false);
      }
      RowHasItsId(rows, sub.value);
      DriveOnce(View(), q, Patching(sub.value, patch), env, 1);
      Await(env(1));
      var _ := UpdateSubscriptionFilters(sub.value, patch);
      DriveEnds(View(), q, Done(Answer(true)), env, 2);
      return Answer(true);
    }
  }
}
