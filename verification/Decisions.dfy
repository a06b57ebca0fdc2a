/**
 * When each lifecycle command is accepted, what it is refused with and what it leaves, column by column
 * (src/core/announcements.ts).
 */
module Decisions {
  import opened Types
  import opened Text
  import opened Announcements

  /** Revision `k` is the newest of announcement `id`. */
  predicate IsNewest(rows: map<Key, Row>, id: string, k: Key) {
    k in rows && k.id == id && forall j :: j in rows && j.id == id ==> j.revision <= k.revision
  }

  predicate Exists(rows: map<Key, Row>, id: string) {
    exists k :: k in rows && k.id == id
  }

  lemma LatestIsNewest(rows: map<Key, Row>, id: string, k: Key)
    ensures Latest(rows, id) == Some(k) <==> IsNewest(rows, id, k)
    ensures Latest(rows, id).None? <==> !Exists(rows, id)
  {
  }

  /** Whoever the column names is `actor`, whatever the capitals. */
  predicate Names(column: Option<string>, actor: string) {
    column.Some? && |column.value| == |actor|
    && forall i :: 0 <= i < |actor| ==> LowerChar(column.value[i]) == LowerChar(actor[i])
  }

  lemma NamesIsSamePerson(column: Option<string>, actor: string)
    ensures Names(column, actor) <==> SamePerson(column, actor)
  {
    if column.Some? && Names(column, actor) {
      assert Lower(column.value) == Lower(actor);
    }
    if SamePerson(column, actor) {
      forall i | 0 <= i < |actor| ensures LowerChar(column.value[i]) == LowerChar(actor[i]) {
        assert Lower(column.value)[i] == Lower(actor)[i];
      }
    }
  }

  /** A transaction that is refused changes nothing. */
  predicate Refuses(s: Store, c: Command, e: Error) {
    Perform(s, c) == (s, Err(e))
  }

  /**
   * The transaction leaves row `k` as `r` and logs one entry; no other row, and nothing else but the outbox of
   * a row it publishes, changes.
   */
  predicate Leaves(s: Store, c: Command, k: Key, r: Row, action: AuditAction) {
    var (t, answer) := Perform(s, c);
    && answer == Ok(Announcement(k, r)) && t.rows == s.rows[k := r]
    && t.audit == s.audit + [Entry(c.actor, action, k, s.now)]
    && t == s.(rows := t.rows, audit := t.audit, ledger := t.ledger)
    && (r.status != Published ==> t.ledger == s.ledger)
  }

  /** Every command but createDraft answers for an unknown id. */
  lemma UnknownIdIsNotFound(s: Store, c: Command)
    requires !c.Create? && !Exists(s.rows, c.id)
    requires c.Schedule? ==> c.when.Some? && s.now < c.when.value
    requires c.Reject? ==> exists i :: 0 <= i < |c.reason| && !IsSpace(c.reason[i])
    ensures Refuses(s, c, NotFound(c.id))
  {
    hide Trim;
    LatestIsNewest(s.rows, c.id, Key(c.id, 0));
    if c.Reject? {
      TrimsToNothing(c.reason);
    }
  }

  /** Dates and reasons are checked before anything is looked up. */
  lemma ArgumentsAreCheckedFirst(s: Store, c: Command)
    ensures Refuses(s, c, InvalidDate) <==> c.Schedule? && c.when.None?
    ensures Refuses(s, c, PastDate) <==> c.Schedule? && c.when.Some? && c.when.value <= s.now
    ensures Refuses(s, c, ReasonRequired) <==>
            c.Reject? && forall i :: 0 <= i < |c.reason| ==> IsSpace(c.reason[i])
  {
    hide Trim;
    if c.Reject? {
      TrimsToNothing(c.reason);
    }
  }

  // ---- drafts -----------------------------------------------------------------------------------

  /** The `i`th slug that is tried: the base, then the base with a number from 2 on. */
  predicate IsCandidate(slug: string, base: string, i: nat) {
    if i == 1 then slug == base else i > 1 && slug == base + "-" + Decimal(i)
  }

  predicate IsFree(rows: map<Key, Row>, slug: string) {
    forall k :: k in rows ==> rows[k].slug != slug
  }

  ghost predicate IsFirstFree(rows: map<Key, Row>, base: string, slug: string, i: nat) {
    && 1 <= i <= 20 && IsCandidate(slug, base, i) && IsFree(rows, slug)
    && forall j, t :: 1 <= j < i && IsCandidate(t, base, j) ==> !IsFree(rows, t)
  }

  ghost predicate NoneFree(rows: map<Key, Row>, base: string) {
    forall j, t :: 1 <= j <= 20 && IsCandidate(t, base, j) ==> !IsFree(rows, t)
  }

  lemma {:induction false} FreeSlugIsFirst(rows: map<Key, Row>, base: string, i: nat)
    requires 1 <= i <= SLUG_ATTEMPTS + 1
    requires forall j, t :: 1 <= j < i && IsCandidate(t, base, j) ==> !IsFree(rows, t)
    ensures FreeSlug(rows, base, i).None? ==> NoneFree(rows, base)
    ensures FreeSlug(rows, base, i).Some? ==>
              exists n :: IsFirstFree(rows, base, FreeSlug(rows, base, i).value, n)
    decreases SLUG_ATTEMPTS + 1 - i
  {
    hide Decimal;
    if i <= SLUG_ATTEMPTS {
      if SlugTaken(rows, SlugCandidate(base, i)) {
        FreeSlugIsFirst(rows, base, i + 1);
      } else {
        assert IsFirstFree(rows, base, SlugCandidate(base, i), i);
      }
    }
  }

  /** The row a new revision starts as. */
  function Fresh(content: Content, slug: string, actor: string): Row {
    Row(content, slug, actor, Draft, None, None, None, None, None, None)
  }

  /** createDraft: under the first of 20 slugs no row has, unless none is left or the id exists. */
  lemma CreateAnswers(s: Store, c: Command)
    requires c.Create?
    ensures Refuses(s, c, NoFreeSlug(c.base)) <==> NoneFree(s.rows, c.base)
    ensures Refuses(s, c, DuplicateKey) <==> !NoneFree(s.rows, c.base) && Key(c.id, 1) in s.rows
    ensures !NoneFree(s.rows, c.base) && Key(c.id, 1) !in s.rows ==>
              exists slug, n :: IsFirstFree(s.rows, c.base, slug, n)
                                && Leaves(s, c, Key(c.id, 1), Fresh(c.content, slug, c.actor), DraftCreated)
  {
    hide FreeSlug, Decimal, IsCandidate, Leaves;
    FreeSlugIsFirst(s.rows, c.base, 1);
    var slug := FreeSlug(s.rows, c.base, 1);
    if slug.Some? && Key(c.id, 1) !in s.rows {
      CreateLeaves(s, c, slug.value);
    }
  }

  lemma CreateLeaves(s: Store, c: Command, slug: string)
    requires c.Create? && FreeSlug(s.rows, c.base, 1) == Some(slug) && Key(c.id, 1) !in s.rows
    ensures Leaves(s, c, Key(c.id, 1), Fresh(c.content, slug, c.actor), DraftCreated)
  {
    hide FreeSlug;
  }

  /** reviseDraft: only a draft is revised, by a new revision under the same slug; the old one stays. */
  lemma ReviseAnswers(s: Store, c: Command, k: Key)
    requires c.Revise? && IsNewest(s.rows, c.id, k)
    ensures var o := s.rows[k];
            && (Refuses(s, c, WrongStatus(o.status)) <==> o.status != Draft)
            && (o.status == Draft ==>
                  Leaves(s, c, Key(k.id, k.revision + 1), Fresh(c.content, o.slug, c.actor), DraftEdited))
  {
    LatestIsNewest(s.rows, c.id, k);
  }

  /** discardDraft. */
  lemma DiscardAnswers(s: Store, c: Command, k: Key)
    requires c.Discard? && IsNewest(s.rows, c.id, k)
    ensures var o := s.rows[k];
            && (Refuses(s, c, WrongStatus(o.status)) <==> o.status != Draft)
            && (o.status == Draft ==> Leaves(s, c, k, o.(status := Discarded), DraftDiscarded))
  {
    LatestIsNewest(s.rows, c.id, k);
  }

  // ---- asking -----------------------------------------------------------------------------------

  /** requestPublish: a draft that is not critical goes out at once; a critical one waits for somebody else. */
  lemma RequestAnswers(s: Store, c: Command, k: Key)
    requires c.Request? && IsNewest(s.rows, c.id, k)
    ensures var o := s.rows[k];
            && (Refuses(s, c, WrongStatus(o.status)) <==> o.status != Draft)
            && (o.status == Draft && o.content.severity == Critical ==>
                  Leaves(s, c, k, o.(status := PublishRequested, requestedBy := Some(c.actor)), RequestFiled))
            && (o.status == Draft && o.content.severity != Critical ==>
                  Leaves(s, c, k, o.(status := Published, publishedAt := Some(s.now), confirmedBy := Some(c.actor)),
                         PublishConfirmed))
  {
    LatestIsNewest(s.rows, c.id, k);
  }

  /** schedulePublish: a future time for a draft; a critical one waits for somebody else. */
  lemma ScheduleAnswers(s: Store, c: Command, k: Key)
    requires c.Schedule? && IsNewest(s.rows, c.id, k) && c.when.Some? && s.now < c.when.value
    ensures var o, t := s.rows[k], c.when.value;
            && (Refuses(s, c, WrongStatus(o.status)) <==> o.status != Draft)
            && (o.status == Draft && o.content.severity == Critical ==>
                  Leaves(s, c, k,
                         o.(status := PublishRequested, scheduledFor := Some(t), requestedBy := Some(c.actor)),
                         PublishScheduled(t, PublishRequested)))
            && (o.status == Draft && o.content.severity != Critical ==>
                  Leaves(s, c, k, o.(status := Scheduled, scheduledFor := Some(t), requestedBy := None),
                         PublishScheduled(t, Scheduled)))
  {
    LatestIsNewest(s.rows, c.id, k);
  }

  // ---- approving --------------------------------------------------------------------------------

  /** confirmPublish: a request without a set time, and for a critical row by somebody else than asked. */
  lemma ConfirmAnswers(s: Store, c: Command, k: Key)
    requires c.Confirm? && IsNewest(s.rows, c.id, k)
    ensures var o := s.rows[k];
            var own := o.content.severity == Critical && Names(o.requestedBy, c.actor);
            && (Refuses(s, c, WrongStatus(o.status)) <==> o.status != PublishRequested)
            && (Refuses(s, c, UseConfirmSchedule) <==> o.status == PublishRequested && o.scheduledFor.Some?)
            && (Refuses(s, c, FourEyes) <==> o.status == PublishRequested && o.scheduledFor.None? && own)
            && (o.status == PublishRequested && o.scheduledFor.None? && !own ==>
                  Leaves(s, c, k, o.(status := Published, publishedAt := Some(s.now), confirmedBy := Some(c.actor)),
                         PublishConfirmed))
  {
    LatestIsNewest(s.rows, c.id, k);
    NamesIsSamePerson(s.rows[k].requestedBy, c.actor);
    hide Names, SamePerson;
  }

  /** confirmSchedule: a request with a set time, and for a critical row by somebody else than asked. */
  lemma ConfirmScheduleAnswers(s: Store, c: Command, k: Key)
    requires c.ConfirmSchedule? && IsNewest(s.rows, c.id, k)
    ensures var o := s.rows[k];
            var own := o.content.severity == Critical && Names(o.requestedBy, c.actor);
            && (Refuses(s, c, WrongStatus(o.status)) <==> o.status != PublishRequested)
            && (Refuses(s, c, UseConfirmPublish) <==> o.status == PublishRequested && o.scheduledFor.None?)
            && (Refuses(s, c, FourEyes) <==> o.status == PublishRequested && o.scheduledFor.Some? && own)
            && (o.status == PublishRequested && o.scheduledFor.Some? && !own ==>
                  Leaves(s, c, k, o.(status := Scheduled, confirmedBy := Some(c.actor)),
                         ScheduleConfirmed(o.scheduledFor)))
  {
    LatestIsNewest(s.rows, c.id, k);
    NamesIsSamePerson(s.rows[k].requestedBy, c.actor);
    hide Names, SamePerson;
  }

  // ---- taking back ------------------------------------------------------------------------------

  /** The draft a taken-back row becomes. */
  function Back(o: Row, rejectedBy: Option<string>, reason: Option<string>): Row {
    Row(o.content, o.slug, o.createdBy, Draft, None, o.confirmedBy, o.publishedAt, None, rejectedBy, reason)
  }

  /** cancelSchedule: a schedule, or a request for one; by anybody. */
  lemma CancelAnswers(s: Store, c: Command, k: Key)
    requires c.Cancel? && IsNewest(s.rows, c.id, k)
    ensures var o := s.rows[k];
            var planned := o.status == Scheduled || (o.status == PublishRequested && o.scheduledFor.Some?);
            && (Refuses(s, c, WrongStatus(o.status)) <==> !planned)
            && (planned ==>
                  Leaves(s, c, k, Back(o, None, None).(confirmedBy := None), ScheduleCancelled(o.scheduledFor)))
  {
    LatestIsNewest(s.rows, c.id, k);
  }

  /** withdrawPublish: a request, by the publisher who made it, under any capitals. */
  lemma WithdrawAnswers(s: Store, c: Command, k: Key)
    requires c.Withdraw? && IsNewest(s.rows, c.id, k)
    ensures var o := s.rows[k];
            && (Refuses(s, c, WrongStatus(o.status)) <==> o.status != PublishRequested)
            && (Refuses(s, c, NotRequester) <==> o.status == PublishRequested && !Names(o.requestedBy, c.actor))
            && (o.status == PublishRequested && Names(o.requestedBy, c.actor) ==>
                  Leaves(s, c, k, Back(o, None, None), RequestWithdrawn))
  {
    LatestIsNewest(s.rows, c.id, k);
    NamesIsSamePerson(s.rows[k].requestedBy, c.actor);
    hide Names, SamePerson;
  }

  /** rejectPublish: a request, by anybody but the publisher who made it, with a reason that is not blank. */
  lemma RejectAnswers(s: Store, c: Command, k: Key)
    requires c.Reject? && IsNewest(s.rows, c.id, k) && exists i :: 0 <= i < |c.reason| && !IsSpace(c.reason[i])
    ensures var o := s.rows[k];
            && (Refuses(s, c, WrongStatus(o.status)) <==> o.status != PublishRequested)
            && (Refuses(s, c, OwnRequest) <==> o.status == PublishRequested && Names(o.requestedBy, c.actor))
            && (o.status == PublishRequested && !Names(o.requestedBy, c.actor) ==>
                  Leaves(s, c, k, Back(o, Some(c.actor), Some(Trim(c.reason))), RequestRejected(Trim(c.reason))))
  {
    LatestIsNewest(s.rows, c.id, k);
    NamesIsSamePerson(s.rows[k].requestedBy, c.actor);
    TrimsToNothing(c.reason);
    hide Names, SamePerson, Trim;
  }
}
