/** What the alerter looks for (src/core/health.ts) and how it names a finding (src/core/alerts.ts). */
module Health {
  import opened Types
  import opened Text

  const HOUR := 3_600_000
  const GRACE := 1_800_000

  datatype IssueKind = ExhaustedRow | NoDelivery | PublishFailed

  /** A delivery problem; its human-readable detail is not modelled. */
  datatype Issue = Issue(kind: IssueKind, target: Target, key: Key)

  predicate SaysFailed(note: Option<string>) {
    note.Some? && "failed:" <= note.value
  }

  predicate IsExhausted(d: Delivery, now: int, since: int) {
    d.status == Exhausted && d.nextAt > now - since
  }

  predicate IsUnpublished(d: Delivery, now: int, since: int) {
    d.status == Delivered && SaysFailed(d.note) && d.deliveredAt.Some? && d.deliveredAt.value > now - since
  }

  predicate SameGroup(j: LedgerKey, k: LedgerKey) {
    j.key == k.key && j.target == k.target
  }

  /** The group of `k` belongs to a recent enough publish, has no success yet, and is not all given up. */
  predicate IsSilent(rows: map<Key, Row>, ledger: map<LedgerKey, Delivery>, k: LedgerKey, now: int, since: int) {
    && k.key in rows && rows[k.key].status == Published && rows[k.key].publishedAt.Some?
    && now - since < rows[k.key].publishedAt.value < now - GRACE
    && (forall j :: j in ledger && SameGroup(j, k) ==> ledger[j].status != Delivered)
    && (exists j :: j in ledger && SameGroup(j, k) && ledger[j].status != Exhausted)
  }

  function ExhaustedIssues(ledger: map<LedgerKey, Delivery>, now: int, since: int): set<Issue> {
    set k | k in ledger && IsExhausted(ledger[k], now, since) :: Issue(ExhaustedRow, k.target, k.key)
  }

  function UnpublishedIssues(ledger: map<LedgerKey, Delivery>, now: int, since: int): set<Issue> {
    set k | k in ledger && IsUnpublished(ledger[k], now, since) :: Issue(PublishFailed, k.target, k.key)
  }

  function SilentIssues(rows: map<Key, Row>, ledger: map<LedgerKey, Delivery>, now: int, since: int): set<Issue> {
    set k | k in ledger && IsSilent(rows, ledger, k, now, since) :: Issue(NoDelivery, k.target, k.key)
  }

  function Issues(rows: map<Key, Row>, ledger: map<LedgerKey, Delivery>, hasNote: bool, now: int,
                  since: int): set<Issue>
  {
    ExhaustedIssues(ledger, now, since)
    + (if hasNote then UnpublishedIssues(ledger, now, since) else {})
    + SilentIssues(rows, ledger, now, since)
  }

  // ---- alert keys -----------------------------------------------------------------------------

  function KindName(k: IssueKind): string {
    match k
    case ExhaustedRow => "exhausted"
    case NoDelivery => "no_delivery"
    case PublishFailed => "publish_failed"
  }

  function ChannelName(c: Channel): string {
    match c
    case Discord => "discord"
    case Telegram => "telegram"
    case Signal => "signal"
    case Email => "email"
    case Webhook => "webhook"
  }

  function AlertKey(i: Issue): string {
    KindName(i.kind) + ":" + (ChannelName(i.target.channel) + ":"
    + (i.target.target + ":" + (i.key.id + ":" + Decimal(i.key.revision))))
  }

  function AlertKeys(issues: set<Issue>): set<string> {
    set i | i in issues :: AlertKey(i)
  }

  /** Everything before the colon of `a + ":" + x` is `a`, so no earlier character is a colon. */
  lemma ColonFreePrefix(a: string, x: string, i: nat)
    requires ':' !in a && i < |a|
    ensures (a + ":" + x)[i] != ':'
  {
    assert (a + ":" + x)[i] == a[i];
  }

  lemma ColonFreeSuffix(x: string, a: string, i: nat)
    requires ':' !in a && |x| < i < |x| + 1 + |a|
    ensures (x + ":" + a)[i] != ':'
  {
    assert (x + ":" + a)[i] == a[i - |x| - 1];
  }

  lemma FirstColon(a: string, x: string, b: string, y: string)
    requires ':' !in a && ':' !in b && a + ":" + x == b + ":" + y
    ensures a == b && x == y
  {
    var s := a + ":" + x;
    assert s[|a|] == ':' && s[|b|] == ':';
    forall i: nat | i < |a| ensures s[i] != ':' { ColonFreePrefix(a, x, i); }
    forall i: nat | i < |b| ensures s[i] != ':' { ColonFreePrefix(b, y, i); }
    assert |a| == |b|;
    assert a == s[..|a|] && b == s[..|b|];
    assert x == s[|a| + 1..] && y == s[|b| + 1..];
  }

  lemma LastColon(x: string, a: string, y: string, b: string)
    requires ':' !in a && ':' !in b && x + ":" + a == y + ":" + b
    ensures x == y && a == b
  {
    var s := x + ":" + a;
    assert s[|x|] == ':' && s[|y|] == ':';
    forall i: nat | |x| < i < |s| ensures s[i] != ':' { ColonFreeSuffix(x, a, i); }
    forall i: nat | |y| < i < |s| ensures s[i] != ':' { ColonFreeSuffix(y, b, i); }
    assert |x| == |y|;
    assert x == s[..|x|] && y == s[..|y|];
    assert a == s[|x| + 1..] && b == s[|y| + 1..];
  }

  lemma Regroup(a: string, b: string, c: string)
    ensures a + ":" + (b + ":" + c) == a + ":" + b + ":" + c
  {
  }

  lemma NamesHaveNoColon(i: Issue)
    ensures ':' !in KindName(i.kind) && ':' !in ChannelName(i.target.channel) && ':' !in Decimal(i.key.revision)
  {
    DecimalValue(i.key.revision);
    hide Decimal;
  }

  lemma NamesIdentify(i: Issue, j: Issue)
    ensures KindName(i.kind) == KindName(j.kind) ==> i.kind == j.kind
    ensures ChannelName(i.target.channel) == ChannelName(j.target.channel) ==> i.target.channel == j.target.channel
  {
  }

  lemma AlertKeySplits(i: Issue)
    ensures AlertKey(i) == KindName(i.kind) + ":" + (ChannelName(i.target.channel) + ":"
                           + (i.target.target + ":" + (i.key.id + ":" + Decimal(i.key.revision))))
  {
    hide KindName, ChannelName, Decimal;
  }

  /** `long` is some text, a colon and `short`. */
  predicate EndsAfterColon(long: string, short: string) {
    |short| < |long| && long[|long| - |short| - 1] == ':' && long[|long| - |short|..] == short
  }

  /** What stands before the colon. */
  function Before(long: string, short: string): string
    requires EndsAfterColon(long, short)
  {
    long[..|long| - |short| - 1]
  }

  lemma EndsAfterColonIs(long: string, short: string)
    ensures EndsAfterColon(long, short) ==> long == Before(long, short) + ":" + short
    ensures forall w :: long == w + ":" + short ==> EndsAfterColon(long, short) && w == Before(long, short)
  {
    forall w | long == w + ":" + short ensures EndsAfterColon(long, short) && w == Before(long, short) {
      assert long[|w|] == ':' && long[|w| + 1..] == short && long[..|w|] == w;
    }
  }

  /** `i` and `j` differ by a colon and a text that the one has in its target and the other in its id. */
  predicate IsShifted(i: Issue, j: Issue) {
    && i.kind == j.kind && i.target.channel == j.target.channel && i.key.revision == j.key.revision
    && EndsAfterColon(j.key.id, i.key.id)
    && i.target.target == j.target.target + ":" + Before(j.key.id, i.key.id)
  }

  /** Where two texts joined with a colon can be cut. */
  lemma CutAtAnotherColon(s: string, a: string, t: string, b: string)
    requires |s| >= |t|
    ensures s + ":" + a == t + ":" + b <==>
            (s == t && a == b) || (EndsAfterColon(b, a) && s == t + ":" + Before(b, a))
  {
    var x, y := s + ":" + a, t + ":" + b;
    EndsAfterColonIs(b, a);
    if x == y {
      assert s == x[..|s|] && a == x[|s| + 1..] && t == x[..|t|] && b == x[|t| + 1..] && x[|s|] == x[|t|] == ':';
      if |s| > |t| {
        var w := x[|t| + 1..|s|];
        assert s == t + ":" + w && b == w + ":" + a;
      }
    }
  }

  lemma SamePlaces(i: Issue, j: Issue)
    ensures AlertKey(i) == AlertKey(j) <==>
            && i.kind == j.kind && i.target.channel == j.target.channel && i.key.revision == j.key.revision
            && i.target.target + ":" + i.key.id == j.target.target + ":" + j.key.id
  {
    NamesHaveNoColon(i);
    NamesHaveNoColon(j);
    AlertKeySplits(i);
    AlertKeySplits(j);
    NamesIdentify(i, j);
    hide AlertKey, KindName, ChannelName, Decimal, IsDigit;
    Regroup(i.target.target, i.key.id, Decimal(i.key.revision));
    Regroup(j.target.target, j.key.id, Decimal(j.key.revision));
    var ri := i.target.target + ":" + (i.key.id + ":" + Decimal(i.key.revision));
    var rj := j.target.target + ":" + (j.key.id + ":" + Decimal(j.key.revision));
    if AlertKey(i) == AlertKey(j) {
      FirstColon(KindName(i.kind), ChannelName(i.target.channel) + ":" + ri,
                 KindName(j.kind), ChannelName(j.target.channel) + ":" + rj);
      FirstColon(ChannelName(i.target.channel), ri, ChannelName(j.target.channel), rj);
      LastColon(i.target.target + ":" + i.key.id, Decimal(i.key.revision), j.target.target + ":" + j.key.id,
                Decimal(j.key.revision));
      DecimalValue(i.key.revision);
      DecimalValue(j.key.revision);
    }
  }

  /**
   * Exactly when two problems share a key: they are one problem, or everything agrees except that the id of one
   * is a text, a colon and the id of the other, and the other's target ends in that colon and text.
   */
  lemma AlertKeysCollideExactly(i: Issue, j: Issue)
    ensures AlertKey(i) == AlertKey(j) <==> i == j || IsShifted(i, j) || IsShifted(j, i)
  {
    hide AlertKey;
    SamePlaces(i, j);
    if |i.target.target| >= |j.target.target| {
      CutAtAnotherColon(i.target.target, i.key.id, j.target.target, j.key.id);
    } else {
      CutAtAnotherColon(j.target.target, j.key.id, i.target.target, i.key.id);
    }
  }

  /** Targets may contain colons; as long as announcement ids do not, a key names one problem. */
  lemma AlertKeyInjective(i: Issue, j: Issue)
    requires ':' !in i.key.id && ':' !in j.key.id
    requires AlertKey(i) == AlertKey(j)
    ensures i == j
  {
    hide AlertKey;
    AlertKeysCollideExactly(i, j);
  }

  /** Over these announcement ids a key names one problem, whatever kinds, targets and revisions there are. */
  ghost predicate KeysTellApart(ids: set<string>) {
    forall i: Issue, j: Issue :: i.key.id in ids && j.key.id in ids && AlertKey(i) == AlertKey(j) ==> i == j
  }

  /** The condition on the ids: none is some text, a colon and another one. */
  lemma KeysTellApartExactly(ids: set<string>)
    ensures KeysTellApart(ids) <==> forall a, b :: a in ids && b in ids ==> !EndsAfterColon(b, a)
  {
    hide AlertKey;
    if a, b :| a in ids && b in ids && EndsAfterColon(b, a) {
      var i := Issue(ExhaustedRow, Target(Email, "" + ":" + Before(b, a)), Key(a, 1));
      var j := Issue(ExhaustedRow, Target(Email, ""), Key(b, 1));
      AlertKeysCollideExactly(i, j);
      assert i.key.id in ids && j.key.id in ids && AlertKey(i) == AlertKey(j) && i != j;
    } else {
      forall i: Issue, j: Issue | i.key.id in ids && j.key.id in ids && AlertKey(i) == AlertKey(j) ensures i == j {
        AlertKeysCollideExactly(i, j);
      }
    }
  }

  /** newAnnouncementId: `ann_` and a ULID, which is digits and capital letters. */
  predicate IsGenerated(id: string) {
    "ann_" <= id && forall c :: c in id[4..] ==> IsDigit(c) || 'A' <= c <= 'Z'
  }

  /** Ids as they are generated meet it. */
  lemma GeneratedIdsTellApart(ids: set<string>)
    requires forall id :: id in ids ==> IsGenerated(id)
    ensures KeysTellApart(ids)
  {
    hide AlertKey;
    KeysTellApartExactly(ids);
    forall a, b | a in ids && b in ids ensures !EndsAfterColon(b, a) {
      assert b == b[..4] + b[4..] && b[..4] == "ann_";
      assert IsGenerated(b) && ':' !in b;
    }
  }
}
