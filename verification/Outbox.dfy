/** Which destinations an announcement reaches, and the rows that says so (src/core/outbox.ts). */
module Outbox {
  import opened Types

  predicate Intersects<T(==)>(a: seq<T>, b: seq<T>) {
    exists v :: v in a && v in b
  }

  function SettingNetworks(s: Setting): seq<Network> {
    if s.networks.Some? then s.networks.value else [Mainnet, Testnet]
  }

  function SettingTypes(s: Setting): seq<AnnouncementType> {
    if s.types.Some? then s.types.value else [Upgrade, Governance, Info]
  }

  predicate MatchesSetting(c: Content, s: Setting) {
    Intersects(SettingNetworks(s), c.networks) && c.kind in SettingTypes(s)
  }

  predicate MatchesSubscription(c: Content, s: Subscription) {
    && Intersects(c.networks, s.filters.networks)
    && c.kind in s.filters.types
    && c.severity in s.filters.severities
    && Intersects(c.audiences, s.filters.audiences)
  }

  function BroadcastTargets(c: Content, settings: seq<Setting>): seq<Target> {
    if settings == [] then []
    else
      (if MatchesSetting(c, settings[0]) then [Target(settings[0].channel, settings[0].key)] else [])
      + BroadcastTargets(c, settings[1..])
  }

  /** The verified subscribers that match, in table order. */
  function SubscriberTargets(c: Content, subs: seq<Subscription>): seq<Target> {
    if subs == [] then []
    else
      SubscriberTargets(c, subs[..|subs| - 1])
      + (var s := subs[|subs| - 1];
         if s.verified && MatchesSubscription(c, s) then [Target(s.channel, s.id)] else [])
  }

  function OnlyEnabled(ts: seq<Target>, enabled: set<Channel>): (r: seq<Target>)
    ensures forall t :: t in r <==> t in ts && t.channel in enabled
  {
    if ts == [] then []
    else (if ts[0].channel in enabled then [ts[0]] else []) + OnlyEnabled(ts[1..], enabled)
  }

  function FanoutTargets(c: Content, settings: seq<Setting>, subs: seq<Subscription>,
                         enabled: set<Channel>): seq<Target>
  {
    OnlyEnabled(BroadcastTargets(c, settings) + SubscriberTargets(c, subs), enabled)
  }

  /** A row as its column defaults create it, inside a transaction that began at `now`. */
  function NewDelivery(now: int): Delivery {
    Delivery(Pending, 0, now, None, None, None)
  }

  /** `insert … on conflict do nothing`, one statement per target: the new ledger and the rows it added. */
  function Enqueue(ledger: map<LedgerKey, Delivery>, key: Key, kind: Kind, targets: seq<Target>, now: int)
    : (map<LedgerKey, Delivery>, nat)
  {
    if targets == [] then (ledger, 0)
    else
      var (before, n) := Enqueue(ledger, key, kind, targets[..|targets| - 1], now);
      var k := LedgerKey(key, kind, targets[|targets| - 1]);
      if k in before then (before, n) else (before[k := NewDelivery(now)], n + 1)
  }

  predicate Distinct<T(==)>(s: seq<T>) {
    forall i, j :: 0 <= i < j < |s| ==> s[i] != s[j]
  }

  /** The primary keys and the channel checks of the two source tables. */
  predicate TablesOk(settings: seq<Setting>, subs: seq<Subscription>) {
    && (forall i, j :: 0 <= i < j < |settings| ==> settings[i].key != settings[j].key)
    && (forall i, j :: 0 <= i < j < |subs| ==> subs[i].id != subs[j].id)
    && (forall s :: s in settings ==> IsBroadcast(s.channel))
    && (forall s :: s in subs ==> s.channel.Email? || s.channel.Webhook?)
  }

  lemma {:induction false} BroadcastTargetsMembers(c: Content, settings: seq<Setting>)
    ensures forall t :: t in BroadcastTargets(c, settings) <==>
              exists s :: s in settings && MatchesSetting(c, s) && t == Target(s.channel, s.key)
  {
    if settings != [] {
      BroadcastTargetsMembers(c, settings[1..]);
      assert settings == [settings[0]] + settings[1..];
    }
  }

  lemma {:induction false} SubscriberTargetsMembers(c: Content, subs: seq<Subscription>)
    ensures forall t :: t in SubscriberTargets(c, subs) <==>
              exists s :: s in subs && s.verified && MatchesSubscription(c, s) && t == Target(s.channel, s.id)
  {
    if subs != [] {
      var init := subs[..|subs| - 1];
      SubscriberTargetsMembers(c, init);
      assert subs == init + [subs[|subs| - 1]];
    }
  }

  /** Exactly the enabled broadcast settings and verified subscribers that match receive the announcement. */
  lemma TargetsAreExactlyTheMatches(c: Content, settings: seq<Setting>, subs: seq<Subscription>, enabled: set<Channel>,
                                    t: Target)
    ensures t in FanoutTargets(c, settings, subs, enabled) <==>
            && t.channel in enabled
            && (|| (exists s :: s in settings && MatchesSetting(c, s) && t == Target(s.channel, s.key))
                || (exists s :: s in subs && s.verified && MatchesSubscription(c, s) && t == Target(s.channel, s.id)))
  {
    BroadcastTargetsMembers(c, settings);
    SubscriberTargetsMembers(c, subs);
  }

  /** What a subscriber's four lists say: a network and an audience in common, the kind and the severity listed. */
  predicate Wants(s: Subscription, c: Content) {
    && s.verified
    && (exists n :: n in s.filters.networks && n in c.networks)
    && c.kind in s.filters.types
    && c.severity in s.filters.severities
    && (exists a :: a in s.filters.audiences && a in c.audiences)
  }

  /** What a destination's settings say; without lists it takes every kind, and every content with a network. */
  predicate Takes(s: Setting, c: Content) {
    && (match s.networks
        case None => c.networks != []
        case Some(listed) => exists n :: n in listed && n in c.networks)
    && (match s.types
        case None => true
        case Some(listed) => c.kind in listed)
  }

  lemma MatchingIsWanting(c: Content, s: Subscription)
    ensures s.verified && MatchesSubscription(c, s) <==> Wants(s, c)
  {
  }

  lemma MatchingIsTaking(c: Content, s: Setting)
    ensures MatchesSetting(c, s) <==> Takes(s, c)
  {
    assert [Mainnet, Testnet][0] == Mainnet && [Mainnet, Testnet][1] == Testnet;
    var types := [Upgrade, Governance, Info];
    assert c.kind.Upgrade? || c.kind.Governance? || c.kind.Info?;
    assert types[0] == Upgrade && types[1] == Governance && types[2] == Info;
    if s.networks.None? && c.networks != [] {
      var n := c.networks[0];
      assert n.Mainnet? || n.Testnet?;
      assert n in SettingNetworks(s) && n in c.networks;
    }
  }

  /** Of the stored subscribers of enabled channels, exactly those whose lists meet the content are chosen. */
  lemma SubscribersAreChosenByTheirLists(c: Content, settings: seq<Setting>, subs: seq<Subscription>,
                                         enabled: set<Channel>, s: Subscription)
    requires TablesOk(settings, subs) && s in subs
    ensures Target(s.channel, s.id) in FanoutTargets(c, settings, subs, enabled) <==>
            s.channel in enabled && Wants(s, c)
  {
    TargetsAreExactlyTheMatches(c, settings, subs, enabled, Target(s.channel, s.id));
    MatchingIsWanting(c, s);
    hide MatchesSubscription, MatchesSetting, Wants, FanoutTargets;
  }

  /** And so for the destinations of enabled channels. */
  lemma DestinationsAreChosenByTheirLists(c: Content, settings: seq<Setting>, subs: seq<Subscription>,
                                          enabled: set<Channel>, s: Setting)
    requires TablesOk(settings, subs) && s in settings
    ensures Target(s.channel, s.key) in FanoutTargets(c, settings, subs, enabled) <==>
            s.channel in enabled && Takes(s, c)
  {
    TargetsAreExactlyTheMatches(c, settings, subs, enabled, Target(s.channel, s.key));
    MatchingIsTaking(c, s);
    hide MatchesSubscription, MatchesSetting, Takes, FanoutTargets;
  }

  /** Nobody else is. */
  lemma OnlyTheStoredAreChosen(c: Content, settings: seq<Setting>, subs: seq<Subscription>, enabled: set<Channel>,
                               t: Target)
    requires t in FanoutTargets(c, settings, subs, enabled)
    ensures t.channel in enabled
    ensures (exists s :: s in subs && t == Target(s.channel, s.id) && Wants(s, c))
            || (exists s :: s in settings && t == Target(s.channel, s.key) && Takes(s, c))
  {
    TargetsAreExactlyTheMatches(c, settings, subs, enabled, t);
    hide MatchesSubscription, MatchesSetting, Takes, Wants, FanoutTargets;
    if s :| s in subs && s.verified && MatchesSubscription(c, s) && t == Target(s.channel, s.id) {
      MatchingIsWanting(c, s);
    } else {
      var s :| s in settings && MatchesSetting(c, s) && t == Target(s.channel, s.key);
      MatchingIsTaking(c, s);
    }
  }

  lemma {:induction false} BroadcastTargetsDistinct(c: Content, settings: seq<Setting>)
    requires forall i, j :: 0 <= i < j < |settings| ==> settings[i].key != settings[j].key
    ensures Distinct(BroadcastTargets(c, settings))
  {
    if settings != [] {
      BroadcastTargetsDistinct(c, settings[1..]);
      BroadcastTargetsMembers(c, settings[1..]);
      var rest := BroadcastTargets(c, settings[1..]);
      assert Target(settings[0].channel, settings[0].key) !in rest;
      assert forall i :: 0 <= i < |rest| ==> rest[i] in rest;
    }
  }

  lemma {:induction false} SubscriberTargetsDistinct(c: Content, subs: seq<Subscription>)
    requires forall i, j :: 0 <= i < j < |subs| ==> subs[i].id != subs[j].id
    ensures Distinct(SubscriberTargets(c, subs))
  {
    if subs != [] {
      SubscriberTargetsDistinct(c, subs[..|subs| - 1]);
      SubscriberTargetsMembers(c, subs[..|subs| - 1]);
      var init, last := SubscriberTargets(c, subs[..|subs| - 1]), subs[|subs| - 1];
      assert Target(last.channel, last.id) !in init;
      assert forall i :: 0 <= i < |init| ==> init[i] in init;
    }
  }

  lemma {:induction false} OnlyEnabledDistinct(ts: seq<Target>, enabled: set<Channel>)
    requires Distinct(ts)
    ensures Distinct(OnlyEnabled(ts, enabled))
  {
    if ts != [] {
      OnlyEnabledDistinct(ts[1..], enabled);
      assert ts[0] !in ts[1..];
    }
  }

  lemma TargetsDistinct(c: Content, settings: seq<Setting>, subs: seq<Subscription>, enabled: set<Channel>)
    requires TablesOk(settings, subs)
    ensures Distinct(FanoutTargets(c, settings, subs, enabled))
  {
    BroadcastTargetsDistinct(c, settings);
    SubscriberTargetsDistinct(c, subs);
    BroadcastTargetsMembers(c, settings);
    SubscriberTargetsMembers(c, subs);
    var b, v := BroadcastTargets(c, settings), SubscriberTargets(c, subs);
    forall i, j | 0 <= i < j < |b + v| ensures (b + v)[i] != (b + v)[j] {
      if i < |b| && j >= |b| {
        assert (b + v)[i] in b && (b + v)[j] in v;
      }
    }
    OnlyEnabledDistinct(b + v, enabled);
  }

  /** Enqueueing adds one pending row for every target not already there, and touches no other row. */
  lemma {:induction false} EnqueueAdds(ledger: map<LedgerKey, Delivery>, key: Key, kind: Kind, targets: seq<Target>,
                                       now: int)
    ensures var l := Enqueue(ledger, key, kind, targets, now).0;
            && (forall k :: k in l <==> k in ledger || (k.key == key && k.kind == kind && k.target in targets))
            && (forall k :: k in l ==> l[k] == if k in ledger then ledger[k] else NewDelivery(now))
  {
    if targets != [] {
      var init := targets[..|targets| - 1];
      EnqueueAdds(ledger, key, kind, init, now);
      assert targets == init + [targets[|targets| - 1]];
    }
  }

  /** With distinct targets and no earlier row for the announcement, every target is inserted. */
  lemma {:induction false} EnqueueInsertsEveryTarget(ledger: map<LedgerKey, Delivery>, key: Key, kind: Kind,
                                                     targets: seq<Target>, now: int)
    requires Distinct(targets)
    requires forall k :: k in ledger ==> k.key != key
    ensures Enqueue(ledger, key, kind, targets, now).1 == |targets|
  {
    if targets != [] {
      var init := targets[..|targets| - 1];
      EnqueueInsertsEveryTarget(ledger, key, kind, init, now);
      EnqueueAdds(ledger, key, kind, init, now);
      assert targets[|targets| - 1] !in init;
    }
  }

  /**
   * The imperative form of countFanoutTargets: broadcast targets first, one push per matching
   * verified subscriber, one filter over both.
   */
  method CountFanoutTargets(c: Content, settings: seq<Setting>, subs: seq<Subscription>, enabled: set<Channel>)
    returns (targets: seq<Target>)
    ensures targets == FanoutTargets(c, settings, subs, enabled)
  {
    targets := BroadcastTargets(c, settings);
    for i := 0 to |subs|
      invariant targets == BroadcastTargets(c, settings) + SubscriberTargets(c, subs[..i])
    {
      assert subs[..i + 1][..i] == subs[..i];
      if subs[i].verified && MatchesSubscription(c, subs[i]) {
        targets := targets + [Target(subs[i].channel, subs[i].id)];
      }
    }
    assert subs[..|subs|] == subs;
    targets := OnlyEnabled(targets, enabled);
  }
}
