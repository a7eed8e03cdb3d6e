/** The counting logic of commands/utility/serverinfo.js: the per-guild
    member-count cache with its five-minute freshness window and stale
    fallback, the human/bot split of a member fetch, and the channel counts
    by type. The member fetch and the clock are parameters. */
module ServerInfo {
  import opened Common

  // ---------------------------------------------------------------------
  // Counting

  /** `collection.filter(p).size` */
  function Count<T>(s: seq<T>, p: T -> bool): (n: nat)
    ensures n <= |s|
  {
    if |s| == 0 then 0
    else Count(s[..|s| - 1], p) + (if p(s[|s| - 1]) then 1 else 0)
  }

  function Not<T>(p: T -> bool): T -> bool {
    x => !p(x)
  }

  /** A filter and its negation split the collection. */
  lemma {:induction false} CountSplits<T>(s: seq<T>, p: T -> bool)
    ensures Count(s, p) + Count(s, Not(p)) == |s|
  {
    if |s| > 0 {
      CountSplits(s[..|s| - 1], p);
    }
  }

  /** Counting with a stronger filter never gives more. */
  lemma {:induction false} CountMonotone<T>(s: seq<T>, p: T -> bool, q: T -> bool)
    requires forall x :: p(x) ==> q(x)
    ensures Count(s, p) <= Count(s, q)
  {
    if |s| > 0 {
      CountMonotone(s[..|s| - 1], p, q);
    }
  }

  /** The count is zero exactly when no element passes. */
  lemma {:induction false} CountZero<T>(s: seq<T>, p: T -> bool)
    ensures Count(s, p) == 0 <==> forall i :: 0 <= i < |s| ==> !p(s[i])
  {
    if |s| > 0 {
      CountZero(s[..|s| - 1], p);
      assert forall i :: 0 <= i < |s| - 1 ==> s[..|s| - 1][i] == s[i];
    }
  }

  // ---------------------------------------------------------------------
  // Channels

  /** A cached channel: its type number and whether @everyone may view it. */
  datatype Channel = Channel(kind: int, everyoneCanView: bool)

  const GuildText := 0
  const GuildVoice := 2
  const GuildAnnouncement := 5

  function OfKind(kind: int): Channel -> bool {
    (c: Channel) => c.kind == kind
  }

  function LockedOfKind(kind: int): Channel -> bool {
    (c: Channel) => !c.everyoneCanView && c.kind == kind
  }

  datatype ChannelCounts = ChannelCounts(text: nat, voice: nat, news: nat, lockedText: nat, lockedVoice: nat)

  function CountChannels(channels: seq<Channel>): (r: ChannelCounts)
    ensures r.lockedText <= r.text && r.lockedVoice <= r.voice
    ensures r.text + r.voice + r.news <= |channels|
    ensures r.lockedText == 0 <==> forall i :: 0 <= i < |channels| ==> !(channels[i].kind == GuildText && !channels[i].everyoneCanView)
  {
    var r := ChannelCounts(Count(channels, OfKind(GuildText)), Count(channels, OfKind(GuildVoice)),
                           Count(channels, OfKind(GuildAnnouncement)),
                           Count(channels, LockedOfKind(GuildText)), Count(channels, LockedOfKind(GuildVoice)));
    CountMonotone(channels, LockedOfKind(GuildText), OfKind(GuildText));
    CountMonotone(channels, LockedOfKind(GuildVoice), OfKind(GuildVoice));
    KindsDisjoint(channels);
    CountZero(channels, LockedOfKind(GuildText));
    r
  }

  /** The three kinds are disjoint, so their counts add up to at most the
      number of channels. */
  lemma {:induction false} KindsDisjoint(channels: seq<Channel>)
    ensures Count(channels, OfKind(GuildText)) + Count(channels, OfKind(GuildVoice))
            + Count(channels, OfKind(GuildAnnouncement)) <= |channels|
  {
    if |channels| > 0 {
      KindsDisjoint(channels[..|channels| - 1]);
    }
  }

  // ---------------------------------------------------------------------
  // The member-count cache

  const CacheDurationMs := 5 * 60 * 1000

  datatype CacheEntry = CacheEntry(humanCount: nat, botCount: nat, timestamp: int)

  /** The counts shown: `None` stands for the 'Unable to fetch' text. */
  datatype MemberCounts = MemberCounts(humans: Option<nat>, bots: Option<nat>, fromCache: bool)

  /** `member.user.bot`: a fetched member is given by this flag alone, so
      the test reads the flag itself. */
  function IsBot(userBot: bool): bool {
    userBot
  }

  predicate Fresh(e: CacheEntry, now: int) {
    now - e.timestamp < CacheDurationMs
  }

  class MemberCountCache {
    var entries: map<string, CacheEntry>

    constructor ()
      ensures entries == map[]
    {
      entries := map[];
    }

    /** One `serverinfo` run's member counts. `fetched` holds the bot flag
        of every member, or is `None` when the fetch throws; on a fresh hit
        it is never looked at. */
    method Lookup(guildId: string, now: int, fetched: Option<seq<bool>>) returns (r: MemberCounts)
      modifies this
      ensures guildId in old(entries) && Fresh(old(entries)[guildId], now) ==>
        && r == MemberCounts(Some(old(entries)[guildId].humanCount), Some(old(entries)[guildId].botCount), true)
        && entries == old(entries)
      ensures !(guildId in old(entries) && Fresh(old(entries)[guildId], now)) && fetched.Some? ==>
        && r.humans.Some? && r.bots.Some? && !r.fromCache
        && r.humans.value + r.bots.value == |fetched.value|
        && r.bots.value == Count(fetched.value, IsBot)
        && entries == old(entries)[guildId := CacheEntry(r.humans.value, r.bots.value, now)]
      ensures !(guildId in old(entries) && Fresh(old(entries)[guildId], now)) && fetched.None? ==>
        && entries == old(entries)
        && (guildId in old(entries) ==>
              r == MemberCounts(Some(old(entries)[guildId].humanCount), Some(old(entries)[guildId].botCount), true))
        && (guildId !in old(entries) ==> r == MemberCounts(None, None, false))
    {
      if guildId in entries && Fresh(entries[guildId], now) {
        var cached := entries[guildId];
        return MemberCounts(Some(cached.humanCount), Some(cached.botCount), true);
      }
      match fetched {
        case Some(flags) =>
          var humans := Count(flags, Not(IsBot));
          var bots := Count(flags, IsBot);
          CountSplits(flags, IsBot);
          entries := entries[guildId := CacheEntry(humans, bots, now)];
          r := MemberCounts(Some(humans), Some(bots), false);
        case None =>
          if guildId in entries {
            var cached := entries[guildId];
            r := MemberCounts(Some(cached.humanCount), Some(cached.botCount), true);
          } else {
            r := MemberCounts(None, None, false);
          }
      }
    }
  }
}
