/** The `mute` and `unmute` commands of commands/moderation/mute.js:
    the duration parser, the text-argument parsing and the chain of guards
    in front of the timeout call. Nothing here is stored; the platform's
    answers (permissions, the fetched member, the clock) are parameters. */
module Mute {
  import opened Common
  import Mentions

  // ---------------------------------------------------------------------
  // parseDuration

  predicate IsUnit(c: char) {
    c in "smhdwSMHDW"
  }

  /** Milliseconds per unit, for a lower-case unit letter. */
  function Multiplier(unit: char): nat {
    match unit
    case 's' => 1000
    case 'm' => 60 * 1000
    case 'h' => 60 * 60 * 1000
    case 'd' => 24 * 60 * 60 * 1000
    case 'w' => 7 * 24 * 60 * 60 * 1000
    case _ => 0
  }

  /** `^(\d+)([smhdw])$` with the `i` flag, then amount times the multiplier
      of the lower-cased unit. */
  function ParseDuration(s: string): (r: Option<nat>)
    ensures r.Some? <==> |s| >= 2 && IsDigits(s[..|s| - 1]) && IsUnit(s[|s| - 1])
    ensures r.Some? ==> r.value == DigitsValue(s[..|s| - 1]) * Multiplier(LowerChar(s[|s| - 1]))
  {
    if |s| >= 2 && IsDigits(s[..|s| - 1]) && IsUnit(s[|s| - 1]) then
      Some(DigitsValue(s[..|s| - 1]) * Multiplier(LowerChar(s[|s| - 1])))
    else None
  }

  /** Every unit letter, in either case, selects one of the five
      multipliers. */
  lemma UnitMultipliers(c: char)
    requires IsUnit(c)
    ensures Multiplier(LowerChar(c)) in {1000, 60000, 3600000, 86400000, 604800000}
    ensures 'a' <= LowerChar(c) <= 'z'
  {
  }

  /** Round trip: the decimal rendering of any amount followed by a unit
      letter parses to amount times that unit's multiplier. */
  lemma ParseDurationOf(amount: nat, unit: char)
    requires IsUnit(unit)
    ensures ParseDuration(NatToString(amount) + [unit]) == Some(amount * Multiplier(LowerChar(unit)))
  {
    var s := NatToString(amount) + [unit];
    assert s[..|s| - 1] == NatToString(amount);
  }

  /** The longest timeout the platform allows: 28 days. */
  const MaxMuteMs: nat := 28 * 24 * 60 * 60 * 1000

  // ---------------------------------------------------------------------
  // Text-argument parsing

  const DefaultReason := "No reason provided."

  /** The reason: the remaining arguments joined by spaces, or the default. */
  function ReasonOf(rest: seq<string>): string {
    if |rest| > 0 then Join(rest, " ") else DefaultReason
  }

  datatype TextArgs =
    | Usage          // too few arguments
    | InvalidUser    // the first argument is not a user mention or id
    | Args(userId: string, duration: string, reason: string)

  /** `user` is one of the three ways to write user `id`: `d`, `<@d>` or
      `<@!d>`. */
  predicate UserForm(user: string, id: string) {
    user == id || user == Mentions.Format(Mentions.User, id) || user == Mentions.FormatNick(id)
  }

  /** `,mute <user> <duration> [reason...]` */
  function ParseMuteArgs(args: seq<string>): (r: TextArgs)
    ensures r.Usage? <==> |args| < 2
    ensures r.InvalidUser? <==> |args| >= 2 && Mentions.Parse(Mentions.User, args[0]).None?
    ensures r.Args? ==> IsDigits(r.userId) && r.duration == args[1] && r.reason == ReasonOf(args[2..])
    ensures r.Args? ==> Mentions.Parse(Mentions.User, args[0]) == Some(r.userId) && UserForm(args[0], r.userId)
  {
    if |args| < 2 then Usage
    else
      match Mentions.Parse(Mentions.User, args[0])
      case None => InvalidUser
      case Some(id) =>
        Mentions.ParseSound(Mentions.User, args[0], id);
        Args(id, args[1], ReasonOf(args[2..]))
  }

  /** `,unmute <user> [reason...]`; the duration is empty. */
  function ParseUnmuteArgs(args: seq<string>): (r: TextArgs)
    ensures r.Usage? <==> |args| < 1
    ensures r.InvalidUser? <==> |args| >= 1 && Mentions.Parse(Mentions.User, args[0]).None?
    ensures r.Args? ==> IsDigits(r.userId) && r.duration == "" && r.reason == ReasonOf(args[1..])
    ensures r.Args? ==> Mentions.Parse(Mentions.User, args[0]) == Some(r.userId) && UserForm(args[0], r.userId)
  {
    if |args| < 1 then Usage
    else
      match Mentions.Parse(Mentions.User, args[0])
      case None => InvalidUser
      case Some(id) =>
        Mentions.ParseSound(Mentions.User, args[0], id);
        Args(id, "", ReasonOf(args[1..]))
  }

  /** For any id, all three user forms are accepted with that id, whatever
      follows. */
  lemma MuteArgsAcceptUserForms(id: string, duration: string, rest: seq<string>)
    requires IsDigits(id)
    ensures forall user :: user in {id, Mentions.Format(Mentions.User, id), Mentions.FormatNick(id)} ==>
      ParseMuteArgs([user, duration] + rest) == Args(id, duration, ReasonOf(rest))
      && ParseUnmuteArgs([user] + rest) == Args(id, "", ReasonOf(rest))
  {
    Mentions.ParseFormat(Mentions.User, id);
    forall user | user in {id, Mentions.Format(Mentions.User, id), Mentions.FormatNick(id)}
      ensures ParseMuteArgs([user, duration] + rest) == Args(id, duration, ReasonOf(rest))
      ensures ParseUnmuteArgs([user] + rest) == Args(id, "", ReasonOf(rest))
    {
      assert ([user, duration] + rest)[2..] == rest;
      assert ([user] + rest)[1..] == rest;
    }
  }

  // ---------------------------------------------------------------------
  // The guard chains

  /** The fetched target member: when their timeout ends (`None` when there
      is none), whether the bot may moderate them, and their highest role
      position. */
  datatype Target = Target(mutedUntil: Option<int>, moderatable: bool, highest: int)

  /** The executor: their highest role position, whether they own the guild,
      and whether they have ModerateMembers. */
  datatype Moderator = Moderator(highest: int, isOwner: bool, canModerate: bool)

  /** The hierarchy rule: an executor who is not the owner must rank strictly
      above the target. */
  predicate Outranks(ex: Moderator, t: Target) {
    ex.highest > t.highest || ex.isOwner
  }

  predicate MutedAt(t: Target, now: int) {
    t.mutedUntil.Some? && t.mutedUntil.value > now
  }

  predicate UnmutedAt(t: Target, now: int) {
    t.mutedUntil.None? || t.mutedUntil.value < now
  }

  datatype Outcome =
    | InvalidDuration
    | TooLong
    | ExecutorLacksPermission
    | BotLacksPermission
    | NotInServer
    | AlreadyMuted
    | NotMuted
    | NotModeratable
    | HierarchyDenied
    | Muted(ms: nat)
    | Unmuted

  /** The mute guards in order; `target` is `None` when fetching the member
      fails. */
  function MuteDecision(duration: string, ex: Moderator, botCanModerate: bool, target: Option<Target>, now: int): (r: Outcome)
    ensures r.Muted? <==>
      && ParseDuration(duration).Some? && 0 < ParseDuration(duration).value <= MaxMuteMs
      && ex.canModerate && botCanModerate && target.Some?
      && !MutedAt(target.value, now) && target.value.moderatable && Outranks(ex, target.value)
    ensures r.Muted? ==> r.ms == ParseDuration(duration).value
    ensures r in {InvalidDuration, TooLong, ExecutorLacksPermission, BotLacksPermission, NotInServer,
                  AlreadyMuted, NotModeratable, HierarchyDenied} || r.Muted?
  {
    var ms := ParseDuration(duration);
    if ms.None? || ms.value == 0 then InvalidDuration
    else if ms.value > MaxMuteMs then TooLong
    else if !ex.canModerate then ExecutorLacksPermission
    else if !botCanModerate then BotLacksPermission
    else if target.None? then NotInServer
    else if MutedAt(target.value, now) then AlreadyMuted
    else if !target.value.moderatable then NotModeratable
    else if !Outranks(ex, target.value) then HierarchyDenied
    else Muted(ms.value)
  }

  /** The unmute guards in order. */
  function UnmuteDecision(ex: Moderator, botCanModerate: bool, target: Option<Target>, now: int): (r: Outcome)
    ensures r == Unmuted <==>
      && ex.canModerate && botCanModerate && target.Some?
      && !UnmutedAt(target.value, now) && target.value.moderatable && Outranks(ex, target.value)
    ensures r in {ExecutorLacksPermission, BotLacksPermission, NotInServer, NotMuted,
                  NotModeratable, HierarchyDenied, Unmuted}
  {
    if !ex.canModerate then ExecutorLacksPermission
    else if !botCanModerate then BotLacksPermission
    else if target.None? then NotInServer
    else if UnmutedAt(target.value, now) then NotMuted
    else if !target.value.moderatable then NotModeratable
    else if !Outranks(ex, target.value) then HierarchyDenied
    else Unmuted
  }

  /** A zero amount parses but is refused as an invalid format. */
  lemma ZeroIsInvalid(unit: char, ex: Moderator, botCanModerate: bool, target: Option<Target>, now: int)
    requires IsUnit(unit)
    ensures ParseDuration("0" + [unit]) == Some(0)
    ensures MuteDecision("0" + [unit], ex, botCanModerate, target, now) == InvalidDuration
  {
    ParseDurationOf(0, unit);
  }

  /** Anything over 28 days is refused before permissions or the target are
      looked at. */
  lemma TooLongFirst(amount: nat, unit: char, ex: Moderator, botCanModerate: bool, target: Option<Target>, now: int)
    requires IsUnit(unit) && amount * Multiplier(LowerChar(unit)) > MaxMuteMs
    ensures MuteDecision(NatToString(amount) + [unit], ex, botCanModerate, target, now) == TooLong
  {
    ParseDurationOf(amount, unit);
  }

  /** Three spellings of the cap: four weeks, 28 days, 672 hours. */
  lemma CapSpellings()
    ensures ParseDuration("4w") == Some(MaxMuteMs)
    ensures ParseDuration("28d") == Some(MaxMuteMs)
    ensures ParseDuration("672h") == Some(MaxMuteMs)
  {
    assert DigitsValue("4w"[..1]) == 4 by {
      assert "4w"[..1] == "4" && "4"[..0] == "";
    }
    assert DigitsValue("28d"[..2]) == 28 by {
      assert "28d"[..2] == "28" && "28"[..1] == "2" && "2"[..0] == "";
    }
    assert DigitsValue("672h"[..3]) == 672 by {
      assert "672h"[..3] == "672" && "672"[..2] == "67" && "67"[..1] == "6" && "6"[..0] == "";
      assert DigitsValue("67") == 67;
    }
  }

  /** One day past the cap is refused as too long, whoever asks. */
  lemma CapBoundary(ex: Moderator, botCanModerate: bool, target: Option<Target>, now: int)
    ensures MuteDecision("29d", ex, botCanModerate, target, now) == TooLong
  {
    assert "29d"[..2] == "29" && "29"[..1] == "2" && "2"[..0] == "";
    assert ParseDuration("29d") == Some(29 * 86400000);
  }

  /** The two "is muted" tests: mute refuses while the timeout lies ahead,
      unmute refuses while there is none or it lies behind. At the instant
      the timeout ends neither refuses. */
  lemma MutedTestsSplit(t: Target, now: int)
    ensures MutedAt(t, now) ==> !UnmutedAt(t, now)
    ensures !MutedAt(t, now) && !UnmutedAt(t, now) <==> t.mutedUntil == Some(now)
  {
  }
}
