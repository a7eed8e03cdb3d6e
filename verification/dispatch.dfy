/** Text-command dispatch (events/messageCreate.js) and select-menu dispatch
    (events/selectCreate.js): prefix check and tokenising, direct-then-alias
    command lookup, and the shared per-(name, user) cooldown table. The
    expiry timer is the explicit `Expire` operation. */
module Dispatch {
  import opened Common

  // ---------------------------------------------------------------------
  // String.prototype.trim

  /** The characters `trim` removes: WhiteSpace and LineTerminator of
      ECMAScript. */
  predicate IsJsSpace(c: char) {
    c in {'\t', '\n', '\U{000B}', '\U{000C}', '\r', ' ', '\U{00A0}', '\U{1680}',
          '\U{2000}', '\U{2001}', '\U{2002}', '\U{2003}', '\U{2004}', '\U{2005}',
          '\U{2006}', '\U{2007}', '\U{2008}', '\U{2009}', '\U{200A}',
          '\U{2028}', '\U{2029}', '\U{202F}', '\U{205F}', '\U{3000}', '\U{FEFF}'}
  }

  function TrimStart(s: string): (r: string)
    ensures |r| <= |s| && r == s[|s| - |r|..]
    ensures |r| > 0 ==> !IsJsSpace(r[0])
    ensures forall k :: 0 <= k < |s| - |r| ==> IsJsSpace(s[k])
  {
    if |s| > 0 && IsJsSpace(s[0]) then
      var r := TrimStart(s[1..]);
      assert forall k :: 1 <= k < |s| - |r| ==> s[k] == s[1..][k - 1];
      r
    else s
  }

  function TrimEnd(s: string): (r: string)
    ensures |r| <= |s| && r == s[..|r|]
    ensures |r| > 0 ==> !IsJsSpace(r[|r| - 1])
    ensures forall k :: |r| <= k < |s| ==> IsJsSpace(s[k])
  {
    if |s| > 0 && IsJsSpace(s[|s| - 1]) then TrimEnd(s[..|s| - 1]) else s
  }

  /** The text with all leading and trailing white space removed. */
  function Trim(s: string): (r: string)
    ensures |r| > 0 ==> !IsJsSpace(r[0]) && !IsJsSpace(r[|r| - 1])
  {
    TrimEnd(TrimStart(s))
  }

  /** Text that neither starts nor ends with white space is left alone. */
  lemma TrimNoop(s: string)
    requires |s| > 0 ==> !IsJsSpace(s[0]) && !IsJsSpace(s[|s| - 1])
    ensures Trim(s) == s
  {
  }

  // ---------------------------------------------------------------------
  // String.prototype.split(/ +/)

  /** Index of the first ' ' at or after `from`, or |s|. */
  function NextSpace(s: string, from: nat): (i: nat)
    requires from <= |s|
    ensures from <= i <= |s|
    ensures forall k :: from <= k < i ==> s[k] != ' '
    ensures i < |s| ==> s[i] == ' '
    decreases |s| - from
  {
    if from == |s| || s[from] == ' ' then from else NextSpace(s, from + 1)
  }

  /** Index just after the run of spaces starting at `from`. */
  function SkipSpaces(s: string, from: nat): (j: nat)
    requires from <= |s|
    ensures from <= j <= |s|
    ensures forall k :: from <= k < j ==> s[k] == ' '
    ensures j < |s| ==> s[j] != ' '
    decreases |s| - from
  {
    if from < |s| && s[from] == ' ' then SkipSpaces(s, from + 1) else from
  }

  /** Splits at every maximal run of spaces; "" gives [""], and a leading or
      trailing run gives an empty first or last token. */
  function SplitSpaces(s: string): (r: seq<string>)
    ensures |r| >= 1
    ensures forall k :: 0 <= k < |r| ==> ' ' !in r[k]
    ensures |r| == 1 <==> ' ' !in s
    ensures |r| == 1 ==> r[0] == s
    ensures |s| > 0 && s[0] != ' ' ==> |r[0]| > 0
    ensures |s| > 0 && s[|s| - 1] != ' ' ==> |r[|r| - 1]| > 0
    ensures forall k :: 0 < k < |r| - 1 ==> |r[k]| > 0
    decreases |s|
  {
    var i := NextSpace(s, 0);
    if i == |s| then [s]
    else
      var j := SkipSpaces(s, i);
      var rest := SplitSpaces(s[j..]);
      assert s[i] == ' ';
      assert |rest| > 1 ==> |s[j..]| > 0 && s[j..][0] != ' ';
      assert j == |s| ==> s[|s| - 1] == ' ';
      assert j < |s| ==> s[j..][|s[j..]| - 1] == s[|s| - 1];
      [s[..i]] + rest
  }

  /** Text that is empty or neither starts nor ends with a space splits
      into tokens none of which is empty, except the lone token of "". */
  lemma SplitTrimmed(s: string)
    requires |s| > 0 && s[0] != ' ' && s[|s| - 1] != ' '
    ensures forall k :: 0 <= k < |SplitSpaces(s)| ==> |SplitSpaces(s)[k]| > 0
  {
  }

  /** A word, one space, and text that does not start with a space split
      into the word and the split of that text. */
  lemma SplitFirstWord(w: string, rest: string)
    requires ' ' !in w
    requires |rest| > 0 && rest[0] != ' '
    ensures SplitSpaces(w + " " + rest) == [w] + SplitSpaces(rest)
  {
    var s := w + " " + rest;
    assert NextSpace(s, 0) == |w| by {
      assert forall i :: 0 <= i < |w| ==> s[i] == w[i];
      assert s[|w|] == ' ';
    }
    assert SkipSpaces(s, |w|) == |w| + 1 by {
      assert s[|w| + 1] == rest[0];
    }
    assert s[..|w|] == w;
    assert s[|w| + 1..] == rest;
  }

  /** Words without spaces, joined by single spaces, split back into the
      same words. */
  lemma {:induction false} SplitJoin(words: seq<string>)
    requires |words| >= 1
    requires forall k :: 0 <= k < |words| ==> |words[k]| > 0 && ' ' !in words[k]
    ensures SplitSpaces(Join(words, " ")) == words
  {
    if |words| == 1 {
      assert Join(words, " ") == words[0];
    } else {
      var rest := Join(words[1..], " ");
      SplitJoin(words[1..]);
      JoinStart(words[1..]);
      assert Join(words, " ") == words[0] + " " + rest;
      SplitFirstWord(words[0], rest);
    }
  }

  /** A join of non-empty words starts with the first word's first letter. */
  lemma JoinStart(words: seq<string>)
    requires |words| >= 1 && |words[0]| > 0
    ensures |Join(words, " ")| > 0 && Join(words, " ")[0] == words[0][0]
  {
  }

  /** After `trim`, every token but a lone first one is non-empty. */
  lemma TokensAfterTrim(body: string)
    requires |body| > 0 ==> !IsJsSpace(body[0]) && !IsJsSpace(body[|body| - 1])
    ensures forall k :: 1 <= k < |SplitSpaces(body)| ==> |SplitSpaces(body)[k]| > 0
  {
    assert IsJsSpace(' ');
    if |body| > 0 {
      SplitTrimmed(body);
    }
  }

  // ---------------------------------------------------------------------
  // Prefix check and tokenising

  /** The command name (lower-cased first token) and the remaining tokens. */
  datatype Invocation = Invocation(name: string, args: seq<string>)

  /** `None` when the content does not start with the prefix. */
  function ParseContent(content: string, prefix: string): (r: Option<Invocation>)
    ensures r.Some? <==> |prefix| <= |content| && content[..|prefix|] == prefix
    ensures r.Some? ==> var tokens := SplitSpaces(Trim(content[|prefix|..]));
      r.value.name == Lower(tokens[0]) && r.value.args == tokens[1..]
    ensures r.Some? ==> forall k :: 0 <= k < |r.value.args| ==> |r.value.args[k]| > 0 && ' ' !in r.value.args[k]
  {
    if |prefix| <= |content| && content[..|prefix|] == prefix then
      var body := Trim(content[|prefix|..]);
      var tokens := SplitSpaces(body);
      TokensAfterTrim(body);
      Some(Invocation(Lower(tokens[0]), tokens[1..]))
    else None
  }

  /** Round trip: the prefix, a name and arguments joined by single spaces
      give back the lower-cased name and the arguments. */
  lemma ParseContentOf(prefix: string, name: string, args: seq<string>)
    requires forall k :: 0 <= k < |[name] + args| ==> |([name] + args)[k]| > 0
    requires forall k, c :: 0 <= k < |[name] + args| && c in ([name] + args)[k] ==> !IsJsSpace(c)
    ensures ParseContent(prefix + Join([name] + args, " "), prefix) == Some(Invocation(Lower(name), args))
  {
    var words := [name] + args;
    var body := Join(words, " ");
    var content := prefix + body;
    assert content[..|prefix|] == prefix;
    assert content[|prefix|..] == body;
    JoinStart(words);
    JoinEnd(words);
    TrimNoop(body);
    forall k | 0 <= k < |words|
      ensures ' ' !in words[k]
    {
      assert IsJsSpace(' ');
    }
    SplitJoin(words);
    assert words[1..] == args;
  }

  /** A join of non-empty words ends with the last word's last letter. */
  lemma {:induction false} JoinEnd(words: seq<string>)
    requires |words| >= 1 && |words[|words| - 1]| > 0
    ensures var s := Join(words, " "); |s| > 0 && s[|s| - 1] in words[|words| - 1]
  {
    if |words| > 1 {
      JoinEnd(words[1..]);
    }
  }

  // ---------------------------------------------------------------------
  // Command lookup

  /** A text command: its `data.name` (also its key), its aliases (absent
      for most commands) and its cooldown in seconds. */
  datatype Command = Command(name: string, aliases: Option<seq<string>>, cooldown: Option<int>)

  /** `client.textCommands` in insertion order; keys are unique. */
  ghost predicate UniqueNames(cmds: seq<Command>) {
    forall i, j :: 0 <= i < j < |cmds| ==> cmds[i].name != cmds[j].name
  }

  predicate HasAlias(c: Command, name: string) {
    c.aliases.Some? && name in c.aliases.value
  }

  /** `textCommands.get(name)` */
  function Direct(cmds: seq<Command>, name: string): (r: Option<Command>)
    ensures r.Some? ==> r.value in cmds && r.value.name == name
    ensures r.None? <==> forall k :: 0 <= k < |cmds| ==> cmds[k].name != name
  {
    if |cmds| == 0 then None
    else if cmds[0].name == name then Some(cmds[0])
    else Direct(cmds[1..], name)
  }

  /** The alias loop: the first command, in order, whose aliases include the
      name. */
  function ByAlias(cmds: seq<Command>, name: string): (r: Option<Command>)
    ensures r.Some? ==> exists k :: 0 <= k < |cmds| && cmds[k] == r.value && HasAlias(cmds[k], name)
                                    && forall m :: 0 <= m < k ==> !HasAlias(cmds[m], name)
    ensures r.None? <==> forall k :: 0 <= k < |cmds| ==> !HasAlias(cmds[k], name)
  {
    if |cmds| == 0 then None
    else if HasAlias(cmds[0], name) then
      assert cmds[0] == cmds[0] && HasAlias(cmds[0], name);
      Some(cmds[0])
    else
      var r := ByAlias(cmds[1..], name);
      if r.Some? then
        var k :| 0 <= k < |cmds[1..]| && cmds[1..][k] == r.value && HasAlias(cmds[1..][k], name)
                 && forall m :: 0 <= m < k ==> !HasAlias(cmds[1..][m], name);
        assert cmds[k + 1] == r.value;
        assert forall m :: 1 <= m < k + 1 ==> cmds[m] == cmds[1..][m - 1];
        r
      else
        assert forall k :: 1 <= k < |cmds| ==> cmds[k] == cmds[1..][k - 1];
        r
  }

  /** Direct name first; aliases only on a miss. */
  function Lookup(cmds: seq<Command>, name: string): Option<Command> {
    if Direct(cmds, name).Some? then Direct(cmds, name) else ByAlias(cmds, name)
  }

  /** A command's own name always wins over another command's alias, and
      an alias is found only when no command has that name. */
  lemma LookupPrefersNames(cmds: seq<Command>, name: string, k: nat)
    requires UniqueNames(cmds) && k < |cmds| && cmds[k].name == name
    ensures Lookup(cmds, name) == Some(cmds[k])
  {
    var r := Direct(cmds, name);
    var j :| 0 <= j < |cmds| && cmds[j] == r.value;
  }

  /** The name is unknown exactly when no command has it as name or alias. */
  lemma LookupMisses(cmds: seq<Command>, name: string)
    ensures Lookup(cmds, name).None? <==>
      forall k :: 0 <= k < |cmds| ==> cmds[k].name != name && !HasAlias(cmds[k], name)
  {
  }

  // ---------------------------------------------------------------------
  // Cooldowns

  type Buckets = map<string, map<string, int>>

  function Bucket(b: Buckets, name: string): map<string, int> {
    if name in b then b[name] else map[]
  }

  /** The cooldown test: the user has a timestamp t in the bucket and now is
      before t plus the window. */
  predicate OnCooldown(b: Buckets, name: string, user: string, now: int, amountMs: int) {
    user in Bucket(b, name) && now < Bucket(b, name)[user] + amountMs
  }

  /** `(cooldown ?? default) * 1000` */
  function AmountMs(cooldown: Option<int>, defaultSeconds: int): int {
    cooldown.GetOr(defaultSeconds) * 1000
  }

  /** Recording `now` blocks the same user under the same name for exactly
      the window, whoever checks. */
  lemma RecordedBlocks(b: Buckets, name: string, user: string, now: int, later: int, amountMs: int)
    ensures var b' := b[name := Bucket(b, name)[user := now]];
      OnCooldown(b', name, user, later, amountMs) <==> later < now + amountMs
  {
  }

  /** Expiry clears the user's cooldown under that name. */
  lemma ExpiredFree(b: Buckets, name: string, user: string, now: int, amountMs: int)
    requires name in b
    ensures !OnCooldown(b[name := map u | u in b[name] && u != user :: b[name][u]], name, user, now, amountMs)
  {
  }

  class Cooldowns {
    /** `client.cooldowns`: name -> (user id -> last accepted timestamp) */
    var buckets: Buckets

    constructor ()
      ensures buckets == map[]
    {
      buckets := map[];
    }

    /** Creates the bucket if missing, then refuses while on cooldown and
        otherwise records `now`. */
    method CheckAndRecord(name: string, user: string, now: int, amountMs: int) returns (allowed: bool)
      modifies this
      ensures allowed <==> !OnCooldown(old(buckets), name, user, now, amountMs)
      ensures !allowed ==> buckets == old(buckets)
      ensures allowed ==> buckets == old(buckets)[name := Bucket(old(buckets), name)[user := now]]
    {
      if name !in buckets {
        buckets := buckets[name := map[]];
      }
      var timestamps := buckets[name];
      if user in timestamps {
        var expirationTime := timestamps[user] + amountMs;
        if now < expirationTime {
          return false;
        }
      }
      buckets := buckets[name := timestamps[user := now]];
      allowed := true;
    }

    /** The timer: `timestamps.delete(user)`. */
    method Expire(name: string, user: string)
      modifies this
      ensures name in old(buckets) ==>
        buckets == old(buckets)[name := map u | u in old(buckets)[name] && u != user :: old(buckets)[name][u]]
      ensures name !in old(buckets) ==> buckets == old(buckets)
    {
      if name in buckets {
        var timestamps := buckets[name];
        buckets := buckets[name := map u | u in timestamps && u != user :: timestamps[u]];
      }
    }
  }

  // ---------------------------------------------------------------------
  // The two handlers

  datatype Dispatched =
    | Ignored            // bot author, no guild, wrong prefix, not a select menu
    | Unknown            // no command or menu by that name
    | CooledDown(name: string)
    | Run(name: string, args: seq<string>)

  const TextDefaultCooldown := 3
  const SelectDefaultCooldown := 1

  /** `messageCreate`: `prefix` is the guild's configured prefix; `cmds` is
      the registry, a collection keyed by command name. */
  method OnMessage(cooldowns: Cooldowns, cmds: seq<Command>, authorIsBot: bool, inGuild: bool,
                   content: string, prefix: string, user: string, now: int)
    returns (r: Dispatched)
    requires UniqueNames(cmds)
    modifies cooldowns
    ensures authorIsBot || !inGuild || ParseContent(content, prefix).None? ==> r == Ignored
    ensures r.Unknown? || r.Ignored? ==> cooldowns.buckets == old(cooldowns.buckets)
    ensures r.Run? || r.CooledDown? ==>
      && !authorIsBot && inGuild && ParseContent(content, prefix).Some?
      && var c := Lookup(cmds, ParseContent(content, prefix).value.name);
      && c.Some? && r.name == c.value.name
      && (r.CooledDown? <==>
            OnCooldown(old(cooldowns.buckets), r.name, user, now, AmountMs(c.value.cooldown, TextDefaultCooldown)))
    ensures r.Run? ==>
      && r.args == ParseContent(content, prefix).value.args
      && cooldowns.buckets == old(cooldowns.buckets)[r.name := Bucket(old(cooldowns.buckets), r.name)[user := now]]
    ensures r.CooledDown? ==> cooldowns.buckets == old(cooldowns.buckets)
    ensures (!authorIsBot && inGuild && ParseContent(content, prefix).Some?
             && Lookup(cmds, ParseContent(content, prefix).value.name).None?) ==> r == Unknown
    ensures (!authorIsBot && inGuild && ParseContent(content, prefix).Some?
             && Lookup(cmds, ParseContent(content, prefix).value.name).Some?) ==> r.Run? || r.CooledDown?
  {
    if authorIsBot || !inGuild {
      return Ignored;
    }
    var parsed := ParseContent(content, prefix);
    if parsed.None? {
      return Ignored;
    }
    var command := Lookup(cmds, parsed.value.name);
    if command.None? {
      return Unknown;
    }
    var name := command.value.name;
    var allowed := cooldowns.CheckAndRecord(name, user, now, AmountMs(command.value.cooldown, TextDefaultCooldown));
    if !allowed {
      return CooledDown(name);
    }
    r := Run(name, parsed.value.args);
  }

  /** A select menu: its `data.name` and cooldown in seconds. */
  datatype Menu = Menu(name: string, cooldown: Option<int>)

  /** `interactionCreate` for string select menus; `menus` is keyed by
      custom id. */
  method OnSelect(cooldowns: Cooldowns, menus: map<string, Menu>, isStringSelect: bool,
                  customId: string, user: string, now: int)
    returns (r: Dispatched)
    modifies cooldowns
    ensures !isStringSelect ==> r == Ignored
    ensures isStringSelect && customId !in menus ==> r == Unknown
    ensures r.Unknown? || r.Ignored? ==> cooldowns.buckets == old(cooldowns.buckets)
    ensures r.Run? || r.CooledDown? ==>
      && isStringSelect && customId in menus && r.name == menus[customId].name
      && (r.CooledDown? <==>
            OnCooldown(old(cooldowns.buckets), r.name, user, now, AmountMs(menus[customId].cooldown, SelectDefaultCooldown)))
    ensures r.Run? ==>
      && r.args == []
      && cooldowns.buckets == old(cooldowns.buckets)[r.name := Bucket(old(cooldowns.buckets), r.name)[user := now]]
    ensures r.CooledDown? ==> cooldowns.buckets == old(cooldowns.buckets)
    ensures isStringSelect && customId in menus ==> r.Run? || r.CooledDown?
  {
    if !isStringSelect {
      return Ignored;
    }
    if customId !in menus {
      return Unknown;
    }
    var selectMenu := menus[customId];
    var allowed := cooldowns.CheckAndRecord(selectMenu.name, user, now, AmountMs(selectMenu.cooldown, SelectDefaultCooldown));
    if !allowed {
      return CooledDown(selectMenu.name);
    }
    r := Run(selectMenu.name, []);
  }

  /** The `help` command and the `help` select menu share the bucket named
      "help": using one refuses the other for the same user inside its
      three-second window. */
  lemma HelpSharesBucket(b: Buckets, user: string, t: int, later: int)
    requires t <= later < t + 3000
    ensures var afterCommand := b["help" := Bucket(b, "help")[user := t]];
      OnCooldown(afterCommand, Menu("help", Some(3)).name, user, later, AmountMs(Some(3), SelectDefaultCooldown))
    ensures var afterMenu := b["help" := Bucket(b, "help")[user := t]];
      OnCooldown(afterMenu, Command("help", None, None).name, user, later, AmountMs(None, TextDefaultCooldown))
  {
  }
}
