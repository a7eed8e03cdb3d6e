/** The per-guild configuration table of commands/configuration/configuration.js:
    one `guild_config` row per guild id, a synthesised default record for a
    guild without a row, the positional `INSERT OR REPLACE ... COALESCE`
    upsert behind `setConfigValue`, the row deletion behind
    `resetGuildConfig`, and the input validation of `config set`. */
module ConfigStore {
  import opened Common
  import Mentions

  /** A `guild_config` row: the primary key and the seven data columns, in
      the column order of the table (prefix, then the six log channels). */
  datatype Row = Row(
    guildId: string,
    prefix: Option<string>,
    warnLog: Option<string>,
    kickLog: Option<string>,
    banLog: Option<string>,
    muteLog: Option<string>,
    lockdownLog: Option<string>,
    purgeLog: Option<string>)
  {
    /** Data column `c` (0 = prefix, 1..6 = warn, kick, ban, mute, lockdown,
        purge log channel). */
    function Column(c: nat): Option<string>
      requires c < ColumnCount
    {
      match c
      case 0 => prefix
      case 1 => warnLog
      case 2 => kickLog
      case 3 => banLog
      case 4 => muteLog
      case 5 => lockdownLog
      case _ => purgeLog
    }

    predicate NoChannels() {
      warnLog == None && kickLog == None && banLog == None && muteLog == None
      && lockdownLog == None && purgeLog == None
    }
  }

  const ColumnCount: nat := 7
  /** `new Array(15)`: the guild id, then a value/sub-select pair per column. */
  const SlotCount: nat := 15
  const DefaultPrefix: string := ","

  type Table = map<string, Row>

  /** Every stored row sits under its own guild id and has a prefix (every
      write goes through the upsert, whose prefix falls back to ','). */
  ghost predicate ValidTable(t: Table) {
    forall k :: k in t ==> t[k].guildId == k && t[k].prefix.Some?
  }

  /** `{ ...defaultConfig, guild_id: guildId }` */
  function DefaultConfig(guildId: string): Row {
    Row(guildId, Some(DefaultPrefix), None, None, None, None, None, None)
  }

  /** `getGuildConfig`: the stored row, or the defaults when there is none. */
  function GetGuildConfig(t: Table, guildId: string): (r: Row)
    ensures guildId !in t ==> r.guildId == guildId && r.prefix == Some(",") && r.NoChannels()
    ensures guildId in t ==> r == t[guildId]
    ensures ValidTable(t) ==> r.guildId == guildId && r.prefix.Some?
  {
    if guildId in t then t[guildId] else DefaultConfig(guildId)
  }

  /** `configMap[key]`: the slot index of a known key. Any other key
      (including inherited property names, whose values are not numbers) makes
      `if (position)` skip both writes. */
  function Position(key: string): (r: Option<nat>)
    ensures r.Some? ==> 1 <= r.value <= 7
  {
    if key == "prefix" then Some(1)
    else if key == "warn_log_channel_id" then Some(2)
    else if key == "kick_log_channel_id" then Some(3)
    else if key == "ban_log_channel_id" then Some(4)
    else if key == "mute_log_channel_id" then Some(5)
    else if key == "lockdown_log_channel_id" then Some(6)
    else if key == "purge_log_channel_id" then Some(7)
    else None
  }

  /** The parameter array `setConfigValue` hands to the statement. */
  function Bind(guildId: string, key: string, value: Option<string>): (p: seq<Option<string>>)
    ensures |p| == SlotCount && p[0] == Some(guildId)
  {
    var empty := seq(SlotCount, i => if i == 0 then Some(guildId) else None);
    match Position(key)
    case None => empty
    case Some(pos) => empty[pos := value][pos + 7 := Some(guildId)]
  }

  /** Slot by slot: the guild id in slot 0 and in slot `position + 7`, the
      value in slot `position`, NULL everywhere else. */
  lemma BindAt(guildId: string, key: string, value: Option<string>, j: nat)
    requires j < SlotCount
    ensures var pos := Position(key);
      Bind(guildId, key, value)[j] ==
        if j == 0 then Some(guildId)
        else if pos.Some? && j == pos.value + 7 then Some(guildId)
        else if pos.Some? && j == pos.value then value
        else None
  {
  }

  // ----------------------------------------------------------------------
  // Evaluating the upsert statement

  /** SQL `COALESCE(a, b)`. */
  function Coalesce(a: Option<string>, b: Option<string>): Option<string> {
    if a.Some? then a else b
  }

  /** `(SELECT <column c> FROM guild_config WHERE guild_id = ?)`: NULL when the
      bound id is NULL or no row has it. */
  function SubSelect(t: Table, id: Option<string>, c: nat): Option<string>
    requires c < ColumnCount
  {
    if id.Some? && id.value in t then t[id.value].Column(c) else None
  }

  /** `COALESCE(?, (SELECT ...))` for data column `c`: its value placeholder
      is slot `2c+1`, its sub-select's guild id slot `2c+2`. */
  function Cell(t: Table, p: seq<Option<string>>, c: nat): Option<string>
    requires |p| == SlotCount && c < ColumnCount
  {
    Coalesce(p[2 * c + 1], SubSelect(t, p[2 * c + 2], c))
  }

  /** The row `INSERT OR REPLACE` writes under the guild id in slot 0; the
      prefix column has the extra fallback `','`. */
  function Upsert(t: Table, p: seq<Option<string>>): (r: Row)
    requires |p| == SlotCount && p[0].Some?
    ensures r.guildId == p[0].value
    ensures r.prefix.Some?
  {
    Row(p[0].value,
        Coalesce(Cell(t, p, 0), Some(DefaultPrefix)),
        Cell(t, p, 1), Cell(t, p, 2), Cell(t, p, 3),
        Cell(t, p, 4), Cell(t, p, 5), Cell(t, p, 6))
  }

  // ----------------------------------------------------------------------
  // What a call actually writes, key by key

  /** The row `setConfigValue(guildId, key, value)` writes, derived slot by
      slot: a key at position `p` puts the value in slot `p` and the guild id
      in slot `p + 7`, which are the placeholders of two different columns.
      `SubSelect(t, g, c)` is the guild's own stored column,
      `SubSelect(t, value, c)` column `c` of the row whose guild id equals the
      value. */
  function Effect(t: Table, guildId: string, key: string, value: Option<string>): Row {
    var g := Some(guildId);
    var comma := Some(DefaultPrefix);
    match Position(key)
    case Some(1) => Row(guildId, Coalesce(value, comma), None, None, SubSelect(t, g, 3), None, None, None)
    case Some(2) => Row(guildId, Coalesce(SubSelect(t, value, 0), comma), None, None, None, g, None, None)
    case Some(3) => Row(guildId, comma, value, None, None, SubSelect(t, g, 4), None, None)
    case Some(4) => Row(guildId, comma, SubSelect(t, value, 1), None, None, None, g, None)
    case Some(5) => Row(guildId, comma, None, value, None, None, SubSelect(t, g, 5), None)
    case Some(6) => Row(guildId, comma, None, SubSelect(t, value, 2), None, None, None, g)
    case Some(_) => Row(guildId, comma, None, None, value, None, None, SubSelect(t, g, 6))
    case None => DefaultConfig(guildId)
  }

  /** The literal evaluation of the bound statement is the key-by-key table
      above. */
  lemma UpsertEffect(t: Table, guildId: string, key: string, value: Option<string>)
    ensures Upsert(t, Bind(guildId, key, value)) == Effect(t, guildId, key, value)
  {
    var p := Bind(guildId, key, value);
    match Position(key)
    case None =>
      assert forall i :: 1 <= i < SlotCount ==> p[i] == None;
    case Some(pos) =>
      assert forall i :: 1 <= i < SlotCount && i != pos && i != pos + 7 ==> p[i] == None;
      assert p[pos] == value && p[pos + 7] == Some(guildId);
  }

  /** Writing `prefix` stores the value (or ',' for NULL); of the other
      columns only the ban log channel survives. */
  lemma PrefixWrite(t: Table, guildId: string, value: string)
    ensures var r := Upsert(t, Bind(guildId, "prefix", Some(value)));
      r.prefix == Some(value)
      && r.banLog == GetGuildConfig(t, guildId).banLog
      && r.warnLog == None && r.kickLog == None && r.muteLog == None
      && r.lockdownLog == None && r.purgeLog == None
  {
    UpsertEffect(t, guildId, "prefix", Some(value));
  }

  /** A key outside the map binds only the guild id, so the write stores the
      defaults: the guild reads back exactly as after a reset. */
  lemma UnknownKeyResets(t: Table, guildId: string, key: string, value: Option<string>)
    requires Position(key) == None
    ensures Upsert(t, Bind(guildId, key, value)) == GetGuildConfig(map k | k in t && k != guildId :: t[k], guildId)
  {
    UpsertEffect(t, guildId, key, value);
  }

  /** As written, setting the warn log channel leaves that column NULL and
      stores the guild id as the mute log channel. */
  lemma WarnChannelLandsInMute(t: Table, guildId: string, channel: string)
    ensures var r := Upsert(t, Bind(guildId, "warn_log_channel_id", Some(channel)));
      r.warnLog == None && r.muteLog == Some(guildId)
  {
    UpsertEffect(t, guildId, "warn_log_channel_id", Some(channel));
  }

  // ----------------------------------------------------------------------
  // The binding evidently intended

  /** Column `c` of `r` replaced by `v`. */
  function WithColumn(r: Row, c: nat, v: Option<string>): (r': Row)
    requires c < ColumnCount
    ensures r'.guildId == r.guildId && r'.Column(c) == v
    ensures forall d :: 0 <= d < ColumnCount && d != c ==> r'.Column(d) == r.Column(d)
  {
    match c
    case 0 => r.(prefix := v)
    case 1 => r.(warnLog := v)
    case 2 => r.(kickLog := v)
    case 3 => r.(banLog := v)
    case 4 => r.(muteLog := v)
    case 5 => r.(lockdownLog := v)
    case _ => r.(purgeLog := v)
  }

  /** Every sub-select keyed by the guild id, the value in the value
      placeholder of the key's own column (slot `2 * (position - 1) + 1`). */
  function BindIntended(guildId: string, key: string, value: Option<string>): (p: seq<Option<string>>)
    ensures |p| == SlotCount && p[0] == Some(guildId)
  {
    var selects := seq(SlotCount, i => if i % 2 == 0 then Some(guildId) else None);
    match Position(key)
    case None => selects
    case Some(pos) => selects[2 * pos - 1 := value]
  }

  /** One column of the intended upsert: the value for the named column,
      the stored (or default) value for every other. */
  lemma IntendedColumn(t: Table, guildId: string, key: string, value: string, c: nat)
    requires ValidTable(t)
    requires Position(key).Some? && c < ColumnCount
    ensures Upsert(t, BindIntended(guildId, key, Some(value))).Column(c)
         == WithColumn(GetGuildConfig(t, guildId), Position(key).value - 1, Some(value)).Column(c)
  {
    var p := BindIntended(guildId, key, Some(value));
    assert p[2 * c + 2] == Some(guildId);
    if c == Position(key).value - 1 {
      assert p[2 * c + 1] == Some(value);
    } else {
      assert p[2 * c + 1] == None;
    }
  }

  /** With the intended binding, setting one field to a value changes exactly
      that field of what `getGuildConfig` returns, and nothing else. */
  lemma IntendedSetOverlaysOneField(t: Table, guildId: string, key: string, value: string)
    requires ValidTable(t)
    requires Position(key).Some?
    ensures Upsert(t, BindIntended(guildId, key, Some(value)))
         == WithColumn(GetGuildConfig(t, guildId), Position(key).value - 1, Some(value))
  {
    var p := BindIntended(guildId, key, Some(value));
    var pos := Position(key).value;
    var before := GetGuildConfig(t, guildId);
    var after := Upsert(t, p);
    var expected := WithColumn(before, pos - 1, Some(value));
    forall c | 0 <= c < ColumnCount
      ensures after.Column(c) == expected.Column(c)
    {
      IntendedColumn(t, guildId, key, value, c);
    }
    assert after.prefix == expected.Column(0);
    assert after.warnLog == expected.Column(1);
    assert after.kickLog == expected.Column(2);
    assert after.banLog == expected.Column(3);
    assert after.muteLog == expected.Column(4);
    assert after.lockdownLog == expected.Column(5);
    assert after.purgeLog == expected.Column(6);
  }

  // ----------------------------------------------------------------------
  // The table

  /** The parameter array of `setConfigValue`: fifteen NULLs, then the
      guild id in slot 0 and, for a known key, the value in its slot and the
      guild id seven slots further on. */
  method BindParams(guildId: string, key: string, value: Option<string>) returns (params: array<Option<string>>)
    ensures fresh(params)
    ensures params[..] == Bind(guildId, key, value)
  {
    params := new Option<string>[SlotCount];
    // new Array(15).fill(null)
    var i := 0;
    while i < SlotCount
      modifies params
      invariant 0 <= i <= SlotCount
      invariant forall j :: 0 <= j < i ==> params[j] == None
    {
      params[i] := None;
      i := i + 1;
    }
    params[0] := Some(guildId);
    var position := Position(key);
    if position.Some? {
      params[position.value] := value;
      params[position.value + 7] := Some(guildId);
    }
    ghost var bound := Bind(guildId, key, value);
    forall j | 0 <= j < SlotCount
      ensures params[j] == bound[j]
    {
      BindAt(guildId, key, value, j);
    }
  }

  class Store {
    var table: Table

    ghost predicate Valid()
      reads this
    {
      ValidTable(table)
    }

    constructor ()
      ensures Valid() && table == map[]
    {
      table := map[];
    }

    /** `setConfigValue`: fill a 15-slot array, then run the upsert. */
    method SetConfigValue(guildId: string, key: string, value: Option<string>) returns (ok: bool)
      requires Valid()
      modifies this
      ensures Valid()
      ensures table == old(table)[guildId := Upsert(old(table), Bind(guildId, key, value))]
      ensures table[guildId] == Effect(old(table), guildId, key, value)
      ensures ok
    {
      var params := BindParams(guildId, key, value);
      var t0 := table;
      var row := Upsert(t0, params[..]);
      UpsertEffect(t0, guildId, key, value);
      ghost var effect := Effect(t0, guildId, key, value);
      assert row == effect;
      table := t0[guildId := row];
      assert table[guildId] == effect;
      ok := true;
    }

    /** `resetGuildConfig`: delete the guild's row. */
    method ResetGuildConfig(guildId: string) returns (ok: bool)
      requires Valid()
      modifies this
      ensures Valid()
      ensures table == map k | k in old(table) && k != guildId :: old(table)[k]
      ensures GetGuildConfig(table, guildId) == DefaultConfig(guildId)
      ensures ok
    {
      table := map k | k in table && k != guildId :: table[k];
      ok := true;
    }
  }

  /** Resetting twice leaves the same table as resetting once. */
  lemma ResetIdempotent(t: Table, guildId: string)
    ensures var once := map k | k in t && k != guildId :: t[k];
      (map k | k in once && k != guildId :: once[k]) == once
  {
  }

  // ----------------------------------------------------------------------
  // `config set` validation (handleSetConfig)

  datatype SetError =
    | MissingKeyOrValue   // "Please provide both a key and value to set."
    | PrefixTooLong       // "Prefix cannot be longer than 5 characters."
    | InvalidChannel      // "Please provide a vaild channel mention or ID."
    | ChannelNotFound     // "Channel not found or is not a text channel."
    | InvalidKey          // "Invalid configuration key."

  datatype SetOutcome = Rejected(error: SetError) | Accepted(key: string, stored: string)

  const MaxPrefixLength: nat := 5

  predicate IsChannelKey(key: string) {
    key in {"warn_log_channel_id", "kick_log_channel_id", "ban_log_channel_id",
            "mute_log_channel_id", "lockdown_log_channel_id", "purge_log_channel_id"}
  }

  /** What `handleSetConfig` decides for a key and value; `isTextChannel`
      stands for the guild's channel cache lookup and its text-based test. */
  function ValidateSet(key: Option<string>, value: Option<string>, isTextChannel: string -> bool): SetOutcome {
    if key.None? || key.value == "" || value.None? || value.value == "" then
      Rejected(MissingKeyOrValue)
    else if key.value == "prefix" then
      if Utf16Length(value.value) > MaxPrefixLength then Rejected(PrefixTooLong)
      else Accepted("prefix", value.value)
    else if IsChannelKey(key.value) then
      match Mentions.Parse(Mentions.Channel, value.value)
      case None => Rejected(InvalidChannel)
      case Some(id) => if isTextChannel(id) then Accepted(key.value, id) else Rejected(ChannelNotFound)
    else Rejected(InvalidKey)
  }

  /** Whatever passes validation names a key the store knows; a prefix is at
      most five UTF-16 code units long (so at most five characters), not
      empty, and stored as given; a channel value was `<#d>` or
      `d` and what is stored is `d` alone. */
  lemma ValidateSetSound(key: Option<string>, value: Option<string>, isTextChannel: string -> bool)
    requires ValidateSet(key, value, isTextChannel).Accepted?
    ensures var out := ValidateSet(key, value, isTextChannel);
      && key == Some(out.key)
      && Position(out.key).Some?
      && (out.key == "prefix" ==>
            && out.stored != ""
            && Utf16Length(out.stored) <= MaxPrefixLength && |out.stored| <= MaxPrefixLength
            && value == Some(out.stored))
      && (out.key != "prefix" ==>
            IsDigits(out.stored) && isTextChannel(out.stored)
            && (value == Some(out.stored) || value == Some(Mentions.Format(Mentions.Channel, out.stored))))
  {
    var out := ValidateSet(key, value, isTextChannel);
    if out.key != "prefix" {
      Mentions.ParseSound(Mentions.Channel, value.value, out.stored);
    }
  }

  /** The converse for the prefix: a value is accepted, and stored as given,
      exactly when it is non-empty and at most five UTF-16 code units long. */
  lemma PrefixAccepted(value: string, isTextChannel: string -> bool)
    ensures ValidateSet(Some("prefix"), Some(value), isTextChannel) == Accepted("prefix", value)
        <==> value != "" && Utf16Length(value) <= MaxPrefixLength
  {
  }

  /** Every channel key accepts both forms of a channel id of a text channel,
      and stores the bare id. */
  lemma ValidateSetChannel(key: string, id: string, isTextChannel: string -> bool)
    requires IsChannelKey(key) && IsDigits(id) && isTextChannel(id)
    ensures ValidateSet(Some(key), Some(id), isTextChannel) == Accepted(key, id)
    ensures ValidateSet(Some(key), Some(Mentions.Format(Mentions.Channel, id)), isTextChannel) == Accepted(key, id)
  {
    Mentions.ParseFormat(Mentions.Channel, id);
  }

  /** The prefix bound counts UTF-16 code units: three characters above
      U+FFFF are six units and too long, while five characters of the Basic
      Multilingual Plane are accepted. */
  lemma PrefixLengthInUnits(isTextChannel: string -> bool, bmp: string)
    requires |bmp| == MaxPrefixLength && forall i :: 0 <= i < |bmp| ==> bmp[i] as int <= 0xFFFF
    ensures ValidateSet(Some("prefix"), Some("\U{1F600}\U{1F600}\U{1F600}"), isTextChannel) == Rejected(PrefixTooLong)
    ensures ValidateSet(Some("prefix"), Some(bmp), isTextChannel) == Accepted("prefix", bmp)
  {
    var face := "\U{1F600}";
    assert Utf16Length(face) == 2 by {
      assert face[..0] == "";
    }
    assert Utf16Length(face + face) == 4 by {
      assert (face + face)[..1] == face;
    }
    assert Utf16Length(face + face + face) == 6 by {
      assert (face + face + face)[..2] == face + face;
    }
    assert face + face + face == "\U{1F600}\U{1F600}\U{1F600}";
  }

  /** The slash command offers the choice value `Prefix`, which is not a case
      of the switch. */
  lemma SlashPrefixChoiceRejected(value: string, isTextChannel: string -> bool)
    requires value != ""
    ensures ValidateSet(Some("Prefix"), Some(value), isTextChannel) == Rejected(InvalidKey)
  {
  }
}
