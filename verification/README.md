# Senko-san moderation bot core, modelled in Dafny

This project models the decision logic and the state of a Discord
moderation bot:

- **Per-guild configuration**: the positional `INSERT OR REPLACE ... COALESCE` upsert behind `setConfigValue`, the defaults, the reset, and the validation of `config set`.
- **Channel lockdown**: the in-memory map of locked channels, the overwrite edits made by `lock` and `unlock`, and the sticky-message listener.
- **Delegated role management**: who may give which role, role groups, and how candidate roles are classified for `role add` / `role remove`.
- **Mute and unmute**: the duration parser, the text arguments, and the guard chains.
- **Command dispatch**: prefix and argument parsing, alias lookup, and the per-command cooldown buckets, shared with select menus.
- **Warnings**: the warning store, the paged `warnings` view, and the guards of `warn`.
- **Purge**: the 14-day filter, the timestamp sort, and the text archive.
- **Server info**: the member-count cache and the channel counts.

What the model treats as parameters:

- Every platform call (replies, fetches, permission checks, overwrite edits, timeouts, bulk deletes) is represented by its answer. A permission becomes a `bool`, a fetch an `Option`, a call that may throw an index `failAt` or a `None`.
- The clock and generated ids are inputs.

One module per source file, plus two shared ones:

| file | module | models |
|---|---|---|
| common.dfy | Common | `Option` (JavaScript `null`), ASCII digits and `String(n)`, ASCII `toLowerCase`, `join`, a stable sort by an integer key |
| mentions.dfy | Mentions | the `<@d>` / `<@!d>` / `<@&d>` / `<#d>` / `d` mention parser used throughout |
| config_store.dfy | ConfigStore | commands/configuration/configuration.js |
| lockdown.dfy | Lockdown | commands/moderation/lockdown.js |
| roles.dfy | Roles | commands/utility/roles.js |
| mute.dfy | Mute | commands/moderation/mute.js |
| dispatch.dfy | Dispatch | events/messageCreate.js and events/selectCreate.js |
| warnings.dfy | Warnings | commands/moderation/warnsystem.js |
| purge.dfy | Purge | commands/moderation/purge.js |
| server_info.dfy | ServerInfo | commands/utility/serverinfo.js |

Two kinds of code, two kinds of model:

- **State the code updates is a class with `modifies` clauses**:
  - `ConfigStore.Store`, the `guild_config` table;
  - `Lockdown.Manager`, `lockdownChannels` plus the channels' overwrites;
  - `Roles.RoleSettings`, the parsed `role_permissions` / `role_groups`;
  - `Dispatch.Cooldowns`, `client.cooldowns`;
  - `Warnings.WarningStore`, the `warnings` table;
  - `Warnings.Pager`, `currentPage`;
  - `ServerInfo.MemberCountCache`.
- **Loops are methods proved against a specification function**:
  - the 15-slot parameter fill;
  - the overwrite loop of lock/unlock;
  - the classification loop of role add/remove;
  - the archive `forEach`;
  - the search in `removeWarning`.
- **Pure decisions are functions.** Their properties are stated as lemmas.

## Model

| member | source | states |
|---|---|---|
| Mentions.Wrapped | commands/moderation/mute.js:89 | a wrapped match `^<open>(\d+)>$` yields a digit string from which the input is rebuilt |
| Mentions.WrappedOf | commands/utility/roles.js:265 | a wrapped digit string matches with that capture |
| Mentions.WrappedNotDigits | commands/configuration/configuration.js:272 | a bare digit string matches no wrapped form, so the bare alternative decides |
| Mentions.ParseFormat | commands/moderation/mute.js:89 | round trip: `<@d>`, `<@!d>`, `<@&d>`, `<#d>` and bare `d` parse back to `d` for every digit string `d` |
| Mentions.ParseSound | commands/utility/roles.js:141 | a successful parse yields digits, and the input was one of the accepted forms of that id |
| Mentions.Parse | commands/moderation/mute.js:89 | the reference definition of the mention regexes (also roles.js:265 for roles and configuration.js:272 for channels): `<@d>` or `<@!d>` or `d` for a user, `<@&d>` or `d` for a role, `<#d>` or `d` for a channel, each giving `d`; Mentions.ParseFormat and Mentions.ParseSound state that exactly these forms parse, to exactly that id |
| ConfigStore.GetGuildConfig | commands/configuration/configuration.js:51-68 | a stored row is returned as stored; a guild without a row gets prefix ',', no log channels, and its own id; in a valid table the row always has its id and a prefix |
| ConfigStore.DefaultConfig | commands/configuration/configuration.js:51-59 | the reference definition of `defaultConfig` under a guild id: prefix ',' and no log channels; ConfigStore.GetGuildConfig and ConfigStore.UnknownKeyResets state where it is returned and stored |
| ConfigStore.Position | commands/configuration/configuration.js:78-86 | the key map assigns slots 1..7 and nothing else |
| ConfigStore.Bind | commands/configuration/configuration.js:89-98 | the parameter array has 15 slots with the guild id in slot 0 |
| ConfigStore.BindAt | commands/configuration/configuration.js:89-98 | slot by slot: guild id at 0 and `position+7`, the value at `position`, NULL elsewhere |
| ConfigStore.Upsert | commands/configuration/configuration.js:33-46 | the statement writes the row under slot 0's id, and its prefix is never NULL (COALESCE falls back to ',') |
| ConfigStore.UpsertEffect | commands/configuration/configuration.js:33-46 | evaluating the bound statement column by column equals the per-key effect table |
| ConfigStore.Effect | commands/configuration/configuration.js:33-46 | the reference definition of what one set writes, key by key, derived from the statement's placeholder order; ConfigStore.UpsertEffect proves the literal evaluation equal to it, and ConfigStore.Store.SetConfigValue stores it |
| ConfigStore.PrefixWrite | commands/configuration/configuration.js:36-38 | writing `prefix` stores the value; only the ban log channel survives from the old row |
| ConfigStore.UnknownKeyResets | commands/configuration/configuration.js:93-100 | a key outside the map binds only the guild id, and the write stores exactly the defaults |
| ConfigStore.WarnChannelLandsInMute | commands/configuration/configuration.js:95-98 | as written: setting the warn log channel leaves it NULL and stores the guild id as the mute log channel |
| ConfigStore.WithColumn | commands/configuration/configuration.js:36-44 | replaces one data column and keeps every other |
| ConfigStore.BindIntended | commands/configuration/configuration.js:36-44 | the binding the statement's placeholders call for has 15 slots with the guild id in slot 0 |
| ConfigStore.IntendedSetOverlaysOneField | commands/configuration/configuration.js:73-102 | with the intended binding, a set changes exactly the named field of what `getGuildConfig` returns |
| ConfigStore.Store.constructor | commands/configuration/configuration.js:12-20 | the table starts empty and valid |
| ConfigStore.BindParams | commands/configuration/configuration.js:89-98 | the filled 15-slot array holds exactly the binding `Bind` |
| ConfigStore.IntendedColumn | commands/configuration/configuration.js:73-102 | with the intended binding, the named column gets the value and each other column keeps what `getGuildConfig` returns |
| ConfigStore.Store.SetConfigValue | commands/configuration/configuration.js:73-102 | the filled array is the binding; the row becomes the upsert's result (the per-key effect); every row stays keyed and prefixed |
| ConfigStore.Store.ResetGuildConfig | commands/configuration/configuration.js:105-110 | deletes only that guild's row; the guild then reads back as the defaults |
| ConfigStore.ResetIdempotent | commands/configuration/configuration.js:47 | resetting twice leaves the same table as resetting once |
| Common.Utf16Length | commands/configuration/configuration.js:258 | the UTF-16 length lies between the character count and twice it, and equals the character count iff no character lies above U+FFFF |
| Common.NatToString | commands/moderation/purge.js:79 | `String(n)`: digits only, and their decimal value is `n` |
| Common.Lower | events/messageCreate.js:19 | `toLowerCase` on ASCII: the same length, each letter mapped by `LowerChar` |
| Common.Join | commands/moderation/mute.js:85 | the reference definition of `join(sep)`; Dispatch.SplitJoin, Dispatch.JoinStart and Dispatch.JoinEnd state its relation to the split |
| Common.SortBy | commands/moderation/purge.js:74 | `Array.prototype.sort` by a numeric key: the result is sorted by the key and is a permutation of the input |
| ConfigStore.ValidateSetSound | commands/configuration/configuration.js:245-300 | an accepted set names a known key; a prefix is non-empty, at most 5 UTF-16 code units (so at most 5 characters), and stored as given; a channel is `<#d>` or `d` of a text channel, and `d` alone is stored |
| ConfigStore.ValidateSet | commands/configuration/configuration.js:245-296 | the reference definition of `handleSetConfig`'s decision: missing key or value first, then the prefix length test, then the channel parse and text-channel test, and any other key is invalid; ConfigStore.ValidateSetSound, ConfigStore.PrefixAccepted, ConfigStore.ValidateSetChannel, ConfigStore.PrefixLengthInUnits and ConfigStore.SlashPrefixChoiceRejected state its outcomes |
| ConfigStore.PrefixAccepted | commands/configuration/configuration.js:246-263 | a prefix is accepted, and stored as given, iff it is non-empty and at most 5 UTF-16 code units long |
| ConfigStore.PrefixLengthInUnits | commands/configuration/configuration.js:258-263 | three characters above U+FFFF (six units) are refused as too long, while five characters below U+10000 are accepted |
| ConfigStore.ValidateSetChannel | commands/configuration/configuration.js:264-289 | both forms of a text channel's id are accepted for every channel key and store the bare id |
| ConfigStore.SlashPrefixChoiceRejected | commands/configuration/configuration.js:135 | the slash choice value `Prefix` falls to "Invalid configuration key" |
| Lockdown.RoleEdits | commands/moderation/lockdown.js:114-123 | the loop issues at most one edit per listed role |
| Lockdown.RoleEditsExactly | commands/moderation/lockdown.js:114-123 | the loop writes the given value for every listed role the guild has, and edits no other role |
| Lockdown.RoleEditsAppend | commands/moderation/lockdown.js:114-123 | the edits of a concatenated role list are the concatenation of the edits |
| Lockdown.ApplySnoc | commands/moderation/lockdown.js:109-121 | one more edit overwrites that role's entry |
| Lockdown.ApplyCons | commands/moderation/lockdown.js:109-121 | the everyone edit applied first, then the loop's edits |
| Lockdown.ApplyRoleEdits | commands/moderation/lockdown.js:114-123 | after the loop, each role present in the guild holds the value written, and every other role is as before |
| Lockdown.LockOverwrites | commands/moderation/lockdown.js:109-123 | a complete `lock` denies @everyone, allows each allowed role present in the guild, and leaves other roles alone |
| Lockdown.UnlockOverwrites | commands/moderation/lockdown.js:222-236 | a complete `unlock` resets @everyone and each allowed role present in the guild to null, and leaves other roles alone |
| Lockdown.Completed | commands/moderation/lockdown.js:104-177 | fewer calls take effect exactly when a call within range throws |
| Lockdown.Manager.constructor | commands/moderation/lockdown.js:8 | no channel is locked |
| Lockdown.Advance | commands/moderation/lockdown.js:114-121 | one turn of the loop: a role the guild has is the next call and overwrites its entry; any other role issues nothing |
| Lockdown.IssueEdits | commands/moderation/lockdown.js:109-123 | the everyone edit and the loop issue, in order, the calls before the first throwing one; the count is `Completed` and the overwrites are those calls applied in order |
| Lockdown.Manager.EditOverwrites | commands/moderation/lockdown.js:109-123 | the loop applies exactly the edits before the first throwing call, to that channel only |
| Lockdown.Manager.Lock | commands/moderation/lockdown.js:72-178 | guards in order; an already-locked channel is refused unchanged; the entry `{messageId: sticky id, allowedRoles: ALLOWED_ROLES}` is inserted only if every edit and the sticky send succeed; on failure the edits made so far stay |
| Lockdown.Manager.Unlock | commands/moderation/lockdown.js:186-247 | guards in order; an unlocked channel is refused unchanged; after all edits the entry is removed even if deleting the sticky message fails, and other channels are untouched |
| Lockdown.Manager.OnMessage | commands/moderation/lockdown.js:22-62 | bot messages change nothing; in a locked channel a successful re-post replaces the stored message id; a failed send keeps it |
| Roles.IndexOf | commands/utility/roles.js:653 | `indexOf`: -1 exactly when absent, otherwise the first occurrence |
| Roles.SpliceFirst | commands/utility/roles.js:653-655 | splicing out the first occurrence removes exactly one copy |
| Roles.GrantRoundTrip | commands/utility/roles.js:636-671 | setup `add` followed by setup `remove` of the same pair restores the permission map |
| Roles.GrantsStayPruned | commands/utility/roles.js:657-660 | no giver is ever left with an empty list |
| Roles.GrantAdded | commands/utility/roles.js:636-643 | the reference definition of setup `add`: the target appended to the giver's list, created if missing (a target already listed is refused before this, in Roles.RoleSettings.Setup); Roles.GrantRoundTrip, Roles.SetupDrivesCheck and Roles.RoleSettings.Setup state its effect |
| Roles.GrantRemoved | commands/utility/roles.js:650-659 | the reference definition of setup `remove`: the first occurrence spliced out and an emptied giver deleted; Roles.SpliceFirst, Roles.GrantRoundTrip, Roles.GrantsStayPruned and Roles.SetupDrivesCheck state its effect |
| Roles.Stored | commands/utility/roles.js:675 | the reference definition of what a save writes: null for an empty map, the map otherwise; Roles.RoleSettings.Setup and Roles.RoleSettings.Group state what is saved |
| Roles.AnyGrants | commands/utility/roles.js:932-936 | the loop succeeds iff some held role's list contains the target |
| Roles.CheckRolePermission | commands/utility/roles.js:916-942 | true iff ManageRoles, or some held role may give the target; false when nothing is configured |
| Roles.SetupDrivesCheck | commands/utility/roles.js:636-671 | a setup `add` lets holders of the giver give the target; removing the only grant takes that away |
| Roles.GetRoleGroup | commands/utility/roles.js:901-914 | lookup by lower-cased name; an inherited property name is a truthy non-group |
| Roles.CreatedFoundCaseInsensitively | commands/utility/roles.js:724-731 | a created group `{name, roles: []}` is found under any spelling with the same lower case, and not after deletion |
| Roles.GroupRoleRoundTrip | commands/utility/roles.js:783-837 | `add_role` then `remove_role` of a new role restores the groups |
| Roles.GroupCreateDeleteRoundTrip | commands/utility/roles.js:716-761 | `create` then `delete` of a new group restores the groups |
| Roles.GroupGuard | commands/utility/roles.js:696 | without ManageGuild only `list` runs, it behaves as with the permission, and nothing is saved |
| Roles.GroupOutcome | commands/utility/roles.js:694-900 | the reference definition of `handleRoleGroup`'s decision tree; Roles.RoleSettings.Group, Roles.GroupGuard, Roles.GroupRoleRoundTrip, Roles.GroupCreateDeleteRoundTrip and Roles.CreatedFoundCaseInsensitively state its results |
| Roles.RoleSettings.constructor | commands/utility/roles.js:901-905 | nothing configured: no permissions, no groups |
| Roles.RoleSettings.Setup | commands/utility/roles.js:615-690 | ManageGuild is required; `add` refuses a present target, `remove` refuses a missing giver or target; a save stores the new map, or null when it is empty |
| Roles.RoleSettings.Group | commands/utility/roles.js:694-900 | the result and the saved groups follow the group action table; permissions are untouched |
| Roles.FindById | commands/utility/roles.js:269 | `roles.cache.get`: a role with that id, or none exists |
| Roles.FindByName | commands/utility/roles.js:271 | a role whose name matches case-insensitively, or none exists |
| Roles.GroupRoles | commands/utility/roles.js:250-255 | the group's ids that exist in the guild, as roles |
| Roles.Resolve | commands/utility/roles.js:243-282 | a group is tried first and yields its roles; otherwise exactly one role |
| Roles.ResolveRoleId | commands/utility/roles.js:265-269 | `<@&id>` and a bare id both resolve to that role when no group has that name |
| Roles.GroupBeatsRoleName | commands/utility/roles.js:243-262 | a group name wins over a role with the same name |
| Roles.AddAcceptExactly | commands/utility/roles.js:289-317 | a role is given iff not held, permitted, below the executor (or Administrator), and below the bot |
| Roles.RemoveAcceptExactly | commands/utility/roles.js:450-471 | a role is taken iff held, permitted, and below the executor (or Administrator) |
| Roles.AddVerdict | commands/utility/roles.js:289-317 | the reference definition of the add tests in their order (held, permission, executor's position, bot's position); Roles.AddAcceptExactly and Roles.ClassifyPartition state which roles it accepts |
| Roles.RemoveVerdict | commands/utility/roles.js:450-471 | the reference definition of the remove tests in their order (not held, permission, executor's position); Roles.RemoveAcceptExactly and Roles.ClassifyPartition state which roles it accepts |
| Roles.ClassifyPartition | commands/utility/roles.js:289-317 | each candidate lands in exactly one of skipped / errors / valid, and valid holds exactly the accepted ones |
| Roles.Classify | commands/utility/roles.js:285-317 | the loop builds exactly the three lists of the specification |
| Roles.HandleRoleAdd | commands/utility/roles.js:230-389 | an absent target, an unknown role, a group without live roles and an inherited group name each get their own answer; otherwise the classification decides: no accepted candidate gives the skipped names and errors, a refused request fails, and else every accepted candidate (each passing all four tests) is added and the member's roles grow by exactly those |
| Roles.HandleRoleRemove | commands/utility/roles.js:391-543 | as for add, with the three removal tests: no accepted candidate gives the skipped names and errors, a refused request fails, and else every accepted candidate is removed and the member loses exactly those |
| Mute.ParseDuration | commands/moderation/mute.js:6-24 | null unless digits followed by one unit letter of `smhdw` in either case; the value is amount × the unit's multiplier |
| Mute.UnitMultipliers | commands/moderation/mute.js:15-21 | each unit selects one of the five multipliers |
| Mute.Multiplier | commands/moderation/mute.js:15-21 | the reference definition of the unit table: s, m, h, d, w in milliseconds; Mute.UnitMultipliers and Mute.CapSpellings state its values |
| Mute.ParseDurationOf | commands/moderation/mute.js:6-24 | round trip: the decimal amount followed by a unit parses to amount × multiplier |
| Mute.ParseMuteArgs | commands/moderation/mute.js:77-92 | fewer than 2 arguments is a usage error; the user id is digits; the reason is the rest joined by spaces, or the default |
| Mute.ParseUnmuteArgs | commands/moderation/mute.js:256-270 | fewer than 1 argument is a usage error; otherwise as for mute, without a duration |
| Mute.MuteArgsAcceptUserForms | commands/moderation/mute.js:89-92 | `d`, `<@d>` and `<@!d>` are all accepted with id `d` |
| Mute.MuteDecision | commands/moderation/mute.js:102-170 | muted iff a positive duration of at most 28 days, both permissions, a member, not already muted, moderatable, and outranked (or owner) |
| Mute.UnmuteDecision | commands/moderation/mute.js:280-330 | unmuted iff both permissions, a member whose timeout has not ended, moderatable, and outranked (or owner) |
| Mute.ZeroIsInvalid | commands/moderation/mute.js:102-108 | "0" plus a unit parses to 0 and is refused as an invalid format |
| Mute.TooLongFirst | commands/moderation/mute.js:111-116 | anything over 28 days is refused before any permission or member check |
| Mute.CapSpellings | commands/moderation/mute.js:111 | "4w", "28d" and "672h" each parse to exactly the 28-day cap |
| Mute.CapBoundary | commands/moderation/mute.js:111 | "29d" is refused as too long |
| Mute.MutedTestsSplit | commands/moderation/mute.js:146 | the "already muted" and "not muted" tests never both refuse; neither refuses at the exact end instant |
| Mute.Outranks | commands/moderation/mute.js:161 | the reference definition of the hierarchy test (a higher highest role, or the guild owner), used by both chains (also mute.js:323); Mute.MuteDecision and Mute.UnmuteDecision state its place |
| Mute.MutedAt | commands/moderation/mute.js:146 | the reference definition of "already muted": a timeout that ends after now; Mute.MutedTestsSplit relates it to Mute.UnmutedAt |
| Mute.UnmutedAt | commands/moderation/mute.js:307 | the reference definition of "not currently muted": no timeout, or one that ended before now; Mute.MutedTestsSplit relates it to Mute.MutedAt |
| Dispatch.TrimStart | events/messageCreate.js:18 | drops exactly the leading white space |
| Dispatch.TrimEnd | events/messageCreate.js:18 | drops exactly the trailing white space |
| Dispatch.Trim | events/messageCreate.js:18 | the result neither starts nor ends with white space |
| Dispatch.TrimNoop | events/messageCreate.js:18 | text without surrounding white space is unchanged |
| Dispatch.NextSpace | events/messageCreate.js:18 | the first space at or after a position |
| Dispatch.SkipSpaces | events/messageCreate.js:18 | the end of a run of spaces |
| Dispatch.SplitSpaces | events/messageCreate.js:18 | `split(/ +/)` yields at least one token and no token has a space; a run of spaces separates once, so no inner token is empty; only a leading or trailing space gives an empty first or last token; one token iff there is no space, and then it is the text |
| Dispatch.SplitTrimmed | events/messageCreate.js:18 | text neither starting nor ending with a space splits into non-empty tokens |
| Dispatch.TokensAfterTrim | events/messageCreate.js:18 | after `trim`, every token but a lone empty one is non-empty |
| Dispatch.SplitJoin | events/messageCreate.js:18 | splitting non-empty space-free words joined by single spaces gives the words back |
| Dispatch.JoinStart | events/messageCreate.js:18 | a join of non-empty words starts with the first word |
| Dispatch.JoinEnd | events/messageCreate.js:18 | a join of non-empty words ends inside the last word |
| Dispatch.ParseContent | events/messageCreate.js:15-19 | a message is parsed iff it starts with the prefix; the name is the lower-cased first token; every argument is non-empty and has no space |
| Dispatch.ParseContentOf | events/messageCreate.js:15-19 | round trip: prefix + name + arguments gives back the lower-cased name and the arguments |
| Dispatch.Direct | events/messageCreate.js:22 | a command with that name, or none has it |
| Dispatch.ByAlias | events/messageCreate.js:25-34 | the first command in order whose aliases include the name, or none has it |
| Dispatch.LookupPrefersNames | events/messageCreate.js:22-34 | a command's own name wins over any alias |
| Dispatch.LookupMisses | events/messageCreate.js:36-39 | unknown iff no command has it as a name or alias |
| Dispatch.Lookup | events/messageCreate.js:22-34 | the reference definition of the lookup: the command of that name, else the first command with that alias; Dispatch.LookupPrefersNames and Dispatch.LookupMisses state its results |
| Dispatch.RecordedBlocks | events/messageCreate.js:52-60 | a recorded timestamp blocks that user for exactly the window |
| Dispatch.ExpiredFree | events/messageCreate.js:61 | after expiry the user is not on cooldown |
| Dispatch.OnCooldown | events/messageCreate.js:52-54 | the reference definition of the cooldown test: a recorded timestamp plus the window lies after now; Dispatch.RecordedBlocks, Dispatch.ExpiredFree and Dispatch.Cooldowns.CheckAndRecord state its behaviour |
| Dispatch.AmountMs | events/messageCreate.js:50 | the reference definition of the window: the command's cooldown, or the default, in seconds times 1000; Dispatch.HelpSharesBucket uses it for the 3-second help bucket |
| Dispatch.Cooldowns.constructor | events/messageCreate.js:41 | no buckets |
| Dispatch.Cooldowns.CheckAndRecord | events/messageCreate.js:43-60 | allowed iff not within the window; a refusal changes nothing; an allowance records `now` for that user only |
| Dispatch.Cooldowns.Expire | events/messageCreate.js:61 | removes only that user's timestamp from that bucket |
| Dispatch.OnMessage | events/messageCreate.js:6-64 | bots, DMs and unprefixed text are ignored; unknown names record nothing; a found command always reaches the cooldown test: it runs (recording now) or is cooled down; the bucket is the command's name, and the window is `(cooldown ?? 3) × 1000` |
| Dispatch.OnSelect | events/selectCreate.js:4-38 | non-string-select interactions and unknown ids are ignored; a found menu runs (recording now) or is cooled down; the window is `(cooldown ?? 1) × 1000` in the bucket named after the menu |
| Dispatch.HelpSharesBucket | selectMenus/helpSelect.js:5-7 | the `help` command and the `help` menu share one bucket and block each other for 3 s |
| Warnings.Filter | commands/moderation/warnsystem.js:27 | a WHERE clause: exactly the rows satisfying it, each as often as in the table, and no other row |
| Warnings.UserWarnings | commands/moderation/warnsystem.js:26-38 | exactly the user's warnings in that guild, ascending by timestamp |
| Warnings.WarningStore.constructor | commands/moderation/warnsystem.js:12-19 | an empty table |
| Warnings.WarningStore.AddWarning | commands/moderation/warnsystem.js:40-53 | appends the record with the given fields; a duplicate id is refused and nothing changes |
| Warnings.WarningStore.RemoveWarning | commands/moderation/warnsystem.js:55-64 | null and no change when no row has that id in that guild; otherwise returns that row and deletes exactly it |
| Warnings.WarningStore.ClearWarnings | commands/moderation/warnsystem.js:66-72 | returns the prior count for (user, guild) and deletes exactly those rows |
| Warnings.SubsequenceKeepsIds | commands/moderation/warnsystem.js:12-19 | deleting rows keeps ids distinct |
| Warnings.DistinctTail | commands/moderation/warnsystem.js:12-19 | dropping the first row keeps ids distinct, and no later row shares its id |
| Warnings.RemovedOnce | commands/moderation/warnsystem.js:30 | with distinct ids the DELETE removes exactly one row: the multiset loses that row and nothing else |
| Warnings.FilterKeepsAll | commands/moderation/warnsystem.js:30 | a DELETE matching nothing keeps every row |
| Warnings.AddedIsListed | commands/moderation/warnsystem.js:150-151 | an added warning appears in its user's list |
| Warnings.ClearedIsEmpty | commands/moderation/warnsystem.js:66-72 | after a clear the list is empty, and every other (user, guild) list is exactly as before |
| Warnings.FilterCommutes | commands/moderation/warnsystem.js:32 | a DELETE that spares a user's rows leaves that user's list as it was |
| Warnings.PageArithmetic | commands/moderation/warnsystem.js:75-78 | totalPages = ⌈n/5⌉, and every page in range shows 1 to 5 warnings |
| Warnings.Bounds | commands/moderation/warnsystem.js:75-78 | the reference definition of a page's start, end and page count; Warnings.PageArithmetic and Warnings.PageOfIndex state its properties |
| Warnings.PageOfIndex | commands/moderation/warnsystem.js:75-78 | warning i appears on page i / 5 |
| Warnings.ViewOf | commands/moderation/warnsystem.js:244-296 | no warnings, all on one page when there are 5 or fewer, otherwise paged from the first 5 |
| Warnings.Pager.constructor | commands/moderation/warnsystem.js:294-295 | starts on page 0 of ⌈n/5⌉ |
| Warnings.Pager.Press | commands/moderation/warnsystem.js:342-354 | only the invoking user moves pages; previous only above 0, next only below the last; the page stays in range |
| Warnings.Warn | commands/moderation/warnsystem.js:114-151 | guards in order, each with its own answer: member permission, bot permission, bot target, self-warn, then a failed insert; otherwise the record is stored with the default reason when none is given |
| Purge.Kept | commands/moderation/purge.js:60-62 | exactly the fetched messages younger than 14 days, each as often as fetched |
| Purge.PurgeStep | commands/moderation/purge.js:29-74 | guards; a failed fetch is the error path; an empty fetch is "no messages"; all too old is "too old"; a permitted fetch with a recent message always deletes, and what it deletes is exactly the recent messages, ascending by creation time |
| Purge.Repeat | commands/moderation/purge.js:80 | `repeat(n)` is n copies |
| Purge.HeaderCloses | commands/moderation/purge.js:76-80 | the header ends with "Total messages: " and the decimal count, then 50 '=' |
| Purge.EntryHead | commands/moderation/purge.js:84-91 | entry numbered as given; "Unknown Author" iff no author; "[No text content]" for empty text |
| Purge.EntryOptionalLines | commands/moderation/purge.js:94-101 | an Attachments line iff there are attachments, and an Embeds line iff there are embeds |
| Purge.EntriesSnoc | commands/moderation/purge.js:82-104 | message i's entry is appended after the first i entries and is numbered i+1 |
| Purge.EntriesPrefix | commands/moderation/purge.js:82-104 | the archive entries of the first i messages are a prefix of the entries of all messages |
| Purge.EntryText | commands/moderation/purge.js:83-103 | the reference definition of one archive entry; Purge.EntryHead and Purge.EntryOptionalLines state its lines |
| Purge.Entries | commands/moderation/purge.js:82-104 | the reference definition of the numbered entries in order; Purge.EntriesSnoc and Purge.EntriesPrefix state their structure |
| Purge.Archive | commands/moderation/purge.js:73-104 | the reference definition of the archive text: the header, then the entries; Purge.HeaderCloses states the header's end and Purge.BuildArchive proves the loop builds it |
| Purge.BuildArchive | commands/moderation/purge.js:73-104 | the loop produces the header followed by the numbered entries |
| Purge.Execute | commands/moderation/purge.js:22-168 | refuses iff the step selects nothing; a throwing bulk delete is the error reply; otherwise it purges, and the archive covers exactly the deleted messages, with the default reason |
| ServerInfo.Count | commands/utility/serverinfo.js:25-29 | `filter(p).size` is at most the size |
| ServerInfo.CountSplits | commands/utility/serverinfo.js:54-55 | humans + bots = members |
| ServerInfo.CountMonotone | commands/utility/serverinfo.js:28-29 | a stronger filter counts no more |
| ServerInfo.CountZero | commands/utility/serverinfo.js:25-29 | the count is zero iff no element passes |
| ServerInfo.CountChannels | commands/utility/serverinfo.js:25-29 | locked text ≤ text, locked voice ≤ voice, text + voice + news ≤ channels |
| ServerInfo.KindsDisjoint | commands/utility/serverinfo.js:25-27 | types 0, 2 and 5 count disjointly |
| ServerInfo.MemberCountCache.constructor | commands/utility/serverinfo.js:4 | an empty cache |
| ServerInfo.MemberCountCache.Lookup | commands/utility/serverinfo.js:33-76 | a fresh hit (under 5 min) uses the cache and changes nothing; a miss with a fetch stores the split for that guild only; a failed fetch falls back to a stale entry or 'Unable to fetch' |
| ServerInfo.Fresh | commands/utility/serverinfo.js:43 | the reference definition of a cache hit: the entry is younger than 5 minutes; ServerInfo.MemberCountCache.Lookup states its use |

## Left out

- Platform effects: replies, embeds, DMs, log-channel posts, timeouts, bulk deletes, collectors' lifetimes and the purge reply's auto-delete timer. Their outcomes appear only as parameters (`failAt`, `requestFails`, `deleteFails`, `fetched`, `sent`).
- SQL and JSON in general:
  - tables are maps and sequences;
  - only the configuration upsert is evaluated literally;
  - `role_permissions` and `role_groups` are held as already-parsed maps, with `None` for missing or unparsable.
- Roles.RoleSettings: the settings are stored in the model's own fields. The code saves them through `setConfigValue` under keys that are not columns, and that path resets the guild's configuration (ConfigStore.UnknownKeyResets). The loss of the saved value is not modelled.
- Lockdown.Manager.Unlock: reverts the roles of the `ALLOWED_ROLES` constant, not the stored `allowedRoles`. The code does the same, so the two cannot differ.
- Lockdown.Manager.EditOverwrites: the calls run on a local copy of the channel's overwrites (`Lockdown.IssueEdits`), which is stored once the calls stop. The platform applies each call at once, but no other handler runs in between in this model, so the final state is the same.
- Lockdown.Manager.OnMessage: each handler runs atomically. The code reads the entry (lockdown.js:28) and writes it back after awaits (lockdown.js:57), so it can re-insert an entry that `unlock` has deleted. That interleaving is not modelled.
- Dispatch.Cooldowns.Expire: the expiry timer is an explicit operation. A timer from an earlier use deleting a newer timestamp is not modelled.
- Warnings.UserWarnings: the order of warnings with equal timestamps is not stated. SQL leaves it open, and the model's sort is only one choice.
- Warnings.WarningStore.AddWarning: the id (`Date.now` plus a random suffix) and the timestamp are parameters. The returned record's ISO timestamp is not modelled.
- Dispatch.OnMessage: the registry is a sequence of commands with distinct names. It stands for the collection keyed by name that index.js:48 fills, where a later command replaces an earlier one of the same name. Loading the commands is not part of this model.
- Purge.PurgeStep: the order of messages with equal creation times is not stated.
- Purge.Execute: the deleted count reported by the platform, and the upper bound of 100 on `amount`, are left to the platform. The archive is built but never sent: the log channel id is the empty string (purge.js:3), so the lookup at purge.js:135 finds no channel and the code only logs a warning (purge.js:151-152). A failure of the deferred reply is not modelled.
- Time and locale formatting (`toLocaleString` and friends) is a function parameter.
- Mute.MuteDecision: the text path's user lookup (mute.js:93-98, 271-276) happens before the guards and is not modelled. Only the member fetch is an input.
- Mute.ParseDuration: `parseInt` loses precision on very long digit strings. The model's amounts are unbounded.
- Unicode: `toLowerCase` is ASCII-only in the model. Strings are sequences of Unicode scalar values. The one length test that the code compares with a limit, ConfigStore.ValidateSet's prefix bound (configuration.js:258), counts UTF-16 code units through Common.Utf16Length. A lone surrogate, which a JavaScript string can hold, has no counterpart.
- The prefix lookup of events/messageCreate.js imports `./configuration.js` from the events directory. That file is not part of this model; the prefix is a parameter.

## Findings

| source | as written | input that shows it | evidently intended | confidence | as-written member | corrected member |
|---|---|---|---|---|---|---|
| commands/configuration/configuration.js:95-98 | the value goes to slot `position` and the guild id to slot `position + 7`, but the statement's placeholders pair up as (value, sub-select) per column at slots 2c+1 and 2c+2 | `setConfigValue(g, 'warn_log_channel_id', '123')`: warn log stays NULL, mute log becomes `g`, and the prefix is taken from the row whose guild id is '123' | each column keeps its old value unless it is the one being set, which gets the value | not executed | ConfigStore.WarnChannelLandsInMute | ConfigStore.IntendedSetOverlaysOneField |
