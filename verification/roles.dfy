/** Role delegation and role groups of commands/utility/roles.js.

    The two settings are the parsed forms of `role_permissions` (giver role
    id to the list of role ids it may hand out) and `role_groups` (lower-cased
    group name to `{name, roles}`). `None` stands for "not configured or not
    parsable": every reader treats both the same way. Loading and saving are
    abstract: a save stores the map, or `None` where the code stores null. */
module Roles {
  import opened Common
  import Mentions

  type RoleId = string

  // ---------------------------------------------------------------------
  // Array.prototype.indexOf and splice(i, 1)

  function IndexOf(s: seq<RoleId>, x: RoleId): (i: int)
    ensures -1 <= i < |s|
    ensures i == -1 <==> x !in s
    ensures i >= 0 ==> s[i] == x && x !in s[..i]
  {
    if |s| == 0 then -1
    else if s[0] == x then 0
    else
      var j := IndexOf(s[1..], x);
      if j == -1 then -1
      else
        assert s[..j + 1] == [s[0]] + s[1..][..j];
        j + 1
  }

  /** `splice(i, 1)` on a list: the element at `i` goes, the rest keep their
      order. */
  function Splice(s: seq<RoleId>, i: nat): seq<RoleId>
    requires i < |s|
  {
    s[..i] + s[i + 1..]
  }

  /** Splicing out position `i` removes one copy of the element there. */
  lemma SpliceCount(s: seq<RoleId>, i: nat)
    requires i < |s|
    ensures |Splice(s, i)| == |s| - 1
    ensures multiset(Splice(s, i)) == multiset(s) - multiset{s[i]}
  {
    var before, after := s[..i], s[i + 1..];
    assert s == before + [s[i]] + after;
    assert multiset(s) == multiset(before) + multiset{s[i]} + multiset(after);
  }

  /** Splicing out the first occurrence removes exactly one copy. */
  lemma SpliceFirst(s: seq<RoleId>, x: RoleId)
    requires x in s
    ensures var r := Splice(s, IndexOf(s, x));
      |r| == |s| - 1 && multiset(r) == multiset(s) - multiset{x}
  {
    SpliceCount(s, IndexOf(s, x));
  }

  // ---------------------------------------------------------------------
  // Role permissions: giver role -> roles it may give

  type RolePerms = map<RoleId, seq<RoleId>>

  /** Empty lists are pruned on removal, so no giver maps to an empty list. */
  ghost predicate Pruned(p: RolePerms) {
    forall g :: g in p ==> |p[g]| > 0
  }

  function Grantable(p: RolePerms, giver: RoleId): seq<RoleId> {
    if giver in p then p[giver] else []
  }

  /** Setup `add`: append the target, creating the giver's list if needed. */
  function GrantAdded(p: RolePerms, giver: RoleId, target: RoleId): RolePerms {
    p[giver := Grantable(p, giver) + [target]]
  }

  /** Setup `remove`: splice out the first occurrence of the target and drop
      the giver when its list becomes empty. */
  function GrantRemoved(p: RolePerms, giver: RoleId, target: RoleId): RolePerms
    requires giver in p && target in p[giver]
  {
    var rest := Splice(p[giver], IndexOf(p[giver], target));
    if |rest| == 0 then map g | g in p && g != giver :: p[g]
    else p[giver := rest]
  }

  /** What a save stores: null for an empty map, the map otherwise. */
  function Stored<V>(m: map<string, V>): Option<map<string, V>> {
    if |m| == 0 then None else Some(m)
  }

  /** Adding then removing the same permission gives back the original map. */
  lemma GrantRoundTrip(p: RolePerms, giver: RoleId, target: RoleId)
    requires Pruned(p) && target !in Grantable(p, giver)
    ensures GrantRemoved(GrantAdded(p, giver, target), giver, target) == p
  {
    var l := Grantable(p, giver);
    var q := GrantAdded(p, giver, target);
    assert IndexOf(q[giver], target) == |l| by {
      assert q[giver] == l + [target];
      assert q[giver][..|l|] == l;
    }
    assert Splice(q[giver], |l|) == l;
  }

  /** Both setup actions keep the map pruned. */
  lemma GrantsStayPruned(p: RolePerms, giver: RoleId, target: RoleId)
    requires Pruned(p)
    ensures Pruned(GrantAdded(p, giver, target))
    ensures giver in p && target in p[giver] ==> Pruned(GrantRemoved(p, giver, target))
  {
  }

  // ---------------------------------------------------------------------
  // checkRolePermission

  /** The executing member: the ids of the roles they hold (in the order of
      their role cache), the position of their highest role, and the
      Administrator and ManageRoles permissions. */
  datatype Executor = Executor(roleIds: seq<RoleId>, highest: int, isAdmin: bool, canManageRoles: bool)

  /** The loop over the member's roles: some held role may give the target. */
  function AnyGrants(held: seq<RoleId>, p: RolePerms, target: RoleId): (b: bool)
    ensures b <==> exists i :: 0 <= i < |held| && target in Grantable(p, held[i])
  {
    if |held| == 0 then false
    else if held[0] in p && target in p[held[0]] then true
    else
      var b := AnyGrants(held[1..], p, target);
      assert forall i :: 1 <= i < |held| ==> held[i] == held[1..][i - 1];
      b
  }

  /** ManageRoles always allows; otherwise some held role must be configured
      to give the target. Nothing configured means no. */
  function CheckRolePermission(ex: Executor, perms: Option<RolePerms>, target: RoleId): (b: bool)
    ensures b <==> ex.canManageRoles
                   || (perms.Some? && exists i :: 0 <= i < |ex.roleIds| && target in Grantable(perms.value, ex.roleIds[i]))
  {
    if ex.canManageRoles then true
    else if perms.None? then false
    else AnyGrants(ex.roleIds, perms.value, target)
  }

  /** A member who holds the giver role may give the target right after a
      setup `add`, and a member whose only role is the giver no longer may
      after the matching `remove` of the target's only occurrence. */
  lemma SetupDrivesCheck(ex: Executor, p: RolePerms, giver: RoleId, target: RoleId)
    requires giver in ex.roleIds
    ensures CheckRolePermission(ex, Some(GrantAdded(p, giver, target)), target)
    ensures ex.roleIds == [giver] && !ex.canManageRoles && giver in p && multiset(p[giver])[target] == 1
            ==> !CheckRolePermission(ex, Some(GrantRemoved(p, giver, target)), target)
  {
    var i :| 0 <= i < |ex.roleIds| && ex.roleIds[i] == giver;
    assert target in Grantable(GrantAdded(p, giver, target), ex.roleIds[i]);
    if ex.roleIds == [giver] && !ex.canManageRoles && giver in p && multiset(p[giver])[target] == 1 {
      SpliceFirst(p[giver], target);
      var q := GrantRemoved(p, giver, target);
      assert target !in Grantable(q, giver) by {
        if giver in q {
          assert multiset(q[giver])[target] == 0;
        }
      }
    }
  }

  // ---------------------------------------------------------------------
  // Role groups, keyed by the lower-cased name

  datatype RoleGroup = RoleGroup(name: string, roles: seq<RoleId>)

  type RoleGroups = map<string, RoleGroup>

  /** Lower-case names of properties every parsed object inherits: indexing
      a parsed object with one of them yields a truthy non-group value. */
  const InheritedKeys: set<string> := {"constructor", "__proto__"}

  function Key(name: string): string {
    Lower(name)
  }

  /** `roleGroups[key]` is truthy. */
  predicate Occupied(m: RoleGroups, key: string) {
    key in m || key in InheritedKeys
  }

  function Created(m: RoleGroups, name: string): RoleGroups {
    m[Key(name) := RoleGroup(name, [])]
  }

  function Deleted(m: RoleGroups, key: string): RoleGroups {
    map k | k in m && k != key :: m[k]
  }

  function RoleAdded(m: RoleGroups, key: string, role: RoleId): RoleGroups
    requires key in m
  {
    m[key := m[key].(roles := m[key].roles + [role])]
  }

  function RoleRemoved(m: RoleGroups, key: string, role: RoleId): RoleGroups
    requires key in m && role in m[key].roles
  {
    m[key := m[key].(roles := Splice(m[key].roles, IndexOf(m[key].roles, role)))]
  }

  /** What `getRoleGroup` yields: no group, a group, or (for an inherited
      property name) a truthy value without a `roles` list. */
  datatype Lookup = NoGroup | Found(group: RoleGroup) | NotAGroup

  function GetRoleGroup(groups: Option<RoleGroups>, name: string): (r: Lookup)
    ensures r.Found? <==> groups.Some? && Key(name) in groups.value
    ensures r.Found? ==> r.group == groups.value[Key(name)]
    ensures r.NotAGroup? <==> groups.Some? && Key(name) !in groups.value && Key(name) in InheritedKeys
  {
    if groups.None? then NoGroup
    else if Key(name) in groups.value then Found(groups.value[Key(name)])
    else if Key(name) in InheritedKeys then NotAGroup
    else NoGroup
  }

  /** A created group is found under any spelling of its name that lower-cases
      to the same key, and is gone once deleted. */
  lemma CreatedFoundCaseInsensitively(m: RoleGroups, name: string, other: string)
    requires Lower(other) == Lower(name)
    ensures GetRoleGroup(Some(Created(m, name)), other) == Found(RoleGroup(name, []))
    ensures GetRoleGroup(Some(Deleted(Created(m, name), Key(name))), other) != Found(RoleGroup(name, []))
  {
  }

  /** Adding a role that is not in the group and then removing it restores
      the groups. */
  lemma GroupRoleRoundTrip(m: RoleGroups, key: string, role: RoleId)
    requires key in m && role !in m[key].roles
    ensures RoleRemoved(RoleAdded(m, key, role), key, role) == m
  {
    var l := m[key].roles;
    var q := RoleAdded(m, key, role);
    assert IndexOf(q[key].roles, role) == |l| by {
      assert q[key].roles == l + [role];
      assert q[key].roles[..|l|] == l;
    }
    assert Splice(q[key].roles, |l|) == l;
  }

  /** Creating a group that did not exist and deleting it restores the
      groups. */
  lemma GroupCreateDeleteRoundTrip(m: RoleGroups, name: string)
    requires !Occupied(m, Key(name))
    ensures Deleted(Created(m, name), Key(name)) == m
  {
  }

  // ---------------------------------------------------------------------
  // The setup and group commands, mutating the stored settings

  datatype SetupAction = AddGrant | RemoveGrant

  datatype SetupResult =
    | SetupNeedsManageGuild
    | AlreadyGranted       // "... already has permission to give ..."
    | NotGranted           // "... doesn't have permission to give ..."
    | GiverUnconfigured    // "... doesn't have any role permissions configured."
    | SetupSaved

  datatype GroupAction = Create | Delete | AddRole | RemoveRole | List | OtherAction

  datatype GroupResult =
    | GroupNeedsManageGuild
    | MissingName          // "Please provide a group name."
    | MissingNameOrRole    // "Please provide both a group name and a role."
    | GroupExists
    | NoSuchGroup
    | RoleAlreadyInGroup
    | RoleNotInGroup
    | NoGroups             // `list` with nothing configured
    | Listed(count: nat)
    | InvalidAction
    | GroupCrashed         // `.roles` of an inherited property: a TypeError
    | GroupSaved

  /** `!groupName` is false. */
  predicate Given(name: Option<string>) {
    name.Some? && name.value != ""
  }

  /** The reply of the group command on the parsed groups `m`. */
  function GroupOutcome(m: RoleGroups, canManageGuild: bool, action: GroupAction,
                        name: Option<string>, role: Option<RoleId>): GroupResult
  {
    if action != List && !canManageGuild then GroupNeedsManageGuild
    else match action
      case Create =>
        if !Given(name) then MissingName
        else if Occupied(m, Key(name.value)) then GroupExists
        else GroupSaved
      case Delete =>
        if !Given(name) then MissingName
        else if !Occupied(m, Key(name.value)) then NoSuchGroup
        else GroupSaved
      case AddRole =>
        if !Given(name) || role.None? then MissingNameOrRole
        else if !Occupied(m, Key(name.value)) then NoSuchGroup
        else if Key(name.value) !in m then GroupCrashed
        else if role.value in m[Key(name.value)].roles then RoleAlreadyInGroup
        else GroupSaved
      case RemoveRole =>
        if !Given(name) || role.None? then MissingNameOrRole
        else if !Occupied(m, Key(name.value)) then NoSuchGroup
        else if Key(name.value) !in m then GroupCrashed
        else if role.value !in m[Key(name.value)].roles then RoleNotInGroup
        else GroupSaved
      case List =>
        if |m| == 0 then NoGroups else Listed(|m|)
      case OtherAction => InvalidAction
  }

  /** What the group command saves when it saves. */
  function GroupsSaved(m: RoleGroups, action: GroupAction, name: Option<string>, role: Option<RoleId>): Option<RoleGroups>
    requires GroupOutcome(m, true, action, name, role) == GroupSaved
  {
    var key := Key(name.value);
    match action
    case Create => Some(Created(m, name.value))
    case Delete => Stored(Deleted(m, key))
    case AddRole => Some(RoleAdded(m, key, role.value))
    case RemoveRole => Some(RoleRemoved(m, key, role.value))
  }

  /** Only `list` runs without ManageGuild, and it never saves. */
  lemma GroupGuard(m: RoleGroups, action: GroupAction, name: Option<string>, role: Option<RoleId>)
    ensures GroupOutcome(m, false, action, name, role) == GroupSaved ==> false
    ensures action != List ==> GroupOutcome(m, false, action, name, role) == GroupNeedsManageGuild
    ensures action == List ==> GroupOutcome(m, false, action, name, role) == GroupOutcome(m, true, action, name, role)
  {
  }

  class RoleSettings {
    /** Parsed `role_permissions`. */
    var permissions: Option<RolePerms>
    /** Parsed `role_groups`. */
    var groups: Option<RoleGroups>

    ghost predicate Valid()
      reads this
    {
      permissions.Some? ==> Pruned(permissions.value)
    }

    constructor ()
      ensures Valid() && permissions == None && groups == None
    {
      permissions := None;
      groups := None;
    }

    /** `handleRoleSetup`. */
    method Setup(canManageGuild: bool, giver: RoleId, target: RoleId, action: SetupAction)
      returns (r: SetupResult)
      requires Valid()
      modifies this
      ensures Valid()
      ensures groups == old(groups)
      ensures var p := old(permissions).GetOr(map[]);
        r == if !canManageGuild then SetupNeedsManageGuild
             else if action == AddGrant then
               if target in Grantable(p, giver) then AlreadyGranted else SetupSaved
             else if giver !in p then GiverUnconfigured
             else if target !in p[giver] then NotGranted
             else SetupSaved
      ensures r == SetupSaved && action == AddGrant ==>
        permissions == Stored(GrantAdded(old(permissions).GetOr(map[]), giver, target))
      ensures r == SetupSaved && action == RemoveGrant ==>
        var p := old(permissions).GetOr(map[]);
        giver in p && target in p[giver] && permissions == Stored(GrantRemoved(p, giver, target))
      ensures r != SetupSaved ==> permissions == old(permissions)
    {
      if !canManageGuild {
        return SetupNeedsManageGuild;
      }
      var rolePerms := permissions.GetOr(map[]);
      ghost var p0 := rolePerms;
      GrantsStayPruned(p0, giver, target);
      match action {
      case AddGrant =>
        if giver !in rolePerms {
          rolePerms := rolePerms[giver := []];
        }
        if target !in rolePerms[giver] {
          rolePerms := rolePerms[giver := rolePerms[giver] + [target]];
          assert rolePerms == GrantAdded(p0, giver, target);
        } else {
          return AlreadyGranted;
        }
      case RemoveGrant =>
        if giver in rolePerms {
          var index := IndexOf(rolePerms[giver], target);
          if index > -1 {
            var rest := Splice(rolePerms[giver], index);
            if |rest| == 0 {
              rolePerms := map g | g in rolePerms && g != giver :: rolePerms[g];
            } else {
              rolePerms := rolePerms[giver := rest];
            }
            assert rolePerms == GrantRemoved(p0, giver, target);
          } else {
            return NotGranted;
          }
        } else {
          return GiverUnconfigured;
        }
      }
      permissions := Stored(rolePerms);
      r := SetupSaved;
    }

    /** `handleRoleGroup`. */
    method Group(canManageGuild: bool, action: GroupAction, name: Option<string>, role: Option<RoleId>)
      returns (r: GroupResult)
      requires Valid()
      modifies this
      ensures Valid()
      ensures permissions == old(permissions)
      ensures var m := old(groups).GetOr(map[]);
        && r == GroupOutcome(m, canManageGuild, action, name, role)
        && groups == if r == GroupSaved then GroupsSaved(m, action, name, role) else old(groups)
    {
      if action != List && !canManageGuild {
        return GroupNeedsManageGuild;
      }
      var roleGroups := groups.GetOr(map[]);
      match action {
      case Create =>
        if !Given(name) { return MissingName; }
        var key := Key(name.value);
        if key in roleGroups || key in InheritedKeys { return GroupExists; }
        roleGroups := roleGroups[key := RoleGroup(name.value, [])];
        groups := Some(roleGroups);
      case Delete =>
        if !Given(name) { return MissingName; }
        var key := Key(name.value);
        if !(key in roleGroups || key in InheritedKeys) { return NoSuchGroup; }
        roleGroups := map k | k in roleGroups && k != key :: roleGroups[k];
        groups := Stored(roleGroups);
      case AddRole =>
        if !Given(name) || role.None? { return MissingNameOrRole; }
        var key := Key(name.value);
        if !(key in roleGroups || key in InheritedKeys) { return NoSuchGroup; }
        if key !in roleGroups { return GroupCrashed; }
        if role.value in roleGroups[key].roles { return RoleAlreadyInGroup; }
        roleGroups := roleGroups[key := roleGroups[key].(roles := roleGroups[key].roles + [role.value])];
        groups := Some(roleGroups);
      case RemoveRole =>
        if !Given(name) || role.None? { return MissingNameOrRole; }
        var key := Key(name.value);
        if !(key in roleGroups || key in InheritedKeys) { return NoSuchGroup; }
        if key !in roleGroups { return GroupCrashed; }
        var roleIndex := IndexOf(roleGroups[key].roles, role.value);
        if roleIndex == -1 { return RoleNotInGroup; }
        roleGroups := roleGroups[key := roleGroups[key].(roles := Splice(roleGroups[key].roles, roleIndex))];
        groups := Some(roleGroups);
      case List =>
        if |roleGroups| == 0 { return NoGroups; }
        return Listed(|roleGroups|);
      case OtherAction =>
        return InvalidAction;
      }
      r := GroupSaved;
    }
  }

  // ---------------------------------------------------------------------
  // Resolving the role-or-group argument of `add` and `remove`

  /** A guild role: id, name and position in the hierarchy. */
  datatype Role = Role(id: RoleId, name: string, position: int)

  /** `guild.roles.cache.get(id)` */
  function FindById(guildRoles: seq<Role>, id: RoleId): (r: Option<Role>)
    ensures r.Some? ==> r.value in guildRoles && r.value.id == id
    ensures r.None? ==> forall k :: 0 <= k < |guildRoles| ==> guildRoles[k].id != id
  {
    if |guildRoles| == 0 then None
    else if guildRoles[0].id == id then Some(guildRoles[0])
    else FindById(guildRoles[1..], id)
  }

  /** `guild.roles.cache.find(r => r.name.toLowerCase() === arg.toLowerCase())` */
  function FindByName(guildRoles: seq<Role>, name: string): (r: Option<Role>)
    ensures r.Some? ==> r.value in guildRoles && Lower(r.value.name) == Lower(name)
    ensures r.None? ==> forall k :: 0 <= k < |guildRoles| ==> Lower(guildRoles[k].name) != Lower(name)
  {
    if |guildRoles| == 0 then None
    else if Lower(guildRoles[0].name) == Lower(name) then Some(guildRoles[0])
    else FindByName(guildRoles[1..], name)
  }

  /** The group's role ids that still exist in the guild, as roles, in the
      group's order. */
  function GroupRoles(ids: seq<RoleId>, guildRoles: seq<Role>): (rs: seq<Role>)
    ensures |rs| <= |ids|
    ensures forall k :: 0 <= k < |rs| ==> rs[k] in guildRoles && rs[k].id in ids
  {
    if |ids| == 0 then []
    else
      var rest := GroupRoles(ids[1..], guildRoles);
      match FindById(guildRoles, ids[0])
      case Some(role) => [role] + rest
      case None => rest
  }

  datatype Candidates =
    | Candidates(roles: seq<Role>, isGroup: bool)
    | GroupWithoutRoles   // the group exists but none of its roles do
    | NoSuchRole          // neither a group nor a role
    | Unresolvable        // an inherited property name: a TypeError

  /** A group name is tried first, then a role mention or id, then a role
      name. */
  function Resolve(groups: Option<RoleGroups>, arg: string, guildRoles: seq<Role>): (c: Candidates)
    ensures c.Candidates? ==> |c.roles| > 0
    ensures c.Candidates? && c.isGroup ==> GetRoleGroup(groups, arg).Found?
    ensures c.Candidates? && !c.isGroup ==> GetRoleGroup(groups, arg).NoGroup? && |c.roles| == 1
  {
    match GetRoleGroup(groups, arg)
    case Found(group) =>
      var roles := GroupRoles(group.roles, guildRoles);
      if |roles| == 0 then GroupWithoutRoles else Candidates(roles, true)
    case NotAGroup => Unresolvable
    case NoGroup =>
      var role :=
        match Mentions.Parse(Mentions.Role, arg)
        case Some(id) => FindById(guildRoles, id)
        case None => FindByName(guildRoles, arg);
      if role.Some? then Candidates([role.value], false) else NoSuchRole
  }

  /** A role mention `<@&id>` or a bare id that is not also a group name
      resolves to that one role. */
  lemma ResolveRoleId(groups: Option<RoleGroups>, id: RoleId, guildRoles: seq<Role>, role: Role)
    requires IsDigits(id) && FindById(guildRoles, id) == Some(role)
    ensures var mention := Mentions.Format(Mentions.Role, id);
      GetRoleGroup(groups, mention).NoGroup? ==> Resolve(groups, mention, guildRoles) == Candidates([role], false)
    ensures GetRoleGroup(groups, id).NoGroup? ==> Resolve(groups, id, guildRoles) == Candidates([role], false)
  {
    Mentions.ParseFormat(Mentions.Role, id);
  }

  /** A group whose roles exist wins over a role with the same name. */
  lemma GroupBeatsRoleName(m: RoleGroups, arg: string, guildRoles: seq<Role>)
    requires Key(arg) in m && |GroupRoles(m[Key(arg)].roles, guildRoles)| > 0
    ensures Resolve(Some(m), arg, guildRoles) == Candidates(GroupRoles(m[Key(arg)].roles, guildRoles), true)
  {
  }

  // ---------------------------------------------------------------------
  // The per-role classification loops of handleRoleAdd / handleRoleRemove

  /** Where one candidate lands: skipped (already has it / does not have it),
      an error with its message prefix, or valid. */
  datatype Verdict = Skip | Deny(message: string) | Accept

  /** The tests of `handleRoleAdd`, in order. */
  function AddVerdict(role: Role, held: set<RoleId>, ex: Executor, perms: Option<RolePerms>, botHighest: int): Verdict {
    if role.id in held then Skip
    else if !CheckRolePermission(ex, perms, role.id) then Deny("No permission to give: ")
    else if role.position >= ex.highest && !ex.isAdmin then Deny("Role too high: ")
    else if role.position >= botHighest then Deny("Bot cannot give: ")
    else Accept
  }

  /** The tests of `handleRoleRemove`, in order (there is no bot check). */
  function RemoveVerdict(role: Role, held: set<RoleId>, ex: Executor, perms: Option<RolePerms>): Verdict {
    if role.id !in held then Skip
    else if !CheckRolePermission(ex, perms, role.id) then Deny("No permission to remove: ")
    else if role.position >= ex.highest && !ex.isAdmin then Deny("Role too high: ")
    else Accept
  }

  /** A role is given exactly when it is not held, the executor may give it,
      it is below the executor's highest role or the executor is an
      administrator, and it is below the bot's highest role. */
  lemma AddAcceptExactly(role: Role, held: set<RoleId>, ex: Executor, perms: Option<RolePerms>, botHighest: int)
    ensures AddVerdict(role, held, ex, perms, botHighest) == Accept <==>
      && role.id !in held
      && CheckRolePermission(ex, perms, role.id)
      && (role.position < ex.highest || ex.isAdmin)
      && role.position < botHighest
  {
  }

  /** A role is taken exactly when it is held, the executor may give it, and
      it is below the executor's highest role or the executor is an
      administrator. */
  lemma RemoveAcceptExactly(role: Role, held: set<RoleId>, ex: Executor, perms: Option<RolePerms>)
    ensures RemoveVerdict(role, held, ex, perms) == Accept <==>
      && role.id in held
      && CheckRolePermission(ex, perms, role.id)
      && (role.position < ex.highest || ex.isAdmin)
  {
  }

  /** The verdicts of the two loops, with the member and executor fixed. */
  function AddVerdicts(held: set<RoleId>, ex: Executor, perms: Option<RolePerms>, botHighest: int): Role -> Verdict {
    (role: Role) => AddVerdict(role, held, ex, perms, botHighest)
  }

  function RemoveVerdicts(held: set<RoleId>, ex: Executor, perms: Option<RolePerms>): Role -> Verdict {
    (role: Role) => RemoveVerdict(role, held, ex, perms)
  }

  function SkippedNames(cands: seq<Role>, verdict: Role -> Verdict): seq<string> {
    if |cands| == 0 then []
    else SkippedNames(cands[..|cands| - 1], verdict)
         + (if verdict(cands[|cands| - 1]) == Skip then [cands[|cands| - 1].name] else [])
  }

  function ErrorLines(cands: seq<Role>, verdict: Role -> Verdict): seq<string> {
    if |cands| == 0 then []
    else
      var last := cands[|cands| - 1];
      ErrorLines(cands[..|cands| - 1], verdict)
      + (match verdict(last) case Deny(message) => [message + last.name] case _ => [])
  }

  function AcceptedRoles(cands: seq<Role>, verdict: Role -> Verdict): seq<Role> {
    if |cands| == 0 then []
    else AcceptedRoles(cands[..|cands| - 1], verdict)
         + (if verdict(cands[|cands| - 1]) == Accept then [cands[|cands| - 1]] else [])
  }

  /** Every candidate lands in exactly one of the three lists, and the valid
      list holds exactly the accepted candidates. */
  lemma {:induction false} ClassifyPartition(cands: seq<Role>, verdict: Role -> Verdict)
    ensures |SkippedNames(cands, verdict)| + |ErrorLines(cands, verdict)| + |AcceptedRoles(cands, verdict)| == |cands|
    ensures forall r :: r in AcceptedRoles(cands, verdict) <==> r in cands && verdict(r) == Accept
  {
    if |cands| > 0 {
      var init := cands[..|cands| - 1];
      ClassifyPartition(init, verdict);
      assert cands == init + [cands[|cands| - 1]];
    }
  }

  /** The loop of `handleRoleAdd`/`handleRoleRemove` that pushes each
      candidate into `rolesAlreadyHas`/`rolesDoesntHave`, `errors` or
      `validRoles`. */
  method Classify(cands: seq<Role>, verdict: Role -> Verdict)
    returns (skipped: seq<string>, errors: seq<string>, valid: seq<Role>)
    ensures skipped == SkippedNames(cands, verdict)
    ensures errors == ErrorLines(cands, verdict)
    ensures valid == AcceptedRoles(cands, verdict)
  {
    skipped, errors, valid := [], [], [];
    var i := 0;
    while i < |cands|
      invariant 0 <= i <= |cands|
      invariant skipped == SkippedNames(cands[..i], verdict)
      invariant errors == ErrorLines(cands[..i], verdict)
      invariant valid == AcceptedRoles(cands[..i], verdict)
    {
      var role := cands[i];
      assert cands[..i + 1][..i] == cands[..i];
      match verdict(role) {
        case Skip => skipped := skipped + [role.name];
        case Deny(message) => errors := errors + [message + role.name];
        case Accept => valid := valid + [role];
      }
      i := i + 1;
    }
    assert cands[..i] == cands;
  }

  datatype RoleChange =
    | TargetNotInServer
    | GroupHasNoRoles
    | RoleOrGroupNotFound
    | CommandError       // caught by the command's try block
    | NothingValid(skipped: seq<string>, errors: seq<string>)
    | RequestFailed      // the platform refused `roles.add` / `roles.remove`
    | Changed(held: set<RoleId>, valid: seq<Role>, skipped: seq<string>, errors: seq<string>)

  function Ids(roles: seq<Role>): set<RoleId> {
    set r | r in roles :: r.id
  }

  /** `handleRoleAdd`: `targetHeld` is the target member's roles, `None`
      when the member cannot be fetched. */
  method HandleRoleAdd(targetHeld: Option<set<RoleId>>, perms: Option<RolePerms>, groups: Option<RoleGroups>, arg: string,
                       guildRoles: seq<Role>, ex: Executor, botHighest: int, requestFails: bool)
    returns (r: RoleChange)
    ensures r.Changed? ==>
      && targetHeld.Some?
      && |r.valid| > 0
      && r.held == targetHeld.value + Ids(r.valid)
      && (forall v :: v in r.valid ==>
            v.id !in targetHeld.value && CheckRolePermission(ex, perms, v.id)
            && (v.position < ex.highest || ex.isAdmin) && v.position < botHighest)
    ensures targetHeld.None? ==> r == TargetNotInServer
    ensures targetHeld.Some? && Resolve(groups, arg, guildRoles) == NoSuchRole ==> r == RoleOrGroupNotFound
    ensures targetHeld.Some? && Resolve(groups, arg, guildRoles) == GroupWithoutRoles ==> r == GroupHasNoRoles
    ensures targetHeld.Some? && Resolve(groups, arg, guildRoles) == Unresolvable ==> r == CommandError
    ensures targetHeld.Some? && Resolve(groups, arg, guildRoles).Candidates? ==>
      var roles := Resolve(groups, arg, guildRoles).roles;
      var v := AddVerdicts(targetHeld.value, ex, perms, botHighest);
      var valid := AcceptedRoles(roles, v);
      && (|valid| == 0 ==> r == NothingValid(SkippedNames(roles, v), ErrorLines(roles, v)))
      && (|valid| > 0 && requestFails ==> r == RequestFailed)
      && (|valid| > 0 && !requestFails ==>
            r == Changed(targetHeld.value + Ids(valid), valid, SkippedNames(roles, v), ErrorLines(roles, v)))
  {
    if targetHeld.None? {
      return TargetNotInServer;
    }
    var held := targetHeld.value;
    var cands := Resolve(groups, arg, guildRoles);
    match cands
    case GroupWithoutRoles => return GroupHasNoRoles;
    case NoSuchRole => return RoleOrGroupNotFound;
    case Unresolvable => return CommandError;
    case Candidates(roles, _) =>
      var verdict := AddVerdicts(held, ex, perms, botHighest);
      var skipped, errors, valid := Classify(roles, verdict);
      if |valid| == 0 {
        return NothingValid(skipped, errors);
      }
      if requestFails {
        return RequestFailed;
      }
      ClassifyPartition(roles, verdict);
      forall v | v in valid
        ensures v.id !in held && CheckRolePermission(ex, perms, v.id)
                && (v.position < ex.highest || ex.isAdmin) && v.position < botHighest
      {
        AddAcceptExactly(v, held, ex, perms, botHighest);
      }
      r := Changed(held + Ids(valid), valid, skipped, errors);
  }

  /** `handleRoleRemove`. */
  method HandleRoleRemove(targetHeld: Option<set<RoleId>>, perms: Option<RolePerms>, groups: Option<RoleGroups>, arg: string,
                          guildRoles: seq<Role>, ex: Executor, requestFails: bool)
    returns (r: RoleChange)
    ensures r.Changed? ==>
      && targetHeld.Some?
      && |r.valid| > 0
      && r.held == targetHeld.value - Ids(r.valid)
      && (forall v :: v in r.valid ==>
            v.id in targetHeld.value && CheckRolePermission(ex, perms, v.id)
            && (v.position < ex.highest || ex.isAdmin))
    ensures targetHeld.None? ==> r == TargetNotInServer
    ensures targetHeld.Some? && Resolve(groups, arg, guildRoles) == NoSuchRole ==> r == RoleOrGroupNotFound
    ensures targetHeld.Some? && Resolve(groups, arg, guildRoles) == GroupWithoutRoles ==> r == GroupHasNoRoles
    ensures targetHeld.Some? && Resolve(groups, arg, guildRoles) == Unresolvable ==> r == CommandError
    ensures targetHeld.Some? && Resolve(groups, arg, guildRoles).Candidates? ==>
      var roles := Resolve(groups, arg, guildRoles).roles;
      var v := RemoveVerdicts(targetHeld.value, ex, perms);
      var valid := AcceptedRoles(roles, v);
      && (|valid| == 0 ==> r == NothingValid(SkippedNames(roles, v), ErrorLines(roles, v)))
      && (|valid| > 0 && requestFails ==> r == RequestFailed)
      && (|valid| > 0 && !requestFails ==>
            r == Changed(targetHeld.value - Ids(valid), valid, SkippedNames(roles, v), ErrorLines(roles, v)))
  {
    if targetHeld.None? {
      return TargetNotInServer;
    }
    var held := targetHeld.value;
    var cands := Resolve(groups, arg, guildRoles);
    match cands
    case GroupWithoutRoles => return GroupHasNoRoles;
    case NoSuchRole => return RoleOrGroupNotFound;
    case Unresolvable => return CommandError;
    case Candidates(roles, _) =>
      var verdict := RemoveVerdicts(held, ex, perms);
      var skipped, errors, valid := Classify(roles, verdict);
      if |valid| == 0 {
        return NothingValid(skipped, errors);
      }
      if requestFails {
        return RequestFailed;
      }
      ClassifyPartition(roles, verdict);
      forall v | v in valid
        ensures v.id in held && CheckRolePermission(ex, perms, v.id)
                && (v.position < ex.highest || ex.isAdmin)
      {
        RemoveAcceptExactly(v, held, ex, perms);
      }
      r := Changed(held - Ids(valid), valid, skipped, errors);
  }
}
