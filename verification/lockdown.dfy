/** Channel lockdown of commands/moderation/lockdown.js: the in-memory
    `lockdownChannels` map from channel id to `{messageId, allowedRoles}`,
    the `lock` and `unlock` commands, and the sticky-message handler.

    The platform is plain data: each channel's SendMessages permission
    overwrites are a map from role id to `Some(false)` (deny), `Some(true)`
    (allow) or `None` (null, inherit). Every platform call (an overwrite edit,
    the sticky send) may throw; `failAt` names the index of the first call
    that throws, the calls before it having taken effect. */
module Lockdown {
  import opened Common

  type ChannelId = string
  type RoleId = string
  type MessageId = string

  /** `ALLOWED_ROLES`: the roles that may still talk in a locked channel. */
  const AllowedRoles: seq<RoleId> := [
    "1333691633551540275", "1361410527389286550", "1388259374111264791",
    "1360309600825639153", "1333769686583611392", "1382920873362722896",
    "1388335848138739893"]

  datatype LockInfo = LockInfo(messageId: MessageId, allowedRoles: seq<RoleId>)

  /** A channel's SendMessages overwrites, per role. */
  type Overwrites = map<RoleId, Option<bool>>

  /** One `permissionOverwrites.edit(role, { SendMessages: send })`. */
  datatype Edit = Edit(role: RoleId, send: Option<bool>)

  /** The overwrite a role has; a role without an entry inherits. */
  function SendOf(o: Overwrites, role: RoleId): Option<bool> {
    if role in o then o[role] else None
  }

  /** `es` writes `send` for every role of `roles` the guild has, and
      touches no other role. */
  ghost predicate EditsExactly(es: seq<Edit>, roles: seq<RoleId>, guildRoles: set<RoleId>, send: Option<bool>) {
    && (forall e :: e in es ==> e.role in roles && e.role in guildRoles && e.send == send)
    && (forall role :: role in roles && role in guildRoles ==> Edit(role, send) in es)
  }

  /** The edits the loop over `roles` issues: one per role present in the
      guild, in order. */
  function RoleEdits(roles: seq<RoleId>, guildRoles: set<RoleId>, send: Option<bool>): (es: seq<Edit>)
    ensures |es| <= |roles|
  {
    if |roles| == 0 then []
    else
      var rest := RoleEdits(roles[1..], guildRoles, send);
      if roles[0] in guildRoles then [Edit(roles[0], send)] + rest else rest
  }

  /** The loop edits exactly the allowed roles the guild has, each with
      `send`. */
  lemma {:induction false} RoleEditsExactly(roles: seq<RoleId>, guildRoles: set<RoleId>, send: Option<bool>)
    ensures EditsExactly(RoleEdits(roles, guildRoles, send), roles, guildRoles, send)
  {
    if |roles| > 0 {
      RoleEditsExactly(roles[1..], guildRoles, send);
      assert roles == [roles[0]] + roles[1..];
    }
  }

  /** One turn of the loop: when the edits still to issue are those of
      `roles[i..]`, role `i` contributes the next edit exactly when the guild
      has it. */
  lemma EditsStep(es: seq<Edit>, done: nat, roles: seq<RoleId>, i: nat, guildRoles: set<RoleId>, send: Option<bool>)
    requires i < |roles| && done <= |es| && es[done..] == RoleEdits(roles[i..], guildRoles, send)
    ensures roles[i] in guildRoles ==>
      done < |es| && es[done] == Edit(roles[i], send) && es[done + 1..] == RoleEdits(roles[i + 1..], guildRoles, send)
    ensures roles[i] !in guildRoles ==> es[done..] == RoleEdits(roles[i + 1..], guildRoles, send)
  {
    assert roles[i..][1..] == roles[i + 1..];
    if roles[i] in guildRoles {
      assert es[done..][1..] == es[done + 1..];
    }
  }

  lemma {:induction false} RoleEditsAppend(a: seq<RoleId>, b: seq<RoleId>, guildRoles: set<RoleId>, send: Option<bool>)
    ensures RoleEdits(a + b, guildRoles, send) == RoleEdits(a, guildRoles, send) + RoleEdits(b, guildRoles, send)
  {
    if |a| > 0 {
      assert (a + b)[1..] == a[1..] + b;
      RoleEditsAppend(a[1..], b, guildRoles, send);
    } else {
      assert a + b == b;
    }
  }

  /** The calls of `lock` (and `unlock`): the everyone role first, then each
      allowed role the guild has. */
  function ChannelEdits(everyone: RoleId, roles: seq<RoleId>, guildRoles: set<RoleId>,
                        everyoneSend: Option<bool>, roleSend: Option<bool>): seq<Edit> {
    [Edit(everyone, everyoneSend)] + RoleEdits(roles, guildRoles, roleSend)
  }

  /** Applies edits in order. */
  function Apply(o: Overwrites, es: seq<Edit>): Overwrites {
    if |es| == 0 then o
    else Apply(o, es[..|es| - 1])[es[|es| - 1].role := es[|es| - 1].send]
  }

  /** Applying one more edit of a list. */
  lemma ApplyPrefixStep(o: Overwrites, es: seq<Edit>, n: nat)
    requires n < |es|
    ensures Apply(o, es[..n + 1]) == Apply(o, es[..n])[es[n].role := es[n].send]
  {
    assert es[..n + 1][..n] == es[..n];
  }

  lemma ApplySnoc(o: Overwrites, es: seq<Edit>, e: Edit)
    ensures Apply(o, es + [e]) == Apply(o, es)[e.role := e.send]
  {
    assert (es + [e])[..|es|] == es;
  }

  /** After a sequence of edits a role holds the last value written to it,
      or what it had when nothing was written to it. */
  lemma {:induction false} ApplyRoleEdits(o: Overwrites, roles: seq<RoleId>, guildRoles: set<RoleId>, send: Option<bool>, x: RoleId)
    ensures SendOf(Apply(o, RoleEdits(roles, guildRoles, send)), x)
         == if x in roles && x in guildRoles then send else SendOf(o, x)
  {
    if |roles| > 0 {
      var n := |roles|;
      var init := roles[..n - 1];
      assert roles == init + [roles[n - 1]];
      RoleEditsAppend(init, [roles[n - 1]], guildRoles, send);
      ApplyRoleEdits(o, init, guildRoles, send, x);
      var es := RoleEdits(roles, guildRoles, send);
      var head := RoleEdits(init, guildRoles, send);
      if roles[n - 1] in guildRoles {
        assert es == head + [Edit(roles[n - 1], send)];
        ApplySnoc(o, head, Edit(roles[n - 1], send));
      } else {
        assert es == head;
      }
    }
  }

  /** Applying `es` after `[e]`. */
  lemma {:induction false} ApplyCons(o: Overwrites, e: Edit, es: seq<Edit>)
    ensures Apply(o, [e] + es) == Apply(o[e.role := e.send], es)
  {
    if |es| > 0 {
      var all := [e] + es;
      assert all[..|all| - 1] == [e] + es[..|es| - 1];
      ApplyCons(o, e, es[..|es| - 1]);
    } else {
      assert ([e] + es)[..0] == [];
    }
  }

  /** What the edits of a complete `lock` leave: the everyone role denied,
      each allowed role the guild has allowed (a later edit wins, so this
      needs the everyone role not to be one of them), every other role as
      before. */
  lemma LockOverwrites(o: Overwrites, everyone: RoleId, guildRoles: set<RoleId>, x: RoleId)
    requires !(everyone in AllowedRoles && everyone in guildRoles)
    ensures var after := Apply(o, ChannelEdits(everyone, AllowedRoles, guildRoles, Some(false), Some(true)));
      SendOf(after, x) ==
        if x in AllowedRoles && x in guildRoles then Some(true)
        else if x == everyone then Some(false)
        else SendOf(o, x)
  {
    var first := Edit(everyone, Some(false));
    ApplyCons(o, first, RoleEdits(AllowedRoles, guildRoles, Some(true)));
    ApplyRoleEdits(o[everyone := Some(false)], AllowedRoles, guildRoles, Some(true), x);
  }

  /** What the edits of a complete `unlock` leave: the everyone role and
      every allowed role the guild has back to null, other roles as before. */
  lemma UnlockOverwrites(o: Overwrites, everyone: RoleId, guildRoles: set<RoleId>, x: RoleId)
    ensures var after := Apply(o, ChannelEdits(everyone, AllowedRoles, guildRoles, None, None));
      SendOf(after, x) ==
        if x == everyone || (x in AllowedRoles && x in guildRoles) then None
        else SendOf(o, x)
  {
    var first := Edit(everyone, None);
    ApplyCons(o, first, RoleEdits(AllowedRoles, guildRoles, None));
    ApplyRoleEdits(o[everyone := None], AllowedRoles, guildRoles, None, x);
  }

  /** How many of `n` platform calls take effect when call `failAt` throws. */
  function Completed(failAt: Option<nat>, n: nat): (k: nat)
    ensures k <= n
    ensures k < n <==> failAt.Some? && failAt.value < n
  {
    if failAt.Some? && failAt.value < n then failAt.value else n
  }

  /** Before the loop: the everyone edit is the first call, and the role
      edits are what remains. */
  lemma FirstEdit(o: Overwrites, everyone: RoleId, roles: seq<RoleId>, guildRoles: set<RoleId>,
                  everyoneSend: Option<bool>, roleSend: Option<bool>)
    ensures var es := ChannelEdits(everyone, roles, guildRoles, everyoneSend, roleSend);
      1 <= |es| && Issued(o, es, 1, o[everyone := everyoneSend], roles, 0, guildRoles, roleSend)
  {
    var es := ChannelEdits(everyone, roles, guildRoles, everyoneSend, roleSend);
    assert roles[0..] == roles;
    ApplyPrefixStep(o, es, 0);
    assert es[..0] == [];
  }

  /** After the loop: no role is left, so every call was issued. */
  lemma LastEdit(o: Overwrites, es: seq<Edit>, done: nat, current: Overwrites, roles: seq<RoleId>, guildRoles: set<RoleId>, send: Option<bool>)
    requires Issued(o, es, done, current, roles, |roles|, guildRoles, send)
    ensures done == |es| && current == Apply(o, es)
  {
    assert roles[|roles|..] == [];
    assert es[..done] == es;
  }

  /** Loop state: the first `done` calls of `es` were issued and left
      `current`, and the calls still to issue are those of `roles[i..]`. */
  ghost predicate Issued(o: Overwrites, es: seq<Edit>, done: nat, current: Overwrites,
                         roles: seq<RoleId>, i: nat, guildRoles: set<RoleId>, send: Option<bool>)
  {
    && i <= |roles| && done <= |es|
    && es[done..] == RoleEdits(roles[i..], guildRoles, send)
    && current == Apply(o, es[..done])
  }

  /** One turn of the edit loop, on the overwrites so far. */
  lemma Advance(o: Overwrites, es: seq<Edit>, done: nat, current: Overwrites,
                roles: seq<RoleId>, i: nat, guildRoles: set<RoleId>, send: Option<bool>)
    requires i < |roles| && Issued(o, es, done, current, roles, i, guildRoles, send)
    ensures roles[i] in guildRoles ==>
      && done < |es| && Completed(Some(done), |es|) == done
      && Issued(o, es, done + 1, current[roles[i] := send], roles, i + 1, guildRoles, send)
    ensures roles[i] !in guildRoles ==> Issued(o, es, done, current, roles, i + 1, guildRoles, send)
  {
    EditsStep(es, done, roles, i, guildRoles, send);
    if roles[i] in guildRoles {
      ApplyPrefixStep(o, es, done);
    }
  }

  /** The calls themselves, on one channel's overwrites `o`: the everyone
      edit, then one edit per role of `roles` the guild has, until call
      `failAt` throws. Returns how many calls took effect and the overwrites
      they leave. */
  method IssueEdits(o: Overwrites, everyone: RoleId, roles: seq<RoleId>, guildRoles: set<RoleId>,
                    everyoneSend: Option<bool>, roleSend: Option<bool>, failAt: Option<nat>)
    returns (done: nat, current: Overwrites)
    ensures var es := ChannelEdits(everyone, roles, guildRoles, everyoneSend, roleSend);
      done == Completed(failAt, |es|) && current == Apply(o, es[..done])
  {
    ghost var es := ChannelEdits(everyone, roles, guildRoles, everyoneSend, roleSend);
    if failAt == Some(0) {
      return 0, o;
    }
    FirstEdit(o, everyone, roles, guildRoles, everyoneSend, roleSend);
    current := o[everyone := everyoneSend];
    done := 1;
    var i := 0;
    while i < |roles|
      invariant 0 <= i <= |roles|
      invariant 1 <= done <= |es|
      invariant Issued(o, es, done, current, roles, i, guildRoles, roleSend)
      invariant failAt.None? || failAt.value >= done
    {
      var roleId := roles[i];
      Advance(o, es, done, current, roles, i, guildRoles, roleSend);
      if roleId in guildRoles {
        if failAt == Some(done) {
          return;
        }
        current := current[roleId := roleSend];
        done := done + 1;
      }
      i := i + 1;
    }
    LastEdit(o, es, done, current, roles, guildRoles, roleSend);
  }

  datatype LockResult =
    | NoPermission      // the member lacks ManageMessages
    | BotNoPermission   // the bot lacks ManageChannels
    | AlreadyLocked
    | NotLocked
    | Failed            // a platform call threw inside the try block
    | Locked
    | Unlocked

  class Manager {
    /** `lockdownChannels` */
    var channels: map<ChannelId, LockInfo>
    /** The platform's SendMessages overwrites, per channel. */
    var overwrites: map<ChannelId, Overwrites>

    /** Every entry was stored by a successful `lock`. */
    ghost predicate Valid()
      reads this
    {
      forall c :: c in channels ==> channels[c].allowedRoles == AllowedRoles
    }

    constructor ()
      ensures Valid() && channels == map[] && overwrites == map[]
    {
      channels := map[];
      overwrites := map[];
    }

    function IsLocked(channel: ChannelId): bool
      reads this
    {
      channel in channels
    }

    function OverwritesOf(channel: ChannelId): Overwrites
      reads this
    {
      if channel in overwrites then overwrites[channel] else map[]
    }

    /** The everyone edit, then the loop over `roles` (`ALLOWED_ROLES`),
        stopping at the call that throws; the channel's overwrites end as the
        calls that took effect left them. Returns how many took effect. */
    method EditOverwrites(channel: ChannelId, everyone: RoleId, roles: seq<RoleId>, guildRoles: set<RoleId>,
                          everyoneSend: Option<bool>, roleSend: Option<bool>, failAt: Option<nat>)
      returns (done: nat)
      modifies this
      ensures var es := ChannelEdits(everyone, roles, guildRoles, everyoneSend, roleSend);
        && done == Completed(failAt, |es|)
        && overwrites == old(overwrites)[channel := Apply(old(OverwritesOf(channel)), es[..done])]
      ensures channels == old(channels)
    {
      var current;
      done, current := IssueEdits(OverwritesOf(channel), everyone, roles, guildRoles, everyoneSend, roleSend, failAt);
      overwrites := overwrites[channel := current];
    }

    /** The `lock` command. */
    method Lock(channel: ChannelId, everyone: RoleId, guildRoles: set<RoleId>,
                memberCanManageMessages: bool, botCanManageChannels: bool,
                failAt: Option<nat>, stickyId: MessageId)
      returns (r: LockResult)
      requires Valid()
      modifies this
      ensures Valid()
      ensures var es := ChannelEdits(everyone, AllowedRoles, guildRoles, Some(false), Some(true));
        r == if !memberCanManageMessages then NoPermission
             else if !botCanManageChannels then BotNoPermission
             else if channel in old(channels) then AlreadyLocked
             else if failAt.Some? && failAt.value <= |es| then Failed
             else Locked
      ensures r == Locked ==> channels == old(channels)[channel := LockInfo(stickyId, AllowedRoles)]
      ensures r != Locked ==> channels == old(channels)
      ensures r in {NoPermission, BotNoPermission, AlreadyLocked} ==> overwrites == old(overwrites)
      ensures r in {Failed, Locked} ==>
        var es := ChannelEdits(everyone, AllowedRoles, guildRoles, Some(false), Some(true));
        overwrites == old(overwrites)[channel := Apply(old(OverwritesOf(channel)), es[..Completed(failAt, |es|)])]
    {
      if !memberCanManageMessages { return NoPermission; }
      if !botCanManageChannels { return BotNoPermission; }
      if channel in channels { return AlreadyLocked; }
      var es := ChannelEdits(everyone, AllowedRoles, guildRoles, Some(false), Some(true));
      var done := EditOverwrites(channel, everyone, AllowedRoles, guildRoles, Some(false), Some(true), failAt);
      if done < |es| {
        return Failed;
      }
      // The sticky send is call number |es|.
      if failAt == Some(done) {
        return Failed;
      }
      channels := channels[channel := LockInfo(stickyId, AllowedRoles)];
      r := Locked;
    }

    /** The `unlock` command. The overwrites are reverted for the roles of
        the `ALLOWED_ROLES` constant; deleting the sticky message may fail
        without consequence. */
    method Unlock(channel: ChannelId, everyone: RoleId, guildRoles: set<RoleId>,
                  memberCanManageMessages: bool, botCanManageChannels: bool,
                  failAt: Option<nat>)
      returns (r: LockResult)
      requires Valid()
      modifies this
      ensures Valid()
      ensures var es := ChannelEdits(everyone, AllowedRoles, guildRoles, None, None);
        r == if !memberCanManageMessages then NoPermission
             else if !botCanManageChannels then BotNoPermission
             else if channel !in old(channels) then NotLocked
             else if failAt.Some? && failAt.value < |es| then Failed
             else Unlocked
      ensures r == Unlocked ==> channels == map c | c in old(channels) && c != channel :: old(channels)[c]
      ensures r != Unlocked ==> channels == old(channels)
      ensures r in {NoPermission, BotNoPermission, NotLocked} ==> overwrites == old(overwrites)
      ensures r in {Failed, Unlocked} ==>
        var es := ChannelEdits(everyone, AllowedRoles, guildRoles, None, None);
        overwrites == old(overwrites)[channel := Apply(old(OverwritesOf(channel)), es[..Completed(failAt, |es|)])]
    {
      if !memberCanManageMessages { return NoPermission; }
      if !botCanManageChannels { return BotNoPermission; }
      if channel !in channels { return NotLocked; }
      var es := ChannelEdits(everyone, AllowedRoles, guildRoles, None, None);
      var done := EditOverwrites(channel, everyone, AllowedRoles, guildRoles, None, None, failAt);
      if done < |es| {
        return Failed;
      }
      // Fetching and deleting the sticky message is caught on failure.
      channels := map c | c in channels && c != channel :: channels[c];
      r := Unlocked;
    }

    /** The `messageCreate` listener of `initializeStickyHandler`: in a locked
        channel a user message re-posts the sticky message, and the new id is
        stored when the send succeeds (`sent` is `None` when it throws). */
    method OnMessage(channel: ChannelId, authorIsBot: bool, sent: Option<MessageId>)
      requires Valid()
      modifies this
      ensures Valid()
      ensures overwrites == old(overwrites)
      ensures channels ==
        if !authorIsBot && channel in old(channels) && sent.Some?
        then old(channels)[channel := old(channels)[channel].(messageId := sent.value)]
        else old(channels)
    {
      if authorIsBot { return; }
      if channel in channels {
        var lockInfo := channels[channel];
        // The old sticky message is deleted best-effort.
        if sent.Some? {
          lockInfo := lockInfo.(messageId := sent.value);
          channels := channels[channel := lockInfo];
        }
      }
    }
  }
}
