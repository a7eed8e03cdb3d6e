/** The warning store and the paged warnings view of
    commands/moderation/warnsystem.js. The `warnings` table is a sequence of
    rows in insertion order; ids and timestamps are parameters (the code
    draws them from the clock and a random number). */
module Warnings {
  import opened Common

  datatype Warning = Warning(id: string, userId: string, moderatorId: string, reason: string,
                             guildId: string, timestamp: int)

  function Timestamp(w: Warning): int {
    w.timestamp
  }

  /** `r` holds every row satisfying `keep` as often as `rows` does, and
      no other row. */
  ghost predicate KeepsCounts(rows: seq<Warning>, keep: Warning -> bool, r: seq<Warning>) {
    forall w :: multiset(r)[w] == if keep(w) then multiset(rows)[w] else 0
  }

  /** The rows satisfying `keep`, in their original order. */
  function Filter(rows: seq<Warning>, keep: Warning -> bool): (r: seq<Warning>)
    ensures |r| <= |rows|
    ensures forall w :: w in r <==> w in rows && keep(w)
    ensures KeepsCounts(rows, keep, r)
  {
    if |rows| == 0 then []
    else
      var rest := Filter(rows[1..], keep);
      assert rows == [rows[0]] + rows[1..];
      if keep(rows[0]) then [rows[0]] + rest else rest
  }

  /** The WHERE clause of the per-user statements. */
  function Of(userId: string, guildId: string): Warning -> bool {
    (w: Warning) => w.userId == userId && w.guildId == guildId
  }

  /** The WHERE clause of `removeWarning`. */
  function Keyed(id: string, guildId: string): Warning -> bool {
    (w: Warning) => w.id == id && w.guildId == guildId
  }

  function Except(p: Warning -> bool): Warning -> bool {
    (w: Warning) => !p(w)
  }

  /** `getUserWarnings`: the user's warnings in that guild, ascending by
      timestamp. */
  function UserWarnings(rows: seq<Warning>, userId: string, guildId: string): (r: seq<Warning>)
    ensures SortedBy(r, Timestamp)
    ensures forall w :: w in r <==> w in rows && w.userId == userId && w.guildId == guildId
    ensures multiset(r) == multiset(Filter(rows, Of(userId, guildId)))
  {
    var f := Filter(rows, Of(userId, guildId));
    var r := SortBy(f, Timestamp);
    assert forall w :: w in r <==> w in f by {
      forall w
        ensures w in r <==> w in f
      {
        assert w in r <==> w in multiset(r);
        assert w in f <==> w in multiset(f);
      }
    }
    r
  }

  /** `id` is the table's primary key. */
  ghost predicate DistinctIds(rows: seq<Warning>) {
    forall i, j :: 0 <= i < j < |rows| ==> rows[i].id != rows[j].id
  }

  function Ids(rows: seq<Warning>): set<string> {
    set w | w in rows :: w.id
  }

  class WarningStore {
    var rows: seq<Warning>

    ghost predicate Valid()
      reads this
    {
      DistinctIds(rows)
    }

    constructor ()
      ensures Valid() && rows == []
    {
      rows := [];
    }

    /** `addWarning`: the insert fails on a duplicate id. */
    method AddWarning(id: string, userId: string, moderatorId: string, reason: string, guildId: string, now: int)
      returns (w: Option<Warning>)
      requires Valid()
      modifies this
      ensures Valid()
      ensures w.None? <==> id in Ids(old(rows))
      ensures w.None? ==> rows == old(rows)
      ensures w.Some? ==> w.value == Warning(id, userId, moderatorId, reason, guildId, now)
                          && rows == old(rows) + [w.value]
    {
      if id in Ids(rows) {
        return None;
      }
      var warning := Warning(id, userId, moderatorId, reason, guildId, now);
      assert forall i :: 0 <= i < |rows| ==> rows[i] in rows;
      rows := rows + [warning];
      w := Some(warning);
    }

    /** `removeWarning`: the row with that id in that guild, or `None`. */
    method RemoveWarning(id: string, guildId: string) returns (w: Option<Warning>)
      requires Valid()
      modifies this
      ensures Valid()
      ensures w.None? <==> forall v :: v in old(rows) ==> !(v.id == id && v.guildId == guildId)
      ensures w.None? ==> rows == old(rows)
      ensures w.Some? ==> w.value in old(rows) && w.value.id == id && w.value.guildId == guildId
                          && rows == Filter(old(rows), Except(Keyed(id, guildId)))
                          && multiset(rows) == multiset(old(rows)) - multiset{w.value}
    {
      var i := 0;
      while i < |rows|
        invariant 0 <= i <= |rows|
        invariant forall k :: 0 <= k < i ==> !(rows[k].id == id && rows[k].guildId == guildId)
      {
        if rows[i].id == id && rows[i].guildId == guildId {
          break;
        }
        i := i + 1;
      }
      if i == |rows| {
        return None;
      }
      var warning := rows[i];
      ghost var before := rows;
      rows := Filter(rows, Except(Keyed(id, guildId)));
      RemovedOnce(before, i, id, guildId);
      SubsequenceKeepsIds(before, Except(Keyed(id, guildId)));
      w := Some(warning);
    }

    /** `clearWarnings`: deletes the user's warnings in that guild and
        returns how many there were. */
    method ClearWarnings(userId: string, guildId: string) returns (count: nat)
      requires Valid()
      modifies this
      ensures Valid()
      ensures count == |UserWarnings(old(rows), userId, guildId)|
      ensures rows == Filter(old(rows), Except(Of(userId, guildId)))
    {
      count := |Filter(rows, Of(userId, guildId))|;
      SubsequenceKeepsIds(rows, Except(Of(userId, guildId)));
      rows := Filter(rows, Except(Of(userId, guildId)));
    }
  }

  /** Filtering keeps ids distinct. */
  lemma DistinctTail(rows: seq<Warning>)
    requires DistinctIds(rows) && |rows| > 0
    ensures DistinctIds(rows[1..])
    ensures forall k :: 1 <= k < |rows| ==> rows[k].id != rows[0].id
  {
    var tail := rows[1..];
    forall i, j | 0 <= i < j < |tail|
      ensures tail[i].id != tail[j].id
    {
      assert tail[i] == rows[i + 1] && tail[j] == rows[j + 1];
    }
  }

  /** A row whose id no other row has can head a list of distinct ids. */
  lemma ConsDistinct(h: Warning, rest: seq<Warning>)
    requires DistinctIds(rest)
    requires forall k :: 0 <= k < |rest| ==> rest[k].id != h.id
    ensures DistinctIds([h] + rest)
  {
    var r := [h] + rest;
    forall i, j | 0 <= i < j < |r|
      ensures r[i].id != r[j].id
    {
      assert r[j] == rest[j - 1];
      if i > 0 {
        assert r[i] == rest[i - 1];
      }
    }
  }

  /** Rows kept from the tail do not share the head's id. */
  lemma TailKeptIds(rows: seq<Warning>, keep: Warning -> bool)
    requires DistinctIds(rows) && |rows| > 0
    ensures forall k :: 0 <= k < |Filter(rows[1..], keep)| ==> Filter(rows[1..], keep)[k].id != rows[0].id
  {
    var tail := rows[1..];
    var rest := Filter(tail, keep);
    forall k | 0 <= k < |rest|
      ensures rest[k].id != rows[0].id
    {
      assert rest[k] in tail;
      var m :| 0 <= m < |tail| && tail[m] == rest[k];
      assert rows[m + 1] == rest[k];
    }
  }

  lemma {:induction false} SubsequenceKeepsIds(rows: seq<Warning>, keep: Warning -> bool)
    requires DistinctIds(rows)
    ensures DistinctIds(Filter(rows, keep))
  {
    if |rows| > 0 {
      var tail := rows[1..];
      DistinctTail(rows);
      SubsequenceKeepsIds(tail, keep);
      var rest := Filter(tail, keep);
      assert rows == [rows[0]] + tail;
      if keep(rows[0]) {
        TailKeptIds(rows, keep);
        ConsDistinct(rows[0], rest);
        assert Filter(rows, keep) == [rows[0]] + rest;
      } else {
        assert Filter(rows, keep) == rest;
      }
    }
  }

  /** Dropping the first row removes one copy of it. */
  lemma HeadMinus(rows: seq<Warning>)
    requires |rows| > 0
    ensures multiset(rows[1..]) == multiset(rows) - multiset{rows[0]}
  {
    assert rows == [rows[0]] + rows[1..];
  }

  /** Putting the same row in front of both sides keeps a one-row removal. */
  lemma ConsMinus(h: Warning, tail: seq<Warning>, f: seq<Warning>, x: Warning)
    requires x in tail && multiset(f) == multiset(tail) - multiset{x}
    ensures multiset([h] + f) == multiset([h] + tail) - multiset{x}
  {
    assert multiset([h] + f) == multiset{h} + multiset(f);
    assert multiset([h] + tail) == multiset{h} + multiset(tail);
  }

  /** With distinct ids, the filter that drops (id, guild) drops exactly the
      one row at `i`. */
  lemma {:induction false} RemovedOnce(rows: seq<Warning>, i: nat, id: string, guildId: string)
    requires DistinctIds(rows)
    requires i < |rows| && rows[i].id == id && rows[i].guildId == guildId
    ensures multiset(Filter(rows, Except(Keyed(id, guildId)))) == multiset(rows) - multiset{rows[i]}
  {
    var keep := Except(Keyed(id, guildId));
    var tail := rows[1..];
    DistinctTail(rows);
    assert rows == [rows[0]] + tail;
    if i == 0 {
      assert forall k :: 0 <= k < |tail| ==> keep(tail[k]) by {
        forall k | 0 <= k < |tail|
          ensures keep(tail[k])
        {
          assert tail[k] == rows[k + 1];
        }
      }
      FilterKeepsAll(tail, keep);
      assert Filter(rows, keep) == tail;
      HeadMinus(rows);
    } else {
      assert keep(rows[0]) by {
        assert rows[0].id != rows[i].id;
      }
      RemovedOnce(tail, i - 1, id, guildId);
      assert Filter(rows, keep) == [rows[0]] + Filter(tail, keep);
      assert tail[i - 1] == rows[i];
      ConsMinus(rows[0], tail, Filter(tail, keep), rows[i]);
    }
  }

  lemma {:induction false} FilterKeepsAll(rows: seq<Warning>, keep: Warning -> bool)
    requires forall k :: 0 <= k < |rows| ==> keep(rows[k])
    ensures Filter(rows, keep) == rows
  {
    if |rows| > 0 {
      FilterKeepsAll(rows[1..], keep);
      assert rows == [rows[0]] + rows[1..];
    }
  }

  /** A warning just added shows up in its user's list for that guild. */
  lemma AddedIsListed(rows: seq<Warning>, w: Warning)
    ensures w in UserWarnings(rows + [w], w.userId, w.guildId)
  {
    assert w in rows + [w];
  }

  /** After a clear the user's list in that guild is empty, and every other
      (user, guild) list is as before. */
  lemma ClearedIsEmpty(rows: seq<Warning>, userId: string, guildId: string, otherUser: string, otherGuild: string)
    ensures var r := Filter(rows, Except(Of(userId, guildId)));
      && UserWarnings(r, userId, guildId) == []
      && ((otherUser, otherGuild) != (userId, guildId) ==>
            UserWarnings(r, otherUser, otherGuild) == UserWarnings(rows, otherUser, otherGuild))
  {
    var keep := Except(Of(userId, guildId));
    if (otherUser, otherGuild) != (userId, guildId) {
      FilterCommutes(rows, keep, Of(otherUser, otherGuild));
    }
  }

  /** Filtering by a condition implied by the second filter does not change
      the second filter's result. */
  lemma {:induction false} FilterCommutes(rows: seq<Warning>, first: Warning -> bool, second: Warning -> bool)
    requires forall w :: second(w) ==> first(w)
    ensures Filter(Filter(rows, first), second) == Filter(rows, second)
  {
    if |rows| > 0 {
      FilterCommutes(rows[1..], first, second);
    }
  }

  // ---------------------------------------------------------------------
  // The view: page arithmetic and navigation

  const PerPage := 5

  /** `createWarningsEmbed`'s indices: the slice of page `page` and the
      number of pages. */
  datatype PageBounds = PageBounds(start: nat, end: nat, totalPages: nat)

  function Bounds(n: nat, page: nat): PageBounds {
    var start := page * PerPage;
    PageBounds(start, if start + PerPage < n then start + PerPage else n, (n + PerPage - 1) / PerPage)
  }

  /** `Math.ceil(n / 5)`, and every page in range holds one to five
      warnings. */
  lemma PageArithmetic(n: nat, page: nat)
    ensures var b := Bounds(n, page);
      && b.totalPages * PerPage >= n && (b.totalPages == 0 || (b.totalPages - 1) * PerPage < n)
      && (page < b.totalPages ==> b.start < b.end <= n && b.end - b.start <= PerPage)
  {
  }

  /** The pages tile the list: warning `i` is on page `i / 5`. */
  lemma PageOfIndex(n: nat, i: nat)
    requires i < n
    ensures var b := Bounds(n, i / PerPage);
      i / PerPage < b.totalPages && b.start <= i < b.end
  {
  }

  datatype View =
    | NoWarnings
    | AllOnOne(warnings: seq<Warning>)   // five or fewer, numbered from 1
    | Paged(firstPage: seq<Warning>, totalPages: nat)

  /** The `warnings` view of a list. */
  function ViewOf(list: seq<Warning>): (v: View)
    ensures v.NoWarnings? <==> |list| == 0
    ensures v.AllOnOne? ==> v.warnings == list && |list| <= PerPage
    ensures v.Paged? ==> |list| > PerPage && v.totalPages >= 2 && v.firstPage == list[..PerPage]
  {
    if |list| == 0 then NoWarnings
    else if |list| <= PerPage then AllOnOne(list)
    else
      var b := Bounds(|list|, 0);
      Paged(list[b.start..b.end], b.totalPages)
  }

  datatype Button = Previous | Next

  /** The button collector of a paged view: the page moves only for the
      user who ran the command, and stays within the pages. */
  class Pager {
    var page: nat
    const totalPages: nat
    const owner: string

    ghost predicate Valid()
      reads this
    {
      page < totalPages
    }

    constructor (n: nat, owner: string)
      requires n > PerPage
      ensures Valid() && page == 0 && totalPages == Bounds(n, 0).totalPages && this.owner == owner
    {
      page := 0;
      totalPages := Bounds(n, 0).totalPages;
      this.owner := owner;
    }

    method Press(user: string, button: Button) returns (accepted: bool)
      requires Valid()
      modifies this
      ensures Valid()
      ensures accepted <==> user == owner
      ensures !accepted ==> page == old(page)
      ensures accepted && button == Previous ==> page == if old(page) > 0 then old(page) - 1 else old(page)
      ensures accepted && button == Next ==> page == if old(page) < totalPages - 1 then old(page) + 1 else old(page)
    {
      if user != owner {
        return false;
      }
      if button == Previous && page > 0 {
        page := page - 1;
      } else if button == Next && page < totalPages - 1 {
        page := page + 1;
      }
      accepted := true;
    }
  }

  // ---------------------------------------------------------------------
  // The warn command's guards

  datatype WarnOutcome =
    | NoPermission
    | BotNoPermission
    | TargetIsBot
    | SelfWarn
    | WarnFailed      // the insert threw (a duplicate id)
    | Warned(warning: Warning)

  /** `warn`: guards, then the insert. */
  method Warn(store: WarningStore, memberCanModerate: bool, botCanModerate: bool,
              targetId: string, targetIsBot: bool, moderatorId: string, reason: Option<string>,
              guildId: string, newId: string, now: int)
    returns (r: WarnOutcome)
    requires store.Valid()
    modifies store
    ensures store.Valid()
    ensures !memberCanModerate ==> r == NoPermission
    ensures memberCanModerate && !botCanModerate ==> r == BotNoPermission
    ensures memberCanModerate && botCanModerate && targetIsBot ==> r == TargetIsBot
    ensures memberCanModerate && botCanModerate && !targetIsBot && targetId == moderatorId ==> r == SelfWarn
    ensures (memberCanModerate && botCanModerate && !targetIsBot && targetId != moderatorId
             && newId in Ids(old(store.rows))) ==> r == WarnFailed
    ensures r.Warned? <==> memberCanModerate && botCanModerate && !targetIsBot && targetId != moderatorId
                           && newId !in Ids(old(store.rows))
    ensures r.Warned? ==>
      && r.warning == Warning(newId, targetId, moderatorId, reason.GetOr("No reason provided."), guildId, now)
      && store.rows == old(store.rows) + [r.warning]
    ensures !r.Warned? ==> store.rows == old(store.rows)
  {
    if !memberCanModerate { return NoPermission; }
    if !botCanModerate { return BotNoPermission; }
    if targetIsBot { return TargetIsBot; }
    if targetId == moderatorId { return SelfWarn; }
    var w := store.AddWarning(newId, targetId, moderatorId, reason.GetOr("No reason provided."), guildId, now);
    if w.None? {
      return WarnFailed;
    }
    r := Warned(w.value);
  }
}
