/** The `purge` command of commands/moderation/purge.js: the permission
    guards, the 14-day filter on the fetched messages, the ascending sort by
    creation time, and the text archive. The archive is built but never
    delivered: the log channel id is the empty string, so the channel lookup
    finds nothing and the code only logs a warning. The fetch, the outcome of
    the bulk delete and the clock are parameters; locale date formatting is
    a function parameter. */
module Purge {
  import opened Common

  datatype Author = Author(username: string, id: string)

  /** A fetched message: creation time in milliseconds, author (absent for
      some system messages), text, attachment file names and embed count. */
  datatype Message = Message(createdTimestamp: int, author: Option<Author>, content: string,
                             attachments: seq<string>, embeds: nat)

  function Created(m: Message): int {
    m.createdTimestamp
  }

  /** The platform refuses to bulk-delete messages 14 days old or older. */
  const BulkDeleteWindowMs := 14 * 24 * 60 * 60 * 1000

  predicate Recent(m: Message, now: int) {
    now - m.createdTimestamp < BulkDeleteWindowMs
  }

  /** `messages.filter(...)`: the recent messages, in fetch order. */
  function Kept(messages: seq<Message>, now: int): (r: seq<Message>)
    ensures |r| <= |messages|
    ensures forall m :: m in r <==> m in messages && Recent(m, now)
    ensures forall m :: Recent(m, now) ==> multiset(r)[m] == multiset(messages)[m]
    ensures forall m :: m in multiset(r) ==> Recent(m, now)
  {
    if |messages| == 0 then []
    else
      var rest := Kept(messages[1..], now);
      assert messages == [messages[0]] + messages[1..];
      if Recent(messages[0], now) then [messages[0]] + rest else rest
  }

  datatype Step =
    | NoPermission
    | BotNoPermission
    | FetchFailed
    | NoMessages
    | TooOld
    | Delete(sorted: seq<Message>)

  /** The guards and the selection of what is deleted; `fetched` is `None`
      when the fetch throws. */
  function PurgeStep(memberCanManage: bool, botCanManage: bool, fetched: Option<seq<Message>>, now: int): (r: Step)
    ensures !memberCanManage ==> r == NoPermission
    ensures memberCanManage && !botCanManage ==> r == BotNoPermission
    ensures r == FetchFailed <==> memberCanManage && botCanManage && fetched.None?
    ensures r == NoMessages <==> memberCanManage && botCanManage && fetched == Some([])
    ensures r == TooOld <==> memberCanManage && botCanManage && fetched.Some? && |fetched.value| > 0
                             && forall m :: m in fetched.value ==> !Recent(m, now)
    ensures r.Delete? ==> (
      && fetched.Some?
      && SortedBy(r.sorted, Created)
      && multiset(r.sorted) == multiset(Kept(fetched.value, now))
      && |r.sorted| > 0
      && forall m :: m in r.sorted <==> m in fetched.value && Recent(m, now))
    ensures memberCanManage && botCanManage && fetched.Some? && (exists m :: m in fetched.value && Recent(m, now))
            ==> r.Delete?
  {
    if !memberCanManage then NoPermission
    else if !botCanManage then BotNoPermission
    else if fetched.None? then FetchFailed
    else if |fetched.value| == 0 then NoMessages
    else
      var kept := Kept(fetched.value, now);
      if |kept| == 0 then
        TooOld
      else
        var sorted := SortBy(kept, Created);
        assert forall m :: m in sorted <==> m in kept by {
          forall m
            ensures m in sorted <==> m in kept
          {
            assert m in sorted <==> m in multiset(sorted);
            assert m in kept <==> m in multiset(kept);
          }
        }
        assert kept[0] in kept;
        Delete(sorted)
  }

  // ---------------------------------------------------------------------
  // The archive

  /** `c.repeat(n)` */
  function Repeat(c: char, n: nat): (r: string)
    ensures |r| == n && forall i :: 0 <= i < n ==> r[i] == c
  {
    if n == 0 then "" else [c] + Repeat(c, n - 1)
  }

  /** `reason` defaults to a fixed text (note: without a final period,
      unlike the moderation commands). */
  const DefaultReason := "No reason provided"

  datatype Header = Header(channelName: string, when: string, username: string, userId: string, reason: string)

  /** The archive header: who purged which channel, when and why, then the
      count and a rule. */
  function HeaderText(h: Header, total: nat): string {
    HeaderLines(h) + CountLines(total)
  }

  function HeaderLines(h: Header): string {
    "Messages purged from #" + h.channelName + " on " + h.when + "\n"
    + "Purged by " + h.username + " | (ID: " + h.userId + ")\n"
    + "Reason: " + h.reason + "\n"
  }

  function CountLines(total: nat): string {
    "Total messages: " + NatToString(total) + "\n\n" + Repeat('=', 50) + "\n\n"
  }

  /** The header closes with the message count, written in decimal, and a
      rule of 50 '=' characters. */
  lemma HeaderCloses(h: Header, total: nat)
    ensures var t := HeaderText(h, total);
      var tail := "Total messages: " + NatToString(total) + "\n\n" + Repeat('=', 50) + "\n\n";
      && |tail| <= |t| && t[|t| - |tail|..] == tail
      && DigitsValue(NatToString(total)) == total
      && |Repeat('=', 50)| == 50
  {
    var head, tail := HeaderLines(h), CountLines(total);
    assert (head + tail)[|head|..] == tail;
  }

  function AuthorText(a: Option<Author>): string {
    match a
    case Some(author) => author.username + " (" + author.id + ")"
    case None => "Unknown Author"
  }

  /** `msg.content || '[No text content]'`: the empty string is falsy. */
  function ContentText(content: string): string {
    if content == "" then "[No text content]" else content
  }

  /** The lines of entry `number` (one-based). */
  function EntryLines(m: Message, number: nat, format: int -> string): seq<string> {
    ["[" + NatToString(number) + "] " + format(m.createdTimestamp),
     "Author: " + AuthorText(m.author),
     "Content: " + ContentText(m.content)]
    + (if |m.attachments| > 0 then ["Attachments: " + Join(m.attachments, ", ")] else [])
    + (if m.embeds > 0 then ["Embeds: " + NatToString(m.embeds) + " embed(s)"] else [])
  }

  function Lines(ls: seq<string>): string {
    if |ls| == 0 then "" else ls[0] + "\n" + Lines(ls[1..])
  }

  /** One entry: its lines, then a blank line, 30 dashes and a blank line. */
  function EntryText(m: Message, number: nat, format: int -> string): string {
    Lines(EntryLines(m, number, format)) + "\n" + Repeat('-', 30) + "\n\n"
  }

  /** The entries of `sorted`, numbered from 1. */
  function Entries(sorted: seq<Message>, format: int -> string): string {
    if |sorted| == 0 then ""
    else Entries(sorted[..|sorted| - 1], format) + EntryText(sorted[|sorted| - 1], |sorted|, format)
  }

  /** The archive: the header and the numbered entries. */
  function Archive(h: Header, sorted: seq<Message>, format: int -> string): string {
    HeaderText(h, |sorted|) + Entries(sorted, format)
  }

  predicate StartsWith(s: string, prefix: string) {
    |prefix| <= |s| && s[..|prefix|] == prefix
  }

  /** The author line reads "Author: Unknown Author" exactly when the
      message has no author: a known author's line ends with ')'. */
  lemma AuthorLine(a: Option<Author>)
    ensures "Author: " + AuthorText(a) == "Author: Unknown Author" <==> a.None?
  {
    if a.Some? {
      var line := "Author: " + AuthorText(a);
      assert line[|line| - 1] == ')';
      assert "Author: Unknown Author"[21] == 'r';
    }
  }

  /** The shape of an entry: numbered `number`, an author line that reads
      "Unknown Author" exactly when the author is missing, and a placeholder
      for empty text. */
  lemma EntryHead(m: Message, number: nat, format: int -> string)
    ensures var ls := EntryLines(m, number, format);
      && |ls| == 3 + (if |m.attachments| > 0 then 1 else 0) + (if m.embeds > 0 then 1 else 0)
      && StartsWith(ls[0], "[" + NatToString(number) + "] ")
      && (ls[1] == "Author: Unknown Author" <==> m.author.None?)
      && (m.content == "" ==> ls[2] == "Content: [No text content]")
      && (m.content != "" ==> ls[2] == "Content: " + m.content)
  {
    var first := "[" + NatToString(number) + "] ";
    assert (first + format(m.createdTimestamp))[..|first|] == first;
    AuthorLine(m.author);
  }

  /** The fourth line lists the attachments exactly when there are some, and
      the last line counts the embeds exactly when there are some. */
  lemma EntryOptionalLines(m: Message, number: nat, format: int -> string)
    ensures var ls := EntryLines(m, number, format);
      && (|m.attachments| > 0 <==> |ls| > 3 && StartsWith(ls[3], "Attachments: "))
      && (m.embeds > 0 <==> StartsWith(ls[|ls| - 1], "Embeds: "))
  {
    var ls := EntryLines(m, number, format);
    var last := ls[|ls| - 1];
    if |m.attachments| > 0 {
      assert StartsWith(ls[3], "Attachments: ");
    } else if |ls| > 3 {
      assert ls[3][0] == 'E';
    }
    if m.embeds > 0 {
      assert StartsWith(last, "Embeds: ");
    } else if |m.attachments| > 0 {
      assert last[0] == 'A';
    } else {
      assert last[0] == 'C';
    }
  }

  /** Entry `i` follows entries `0 .. i - 1` and is numbered `i + 1`. */
  lemma EntriesSnoc(sorted: seq<Message>, i: nat, format: int -> string)
    requires i < |sorted|
    ensures Entries(sorted[..i + 1], format) == Entries(sorted[..i], format) + EntryText(sorted[i], i + 1, format)
  {
    assert sorted[..i + 1][..i] == sorted[..i];
  }

  /** The entries of a prefix are a prefix of the entries. */
  lemma {:induction false} EntriesPrefix(sorted: seq<Message>, i: nat, format: int -> string)
    requires i <= |sorted|
    ensures StartsWith(Entries(sorted, format), Entries(sorted[..i], format))
    decreases |sorted|
  {
    if i < |sorted| {
      var init := sorted[..|sorted| - 1];
      assert init[..i] == sorted[..i];
      EntriesPrefix(init, i, format);
      var a := Entries(init, format);
      var p := Entries(sorted[..i], format);
      var x := EntryText(sorted[|sorted| - 1], |sorted|, format);
      assert Entries(sorted, format) == a + x;
      assert (a + x)[..|p|] == a[..|p|];
    } else {
      assert sorted[..i] == sorted;
    }
  }

  /** The `forEach` that appends the entries to `mArchive`. */
  method BuildArchive(h: Header, sorted: seq<Message>, format: int -> string) returns (archive: string)
    ensures archive == Archive(h, sorted, format)
  {
    var entries := "";
    var i := 0;
    while i < |sorted|
      invariant 0 <= i <= |sorted|
      invariant entries == Entries(sorted[..i], format)
    {
      EntriesSnoc(sorted, i, format);
      entries := entries + EntryText(sorted[i], i + 1, format);
      i := i + 1;
    }
    assert sorted[..i] == sorted;
    archive := HeaderText(h, |sorted|) + entries;
  }

  datatype Outcome =
    | Refused(step: Step)
    | DeleteFailed    // `bulkDelete` threw: the error reply
    | Purged(deleted: seq<Message>, archive: string)

  /** The command: the step, the archive over what is selected, then the
      bulk delete, which fails when `deleteFails`. */
  method Execute(memberCanManage: bool, botCanManage: bool, fetched: Option<seq<Message>>, now: int,
                 channelName: string, when: string, username: string, userId: string, reason: Option<string>,
                 format: int -> string, deleteFails: bool)
    returns (r: Outcome)
    ensures r.Refused? <==> !PurgeStep(memberCanManage, botCanManage, fetched, now).Delete?
    ensures r.Refused? ==> r.step == PurgeStep(memberCanManage, botCanManage, fetched, now)
    ensures r == DeleteFailed <==> PurgeStep(memberCanManage, botCanManage, fetched, now).Delete? && deleteFails
    ensures r.Purged? ==>
      && r.deleted == PurgeStep(memberCanManage, botCanManage, fetched, now).sorted
      && r.archive == Archive(Header(channelName, when, username, userId, reason.GetOr(DefaultReason)), r.deleted, format)
  {
    var step := PurgeStep(memberCanManage, botCanManage, fetched, now);
    if !step.Delete? {
      return Refused(step);
    }
    var archive := BuildArchive(Header(channelName, when, username, userId, reason.GetOr(DefaultReason)), step.sorted, format);
    if deleteFails {
      return DeleteFailed;
    }
    r := Purged(step.sorted, archive);
  }
}
