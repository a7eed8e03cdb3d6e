/** The mention/ID parser that the commands share: a user argument is
    `<@digits>`, `<@!digits>` or bare `digits` (mute.js, roles.js), a role
    argument `<@&digits>` or `digits` (roles.js), a channel value
    `<#digits>` or `digits` (configuration.js). The result is the digit
    capture, i.e. `match[1]` of the first regular expression that matched. */
module Mentions {
  import opened Common

  datatype Kind = User | Role | Channel

  /** Matches `^<open>(\d+)>$` and yields the capture. */
  function Wrapped(s: string, open: string): (r: Option<string>)
    ensures r.Some? ==> IsDigits(r.value) && s == open + r.value + ">"
  {
    if |s| >= |open| + 2 && s[..|open|] == open && s[|s| - 1] == '>'
       && IsDigits(s[|open|..|s| - 1])
    then
      assert s == s[..|open|] + s[|open|..|s| - 1] + [s[|s| - 1]];
      Some(s[|open|..|s| - 1])
    else None
  }

  /** Matches `^(\d+)$`. */
  function Bare(s: string): Option<string> {
    if IsDigits(s) then Some(s) else None
  }

  /** `s.match(/^<@!?(\d+)>$/) || s.match(/^(\d+)$/)` for users,
      `/^<@&(\d+)>$/` for roles and `/^<#(\d+)>$/` for channels, each
      followed by the bare-digits alternative. */
  function Parse(kind: Kind, s: string): Option<string> {
    match kind
    case User =>
      if Wrapped(s, "<@").Some? then Wrapped(s, "<@")
      else if Wrapped(s, "<@!").Some? then Wrapped(s, "<@!")
      else Bare(s)
    case Role =>
      if Wrapped(s, "<@&").Some? then Wrapped(s, "<@&") else Bare(s)
    case Channel =>
      if Wrapped(s, "<#").Some? then Wrapped(s, "<#") else Bare(s)
  }

  /** The canonical mention the platform renders for an id. */
  function Format(kind: Kind, id: string): string {
    match kind
    case User => "<@" + id + ">"
    case Role => "<@&" + id + ">"
    case Channel => "<#" + id + ">"
  }

  /** The legacy nickname mention of a user. */
  function FormatNick(id: string): string {
    "<@!" + id + ">"
  }

  lemma WrappedOf(open: string, id: string)
    requires IsDigits(id)
    ensures Wrapped(open + id + ">", open) == Some(id)
  {
    var s := open + id + ">";
    assert s[..|open|] == open;
    assert s[|open|..|s| - 1] == id;
  }

  /** A digit string never starts with '<', so no wrapped form matches it. */
  lemma WrappedNotDigits(s: string, open: string)
    requires IsDigits(s) && |open| > 0 && open[0] == '<'
    ensures Wrapped(s, open) == None
  {
    assert IsDigit(s[0]);
  }

  /** Round trip: every accepted form of an id parses back to that id. */
  lemma ParseFormat(kind: Kind, id: string)
    requires IsDigits(id)
    ensures Parse(kind, Format(kind, id)) == Some(id)
    ensures Parse(kind, id) == Some(id)
    ensures kind == User ==> Parse(User, FormatNick(id)) == Some(id)
  {
    match kind
    case User =>
      WrappedOf("<@", id);
      WrappedNotDigits(id, "<@");
      WrappedNotDigits(id, "<@!");
      var nick := FormatNick(id);
      WrappedOf("<@!", id);
      assert nick[2] == '!';
      assert !IsDigit(nick[2]);
      assert Wrapped(nick, "<@") == None;
    case Role =>
      WrappedOf("<@&", id);
      WrappedNotDigits(id, "<@&");
    case Channel =>
      WrappedOf("<#", id);
      WrappedNotDigits(id, "<#");
  }

  /** Nothing else is accepted: a successful parse yields a digit string and
      the input was one of that id's forms. */
  lemma ParseSound(kind: Kind, s: string, id: string)
    requires Parse(kind, s) == Some(id)
    ensures IsDigits(id)
    ensures s == id || s == Format(kind, id) || (kind == User && s == FormatNick(id))
  {
  }
}
