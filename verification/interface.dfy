/**
 * The bot's Discord front end: parsing a message into a command name and its
 * `|`-separated arguments, dispatching to the registered command, turning a
 * thrown UserError into a reply, the mention formats, and finding a channel
 * mention in a message.
 */
module Interface {
  import opened Wrappers
  import opened Js
  import opened Errors
  import opened Messaging

  datatype Attachment = Attachment(filename: string, url: string)

  /** A message the bot receives. */
  datatype IncomingMessage = IncomingMessage(
    id: MessageId,
    content: string,
    attachments: seq<Attachment>,
    author: UserId,
    channel: ChannelId,
    server: string)

  // ---------------------------------------------------------------------------
  // Mentions
  // ---------------------------------------------------------------------------

  function MentionChannel(id: ChannelId): string {
    "<#" + id + ">"
  }

  function MentionUser(id: UserId): string {
    "<@" + id + ">"
  }

  function MentionRole(id: string): string {
    "<&" + id + ">"
  }

  /** The three mention formats never coincide, and each one determines the id it mentions. */
  lemma MentionFormats(a: string, b: string)
    ensures MentionChannel(a) != MentionUser(b) && MentionChannel(a) != MentionRole(b) && MentionUser(a) != MentionRole(b)
    ensures MentionChannel(a) == MentionChannel(b) ==> a == b
    ensures MentionUser(a) == MentionUser(b) ==> a == b
    ensures MentionRole(a) == MentionRole(b) ==> a == b
  {
    assert MentionChannel(a)[1] == '#' && MentionUser(a)[1] == '@' && MentionRole(a)[1] == '&';
    assert MentionUser(b)[1] == '@' && MentionRole(b)[1] == '&';
    assert MentionChannel(a)[2..|MentionChannel(a)| - 1] == a && MentionChannel(b)[2..|MentionChannel(b)| - 1] == b;
    assert MentionUser(a)[2..|MentionUser(a)| - 1] == a && MentionUser(b)[2..|MentionUser(b)| - 1] == b;
    assert MentionRole(a)[2..|MentionRole(a)| - 1] == a && MentionRole(b)[2..|MentionRole(b)| - 1] == b;
  }

  /** A channel mention at the very start of the text: "<#", one or more digits, ">". */
  function ChannelAt(q: string): (r: Option<string>)
    ensures r.Some? ==> r.value != [] && AllDigits(r.value) && StartsWith(q, MentionChannel(r.value))
  {
    if |q| < 2 || q[..2] != "<#" then None
    else
      var ds := LeadingDigits(q[2..]);
      if ds != [] && 2 + |ds| < |q| && q[2 + |ds|] == '>' then
        assert q[..|MentionChannel(ds)|] == MentionChannel(ds) by {
          assert q[..|MentionChannel(ds)|] == q[..2] + q[2..][..|ds|] + [q[2 + |ds|]];
        }
        Some(ds)
      else None
  }

  /**
   * getChannel: the digits of the leftmost `<#digits>` in the query. The lazy
   * `\d+?` must still reach the `>`, so it takes the whole run of digits.
   */
  function GetChannel(q: string): (r: Option<string>)
    ensures r.Some? ==> r.value != [] && AllDigits(r.value)
    ensures r.Some? ==> exists i :: 0 <= i <= |q| && ChannelAt(q[i..]) == r && forall j :: 0 <= j < i ==> ChannelAt(q[j..]).None?
    ensures r.None? ==> forall i :: 0 <= i <= |q| ==> ChannelAt(q[i..]).None?
    decreases |q|
  {
    var here := ChannelAt(q);
    if here.Some? then
      assert q[0..] == q;
      here
    else if q == [] then
      assert forall i :: 0 <= i <= |q| ==> q[i..] == q;
      None
    else
      var r := GetChannel(q[1..]);
      assert forall i :: 1 <= i <= |q| ==> q[1..][i - 1..] == q[i..];
      assert q[0..] == q;
      r
  }

  /** The channel a mention names is the one getChannel finds in it, whatever follows. */
  lemma GetChannelOfMention(id: ChannelId, rest: string)
    requires id != [] && AllDigits(id)
    ensures GetChannel(MentionChannel(id) + rest) == Some(id)
  {
    var q := MentionChannel(id) + rest;
    assert q[..2] == "<#";
    assert q[2..] == id + ">" + rest;
    LeadingDigitsOfDigits(id, ">" + rest);
    assert q[2..] == id + (">" + rest);
  }

  // ---------------------------------------------------------------------------
  // Command parsing
  // ---------------------------------------------------------------------------

  /** s.slice(k) for k >= 0: the text from position k, or "" past the end. */
  function Slice(s: string, k: nat): (t: string)
    ensures k <= |s| ==> t == s[k..]
    ensures k > |s| ==> t == []
  {
    if k <= |s| then s[k..] else []
  }

  function MapTrim(parts: seq<string>): (r: seq<string>)
    ensures |r| == |parts| && forall k :: 0 <= k < |parts| ==> r[k] == Trim(parts[k])
  {
    seq(|parts|, k requires 0 <= k < |parts| => Trim(parts[k]))
  }

  datatype Command = Command(name: string, args: seq<string>)

  /**
   * handleMessage's parsing: nothing unless the text starts with the prefix;
   * the name is the first space-separated term without the prefix, lowercased;
   * the arguments are the remaining terms joined again, split on `|`, trimmed.
   */
  function ParseCommand(content: string, prefix: string): (r: Option<Command>)
    ensures r.Some? <==> StartsWith(content, prefix)
    ensures r.Some? ==> |r.value.args| >= 1
  {
    if !StartsWith(content, prefix) then None
    else
      var terms := Split(content, {' '});
      var name := ToLower(Slice(terms[0], |prefix|));
      var args := MapTrim(Split(Join(terms[1..], " "), {'|'}));
      Some(Command(name, args))
  }

  /** The text after the first space, or "" when there is none. */
  function AfterFirstSpace(content: string): string {
    var i := IndexOfAny(content, {' '});
    if i < |content| then content[i + 1..] else ""
  }

  /** Joining the terms after the first again gives back exactly the text after the first space. */
  lemma JoinRestOfTerms(content: string)
    ensures Join(Split(content, {' '})[1..], " ") == AfterFirstSpace(content)
  {
    var i := IndexOfAny(content, {' '});
    if i < |content| {
      var rest := content[i + 1..];
      var parts := Split(content, {' '});
      assert parts == [content[..i]] + Split(rest, {' '});
      assert parts[1..] == Split(rest, {' '});
      JoinSplit(rest, ' ');
    }
  }

  /**
   * The arguments are the `|`-separated pieces of the text after the first
   * space, each trimmed; with no such text there is one empty argument.
   */
  lemma ArgumentsArePieces(content: string, prefix: string)
    requires StartsWith(content, prefix)
    ensures var pieces := Split(AfterFirstSpace(content), {'|'});
            && Join(pieces, "|") == AfterFirstSpace(content)
            && ParseCommand(content, prefix).value.args == MapTrim(pieces)
    ensures AfterFirstSpace(content) == "" ==> ParseCommand(content, prefix).value.args == [""]
  {
    JoinRestOfTerms(content);
    JoinSplit(AfterFirstSpace(content), '|');
    if AfterFirstSpace(content) == "" {
      assert Split("", {'|'}) == [""];
      assert Trim("") == "";
    }
  }

  /** With a prefix free of spaces, the name is the lowercased text between the prefix and the first space. */
  lemma CommandName(content: string, prefix: string)
    requires StartsWith(content, prefix) && NoneOf(prefix, {' '})
    ensures var i := IndexOfAny(content, {' '});
            && |prefix| <= i
            && ParseCommand(content, prefix).value.name == ToLower(content[|prefix|..i])
  {
    var i := IndexOfAny(content, {' '});
    assert forall j :: 0 <= j < |prefix| ==> content[j] == prefix[j];
    assert Split(content, {' '})[0] == content[..i];
    assert content[..i][|prefix|..] == content[|prefix|..i];
  }

  // ---------------------------------------------------------------------------
  // DiscordInterface
  // ---------------------------------------------------------------------------

  class DiscordInterface {
    /** The registered commands, each named by the handler it runs. */
    var commands: map<string, string>
    const prefix: string
    const api: Discord
    const log: Logger

    constructor (api: Discord, prefix: string, log: Logger)
      ensures commands == map[] && this.api == api && this.prefix == prefix && this.log == log
    {
      commands := map[];
      this.api := api;
      this.prefix := prefix;
      this.log := log;
    }

    /** registerCommand: the handler replaces any previous one of the same name. */
    method RegisterCommand(name: string, handler: string)
      modifies this`commands
      ensures commands == old(commands)[name := handler]
    {
      commands := commands[name := handler];
    }

    /**
     * handleMessage: runs the named command when it is registered; `outcome`
     * is what the handler throws, if anything. A UserError becomes a reply
     * with its message; any other error is only logged.
     */
    method HandleMessage(msg: IncomingMessage, outcome: (string, seq<string>) -> Option<Error>)
      returns (ran: Option<Command>)
      modifies api`effects, log`entries
      ensures ran.Some? <==> ParseCommand(msg.content, prefix).Some? && ParseCommand(msg.content, prefix).value.name in commands
      ensures ran.Some? ==> ran == ParseCommand(msg.content, prefix)
      ensures var e := if ran.Some? then outcome(commands[ran.value.name], ran.value.args) else None;
              && (e.Some? && e.value.IsUserError() ==>
                    api.effects == old(api.effects) + [Replied(msg.channel, msg.id, e.value.Message())] && log.entries == old(log.entries))
              && (e.Some? && !e.value.IsUserError() ==>
                    api.effects == old(api.effects) && log.entries == old(log.entries) + [(Level.Error, e.value.Message())])
              && (e.None? ==> api.effects == old(api.effects) && log.entries == old(log.entries))
    {
      var parsed := ParseCommand(msg.content, prefix);
      if parsed.None? || parsed.value.name !in commands {
        return None;
      }
      ran := parsed;
      var e := outcome(commands[parsed.value.name], parsed.value.args);
      if e.Some? {
        if e.value.IsUserError() {
          api.Reply(msg.channel, msg.id, e.value.Message());
        } else {
          log.Log(Level.Error, e.value.Message());
        }
      }
    }

    /** awaitReaction: sends the message, then listens for the emoji being added and removed on it. */
    method AwaitReaction(content: string, channel: ChannelId, emoji: string, response: string, removeResponse: string)
      returns (id: MessageId)
      modifies api`effects, api`nextId, api`messages, api`onReaction, api`onReactionRemove
      ensures id == old(api.nextId) && api.nextId == id + 1
      ensures api.effects == old(api.effects) + [Sent(channel, content, id)]
      ensures api.messages == old(api.messages)[id := channel]
      ensures api.onReaction == old(api.onReaction) + [ReactionHandler(id, emoji, response)]
      ensures api.onReactionRemove == old(api.onReactionRemove) + [ReactionHandler(id, emoji, removeResponse)]
    {
      id := api.SendMessage(channel, content);
      api.AddReactionHandlers(ReactionHandler(id, emoji, response), ReactionHandler(id, emoji, removeResponse));
    }
  }
}
