/**
 * The command handler: the bot's chat commands, each checking its arguments
 * with validateArgs, authenticating the sender, making one request of the
 * tournament manager and replying. What the manager does with a request is
 * modelled with the manager itself; here a request is recorded together with
 * the error, if any, the manager answers it with.
 */
module Commands {
  import opened Wrappers
  import opened Js
  import opened Errors
  import opened Messaging
  import opened Persistence
  import opened Interface

  // ---------------------------------------------------------------------------
  // validateArgs
  // ---------------------------------------------------------------------------

  /** Argument i is missing when the list stops before it or it is empty. */
  predicate Missing(args: seq<string>, i: nat) {
    i >= |args| || args[i] == ""
  }

  function MissingText(i: nat): string {
    "Missing parameter number " + NatToString(i) + "!"
  }

  /**
   * validateArgs: the arguments unchanged when the first `count` are all
   * present; otherwise a UserError naming the first one that is missing.
   */
  method ValidateArgs(args: seq<string>, count: nat) returns (r: Result<seq<string>, Error>)
    ensures r.Ok? <==> forall j :: 0 <= j < count ==> !Missing(args, j)
    ensures r.Ok? ==> r.value == args
    ensures r.Err? ==> exists i: nat :: i < count && Missing(args, i) && (forall j :: 0 <= j < i ==> !Missing(args, j))
                                       && r.error == UserError(MissingText(i))
  {
    var i := 0;
    while i < count
      invariant i <= count
      invariant forall j :: 0 <= j < i ==> !Missing(args, j)
    {
      if i >= |args| || |args[i]| < 1 {
        assert Missing(args, i);
        return Err(UserError(MissingText(i)));
      }
      i := i + 1;
    }
    return Ok(args);
  }

  /** Two different argument positions are reported with different texts. */
  lemma MissingTextNamesPosition(i: nat, j: nat)
    requires MissingText(i) == MissingText(j)
    ensures i == j
  {
    var p := "Missing parameter number ";
    assert NatToString(i) + "!" == MissingText(i)[|p|..];
    assert NatToString(j) + "!" == MissingText(j)[|p|..];
    ParseIntOfNatToString(i, "!");
    ParseIntOfNatToString(j, "!");
  }

  /** The optional argument at position k: undefined past the end of the list. */
  function Arg(args: seq<string>, k: nat): (a: Option<string>)
    ensures a.Some? <==> k < |args|
    ensures a.Some? ==> a.value == args[k]
  {
    if k < |args| then Some(args[k]) else None
  }

  // ---------------------------------------------------------------------------
  // Scores, channel types and target channels
  // ---------------------------------------------------------------------------

  const ScoreFormatText := "Must provide score in format `#-#` e.g. `2-1`."

  /**
   * The first two pieces of a score split on '-', when there are at least two:
   * the text up to the first '-' and the text from there up to the next '-'
   * or the end.
   */
  function ScoreTexts(score: string): (r: Option<(string, string)>)
    ensures r.None? <==> '-' !in score
    ensures r.Some? ==> exists rest :: && score == r.value.0 + "-" + r.value.1 + rest
                                       && '-' !in r.value.0 && '-' !in r.value.1 && (rest == [] || rest[0] == '-')
  {
    var parts := Split(score, {'-'});
    if |parts| < 2 then
      SingleScorePiece(score);
      None
    else
      ScorePieces(score);
      Some((parts[0], parts[1]))
  }

  /**
   * commandSubmitScore's reading of `#-#`: fewer than two pieces is an error,
   * otherwise the first two pieces parsed are the author's and the opponent's.
   */
  function ParseScore(score: string): (r: Result<(JsInt, JsInt), Error>)
    ensures r.Err? <==> '-' !in score
    ensures r.Err? ==> r.error == UserError(ScoreFormatText)
    ensures r.Ok? ==> r.value == (ParseInt(ScoreTexts(score).value.0), ParseInt(ScoreTexts(score).value.1))
  {
    match ScoreTexts(score)
    case None => Err(UserError(ScoreFormatText))
    case Some((a, b)) => Ok((ParseInt(a), ParseInt(b)))
  }

  lemma SingleScorePiece(score: string)
    requires |Split(score, {'-'})| < 2
    ensures '-' !in score
  {
    var i := IndexOfAny(score, {'-'});
    assert i == |score|;
    assert NoneOf(score[..i], {'-'});
    assert score[..i] == score;
  }

  lemma ScorePieces(score: string)
    requires |Split(score, {'-'})| >= 2
    ensures var parts := Split(score, {'-'});
            exists rest :: && score == parts[0] + "-" + parts[1] + rest
                           && '-' !in parts[0] && '-' !in parts[1] && (rest == [] || rest[0] == '-')
  {
    var rest := ScoreSplit(score);
  }

  /** A text split on '-' is its first piece, a '-', its second piece and then nothing or another '-'. */
  lemma ScoreSplit(score: string) returns (rest: string)
    requires |Split(score, {'-'})| >= 2
    ensures var parts := Split(score, {'-'});
            && score == parts[0] + "-" + parts[1] + rest
            && '-' !in parts[0] && '-' !in parts[1] && (rest == [] || rest[0] == '-')
  {
    var i := IndexOfAny(score, {'-'});
    assert i < |score|;
    var head, tail := score[..i], score[i + 1..];
    assert score == head + ['-'] + tail;
    SplitCons(head, '-', tail, {'-'});
    var k := IndexOfAny(tail, {'-'});
    rest := tail[k..];
    SplitFirst(tail, '-');
    Rejoin(score, head, tail, k);
    NoDash(head);
    NoDash(tail[..k]);
  }

  lemma Rejoin(score: string, head: string, tail: string, k: nat)
    requires score == head + ['-'] + tail && k <= |tail|
    ensures score == head + "-" + tail[..k] + tail[k..]
  {
    assert tail == tail[..k] + tail[k..];
  }

  lemma NoDash(s: string)
    requires NoneOf(s, {'-'})
    ensures '-' !in s
  {
  }

  /** Two runs of digits joined by '-' split back into the two runs. */
  lemma ScoreTextsOfNumbers(sa: string, sb: string)
    requires AllDigits(sa) && AllDigits(sb)
    ensures ScoreTexts(sa + "-" + sb) == Some((sa, sb))
  {
    assert NoneOf(sa, {'-'});
    assert NoneOf(sb, {'-'});
    SplitCons(sa, '-', sb, {'-'});
    SplitNoSeparator(sb, {'-'});
  }

  /** `a-b` written with decimal numbers reads back as the pair (a, b). */
  lemma ParseScoreOfNumbers(a: nat, b: nat)
    ensures ParseScore(NatToString(a) + "-" + NatToString(b)) == Ok((Num(a), Num(b)))
  {
    var sa, sb := NatToString(a), NatToString(b);
    ScoreTextsOfNumbers(sa, sb);
    ParseIntOfNatToString(a, "");
    ParseIntOfNatToString(b, "");
    assert sa + "" == sa && sb + "" == sb;
  }

  /**
   * commandAddChannel/commandRemoveChannel's announcement type: private when
   * the argument, lowercased and trimmed, reads "private"; public otherwise,
   * including when it is absent or empty.
   */
  function ChannelPrivate(baseType: Option<string>): (private: bool)
    ensures private <==> baseType.Some? && Trim(ToLower(baseType.value)) == "private"
  {
    var kind := if baseType.Some? && baseType.value != "" then Trim(ToLower(baseType.value)) else "public";
    kind == "private"
  }

  function TypeName(private: bool): string {
    if private then "private" else "public"
  }

  /** Neither case nor surrounding white space matters to the channel type. */
  lemma ChannelPrivateIgnoresCaseAndSpace(pad1: string, word: string, pad2: string)
    requires forall i :: 0 <= i < |pad1| ==> pad1[i] == ' '
    requires forall i :: 0 <= i < |pad2| ==> pad2[i] == ' '
    requires ToLower(word) == "private"
    ensures ChannelPrivate(Some(pad1 + word + pad2))
  {
    var s := pad1 + word + pad2;
    var t := ToLower(s);
    assert t == pad1 + "private" + pad2 by {
      assert forall i :: 0 <= i < |pad1| ==> t[i] == pad1[i];
      assert forall i :: 0 <= i < |word| ==> t[|pad1| + i] == ToLower(word)[i];
      assert forall i :: 0 <= i < |pad2| ==> t[|pad1| + |word| + i] == pad2[i];
    }
    TrimPadded(pad1, "private", pad2);
  }

  /** The channel a command acts on: the one mentioned in the argument, else the message's own. */
  function TargetChannel(mention: Option<string>, own: ChannelId): (c: ChannelId)
    ensures c == own || (mention.Some? && GetChannel(mention.value) == Some(c))
  {
    var found := if mention.Some? then GetChannel(mention.value) else None;
    if found.Some? then found.value else own
  }

  /** A mention of a channel selects that channel; no mention selects the message's own. */
  lemma TargetOfMention(id: ChannelId, rest: string, own: ChannelId)
    requires id != [] && AllDigits(id)
    ensures TargetChannel(Some(MentionChannel(id) + rest), own) == id
    ensures TargetChannel(None, own) == own
  {
    GetChannelOfMention(id, rest);
  }

  // ---------------------------------------------------------------------------
  // Replies
  // ---------------------------------------------------------------------------

  const Tournament := "Tournament "

  function CompletedText(id: string): string {
    Tournament + id + " successfully progressed past final round and completed."
  }

  function ProgressedText(id: string, round: int): string {
    Tournament + id + " successfully progressed to round " + IntToString(round) + "."
  }

  /** commandNextRound's reply to the round number nextRound returns: -1 means the tournament is over. */
  function NextRoundReply(id: string, round: int): (reply: string)
    ensures round == -1 ==> reply == CompletedText(id)
    ensures round != -1 ==> reply == ProgressedText(id, round)
  {
    if round == -1 then CompletedText(id) else ProgressedText(id, round)
  }

  /** The completed reply is given for -1 and only for -1. */
  lemma NextRoundReplyCompleted(id: string, round: int)
    ensures NextRoundReply(id, round) == CompletedText(id) <==> round == -1
  {
    if round != -1 {
      var n := |Tournament + id + " successfully progressed "|;
      assert CompletedText(id)[n] == 'p';
      assert ProgressedText(id, round)[n] == 't';
    }
  }

  function OpenedText(id: string): string {
    Tournament + id + " opened for registration!"
  }

  function CommencedText(id: string): string {
    Tournament + id + " successfully commenced!"
  }

  function CanceledText(id: string): string {
    Tournament + id + " successfully canceled."
  }

  function SyncedText(id: string): string {
    Tournament + id + " database successfully synchronised with remote website."
  }

  function ChannelNotice(verb: string, private: bool, id: string): string {
    " " + verb + " as a " + TypeName(private) + " announcement channel for " + Tournament + id + "!"
  }

  /** The request the channel commands make of the manager. */
  function ChannelRequest(add: bool, id: string, channel: ChannelId, private: bool): Request {
    if add then AddAnnouncementChannel(id, channel, private) else RemoveAnnouncementChannel(id, channel, private)
  }

  // ---------------------------------------------------------------------------
  // The tournament manager as the command handler sees it
  // ---------------------------------------------------------------------------

  /** A call of the command handler into the tournament manager. */
  datatype Request =
    | AuthenticatePlayer(id: string, user: UserId)
    | OpenTournament(id: string)
    | StartTournament(id: string)
    | CancelTournament(id: string)
    | SyncTournament(id: string)
    | NextRound(id: string)
    | SubmitScore(id: string, user: UserId, own: JsInt, opp: JsInt)
    | AddAnnouncementChannel(id: string, channel: ChannelId, private: bool)
    | RemoveAnnouncementChannel(id: string, channel: ChannelId, private: bool)

  /** The requests made so far, and how the manager answers each. */
  class Requests {
    var made: seq<Request>
    /** The error the manager throws for a request, if any. */
    const failure: Request -> Option<Error>
    /** nextRound's result for a tournament. */
    const roundOf: string -> int
    /** submitScore's reply text. */
    const responseTo: Request -> string

    constructor (failure: Request -> Option<Error>, roundOf: string -> int, responseTo: Request -> string)
      ensures made == [] && this.failure == failure && this.roundOf == roundOf && this.responseTo == responseTo
    {
      made := [];
      this.failure := failure;
      this.roundOf := roundOf;
      this.responseTo := responseTo;
    }

    method Make(q: Request) returns (e: Option<Error>)
      modifies this`made
      ensures made == old(made) + [q] && e == failure(q)
    {
      made := made + [q];
      e := failure(q);
    }
  }

  /** The commands that describe, list, create and rename tournaments, each with its handler. */
  const InfoHandlers: map<string, string> := map[
    "help" := "commandHelp",
    "list" := "commandListTournaments",
    "create" := "commandCreateTournament",
    "update" := "commandUpdateTournament"]

  /** The commands that change a tournament's channels and hosts. */
  const StaffHandlers: map<string, string> := map[
    "addchannel" := "commandAddChannel",
    "removechannel" := "commandRemoveChannel",
    "addhost" := "commandAddHost",
    "removehost" := "commandRemoveHost"]

  /** The commands that move a tournament through its lifecycle. */
  const LifecycleHandlers: map<string, string> := map[
    "open" := "commandOpenTournament",
    "start" := "commandStartTournament",
    "cancel" := "commandCancelTournament",
    "score" := "commandSubmitScore",
    "round" := "commandNextRound"]

  /** The commands about players and their decks. */
  const PlayerHandlers: map<string, string> := map[
    "players" := "commandListPlayers",
    "deck" := "commandGetDeck",
    "drop" := "commandDropPlayerSelf",
    "forcedrop" := "commandDropPlayerByHost"]

  /** The commands that synchronise, chart and assign byes. */
  const UpkeepHandlers: map<string, string> := map[
    "sync" := "commandSyncTournament",
    "pie" := "commandPieChart",
    "addbye" := "commandRegisterBye",
    "removebye" := "commandRemoveBye"]

  class CommandHandler {
    const front: DiscordInterface
    const discord: Discord
    const database: Database
    const manager: Requests

    /** Registers every command with the Discord interface, replacing earlier handlers of the same names. */
    constructor (front: DiscordInterface, discord: Discord, database: Database, manager: Requests)
      modifies front`commands
      ensures this.front == front && this.discord == discord && this.database == database && this.manager == manager
      ensures front.commands == old(front.commands) + InfoHandlers + StaffHandlers + LifecycleHandlers + PlayerHandlers + UpkeepHandlers
    {
      this.front := front;
      this.discord := discord;
      this.database := database;
      this.manager := manager;
      new;
      RegisterInfo(front);
      RegisterStaff(front);
      RegisterLifecycle(front);
      RegisterPlayers(front);
      RegisterUpkeep(front);
    }

    static method RegisterInfo(front: DiscordInterface)
      modifies front`commands
      ensures front.commands == old(front.commands) + InfoHandlers
    {
      front.RegisterCommand("help", "commandHelp");
      front.RegisterCommand("list", "commandListTournaments");
      front.RegisterCommand("create", "commandCreateTournament");
      front.RegisterCommand("update", "commandUpdateTournament");
    }

    static method RegisterStaff(front: DiscordInterface)
      modifies front`commands
      ensures front.commands == old(front.commands) + StaffHandlers
    {
      front.RegisterCommand("addchannel", "commandAddChannel");
      front.RegisterCommand("removechannel", "commandRemoveChannel");
      front.RegisterCommand("addhost", "commandAddHost");
      front.RegisterCommand("removehost", "commandRemoveHost");
    }

    static method RegisterLifecycle(front: DiscordInterface)
      modifies front`commands
      ensures front.commands == old(front.commands) + LifecycleHandlers
    {
      front.RegisterCommand("open", "commandOpenTournament");
      front.RegisterCommand("start", "commandStartTournament");
      front.RegisterCommand("cancel", "commandCancelTournament");
      front.RegisterCommand("score", "commandSubmitScore");
      front.RegisterCommand("round", "commandNextRound");
    }

    static method RegisterPlayers(front: DiscordInterface)
      modifies front`commands
      ensures front.commands == old(front.commands) + PlayerHandlers
    {
      front.RegisterCommand("players", "commandListPlayers");
      front.RegisterCommand("deck", "commandGetDeck");
      front.RegisterCommand("drop", "commandDropPlayerSelf");
      front.RegisterCommand("forcedrop", "commandDropPlayerByHost");
    }

    static method RegisterUpkeep(front: DiscordInterface)
      modifies front`commands
      ensures front.commands == old(front.commands) + UpkeepHandlers
    {
      front.RegisterCommand("sync", "commandSyncTournament");
      front.RegisterCommand("pie", "commandPieChart");
      front.RegisterCommand("addbye", "commandRegisterBye");
      front.RegisterCommand("removebye", "commandRemoveBye");
    }

    /**
     * The shared shape of the host commands: the tournament id must be given
     * and the author must host it, before the request is made; the reply
     * follows only when the manager does not throw.
     */
    method HostCommand(msg: IncomingMessage, args: seq<string>, request: string -> Request, reply: string -> string)
      returns (r: Result<(), Error>)
      modifies manager`made, discord`effects
      ensures Missing(args, 0) ==>
                r == Err(UserError(MissingText(0))) && manager.made == old(manager.made) && discord.effects == old(discord.effects)
      ensures !Missing(args, 0) && database.AuthenticateHost(args[0], msg.author).Err? ==>
                && r == Err(database.AuthenticateHost(args[0], msg.author).error)
                && manager.made == old(manager.made) && discord.effects == old(discord.effects)
      ensures !Missing(args, 0) && database.AuthenticateHost(args[0], msg.author).Ok? ==>
                var q := request(args[0]);
                && manager.made == old(manager.made) + [q]
                && (manager.failure(q).Some? ==> r == Err(manager.failure(q).value) && discord.effects == old(discord.effects))
                && (manager.failure(q).None? ==>
                      r == Ok(()) && discord.effects == old(discord.effects) + [Replied(msg.channel, msg.id, reply(args[0]))])
    {
      var valid := ValidateArgs(args, 1);
      if valid.Err? {
        return Err(valid.error);
      }
      assert !Missing(args, 0);
      var id := args[0];
      var host := database.AuthenticateHost(id, msg.author);
      if host.Err? {
        return Err(host.error);
      }
      var e := manager.Make(request(id));
      if e.Some? {
        return Err(e.value);
      }
      discord.Reply(msg.channel, msg.id, reply(id));
      return Ok(());
    }

    /** commandOpenTournament. */
    method CommandOpenTournament(msg: IncomingMessage, args: seq<string>) returns (r: Result<(), Error>)
      modifies manager`made, discord`effects
      ensures manager.made != old(manager.made) ==>
                && !Missing(args, 0) && database.AuthenticateHost(args[0], msg.author).Ok?
                && manager.made == old(manager.made) + [OpenTournament(args[0])]
      ensures r.Ok? <==> && !Missing(args, 0) && database.AuthenticateHost(args[0], msg.author).Ok?
                         && manager.failure(OpenTournament(args[0])).None?
      ensures r.Ok? ==> discord.effects == old(discord.effects) + [Replied(msg.channel, msg.id, OpenedText(args[0]))]
    {
      r := HostCommand(msg, args, id => OpenTournament(id), OpenedText);
    }

    /** commandStartTournament. */
    method CommandStartTournament(msg: IncomingMessage, args: seq<string>) returns (r: Result<(), Error>)
      modifies manager`made, discord`effects
      ensures manager.made != old(manager.made) ==>
                && !Missing(args, 0) && database.AuthenticateHost(args[0], msg.author).Ok?
                && manager.made == old(manager.made) + [StartTournament(args[0])]
      ensures r.Ok? <==> && !Missing(args, 0) && database.AuthenticateHost(args[0], msg.author).Ok?
                         && manager.failure(StartTournament(args[0])).None?
      ensures r.Ok? ==> discord.effects == old(discord.effects) + [Replied(msg.channel, msg.id, CommencedText(args[0]))]
    {
      r := HostCommand(msg, args, id => StartTournament(id), CommencedText);
    }

    /** commandCancelTournament. */
    method CommandCancelTournament(msg: IncomingMessage, args: seq<string>) returns (r: Result<(), Error>)
      modifies manager`made, discord`effects
      ensures manager.made != old(manager.made) ==>
                && !Missing(args, 0) && database.AuthenticateHost(args[0], msg.author).Ok?
                && manager.made == old(manager.made) + [CancelTournament(args[0])]
      ensures r.Ok? <==> && !Missing(args, 0) && database.AuthenticateHost(args[0], msg.author).Ok?
                         && manager.failure(CancelTournament(args[0])).None?
      ensures r.Ok? ==> discord.effects == old(discord.effects) + [Replied(msg.channel, msg.id, CanceledText(args[0]))]
    {
      r := HostCommand(msg, args, id => CancelTournament(id), CanceledText);
    }

    /** commandSyncTournament. */
    method CommandSyncTournament(msg: IncomingMessage, args: seq<string>) returns (r: Result<(), Error>)
      modifies manager`made, discord`effects
      ensures manager.made != old(manager.made) ==>
                && !Missing(args, 0) && database.AuthenticateHost(args[0], msg.author).Ok?
                && manager.made == old(manager.made) + [SyncTournament(args[0])]
      ensures r.Ok? <==> && !Missing(args, 0) && database.AuthenticateHost(args[0], msg.author).Ok?
                         && manager.failure(SyncTournament(args[0])).None?
      ensures r.Ok? ==> discord.effects == old(discord.effects) + [Replied(msg.channel, msg.id, SyncedText(args[0]))]
    {
      r := HostCommand(msg, args, id => SyncTournament(id), SyncedText);
    }

    /** commandNextRound: the reply depends on the round number nextRound returns. */
    method CommandNextRound(msg: IncomingMessage, args: seq<string>) returns (r: Result<(), Error>)
      modifies manager`made, discord`effects
      ensures manager.made != old(manager.made) ==>
                && !Missing(args, 0) && database.AuthenticateHost(args[0], msg.author).Ok?
                && manager.made == old(manager.made) + [NextRound(args[0])]
      ensures r.Ok? <==> && !Missing(args, 0) && database.AuthenticateHost(args[0], msg.author).Ok?
                         && manager.failure(NextRound(args[0])).None?
      ensures r.Ok? ==>
                discord.effects == old(discord.effects) + [Replied(msg.channel, msg.id, NextRoundReply(args[0], manager.roundOf(args[0])))]
    {
      r := HostCommand(msg, args, id => NextRound(id), id => NextRoundReply(id, manager.roundOf(id)));
    }

    /**
     * commandSubmitScore: the id and the score must be given and the author
     * must play in the tournament before the score text is read; a score
     * without '-' is refused; otherwise the first two numbers are submitted as
     * the author's and the opponent's, and the manager's answer is the reply.
     */
    method CommandSubmitScore(msg: IncomingMessage, args: seq<string>) returns (r: Result<(), Error>)
      modifies manager`made, discord`effects
      ensures Missing(args, 0) ==> r == Err(UserError(MissingText(0))) && manager.made == old(manager.made)
      ensures !Missing(args, 0) && Missing(args, 1) ==> r == Err(UserError(MissingText(1))) && manager.made == old(manager.made)
      ensures !Missing(args, 0) && !Missing(args, 1) ==>
                var auth := AuthenticatePlayer(args[0], msg.author);
                && (manager.failure(auth).Some? ==> r == Err(manager.failure(auth).value) && manager.made == old(manager.made) + [auth])
                && (manager.failure(auth).None? && ParseScore(args[1]).Err? ==>
                      r == Err(UserError(ScoreFormatText)) && manager.made == old(manager.made) + [auth])
                && (manager.failure(auth).None? && ParseScore(args[1]).Ok? ==>
                      var (own, opp) := ParseScore(args[1]).value;
                      var q := SubmitScore(args[0], msg.author, own, opp);
                      && manager.made == old(manager.made) + [auth, q]
                      && (r.Ok? <==> manager.failure(q).None?)
                      && (r.Ok? ==> discord.effects == old(discord.effects) + [Replied(msg.channel, msg.id, manager.responseTo(q))]))
      ensures r.Err? ==> discord.effects == old(discord.effects)
    {
      var valid := ValidateArgs(args, 2);
      if valid.Err? {
        return Err(valid.error);
      }
      assert !Missing(args, 0) && !Missing(args, 1);
      var id, score := args[0], args[1];
      var denied := manager.Make(AuthenticatePlayer(id, msg.author));
      if denied.Some? {
        return Err(denied.value);
      }
      var nums := ParseScore(score);
      if nums.Err? {
        return Err(nums.error);
      }
      var q := SubmitScore(id, msg.author, nums.value.0, nums.value.1);
      var e := manager.Make(q);
      if e.Some? {
        return Err(e.value);
      }
      discord.Reply(msg.channel, msg.id, manager.responseTo(q));
      return Ok(());
    }

    /**
     * commandAddChannel and commandRemoveChannel: after the id check and host
     * authentication, the channel of the mention argument (or the message's
     * own) is added or removed with the normalised type, the channel is told,
     * and the author gets a reply naming the channel.
     */
    method ChannelCommand(msg: IncomingMessage, args: seq<string>, add: bool) returns (r: Result<(), Error>, channel: ChannelId)
      modifies manager`made, discord`effects, discord`nextId, discord`messages
      ensures channel == TargetChannel(Arg(args, 2), msg.channel)
      ensures Missing(args, 0) ==> r == Err(UserError(MissingText(0))) && manager.made == old(manager.made)
      ensures !Missing(args, 0) && database.AuthenticateHost(args[0], msg.author).Err? ==>
                r == Err(database.AuthenticateHost(args[0], msg.author).error) && manager.made == old(manager.made)
      ensures r.Err? ==> discord.effects == old(discord.effects) && discord.nextId == old(discord.nextId)
      ensures !Missing(args, 0) && database.AuthenticateHost(args[0], msg.author).Ok? ==>
                var id, private := args[0], ChannelPrivate(Arg(args, 1));
                var q := ChannelRequest(add, id, channel, private);
                var verb := if add then "added" else "removed";
                && manager.made == old(manager.made) + [q]
                && (r.Ok? <==> manager.failure(q).None?)
                && (r.Ok? ==>
                      && discord.nextId == old(discord.nextId) + 1
                      && discord.effects == old(discord.effects) + [
                           Sent(channel, "This channel" + ChannelNotice(verb, private, id), old(discord.nextId)),
                           Replied(msg.channel, msg.id, MentionChannel(channel) + ChannelNotice(verb, private, id))])
    {
      channel := TargetChannel(Arg(args, 2), msg.channel);
      var valid := ValidateArgs(args, 1);
      if valid.Err? {
        return Err(valid.error), channel;
      }
      assert !Missing(args, 0);
      var id := args[0];
      var host := database.AuthenticateHost(id, msg.author);
      if host.Err? {
        return Err(host.error), channel;
      }
      var private := ChannelPrivate(Arg(args, 1));
      var verb := if add then "added" else "removed";
      r := ChangeChannel(msg, ChannelRequest(add, id, channel, private), channel, ChannelNotice(verb, private, id));
    }

    /** The manager's change to the channel list, then the notice in that channel and the reply to the author. */
    method ChangeChannel(msg: IncomingMessage, q: Request, channel: ChannelId, notice: string) returns (r: Result<(), Error>)
      modifies manager`made, discord`effects, discord`nextId, discord`messages
      ensures manager.made == old(manager.made) + [q]
      ensures r.Ok? <==> manager.failure(q).None?
      ensures r.Err? ==> r.error == manager.failure(q).value && discord.effects == old(discord.effects) && discord.nextId == old(discord.nextId)
      ensures r.Ok? ==>
                && discord.nextId == old(discord.nextId) + 1
                && discord.effects == old(discord.effects) + [
                     Sent(channel, "This channel" + notice, old(discord.nextId)),
                     Replied(msg.channel, msg.id, MentionChannel(channel) + notice)]
    {
      var e := manager.Make(q);
      if e.Some? {
        return Err(e.value);
      }
      var _ := discord.SendMessage(channel, "This channel" + notice);
      discord.Reply(msg.channel, msg.id, MentionChannel(channel) + notice);
      return Ok(());
    }
  }
}
