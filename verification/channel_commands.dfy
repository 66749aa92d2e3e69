/**
 * The addchannel and removechannel commands of the newer command framework:
 * the sender must host the tournament, the channel is always the one the
 * command was sent in, and the type is private only for an argument that
 * reads "private" once lowercased. A concluded tournament keeps its channels.
 * The framework guarantees the required id argument before an executor runs;
 * the reply is a message posted to the command's channel.
 */
module ChannelCommands {
  import opened Wrappers
  import opened Js
  import opened Errors
  import opened Messaging
  import opened Persistence
  import opened Interface
  import opened Commands

  /** The executors' channel type: the optional argument lowercased, without trimming. */
  function ExecutorPrivate(baseType: Option<string>): (private: bool)
    ensures private ==> baseType.Some? && |baseType.value| == 7
  {
    baseType.Some? && ToLower(baseType.value) == "private"
  }

  /** Every spelling of "private" the executors accept, the command handler accepts too. */
  lemma ExecutorTypeIsStricter(baseType: Option<string>)
    ensures ExecutorPrivate(baseType) ==> ChannelPrivate(baseType)
  {
    if ExecutorPrivate(baseType) {
      TrimNoWhitespace("private");
    }
  }

  /** A leading space makes the executors choose public where the command handler, which trims, chooses private. */
  lemma SpacedPrivate()
    ensures ChannelPrivate(Some(" private")) && !ExecutorPrivate(Some(" private"))
  {
    assert ToLower("private") == "private";
    assert " private" == " " + "private" + "";
    ChannelPrivateIgnoresCaseAndSpace(" ", "private", "");
  }

  /** The executors' confirmation, posted in the command's own channel. */
  function ExecutorReply(verb: string, private: bool, id: string): string {
    "This channel" + ChannelNotice(verb, private, id)
  }

  /** The reply removechannel gives for a tournament that has finished. */
  function ConcludedText(name: string): string {
    "**" + name + "** has already concluded!"
  }

  /**
   * addchannel: authentication first; then the command's channel joins the
   * tournament's public or private announcement channels and the sender is
   * told so.
   */
  method AddChannel(msg: IncomingMessage, args: seq<string>, database: Database, discord: Discord) returns (r: Result<(), Error>)
    requires |args| >= 1
    modifies database`tournaments, discord`effects, discord`nextId, discord`messages
    ensures var host := old(database.AuthenticateHost(args[0], msg.author));
            && (host.Err? ==>
                  && r == Err(host.error)
                  && database.tournaments == old(database.tournaments)
                  && discord.effects == old(discord.effects) && discord.nextId == old(discord.nextId))
            && (host.Ok? ==>
                  var private := ExecutorPrivate(Arg(args, 1));
                  && r == Ok(())
                  && ChangedOnly(old(database.tournaments), database.tournaments, args[0],
                                 Some(Persistence.AddChannel(host.value, msg.channel, private)))
                  && discord.effects == old(discord.effects) + [Sent(msg.channel, ExecutorReply("added", private, args[0]), old(discord.nextId))])
  {
    var id, baseType := args[0], Arg(args, 1);
    var host := database.AuthenticateHost(id, msg.author);
    if host.Err? {
      return Err(host.error);
    }
    var private := ExecutorPrivate(baseType);
    var channel := msg.channel;
    database.AddAnnouncementChannel(id, channel, private);
    var _ := discord.SendMessage(msg.channel, ExecutorReply("added", private, id));
    return Ok(());
  }

  /**
   * removechannel: authentication first; a concluded tournament only gets
   * the "already concluded" reply; otherwise the command's channel leaves the
   * tournament's announcement channels of that type and the sender is told.
   */
  method RemoveChannel(msg: IncomingMessage, args: seq<string>, database: Database, discord: Discord) returns (r: Result<(), Error>)
    requires |args| >= 1
    modifies database`tournaments, discord`effects, discord`nextId, discord`messages
    ensures var host := old(database.AuthenticateHost(args[0], msg.author));
            && (host.Err? ==>
                  && r == Err(host.error)
                  && database.tournaments == old(database.tournaments)
                  && discord.effects == old(discord.effects) && discord.nextId == old(discord.nextId))
            && (host.Ok? && host.value.status == Complete ==>
                  && r == Ok(())
                  && database.tournaments == old(database.tournaments)
                  && discord.effects == old(discord.effects) + [Sent(msg.channel, ConcludedText(host.value.name), old(discord.nextId))])
            && (host.Ok? && host.value.status != Complete ==>
                  var private := ExecutorPrivate(Arg(args, 1));
                  && r == Ok(())
                  && ChangedOnly(old(database.tournaments), database.tournaments, args[0],
                                 Some(Persistence.RemoveChannel(host.value, msg.channel, private)))
                  && discord.effects == old(discord.effects) + [Sent(msg.channel, ExecutorReply("removed", private, args[0]), old(discord.nextId))])
  {
    var id, baseType := args[0], Arg(args, 1);
    var host := database.AuthenticateHost(id, msg.author);
    if host.Err? {
      return Err(host.error);
    }
    var tournament := host.value;
    var private := ExecutorPrivate(baseType);
    var channel := msg.channel;
    if tournament.status == Complete {
      var _ := discord.SendMessage(msg.channel, ConcludedText(tournament.name));
      return Ok(());
    }
    database.RemoveAnnouncementChannel(id, channel, private);
    var _ := discord.SendMessage(msg.channel, ExecutorReply("removed", private, id));
    return Ok(());
  }
}
