/**
 * The Discord side of the bot as the core sees it: an append-only record of
 * what the bot did on Discord (messages sent, edited, deleted, replies, direct
 * messages, reactions removed, roles granted), the messages that still exist,
 * the users whose direct messages are closed, and the logger.
 */
module Messaging {

  type UserId = string
  type ChannelId = string
  /** Discord snowflakes are abstracted to naturals handed out in order. */
  type MessageId = nat

  /** One visible action of the bot on Discord. */
  datatype Effect =
    | Sent(channel: ChannelId, content: string, id: MessageId)
    | Edited(channel: ChannelId, id: MessageId, content: string)
    | DirectMessage(user: UserId, content: string)
    | Replied(channel: ChannelId, to: MessageId, content: string)
    | Deleted(channel: ChannelId, id: MessageId)
    | ReactionRemoved(channel: ChannelId, id: MessageId, emoji: string, user: UserId)
    | RoleGranted(user: UserId, role: string)
    | RoleDeleted(tournament: string)

  /** A reaction listener: which message and emoji it watches, and which callback it runs. */
  datatype ReactionHandler = ReactionHandler(msg: MessageId, emoji: string, response: string)

  class Discord {
    /** Everything the bot has done on Discord, oldest first. */
    var effects: seq<Effect>
    /** The id the next sent message receives. */
    var nextId: MessageId
    /** The messages that exist, with their channel. */
    var messages: map<MessageId, ChannelId>
    /** Users who do not accept direct messages from the bot. */
    const blockedDMs: set<UserId>
    var onReaction: seq<ReactionHandler>
    var onReactionRemove: seq<ReactionHandler>
    /** getUsername, a lookup in Discord's user cache. */
    const usernameOf: UserId -> string
    /** getPlayerRole, the participant role of a tournament. */
    const playerRoleOf: string -> string

    constructor (usernameOf: UserId -> string, playerRoleOf: string -> string, blockedDMs: set<UserId>)
      ensures effects == [] && nextId == 0 && messages == map[]
      ensures this.blockedDMs == blockedDMs
      ensures onReaction == [] && onReactionRemove == []
      ensures this.usernameOf == usernameOf && this.playerRoleOf == playerRoleOf
    {
      effects := [];
      nextId := 0;
      messages := map[];
      this.blockedDMs := blockedDMs;
      onReaction := [];
      onReactionRemove := [];
      this.usernameOf := usernameOf;
      this.playerRoleOf := playerRoleOf;
    }

    /** Whether getMessage(channel, id) finds the message. */
    predicate Exists(channel: ChannelId, id: MessageId)
      reads this
    {
      id in messages && messages[id] == channel
    }

    /** sendMessage: posts content and returns the new message's id. */
    method SendMessage(channel: ChannelId, content: string) returns (id: MessageId)
      modifies this`effects, this`nextId, this`messages
      ensures id == old(nextId) && nextId == id + 1
      ensures effects == old(effects) + [Sent(channel, content, id)]
      ensures messages == old(messages)[id := channel]
    {
      id := nextId;
      nextId := nextId + 1;
      effects := effects + [Sent(channel, content, id)];
      messages := messages[id := channel];
    }

    /** message.edit on a message getMessage found. */
    method EditMessage(channel: ChannelId, id: MessageId, content: string)
      requires Exists(channel, id)
      modifies this`effects
      ensures effects == old(effects) + [Edited(channel, id, content)]
    {
      effects := effects + [Edited(channel, id, content)];
    }

    /** sendDirectMessage: delivered unless the user blocks direct messages (BlockedDMsError). */
    method SendDirectMessage(user: UserId, content: string) returns (delivered: bool)
      modifies this`effects
      ensures delivered <==> user !in blockedDMs
      ensures effects == if delivered then old(effects) + [DirectMessage(user, content)] else old(effects)
    {
      delivered := user !in blockedDMs;
      if delivered {
        effects := effects + [DirectMessage(user, content)];
      }
    }

    /** msg.reply on an incoming message. */
    method Reply(channel: ChannelId, to: MessageId, content: string)
      modifies this`effects
      ensures effects == old(effects) + [Replied(channel, to, content)]
    {
      effects := effects + [Replied(channel, to, content)];
    }

    method DeleteMessage(channel: ChannelId, id: MessageId)
      modifies this`effects, this`messages
      ensures effects == old(effects) + [Deleted(channel, id)]
      ensures messages == old(messages) - {id}
    {
      effects := effects + [Deleted(channel, id)];
      messages := messages - {id};
    }

    method RemoveUserReaction(channel: ChannelId, id: MessageId, emoji: string, user: UserId)
      modifies this`effects
      ensures effects == old(effects) + [ReactionRemoved(channel, id, emoji, user)]
    {
      effects := effects + [ReactionRemoved(channel, id, emoji, user)];
    }

    method GrantPlayerRole(user: UserId, role: string)
      modifies this`effects
      ensures effects == old(effects) + [RoleGranted(user, role)]
    {
      effects := effects + [RoleGranted(user, role)];
    }

    method DeletePlayerRole(tournament: string)
      modifies this`effects
      ensures effects == old(effects) + [RoleDeleted(tournament)]
    {
      effects := effects + [RoleDeleted(tournament)];
    }

    /** The api's onReaction and onReactionRemove registrations. */
    method AddReactionHandlers(add: ReactionHandler, remove: ReactionHandler)
      modifies this`onReaction, this`onReactionRemove
      ensures onReaction == old(onReaction) + [add]
      ensures onReactionRemove == old(onReactionRemove) + [remove]
    {
      onReaction := onReaction + [add];
      onReactionRemove := onReactionRemove + [remove];
    }
  }

  datatype Level = Warn | Error | Info

  /** The logger: an append-only list of entries. */
  class Logger {
    var entries: seq<(Level, string)>

    constructor ()
      ensures entries == []
    {
      entries := [];
    }

    method Log(level: Level, text: string)
      modifies this`entries
      ensures entries == old(entries) + [(level, text)]
    {
      entries := entries + [(level, text)];
    }
  }
}
