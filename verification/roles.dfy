/**
 * The organiser role: the server role whose holders may list and create
 * tournaments. Both the OrganiserRoleProvider and the bot's older module-level
 * helpers find it the same way, memoising the role id per server: a cached id
 * first, then an existing role with the configured name, and only then a newly
 * created role.
 */
module Roles {
  import opened Wrappers
  import opened Js
  import opened Errors
  import opened Messaging

  datatype Role = Role(id: string, name: string)

  /** A server as Discord's cache shows it: its roles and the role ids each member holds. */
  datatype Guild = Guild(id: string, name: string, roles: seq<Role>, members: map<UserId, seq<string>>)

  /** The channel a message arrived in: a server's text channel, or a direct-message channel. */
  datatype Channel =
    | GuildChannel(id: ChannelId, guild: Guild)
    | PrivateChannel(id: ChannelId)

  datatype RoleMessage = RoleMessage(author: UserId, channel: Channel)

  /** roles.find(role => role.name === name): the first role with that name. */
  function FindRole(roles: seq<Role>, name: string): (r: Option<Role>)
    ensures r.None? <==> forall x :: x in roles ==> x.name != name
    ensures r.Some? ==> exists i :: 0 <= i < |roles| && roles[i] == r.value && r.value.name == name
                                    && forall j :: 0 <= j < i ==> roles[j].name != name
  {
    if roles == [] then None
    else if roles[0].name == name then
      assert roles[0] == roles[0];
      Some(roles[0])
    else
      var r := FindRole(roles[1..], name);
      assert forall x :: x in roles ==> x == roles[0] || x in roles[1..];
      if r.Some? then
        var i :| 0 <= i < |roles[1..]| && roles[1..][i] == r.value && r.value.name == name
                 && forall j :: 0 <= j < i ==> roles[1..][j].name != name;
        assert roles[i + 1] == r.value;
        r
      else r
  }

  /** One createRole call: the server, the new role's name and colour, and the audit-log reason. */
  datatype RoleRequest = RoleRequest(server: string, name: string, color: Option<int>, reason: string)

  const MissingPermissions := InternalError("Missing Permissions")

  /** The id Discord gives the n-th role the bot creates. */
  function NewRoleId(n: nat): string {
    "role" + NatToString(n)
  }

  /** Discord's role creation: every role the bot created, and the servers where it may not create one. */
  class RoleApi {
    var created: seq<RoleRequest>
    var nextRole: nat
    const refused: set<string>

    constructor (refused: set<string>)
      ensures created == [] && nextRole == 0 && this.refused == refused
    {
      created := [];
      nextRole := 0;
      this.refused := refused;
    }

    /** guild.createRole: a fresh role, or an error where the bot lacks the permission. */
    method CreateRole(q: RoleRequest) returns (r: Result<Role, Error>)
      modifies this`created, this`nextRole
      ensures q.server in refused ==> r == Err(MissingPermissions) && created == old(created) && nextRole == old(nextRole)
      ensures q.server !in refused ==>
                && r == Ok(Role(NewRoleId(old(nextRole)), q.name))
                && created == old(created) + [q] && nextRole == old(nextRole) + 1
    {
      if q.server in refused {
        return Err(MissingPermissions);
      }
      r := Ok(Role(NewRoleId(nextRole), q.name));
      created := created + [q];
      nextRole := nextRole + 1;
    }
  }

  // ---------------------------------------------------------------------------
  // OrganiserRoleProvider
  // ---------------------------------------------------------------------------

  const ProviderReason := "Auto-created by Emcee."

  class OrganiserRoleProvider {
    /** The organiser role's id in each server where it has been found or created. */
    var roleCache: map<string, string>
    const name: string
    const color: Option<int>
    const api: RoleApi

    constructor (name: string, color: Option<int>, api: RoleApi)
      ensures roleCache == map[] && this.name == name && this.color == color && this.api == api
    {
      roleCache := map[];
      this.name := name;
      this.color := color;
      this.api := api;
    }

    /** create: a new role with the configured name and colour, whose id is then cached for the server. */
    method Create(server: Guild) returns (r: Result<string, Error>)
      modifies this`roleCache, api`created, api`nextRole
      ensures server.id in api.refused ==>
                r == Err(MissingPermissions) && roleCache == old(roleCache) && api.created == old(api.created)
      ensures server.id !in api.refused ==>
                && r == Ok(NewRoleId(old(api.nextRole)))
                && roleCache == old(roleCache)[server.id := r.value]
                && api.created == old(api.created) + [RoleRequest(server.id, name, color, ProviderReason)]
    {
      var role := api.CreateRole(RoleRequest(server.id, name, color, ProviderReason));
      if role.Err? {
        return Err(role.error);
      }
      roleCache := roleCache[server.id := role.value.id];
      return Ok(role.value.id);
    }

    /**
     * get: the cached id when there is one, without looking further; otherwise
     * the id of the first role with the configured name, now cached; otherwise
     * the id of a newly created role. A cached id is never replaced, and a
     * successful get leaves its answer cached.
     */
    method Get(server: Guild) returns (r: Result<string, Error>)
      modifies this`roleCache, api`created, api`nextRole
      ensures server.id in old(roleCache) ==>
                r == Ok(old(roleCache)[server.id]) && roleCache == old(roleCache) && api.created == old(api.created)
      ensures server.id !in old(roleCache) && FindRole(server.roles, name).Some? ==>
                && r == Ok(FindRole(server.roles, name).value.id)
                && roleCache == old(roleCache)[server.id := r.value] && api.created == old(api.created)
      ensures server.id !in old(roleCache) && FindRole(server.roles, name).None? ==>
                && (server.id in api.refused ==> r == Err(MissingPermissions) && roleCache == old(roleCache))
                && (server.id !in api.refused ==>
                      && r == Ok(NewRoleId(old(api.nextRole))) && roleCache == old(roleCache)[server.id := r.value]
                      && api.created == old(api.created) + [RoleRequest(server.id, name, color, ProviderReason)])
      ensures r.Ok? ==> server.id in roleCache && roleCache[server.id] == r.value
      ensures forall s :: s in old(roleCache) ==> s in roleCache && roleCache[s] == old(roleCache)[s]
    {
      if server.id in roleCache {
        return Ok(roleCache[server.id]);
      }
      var existing := FindRole(server.roles, name);
      if existing.Some? {
        roleCache := roleCache[server.id := existing.value.id];
        return Ok(existing.value.id);
      }
      r := Create(server);
    }

    /**
     * authorise: the author must be a known member of the server the message
     * was sent in and hold its organiser role; a direct message or an unknown
     * member is refused before the role is looked up.
     */
    method Authorise(msg: RoleMessage) returns (r: Result<(), Error>)
      modifies this`roleCache, api`created, api`nextRole
      ensures msg.channel.PrivateChannel? ==> r == Err(UnauthorisedTO(msg.author)) && roleCache == old(roleCache)
      ensures msg.channel.GuildChannel? && msg.author !in msg.channel.guild.members ==>
                r == Err(UnauthorisedTO(msg.author)) && roleCache == old(roleCache)
      ensures r.Ok? ==>
                && msg.channel.GuildChannel? && msg.author in msg.channel.guild.members
                && msg.channel.guild.id in roleCache
                && roleCache[msg.channel.guild.id] in msg.channel.guild.members[msg.author]
      ensures msg.channel.GuildChannel? && msg.channel.guild.id in old(roleCache) && msg.author in msg.channel.guild.members ==>
                (r.Ok? <==> old(roleCache)[msg.channel.guild.id] in msg.channel.guild.members[msg.author])
      ensures r.Err? ==> r.error == UnauthorisedTO(msg.author) || r.error == MissingPermissions
    {
      if msg.channel.PrivateChannel? {
        return Err(UnauthorisedTO(msg.author));
      }
      var server := msg.channel.guild;
      if msg.author !in server.members {
        return Err(UnauthorisedTO(msg.author));
      }
      var member := server.members[msg.author];
      var role := Get(server);
      if role.Err? {
        return Err(role.error);
      }
      if role.value !in member {
        return Err(UnauthorisedTO(msg.author));
      }
      return Ok(());
    }
  }

  // ---------------------------------------------------------------------------
  // The bot's module-level organiser-role helpers
  // ---------------------------------------------------------------------------

  /** The colour the bot gives the organiser role it creates. */
  const BotRoleColor := 0x3498db
  const BotReason := "Auto-created by Emcee bot."

  function InvalidGuildText(guildId: string): string {
    "Invalid guild " + guildId + "!"
  }

  /** The `toRoles` record of the bot's module, with the guild cache and the configured role name it reads. */
  class BotRoles {
    var toRoles: map<string, string>
    /** bot.guilds: the servers the bot is in. */
    const guilds: map<string, Guild>
    const roleName: string
    const api: RoleApi
    const log: Logger

    constructor (guilds: map<string, Guild>, roleName: string, api: RoleApi, log: Logger)
      ensures toRoles == map[] && this.guilds == guilds && this.roleName == roleName && this.api == api && this.log == log
    {
      toRoles := map[];
      this.guilds := guilds;
      this.roleName := roleName;
      this.api := api;
      this.log := log;
    }

    /** createTORole: a new role with the configured name and the bot's colour, cached for the server. */
    method CreateTORole(guild: Guild) returns (r: Result<Role, Error>)
      modifies this`toRoles, api`created, api`nextRole
      ensures guild.id in api.refused ==> r == Err(MissingPermissions) && toRoles == old(toRoles) && api.created == old(api.created)
      ensures guild.id !in api.refused ==>
                && r == Ok(Role(NewRoleId(old(api.nextRole)), roleName))
                && toRoles == old(toRoles)[guild.id := r.value.id]
                && api.created == old(api.created) + [RoleRequest(guild.id, roleName, Some(BotRoleColor), BotReason)]
    {
      r := api.CreateRole(RoleRequest(guild.id, roleName, Some(BotRoleColor), BotReason));
      if r.Ok? {
        toRoles := toRoles[guild.id := r.value.id];
      }
    }

    /**
     * getTORole: an unknown server is an internal error; otherwise the cached
     * id, else an existing role with the configured name (now cached), else a
     * newly created role.
     */
    method GetTORole(guildId: string) returns (r: Result<string, Error>)
      modifies this`toRoles, api`created, api`nextRole
      ensures guildId !in guilds ==>
                r == Err(MiscInternalError(InvalidGuildText(guildId))) && toRoles == old(toRoles) && api.created == old(api.created)
      ensures guildId in guilds ==>
                var guild := guilds[guildId];
                && (guild.id in old(toRoles) ==>
                      r == Ok(old(toRoles)[guild.id]) && toRoles == old(toRoles) && api.created == old(api.created))
                && (guild.id !in old(toRoles) && FindRole(guild.roles, roleName).Some? ==>
                      && r == Ok(FindRole(guild.roles, roleName).value.id)
                      && toRoles == old(toRoles)[guild.id := r.value] && api.created == old(api.created))
                && (guild.id !in old(toRoles) && FindRole(guild.roles, roleName).None? ==>
                      && (guild.id in api.refused ==> r == Err(MissingPermissions) && toRoles == old(toRoles))
                      && (guild.id !in api.refused ==>
                            && r == Ok(NewRoleId(old(api.nextRole))) && toRoles == old(toRoles)[guild.id := r.value]
                            && api.created == old(api.created) + [RoleRequest(guild.id, roleName, Some(BotRoleColor), BotReason)]))
                && (r.Ok? ==> guild.id in toRoles && toRoles[guild.id] == r.value)
      ensures forall s :: s in old(toRoles) ==> s in toRoles && toRoles[s] == old(toRoles)[s]
    {
      if guildId !in guilds {
        return Err(MiscInternalError(InvalidGuildText(guildId)));
      }
      var guild := guilds[guildId];
      if guild.id in toRoles {
        return Ok(toRoles[guild.id]);
      }
      var role := FindRole(guild.roles, roleName);
      if role.Some? {
        toRoles := toRoles[guild.id := role.value.id];
        return Ok(role.value.id);
      }
      var newRole := CreateTORole(guild);
      if newRole.Err? {
        return Err(newRole.error);
      }
      return Ok(newRole.value.id);
    }

    /** getTORoleFromMessage: only a message in a server's text channel has an organiser role. */
    method GetTORoleFromMessage(channel: Channel) returns (r: Result<string, Error>)
      modifies this`toRoles, api`created, api`nextRole
      ensures channel.PrivateChannel? ==>
                r == Err(AssertTextChannel(channel.id)) && toRoles == old(toRoles) && api.created == old(api.created)
      ensures channel.GuildChannel? && channel.guild.id !in guilds ==>
                r == Err(MiscInternalError(InvalidGuildText(channel.guild.id))) && toRoles == old(toRoles)
      ensures channel.GuildChannel? && channel.guild.id in guilds && guilds[channel.guild.id].id in old(toRoles) ==>
                r == Ok(old(toRoles)[guilds[channel.guild.id].id]) && toRoles == old(toRoles)
    {
      if channel.PrivateChannel? {
        return Err(AssertTextChannel(channel.id));
      }
      r := GetTORole(channel.guild.id);
    }

    /** On joining a server the bot creates its organiser role; a failure is only logged. */
    method OnGuildCreate(guild: Guild)
      modifies this`toRoles, api`created, api`nextRole, log`entries
      ensures guild.id in api.refused ==>
                && toRoles == old(toRoles)
                && log.entries == old(log.entries) + [(Level.Error, MissingPermissions.Message())]
      ensures guild.id !in api.refused ==>
                && toRoles == old(toRoles)[guild.id := NewRoleId(old(api.nextRole))]
                && log.entries == old(log.entries)
    {
      var r := CreateTORole(guild);
      if r.Err? {
        log.Log(Level.Error, r.error.Message());
      }
    }
  }
}
