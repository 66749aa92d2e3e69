/**
 * The database as the tournament manager uses it: tournament records with
 * their status, hosts, announcement channels, confirmed and pending players
 * and byes, and the registration messages that map a reaction back to its
 * tournament. The database code itself is not part of this model; each
 * operation here does what the manager's calls rely on.
 */
module Persistence {
  import opened Wrappers
  import opened Errors
  import opened Messaging

  datatype Status = Preparing | InProgress | Complete

  datatype Player = Player(discordId: UserId, challongeId: int, deck: string)

  datatype DbTournament = DbTournament(
    id: string,
    name: string,
    description: string,
    status: Status,
    server: string,
    hosts: seq<UserId>,
    publicChannels: seq<ChannelId>,
    privateChannels: seq<ChannelId>,
    players: seq<Player>,
    pending: seq<UserId>,
    byes: seq<UserId>)
  {
    /** tournament.findPlayer: the first confirmed player with that Discord id. */
    function FindPlayer(user: UserId): (r: Option<Player>)
      ensures r.Some? ==> r.value in players && r.value.discordId == user
      ensures r.None? ==> forall p :: p in players ==> p.discordId != user
    {
      FirstPlayer(players, user)
    }
  }

  function FirstPlayer(ps: seq<Player>, user: UserId): (r: Option<Player>)
    ensures r.Some? ==> r.value in ps && r.value.discordId == user
    ensures r.None? ==> forall p :: p in ps ==> p.discordId != user
  {
    if ps == [] then None
    else if ps[0].discordId == user then Some(ps[0])
    else FirstPlayer(ps[1..], user)
  }

  /** A message whose reactions register players for a tournament. */
  datatype RegisterMessage = RegisterMessage(channelId: ChannelId, messageId: MessageId, tournamentId: string)

  /** The position of the first record with the given id. */
  function IndexOf(ts: seq<DbTournament>, id: string): (r: Option<nat>)
    ensures r.Some? ==> r.value < |ts| && ts[r.value].id == id
    ensures r.Some? ==> forall j :: 0 <= j < r.value ==> ts[j].id != id
    ensures r.None? ==> forall j :: 0 <= j < |ts| ==> ts[j].id != id
  {
    if ts == [] then None
    else if ts[0].id == id then Some(0)
    else match IndexOf(ts[1..], id)
      case None => None
      case Some(i) => Some(i + 1)
  }

  /** The records in which the user is pending, in stored order. */
  function PendingFor(ts: seq<DbTournament>, user: UserId): (r: seq<DbTournament>)
    ensures forall t :: t in r <==> t in ts && user in t.pending
    ensures |r| <= |ts|
  {
    if ts == [] then []
    else (if user in ts[0].pending then [ts[0]] else []) + PendingFor(ts[1..], user)
  }

  /** The preparing records in which the user is a confirmed player, in stored order. */
  function ConfirmedFor(ts: seq<DbTournament>, user: UserId): (r: seq<DbTournament>)
    ensures forall t :: t in r <==> t in ts && t.status == Preparing && t.FindPlayer(user).Some?
  {
    if ts == [] then []
    else (if ts[0].status == Preparing && ts[0].FindPlayer(user).Some? then [ts[0]] else [])
         + ConfirmedFor(ts[1..], user)
  }

  /** The user removed from a list of ids. */
  function Without(us: seq<UserId>, user: UserId): (r: seq<UserId>)
    ensures forall u :: u in r <==> u in us && u != user
  {
    if us == [] then []
    else (if us[0] == user then [] else [us[0]]) + Without(us[1..], user)
  }

  /** The players with this user's record replaced, or the record appended when absent. */
  function Upsert(ps: seq<Player>, p: Player): (r: seq<Player>)
  {
    if ps == [] then [p]
    else if ps[0].discordId == p.discordId then [p] + ps[1..]
    else [ps[0]] + Upsert(ps[1..], p)
  }

  /**
   * After an upsert, looking the user up finds the new record, and looking up
   * anyone else finds what it found before.
   */
  lemma {:induction false} UpsertFind(ps: seq<Player>, p: Player, user: UserId)
    ensures FirstPlayer(Upsert(ps, p), user) == if user == p.discordId then Some(p) else FirstPlayer(ps, user)
  {
    if ps != [] && ps[0].discordId != p.discordId {
      UpsertFind(ps[1..], p, user);
      assert Upsert(ps, p)[1..] == Upsert(ps[1..], p);
    }
  }

  /** The first record with the given id, if any. */
  function Lookup(ts: seq<DbTournament>, id: string): (r: Option<DbTournament>)
    ensures r.Some? ==> r.value in ts && r.value.id == id
    ensures r.None? <==> forall t :: t in ts ==> t.id != id
  {
    match IndexOf(ts, id)
    case None => None
    case Some(i) => Some(ts[i])
  }

  /** The records after a change to the one with id `id`: it is now `rec`, and every other lookup is as before. */
  ghost predicate ChangedOnly(before: seq<DbTournament>, after: seq<DbTournament>, id: string, rec: Option<DbTournament>) {
    && Lookup(after, id) == rec
    && forall x :: x != id ==> Lookup(after, x) == Lookup(before, x)
  }

  /** Two changes to the same record make one change to it. */
  lemma ChangedOnlyThen(a: seq<DbTournament>, b: seq<DbTournament>, c: seq<DbTournament>, id: string,
                        r1: Option<DbTournament>, r2: Option<DbTournament>)
    requires ChangedOnly(a, b, id, r1) && ChangedOnly(b, c, id, r2)
    ensures ChangedOnly(a, c, id, r2)
  {
  }

  /** IndexOf finds the first position holding the id. */
  lemma IndexOfFirst(ts: seq<DbTournament>, id: string, j: nat)
    requires j < |ts| && ts[j].id == id
    requires forall k :: 0 <= k < j ==> ts[k].id != id
    ensures IndexOf(ts, id) == Some(j)
  {
  }

  /** Replacing the first record with an id by another record with that id changes no other lookup. */
  lemma LookupAfterReplace(ts: seq<DbTournament>, i: nat, y: DbTournament)
    requires IndexOf(ts, y.id) == Some(i)
    ensures ChangedOnly(ts, ts[i := y], y.id, Some(y))
  {
    var after := ts[i := y];
    IndexOfFirst(after, y.id, i);
    forall x | x != y.id
      ensures Lookup(after, x) == Lookup(ts, x)
    {
      match IndexOf(ts, x)
      case None =>
        assert forall k :: 0 <= k < |after| ==> after[k].id != x;
      case Some(j) =>
        IndexOfFirst(after, x, j);
    }
  }

  /** Appending a record with a new id changes no other lookup. */
  lemma LookupAfterAppend(ts: seq<DbTournament>, y: DbTournament)
    requires Lookup(ts, y.id).None?
    ensures ChangedOnly(ts, ts + [y], y.id, Some(y))
  {
    var after := ts + [y];
    IndexOfFirst(after, y.id, |ts|);
    forall x | x != y.id
      ensures Lookup(after, x) == Lookup(ts, x)
    {
      match IndexOf(ts, x)
      case None =>
        assert forall k :: 0 <= k < |after| ==> after[k].id != x;
      case Some(j) =>
        IndexOfFirst(after, x, j);
    }
  }

  class Database {
    var tournaments: seq<DbTournament>
    var registerMessages: seq<RegisterMessage>

    constructor (tournaments: seq<DbTournament>, registerMessages: seq<RegisterMessage>)
      ensures this.tournaments == tournaments && this.registerMessages == registerMessages
    {
      this.tournaments := tournaments;
      this.registerMessages := registerMessages;
    }

    /**
     * getTournament(id, status?): the record, or TournamentNotFound when there is
     * none or it is not in the required status.
     */
    function GetTournament(id: string, status: Option<Status>): (r: Result<DbTournament, Error>)
      reads this`tournaments
      ensures r.Ok? <==> Lookup(tournaments, id).Some? && (status.None? || Lookup(tournaments, id).value.status == status.value)
      ensures r.Ok? ==> r.value == Lookup(tournaments, id).value
      ensures r.Err? ==> r.error == TournamentNotFound(id)
    {
      match Lookup(tournaments, id)
      case None => Err(TournamentNotFound(id))
      case Some(t) =>
        if status.None? || t.status == status.value then Ok(t)
        else Err(TournamentNotFound(id))
    }

    /**
     * authenticateHost: the tournament, when the user is one of its hosts;
     * otherwise TournamentNotFound or UnauthorisedHost.
     */
    function AuthenticateHost(id: string, user: UserId): (r: Result<DbTournament, Error>)
      reads this`tournaments
    {
      match Lookup(tournaments, id)
      case None => Err(TournamentNotFound(id))
      case Some(t) => if user in t.hosts then Ok(t) else Err(UnauthorisedHost(user, id))
    }

    /** Whether some record has this id. */
    predicate Has(id: string)
      reads this`tournaments
    {
      Lookup(tournaments, id).Some?
    }

    function PendingTournaments(user: UserId): seq<DbTournament>
      reads this`tournaments
    {
      PendingFor(tournaments, user)
    }

    function ConfirmedTournaments(user: UserId): seq<DbTournament>
      reads this`tournaments
    {
      ConfirmedFor(tournaments, user)
    }

    /** The registration messages of one tournament, in stored order. */
    function RegisterMessagesOf(id: string): (r: seq<RegisterMessage>)
      reads this`registerMessages
      ensures forall m :: m in r <==> m in registerMessages && m.tournamentId == id
    {
      MessagesOf(registerMessages, id)
    }

    /** Replaces the first record with y's id by y; no other lookup changes. */
    method Replace(y: DbTournament)
      requires Has(y.id)
      modifies this`tournaments
      ensures ChangedOnly(old(tournaments), tournaments, y.id, Some(y))
      ensures |tournaments| == |old(tournaments)|
    {
      var i := IndexOf(tournaments, y.id).value;
      LookupAfterReplace(tournaments, i, y);
      tournaments := tournaments[i := y];
    }

    /** createTournament: a new preparing record whose only host is its creator. */
    method CreateTournament(host: UserId, server: string, id: string, name: string, description: string)
      requires !Has(id)
      modifies this`tournaments
      ensures ChangedOnly(old(tournaments), tournaments, id, Some(NewTournament(host, server, id, name, description)))
    {
      var t := NewTournament(host, server, id, name, description);
      LookupAfterAppend(tournaments, t);
      tournaments := tournaments + [t];
    }

    method AddHost(id: string, host: UserId)
      modifies this`tournaments
      ensures var before := old(Lookup(tournaments, id));
              ChangedOnly(old(tournaments), tournaments, id, if before.Some? then Some(before.value.(hosts := before.value.hosts + [host])) else None)
    {
      var t := Lookup(tournaments, id);
      if t.Some? {
        Replace(t.value.(hosts := t.value.hosts + [host]));
      }
    }

    method AddAnnouncementChannel(id: string, channel: ChannelId, private: bool)
      modifies this`tournaments
      ensures var before := old(Lookup(tournaments, id));
              ChangedOnly(old(tournaments), tournaments, id, if before.Some? then Some(AddChannel(before.value, channel, private)) else None)
    {
      var t := Lookup(tournaments, id);
      if t.Some? {
        Replace(AddChannel(t.value, channel, private));
      }
    }

    method RemoveAnnouncementChannel(id: string, channel: ChannelId, private: bool)
      modifies this`tournaments
      ensures var before := old(Lookup(tournaments, id));
              ChangedOnly(old(tournaments), tournaments, id, if before.Some? then Some(RemoveChannel(before.value, channel, private)) else None)
    {
      var t := Lookup(tournaments, id);
      if t.Some? {
        Replace(RemoveChannel(t.value, channel, private));
      }
    }

    /** openRegistration: records the message whose reactions register players. */
    method OpenRegistration(id: string, channel: ChannelId, message: MessageId)
      modifies this`registerMessages
      ensures registerMessages == old(registerMessages) + [RegisterMessage(channel, message, id)]
    {
      registerMessages := registerMessages + [RegisterMessage(channel, message, id)];
    }

    /**
     * What addPendingPlayer makes of a reaction: the tournament of the
     * registration message with the user added as pending, when it is still
     * preparing and the user is neither pending nor confirmed in it.
     */
    function PendingTarget(channel: ChannelId, message: MessageId, user: UserId): (r: Option<DbTournament>)
      reads this`tournaments, this`registerMessages
      ensures r.Some? ==> r.value.status == Preparing && user in r.value.pending && Has(r.value.id)
    {
      var m := FindMessage(registerMessages, channel, message);
      if m.None? then None
      else
        var t := GetTournament(m.value.tournamentId, Some(Preparing));
        if t.Err? || user in t.value.pending || t.value.FindPlayer(user).Some? then None
        else Some(t.value.(pending := t.value.pending + [user]))
    }

    /** addPendingPlayer: stores that record, or does nothing. */
    method AddPendingPlayer(channel: ChannelId, message: MessageId, user: UserId) returns (r: Option<DbTournament>)
      modifies this`tournaments
      ensures r == old(PendingTarget(channel, message, user))
      ensures r.Some? ==> ChangedOnly(old(tournaments), tournaments, r.value.id, r)
      ensures r.None? ==> tournaments == old(tournaments)
    {
      r := PendingTarget(channel, message, user);
      if r.Some? {
        Replace(r.value);
      }
    }

    /** confirmPlayer: the user leaves pending and is stored, or updated, as a confirmed player. */
    method ConfirmPlayer(id: string, user: UserId, challongeId: int, deck: string)
      modifies this`tournaments
      ensures var before := old(Lookup(tournaments, id));
              ChangedOnly(old(tournaments), tournaments, id, if before.Some? then Some(Confirm(before.value, Player(user, challongeId, deck))) else None)
    {
      var t := Lookup(tournaments, id);
      if t.Some? {
        Replace(Confirm(t.value, Player(user, challongeId, deck)));
      }
    }

    /** startTournament: the tournament is in progress and its pending players, returned, are dropped. */
    method StartTournament(id: string) returns (dropped: seq<UserId>)
      modifies this`tournaments
      ensures var before := old(Lookup(tournaments, id));
              && ChangedOnly(old(tournaments), tournaments, id, if before.Some? then Some(before.value.(status := InProgress, pending := [])) else None)
              && dropped == if before.Some? then before.value.pending else []
    {
      var t := Lookup(tournaments, id);
      dropped := [];
      if t.Some? {
        dropped := t.value.pending;
        Replace(t.value.(status := InProgress, pending := []));
      }
    }

    /** finishTournament: the tournament is complete. */
    method FinishTournament(id: string)
      modifies this`tournaments
      ensures var before := old(Lookup(tournaments, id));
              ChangedOnly(old(tournaments), tournaments, id, if before.Some? then Some(before.value.(status := Complete)) else None)
    {
      var t := Lookup(tournaments, id);
      if t.Some? {
        Replace(t.value.(status := Complete));
      }
    }
  }

  function NewTournament(host: UserId, server: string, id: string, name: string, description: string): DbTournament {
    DbTournament(id, name, description, Preparing, server, [host], [], [], [], [], [])
  }

  function AddChannel(t: DbTournament, channel: ChannelId, private: bool): DbTournament {
    if private then t.(privateChannels := t.privateChannels + [channel])
    else t.(publicChannels := t.publicChannels + [channel])
  }

  /** The record after adding each channel of cs in turn, all public or all private. */
  function WithChannels(t: DbTournament, cs: seq<ChannelId>, private: bool): DbTournament {
    if private then t.(privateChannels := t.privateChannels + cs)
    else t.(publicChannels := t.publicChannels + cs)
  }

  function RemoveChannel(t: DbTournament, channel: ChannelId, private: bool): DbTournament {
    if private then t.(privateChannels := Without(t.privateChannels, channel))
    else t.(publicChannels := Without(t.publicChannels, channel))
  }

  function Confirm(t: DbTournament, p: Player): DbTournament {
    t.(pending := Without(t.pending, p.discordId), players := Upsert(t.players, p))
  }

  /** After confirming p, looking up p's user finds p, anyone else is found as before, and p's user is no longer pending. */
  lemma ConfirmFind(t: DbTournament, p: Player, user: UserId)
    ensures Confirm(t, p).FindPlayer(user) == if user == p.discordId then Some(p) else t.FindPlayer(user)
    ensures user in Confirm(t, p).pending <==> user in t.pending && user != p.discordId
  {
    UpsertFind(t.players, p, user);
  }

  function MessagesOf(ms: seq<RegisterMessage>, id: string): (r: seq<RegisterMessage>)
    ensures forall m :: m in r <==> m in ms && m.tournamentId == id
  {
    if ms == [] then []
    else (if ms[0].tournamentId == id then [ms[0]] else []) + MessagesOf(ms[1..], id)
  }

  function FindMessage(ms: seq<RegisterMessage>, channel: ChannelId, message: MessageId): (r: Option<RegisterMessage>)
    ensures r.Some? ==> r.value in ms && r.value.channelId == channel && r.value.messageId == message
    ensures r.None? ==> forall m :: m in ms ==> m.channelId != channel || m.messageId != message
  {
    if ms == [] then None
    else if ms[0].channelId == channel && ms[0].messageId == message then Some(ms[0])
    else FindMessage(ms[1..], channel, message)
  }
}
