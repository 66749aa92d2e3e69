/**
 * The bracket website (Challonge) as the tournament manager uses it: the
 * tournaments it can read, those it can see but not read, the open match of
 * each player, the players registered on each bracket, the final standings,
 * and a log of the scores and lifecycle calls the bot sent it.
 */
module Bracket {
  import opened Wrappers
  import opened Js
  import opened Errors
  import opened Messaging

  datatype WebTournament = WebTournament(id: string, url: string, name: string, desc: string)

  datatype WebPlayer = WebPlayer(challongeId: int, discordId: UserId, name: string)

  /** An open match and the bracket ids of its two players. */
  datatype WebMatch = WebMatch(matchId: int, player1: int, player2: int)

  /** One submitScore call: winner, then the winner's and the loser's score. */
  datatype Submission = Submission(tournament: string, winner: int, winnerScore: JsInt, loserScore: JsInt)

  /** The other calls that change a bracket. */
  datatype WebCall =
    | Created(id: string, topCut: bool)
    | ByesAssigned(id: string, byes: seq<UserId>)
    | Started(id: string)
    | ByesDropped(id: string, count: nat)
    | Finished(id: string)

  const ReadOnlyMessage := "You only have read access to this tournament"

  class Website {
    var tournaments: map<string, WebTournament>
    /** Urls taken by brackets the bot's account cannot read. */
    var readOnly: set<string>
    /** The open match of a player, by tournament and player id. */
    var openMatches: map<(string, int), int>
    var players: map<string, seq<WebPlayer>>
    /** Final ranking of each tournament, best first. */
    var standings: map<string, seq<WebPlayer>>
    /** The open matches of each tournament, as getMatches lists them. */
    var matches: map<string, seq<WebMatch>>
    /** The player with a bye this round, as getBye reports it. */
    var byes: map<string, UserId>
    var nextPlayerId: int
    var submitted: seq<Submission>
    var calls: seq<WebCall>
    /** The public address of a bracket with the given url slug. */
    const addressOf: string -> string

    constructor (readOnly: set<string>, addressOf: string -> string)
      ensures tournaments == map[] && this.readOnly == readOnly && this.addressOf == addressOf
      ensures openMatches == map[] && players == map[] && standings == map[]
      ensures submitted == [] && calls == [] && matches == map[] && byes == map[]
    {
      matches := map[];
      byes := map[];
      tournaments := map[];
      this.readOnly := readOnly;
      openMatches := map[];
      players := map[];
      standings := map[];
      nextPlayerId := 1;
      submitted := [];
      calls := [];
      this.addressOf := addressOf;
    }

    /** getTournament: the bracket, or the API's error. */
    function GetTournament(id: string): (r: Result<WebTournament, Error>)
      reads this`tournaments, this`readOnly
      ensures r.Ok? <==> id in tournaments
      ensures r.Ok? ==> r.value == tournaments[id]
      ensures r.Err? ==> r.error.ChallongeAPIError?
      ensures r.Err? ==> (r.error.Message() == ReadOnlyMessage <==> id in readOnly)
    {
      if id in tournaments then Ok(tournaments[id])
      else if id in readOnly then Err(ChallongeAPIError(ReadOnlyMessage))
      else Err(ChallongeAPIError("Not Found"))
    }

    /** findMatch: the open match of a player, if any. */
    function FindMatch(id: string, challongeId: int): (r: Option<int>)
      reads this`openMatches
      ensures r.Some? <==> (id, challongeId) in openMatches
      ensures r.Some? ==> r.value == openMatches[(id, challongeId)]
    {
      if (id, challongeId) in openMatches then Some(openMatches[(id, challongeId)]) else None
    }

    function GetMatches(id: string): seq<WebMatch>
      reads this`matches
    {
      if id in matches then matches[id] else []
    }

    function GetPlayers(id: string): seq<WebPlayer>
      reads this`players
    {
      if id in players then players[id] else []
    }

    function GetBye(id: string): Option<UserId>
      reads this`byes
    {
      if id in byes then Some(byes[id]) else None
    }

    /** The first n of the final standings. */
    function TopCut(id: string, n: nat): (r: seq<WebPlayer>)
      reads this`standings
      ensures |r| <= n
      ensures id in standings ==> r == standings[id][..if |standings[id]| < n then |standings[id]| else n]
    {
      if id !in standings then []
      else if |standings[id]| < n then standings[id]
      else standings[id][..n]
    }

    /** createTournament: a bracket at the given url slug, identified by it. */
    method CreateTournament(name: string, desc: string, url: string, topCut: bool) returns (t: WebTournament)
      modifies this`tournaments, this`calls
      ensures t == WebTournament(url, addressOf(url), name, desc)
      ensures tournaments == old(tournaments)[url := t]
      ensures calls == old(calls) + [Created(url, topCut)]
    {
      t := WebTournament(url, addressOf(url), name, desc);
      tournaments := tournaments[url := t];
      calls := calls + [Created(url, topCut)];
    }

    method SubmitScore(id: string, winner: int, winnerScore: JsInt, loserScore: JsInt)
      modifies this`submitted
      ensures submitted == old(submitted) + [Submission(id, winner, winnerScore, loserScore)]
    {
      submitted := submitted + [Submission(id, winner, winnerScore, loserScore)];
    }

    /** registerPlayer: a new participant; returns its bracket id. */
    method RegisterPlayer(id: string, name: string, user: UserId) returns (challongeId: int)
      modifies this`players, this`nextPlayerId
      ensures challongeId == old(nextPlayerId) && nextPlayerId == challongeId + 1
      ensures players == old(players)[id := (if id in old(players) then old(players)[id] else []) + [WebPlayer(challongeId, user, name)]]
    {
      challongeId := nextPlayerId;
      nextPlayerId := nextPlayerId + 1;
      var before := if id in players then players[id] else [];
      players := players[id := before + [WebPlayer(challongeId, user, name)]];
    }

    /** finishTournament: the bracket is finalised and returned; an unknown one is the API's error. */
    method FinishTournament(id: string) returns (r: Result<WebTournament, Error>)
      modifies this`calls
      ensures r == old(GetTournament(id))
      ensures calls == old(calls) + if r.Ok? then [Finished(id)] else []
    {
      r := GetTournament(id);
      if r.Ok? {
        calls := calls + [Finished(id)];
      }
    }

    method Call(c: WebCall)
      modifies this`calls
      ensures calls == old(calls) + [c]
    {
      calls := calls + [c];
    }
  }
}
