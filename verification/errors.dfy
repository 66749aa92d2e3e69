/**
 * The bot's error taxonomy. A user error is echoed back to the user verbatim;
 * every other error is only logged. Each constructor of Error stands for one
 * TypeScript error class of the bot; the classes that extend UserError answer IsUserError().
 */
module Errors {

  datatype Error =
    | UserError(text: string)                          // `new UserError(text)`
    | TournamentNotFound(challongeId: string)
    | UnauthorisedHost(host: string, challongeId: string)
    | UnauthorisedTO(to: string)
    | DeckNotFound
    | AssertTextChannel(channelId: string)
    | ChallongeAPIError(text: string)
    | MiscInternalError(text: string)
    | InternalError(text: string)                      // any other Error or TypeError
  {
    /** True of the classes that extend UserError. */
    predicate IsUserError() {
      || UserError? || TournamentNotFound? || UnauthorisedHost? || UnauthorisedTO?
      || DeckNotFound? || AssertTextChannel?
    }

    /** The `message` property each constructor sets. */
    function Message(): string {
      match this
      case UserError(t) => t
      case TournamentNotFound(id) => "Unknown tournament " + id
      case UnauthorisedHost(host, id) => "User " + host + " not authorised for tournament " + id
      case UnauthorisedTO(to) => "User " + to + " not authorised to create tournaments in this server."
      case DeckNotFound => DeckNotFoundMessage
      case AssertTextChannel(id) => "Channel " + id + " is not a valid text channel"
      case ChallongeAPIError(t) => t
      case MiscInternalError(t) => t
      case InternalError(t) => t
    }
  }

  const DeckNotFoundMessage := "Must provide either attached `.ydk` file or valid `ydke://` URL!"

  /**
   * Which errors reach the user: exactly the five specialised classes and plain
   * UserError; ChallongeAPIError, MiscInternalError and other errors do not.
   */
  lemma UserErrorClassification(e: Error)
    ensures e.IsUserError() <==> !(e.ChallongeAPIError? || e.MiscInternalError? || e.InternalError?)
    ensures (|| e.TournamentNotFound? || e.UnauthorisedHost? || e.UnauthorisedTO?
             || e.DeckNotFound? || e.AssertTextChannel?) ==> e.IsUserError()
  {
  }

  /** The message of TournamentNotFound names its tournament, so the id can be recovered from it. */
  lemma {:induction false} TournamentNotFoundKeepsId(a: string, b: string)
    requires TournamentNotFound(a).Message() == TournamentNotFound(b).Message()
    ensures a == b
  {
    var p := "Unknown tournament ";
    assert (p + a)[|p|..] == a;
    assert (p + b)[|p|..] == b;
  }

  /** UnauthorisedHost's message begins with the host and ends with the tournament id. */
  lemma UnauthorisedHostNamesBoth(host: string, id: string)
    ensures var m := UnauthorisedHost(host, id).Message();
            m[..5 + |host|] == "User " + host && m[|m| - |id|..] == id
  {
  }

  /** DeckNotFound always carries the same fixed text, whatever else happens. */
  lemma DeckNotFoundFixed(e: Error)
    requires e.DeckNotFound?
    ensures e.Message() == DeckNotFoundMessage && e.IsUserError()
  {
  }
}
