/**
 * The tournament manager: the bot's coordination of a tournament's lifecycle
 * across the database, the bracket website and Discord. Its own state is the
 * in-memory score claims of open matches and the countdown timers running for
 * each tournament's current round; everything else it does is visible as the
 * records, bracket calls and Discord effects of its collaborators.
 */
module Manager {
  import opened Wrappers
  import opened Js
  import opened Errors
  import opened Messaging
  import opened Persistence
  import opened Bracket
  import opened Timer
  import opened Interface
  import opened Scores
  import opened Counting

  const CheckEmoji := "\U{2705}"

  /** A round lasts 50 minutes. */
  const RoundMilli := 50 * 60 * 1000

  /** A round started at `now` ends 50 minutes later. */
  function RoundEnd(now: int): int {
    now + RoundMilli
  }

  /** A round's whole length as formatTime writes it. */
  const FiftyMinutes := "50:00"

  /** The first countdown message of every round: 50 minutes left. */
  const RoundStartCountdown := CountdownText(FiftyMinutes)

  /** A countdown created at a round's start, for the round's end, opens with 50 minutes left. */
  lemma RoundStartText(now: int)
    ensures CountdownText(FormatTime(RoundEnd(now) - now)) == RoundStartCountdown
  {
    FormatTimeFiftyMinutes(RoundEnd(now) - now);
  }

  /**
   * The timer reads the clock again when it is created; when that second reading
   * falls within the round's first second but after its start, the first
   * countdown shows one second less.
   */
  lemma RoundStartAfterDelay(now: int, later: int)
    requires now < later <= now + 1000
    ensures CountdownText(FormatTime(RoundEnd(now) - later)) == CountdownText("49:59")
  {
    var ms := RoundEnd(now) - later;
    var minutes, seconds := ms / 60000, JsRem(ms / 1000, 60);
    assert minutes == 49 && minutes / 10 == 4 && minutes % 10 == 9;
    assert ms / 1000 == 2999;
    assert seconds == 59 && seconds / 10 == 5 && seconds % 10 == 9;
    assert NatToString(minutes) == NatToString(minutes / 10) + [DigitChar(minutes % 10)];
    assert NatToString(seconds) == NatToString(seconds / 10) + [DigitChar(seconds % 10)];
    assert Pad2(minutes) == "49";
    assert Pad2(seconds) == "59";
  }

  /** Round countdowns are updated every 5 (the value passed as the interval). */
  const RoundUpdateInterval := 5

  /** What sendDirectMessage throws when the user does not accept direct messages. */
  const BlockedDMs := InternalError("BlockedDMsError")

  /** The TypeError of reading a field of the `undefined` a failed lookup returns. */
  const Undefined := InternalError("TypeError: Cannot read properties of undefined")

  /** A JavaScript string value is truthy when it is defined and not empty. */
  predicate Truthy(o: Option<string>) {
    o.Some? && o.value != ""
  }

  /** How a template literal shows an optional string. */
  function Show(o: Option<string>): string {
    if o.Some? then o.value else "undefined"
  }

  /** One message with the same content to each channel, in order, with consecutive ids. */
  function Posts(cs: seq<ChannelId>, content: string, id0: nat): (r: seq<Effect>)
    ensures |r| == |cs|
    ensures forall i :: 0 <= i < |cs| ==> r[i] == Sent(cs[i], content, id0 + i)
  {
    seq(|cs|, i requires 0 <= i < |cs| => Sent(cs[i], content, id0 + i))
  }

  /** The keys of a list of timers, in order. */
  function KeysOf(ts: seq<PersistentTimer>): (r: seq<nat>)
    ensures |r| == |ts| && forall i :: 0 <= i < |ts| ==> r[i] == ts[i].key
  {
    seq(|ts|, i requires 0 <= i < |ts| => ts[i].key)
  }

  // ---------------------------------------------------------------------------
  // Texts (the fixed parts are named so that the texts stay small to reason about)
  // ---------------------------------------------------------------------------

  function ScoreText(a: JsInt, b: JsInt): string {
    JsIntToString(a) + "-" + JsIntToString(b)
  }

  const NoMatchText := "Could not find an open match in Tournament "
  const IncludingYou := " including you, "
  const AlreadyReportedText := "You have already reported your score for this match, "
  const HaveOpponentConfirm := ". Please have your opponent confirm the score."
  const ReportedAScore := "You have successfully reported a score of "
  const MatchesOpponent := ", and it matches your opponent's report, so the score has been saved. Thank you, "
  const MismatchText := "Your score does not match your opponent's reported score of "
  const ReportAgain := ". Both of you will need to report again, "
  const YouReported := "You have reported a score of "
  const StillNeedsToConfirm := ". Your opponent still needs to confirm this score."

  /** submitScore's answer to the reporter for each outcome of a report. */
  function ReplyFor(o: Outcome, t: DbTournament, mention: string, own: JsInt, opp: JsInt): string {
    match o
    case HostSubmitted => ""
    case NoOpenMatch => NoMatchText + t.name + IncludingYou + mention
    case AlreadyReported => AlreadyReportedText + mention + HaveOpponentConfirm
    case Confirmed(_) => ReportedAScore + ScoreText(own, opp) + MatchesOpponent + mention + "."
    case Mismatched(c) => MismatchText + ScoreText(c.oppScore, c.playerScore) + ReportAgain + mention + "."
    case Recorded => YouReported + ScoreText(own, opp) + ", " + mention + StillNeedsToConfirm
  }

  const OpponentConfirmed := "Your opponent has successfully confirmed your score of "
  const ForTournament := " for Tournament "
  const ScoreSaved := ", so the score has been saved. Thank you."
  const HaveReported := ") have reported their score of "

  function ConfirmedDMText(t: DbTournament, own: JsInt, opp: JsInt): string {
    OpponentConfirmed + ScoreText(opp, own) + ForTournament + t.name + ScoreSaved
  }

  function ReportedToHostsText(t: DbTournament, player: UserId, playerName: string, opponent: UserId,
                               opponentName: string, own: JsInt, opp: JsInt): string {
    MentionUser(player) + " (" + playerName + ") and " + MentionUser(opponent) + " (" + opponentName
    + HaveReported + ScoreText(own, opp) + ForTournament + t.name + " (" + t.id + ")."
  }

  const NewRoundOf := "A new round of "
  const HasBegun := " has begun! "
  const PairingsWillBeSent := "\nPairings will be sent out by Direct Message shortly, or can be found here: "
  const ThatsTime := "That's time in the round, "
  const EndThePhase := "! Please end the current phase, then the player with the lower LP must forfeit!"
  const YourOpponentIs := "Your opponent is "
  const NoOpponent := "I couldn't find your opponent. If you don't think you should have a bye for this round, please check the pairings."
  const CouldNotDm := "I couldn't send a DM to "
  const AboutMatchup := ") about their matchup for "
  const TellThem := ". If they're not a human player, this is normal, but otherwise please tell them their opponent is "
  const ViceVersa := "), and vice versa."
  const HaveABye := "You have a bye for this round."
  const ChallongeIds := "Challonge IDs "
  const AndOr := " and/or "
  const FoundInMatch := " found in match "
  const NotInPlayerList := " but not the player list."

  function NewRoundText(t: DbTournament, role: string, url: string): string {
    NewRoundOf + t.name + HasBegun + MentionRole(role) + PairingsWillBeSent + url
  }

  function TimeUpText(participantRole: string): string {
    ThatsTime + participantRole + EndThePhase
  }

  function MatchupText(t: DbTournament, opponent: UserId, opponentName: Option<string>): string {
    NewRoundOf + t.name + HasBegun
    + if Truthy(opponentName) then YourOpponentIs + MentionUser(opponent) + " (" + opponentName.value + ")."
      else NoOpponent
  }

  function DmFailureText(t: DbTournament, user: UserId, opponent: UserId, opponentUsername: string): string {
    CouldNotDm + MentionUser(user) + " (" + user + AboutMatchup + t.name
    + TellThem + MentionUser(opponent) + " (" + opponentUsername + ViceVersa
  }

  function ByeText(t: DbTournament): string {
    NewRoundOf + t.name + HasBegun + HaveABye
  }

  function MissingPlayersText(p1: Option<UserId>, p2: Option<UserId>, matchId: int): string {
    ChallongeIds + Show(p1) + AndOr + Show(p2) + FoundInMatch + IntToString(matchId) + NotInPlayerList
  }

  // ---------------------------------------------------------------------------
  // Rounds, as sequences of effects
  // ---------------------------------------------------------------------------

  /** Each public channel gets the round announcement, then its countdown message. */
  function Announcements(cs: seq<ChannelId>, text: string, countdown: string, id0: nat): (r: seq<Effect>)
    ensures |r| == 2 * |cs|
  {
    if cs == [] then []
    else
      var k := |cs| - 1;
      Announcements(cs[..k], text, countdown, id0) + [Sent(cs[k], text, id0 + 2 * k), Sent(cs[k], countdown, id0 + 2 * k + 1)]
  }

  /** One more channel adds its announcement and its countdown message at the end. */
  lemma AnnouncementsStep(cs: seq<ChannelId>, i: nat, text: string, countdown: string, id0: nat)
    requires i < |cs|
    ensures Announcements(cs[..i + 1], text, countdown, id0)
         == Announcements(cs[..i], text, countdown, id0) + [Sent(cs[i], text, id0 + 2 * i), Sent(cs[i], countdown, id0 + 2 * i + 1)]
  {
    assert cs[..i + 1][..i] == cs[..i];
  }

  lemma Associate<T>(a: seq<T>, b: seq<T>, c: seq<T>)
    ensures (a + b) + c == a + (b + c)
  {
  }

  /** The Discord id of the first bracket player with that bracket id (players.find). */
  function FindDiscord(ps: seq<WebPlayer>, challongeId: int): (r: Option<UserId>)
    ensures r.Some? ==> exists p :: p in ps && p.challongeId == challongeId && p.discordId == r.value
    ensures r.None? ==> forall p :: p in ps ==> p.challongeId != challongeId
  {
    if ps == [] then None
    else if ps[0].challongeId == challongeId then Some(ps[0].discordId)
    else FindDiscord(ps[1..], challongeId)
  }

  /** The warning for a match whose players are not both on the player list. */
  function MatchWarning(m: WebMatch, ps: seq<WebPlayer>): seq<(Level, string)> {
    var p1, p2 := FindDiscord(ps, m.player1), FindDiscord(ps, m.player2);
    if Truthy(p1) && Truthy(p2) then []
    else [(Warn, MissingPlayersText(p1, p2, m.matchId))]
  }

  function Warnings(ms: seq<WebMatch>, ps: seq<WebPlayer>): seq<(Level, string)> {
    if ms == [] then [] else Warnings(ms[..|ms| - 1], ps) + MatchWarning(ms[|ms| - 1], ps)
  }

  /** A Discord snowflake written in decimal: digits only, without a leading zero. */
  predicate Snowflake(userId: UserId) {
    |userId| > 0 && userId[0] != '0' && forall i :: 0 <= i < |userId| ==> '0' <= userId[i] <= '9'
  }

  /**
   * The naive snowflake check before asking Discord for a user's name, as
   * written: an empty id, or one whose first character is at most "0" or at
   * least "9", is taken for a placeholder.
   */
  predicate SnowflakeStartAsWritten(userId: UserId) {
    !(|userId| == 0 || userId[0] <= '0' || userId[0] >= '9')
  }

  /** The check as intended: a snowflake starts with a non-zero digit. */
  predicate SnowflakeStart(userId: UserId) {
    |userId| > 0 && '1' <= userId[0] <= '9'
  }

  /** The check as written turns away every snowflake that starts with 9, which the intended check lets through. */
  lemma NineSnowflakeRejected(userId: UserId)
    requires Snowflake(userId) && userId[0] == '9'
    ensures !SnowflakeStartAsWritten(userId) && SnowflakeStart(userId)
  {
  }

  // ---------------------------------------------------------------------------
  // Registration texts
  // ---------------------------------------------------------------------------

  const OneAtATime := "You can only sign up for 1 Tournament at a time! Please either drop from or complete your registration for "
  const SubmitADeck := "Please submit a deck to complete your registration, by uploading a YDK file or sending a message with a YDKE URL."
  const CannotDm := "), but I cannot send them DMs. Please ask them to allow DMs from this server."
  const MultiplePending := "You are registering in multiple tournaments. Please register in one at a time by unchecking the reaction on all others.\n"
  const MultipleConfirmed := "You're trying to update your deck for a tournament, but you're in multiple! Please choose one by dropping and registering again.\n"
  const PrintOutBelow := ". Please see the print out below for all the errors. "
  const NotRegisteredYet := "You have NOT been registered yet, please submit again with a legal deck."
  const NotChanged := "Your deck has not been changed."
  const DoubleCheck := "! Your deck is below to double-check."

  function OneAtATimeText(t: DbTournament): string {
    OneAtATime + t.name + "!"
  }

  function RegisteringText(t: DbTournament): string {
    "You are registering for " + t.name + ". " + SubmitADeck
  }

  function SignUpBlockedText(t: DbTournament, user: UserId, username: string): string {
    "Player " + MentionUser(user) + " (" + username + ") is trying to sign up for Tournament " + t.name + " (" + t.id + CannotDm
  }

  /** The tournaments' names, in order. */
  function NamesOf(ts: seq<DbTournament>): (r: seq<string>)
    ensures |r| == |ts| && forall k :: 0 <= k < |ts| ==> r[k] == ts[k].name
  {
    seq(|ts|, k requires 0 <= k < |ts| => ts[k].name)
  }

  function MultiplePendingText(ts: seq<DbTournament>): string {
    MultiplePending + Join(NamesOf(ts), ", ")
  }

  function MultipleConfirmedText(ts: seq<DbTournament>): string {
    MultipleConfirmed + Join(NamesOf(ts), ", ")
  }

  function IllegalDeckText(t: DbTournament): string {
    "Your deck is not legal for Tournament " + t.name + PrintOutBelow + NotRegisteredYet
  }

  function IllegalUpdateText(t: DbTournament): string {
    "Your new deck is not legal for Tournament " + t.name + PrintOutBelow + NotChanged
  }

  function SignedUpText(t: DbTournament, user: UserId, username: string): string {
    "Player " + MentionUser(user) + " (" + username + ") has signed up for Tournament " + t.name + " (" + t.id + ") with the following deck!"
  }

  function UpdatedDeckText(t: DbTournament, user: UserId, username: string): string {
    "Player " + MentionUser(user) + " (" + username + ") has updated their deck for Tournament " + t.name + " (" + t.id + ") to the following!"
  }

  function SignedUpReply(t: DbTournament): string {
    "You have successfully signed up for Tournament " + t.name + DoubleCheck
  }

  function ChangedDeckReply(t: DbTournament): string {
    "You have successfully changed your deck for Tournament " + t.name + DoubleCheck
  }

  /**
   * A deck as read from a direct message: its ydke url, whether validation
   * found no errors, and its print-out (prettyPrint's text).
   */
  datatype SubmittedDeck = SubmittedDeck(url: string, legal: bool, printout: string)

  /** The replies refusing a deck: the missing-deck text, or the illegal-deck notice followed by the print-out. */
  function DeckRefused(msg: IncomingMessage, deck: Option<SubmittedDeck>, notice: string): seq<Effect> {
    if deck.None? then [Replied(msg.channel, msg.id, DeckNotFoundMessage)]
    else [Replied(msg.channel, msg.id, notice), Replied(msg.channel, msg.id, deck.value.printout)]
  }

  /**
   * What an accepted deck shows: each private channel gets the notice and the
   * print-out, then the sender gets the reply and the print-out.
   */
  function DeckShown(t: DbTournament, msg: IncomingMessage, notice: string, reply: string, printout: string, id0: nat): seq<Effect> {
    Announcements(t.privateChannels, notice, printout, id0) + [Replied(msg.channel, msg.id, reply), Replied(msg.channel, msg.id, printout)]
  }

  /** A record with the player confirmed, when the tournament is stored; nothing otherwise. */
  function ConfirmedRecord(ts: seq<DbTournament>, id: string, p: Player): Option<DbTournament> {
    var before := Lookup(ts, id);
    if before.Some? then Some(Confirm(before.value, p)) else None
  }

  // ---------------------------------------------------------------------------
  // Url slugs
  // ---------------------------------------------------------------------------

  /** The characters a bracket url keeps: ASCII letters, digits and underscore. */
  predicate SlugChar(c: char) {
    'a' <= c <= 'z' || 'A' <= c <= 'Z' || IsDigit(c) || c == '_'
  }

  /** The text with every character outside the slug alphabet removed, in order. */
  function KeepSlugChars(s: string): (r: string)
    ensures |r| <= |s|
    ensures forall i :: 0 <= i < |r| ==> SlugChar(r[i]) && r[i] in s
  {
    if s == [] then []
    else
      var r := KeepSlugChars(s[..|s| - 1]);
      var c := s[|s| - 1];
      if SlugChar(c) then r + [c] else r
  }

  /** createTournament's base url: the name lowercased, then stripped to the slug alphabet. */
  function Slug(name: string): string {
    KeepSlugChars(ToLower(name))
  }

  /** Stripping works character by character: the slug of a concatenation is the concatenation of the slugs. */
  lemma {:induction false} KeepSlugCharsAppend(a: string, b: string)
    ensures KeepSlugChars(a + b) == KeepSlugChars(a) + KeepSlugChars(b)
    decreases |b|
  {
    if b != [] {
      var k := |b| - 1;
      assert (a + b)[..|a + b| - 1] == a + b[..k];
      KeepSlugCharsAppend(a, b[..k]);
    } else {
      assert a + b == a;
    }
  }

  /**
   * The slug of a name is the concatenation, over its characters in order, of
   * the lowercased character when it is in the slug alphabet and of nothing
   * otherwise.
   */
  lemma SlugAppend(a: string, b: string)
    ensures Slug(a + b) == Slug(a) + Slug(b)
  {
    assert ToLower(a + b) == ToLower(a) + ToLower(b);
    KeepSlugCharsAppend(ToLower(a), ToLower(b));
  }

  lemma SlugOfChar(c: char)
    ensures Slug([c]) == if SlugChar(LowerChar(c)) then [LowerChar(c)] else []
  {
    assert ToLower([c]) == [LowerChar(c)];
    assert ToLower([c])[..0] == [];
  }

  /** A slug holds only lowercase letters, digits and underscores. */
  lemma SlugAlphabet(name: string)
    ensures forall i :: 0 <= i < |Slug(name)| ==> ('a' <= Slug(name)[i] <= 'z' || IsDigit(Slug(name)[i]) || Slug(name)[i] == '_')
  {
    var s := Slug(name);
    forall i | 0 <= i < |s|
      ensures 'a' <= s[i] <= 'z' || IsDigit(s[i]) || s[i] == '_'
    {
      assert SlugChar(s[i]) && s[i] in ToLower(name);
      var j :| 0 <= j < |name| && ToLower(name)[j] == s[i];
    }
  }

  /** Text already in the slug alphabet is kept as it is. */
  lemma {:induction false} KeepSlugCharsOfSlugText(s: string)
    requires forall i :: 0 <= i < |s| ==> SlugChar(s[i])
    ensures KeepSlugChars(s) == s
  {
    if s != [] {
      KeepSlugCharsOfSlugText(s[..|s| - 1]);
      assert s[..|s| - 1] + [s[|s| - 1]] == s;
    }
  }

  /** Making a slug of a slug changes nothing. */
  lemma SlugIdempotent(name: string)
    ensures Slug(Slug(name)) == Slug(name)
  {
    var s := Slug(name);
    SlugAlphabet(name);
    assert ToLower(s) == s;
    KeepSlugCharsOfSlugText(s);
  }

  /** The url tried at attempt k: the base first, then the base followed by 0, 1, 2, ... */
  function Candidate(base: string, k: nat): (url: string)
    ensures k == 0 ==> url == base
    ensures k > 0 ==> |url| > |base| && url[..|base|] == base
  {
    if k == 0 then base else base + NatToString(k - 1)
  }

  /** No url is tried twice. */
  lemma CandidatesDistinct(base: string, j: nat, k: nat)
    requires Candidate(base, j) == Candidate(base, k)
    ensures j == k
  {
    if j > 0 && k > 0 {
      assert Candidate(base, j)[|base|..] == NatToString(j - 1);
      assert Candidate(base, k)[|base|..] == NatToString(k - 1);
      NatToStringInjective(j - 1, k - 1);
    }
  }

  /** The urls of the first n attempts. */
  function Tried(base: string, n: nat): (r: set<string>)
    ensures forall k :: 0 <= k < n ==> Candidate(base, k) in r
  {
    set k | 0 <= k < n :: Candidate(base, k)
  }

  /** The url of the next attempt has not been tried yet. */
  lemma NextUntried(base: string, n: nat)
    ensures Candidate(base, n) !in Tried(base, n)
  {
    if Candidate(base, n) in Tried(base, n) {
      var k :| 0 <= k < n && Candidate(base, k) == Candidate(base, n);
      CandidatesDistinct(base, k, n);
    }
  }

  /** Attempt k is the one createTournament settles on: every earlier url is taken, this one is free. */
  ghost predicate FirstFree(base: string, k: nat, taken: set<string>) {
    Candidate(base, k) !in taken && forall j :: 0 <= j < k ==> Candidate(base, j) in taken
  }

  /** There is only one first free url. */
  lemma FirstFreeUnique(base: string, j: nat, k: nat, taken: set<string>)
    requires FirstFree(base, j, taken) && FirstFree(base, k, taken)
    ensures j == k
  {
  }

  // ---------------------------------------------------------------------------
  // Loaded timers
  // ---------------------------------------------------------------------------

  /** A loaded timer that belongs to no tournament. */
  predicate Orphan(tm: PersistentTimer) {
    !Truthy(tm.entity.tournament)
  }

  function Get(g: map<string, seq<PersistentTimer>>, id: string): seq<PersistentTimer> {
    if id in g then g[id] else []
  }

  /** A loaded timer joins its tournament's list; an orphan joins none. */
  function Adopt(g: map<string, seq<PersistentTimer>>, tm: PersistentTimer): map<string, seq<PersistentTimer>> {
    if Orphan(tm) then g else g[tm.entity.tournament.value := Get(g, tm.entity.tournament.value) + [tm]]
  }

  /** What an orphan adds to a log: `x` for an orphan, nothing for a timer with a tournament. */
  function IfOrphan<T>(tm: PersistentTimer, x: seq<T>): seq<T> {
    if Orphan(tm) then x else []
  }

  function OrphanKey(tm: PersistentTimer): set<nat> {
    if Orphan(tm) then {tm.key} else {}
  }

  /** loadTimers' record: each timer appended to its tournament's list, in load order. */
  function Group(ts: seq<PersistentTimer>): map<string, seq<PersistentTimer>> {
    if ts == [] then map[] else Adopt(Group(ts[..|ts| - 1]), ts[|ts| - 1])
  }

  /** The timers of one tournament, in the order given (an independent statement of the grouping). */
  function TimersFor(ts: seq<PersistentTimer>, id: string): seq<PersistentTimer> {
    if ts == [] then []
    else TimersFor(ts[..|ts| - 1], id) + if ts[|ts| - 1].entity.tournament == Some(id) then [ts[|ts| - 1]] else []
  }

  /**
   * loadTimers groups exactly: a tournament has a list iff one of its timers
   * was loaded, and the list is that tournament's timers in load order.
   */
  lemma {:induction false} GroupIsByTournament(ts: seq<PersistentTimer>, id: string)
    ensures id in Group(ts) <==> id != "" && exists i :: 0 <= i < |ts| && ts[i].entity.tournament == Some(id)
    ensures Get(Group(ts), id) == if id == "" then [] else TimersFor(ts, id)
  {
    if ts != [] {
      var init := ts[..|ts| - 1];
      GroupIsByTournament(init, id);
      assert forall i :: 0 <= i < |init| ==> init[i] == ts[i];
      if id != "" && exists i :: 0 <= i < |ts| && ts[i].entity.tournament == Some(id) {
        var i :| 0 <= i < |ts| && ts[i].entity.tournament == Some(id);
        if i < |init| {
          assert init[i].entity.tournament == Some(id);
        }
      }
    }
  }

  /** Every timer on a tournament's list was loaded for that tournament. */
  lemma {:induction false} GroupMembers(ts: seq<PersistentTimer>, id: string, j: nat)
    requires id in Group(ts) && j < |Group(ts)[id]|
    ensures Group(ts)[id][j] in ts && Group(ts)[id][j].entity.tournament == Some(id)
  {
    var init := ts[..|ts| - 1];
    var tm := ts[|ts| - 1];
    if Orphan(tm) || tm.entity.tournament.value != id || j < |Get(Group(init), id)| {
      GroupMembers(init, id, j);
    }
  }

  /** The loaded timers that belong to no tournament, in order. */
  function Orphans(ts: seq<PersistentTimer>): (r: seq<PersistentTimer>)
    ensures |r| <= |ts|
  {
    if ts == [] then [] else Orphans(ts[..|ts| - 1]) + IfOrphan(ts[|ts| - 1], [ts[|ts| - 1]])
  }

  /** The keys of the orphaned timers. */
  function OrphanKeys(ts: seq<PersistentTimer>): set<nat> {
    if ts == [] then {} else OrphanKeys(ts[..|ts| - 1]) + OrphanKey(ts[|ts| - 1])
  }

  /** One more loaded timer: it joins its tournament's list, or it is one more orphan. */
  lemma AdoptStep(ts: seq<PersistentTimer>, i: nat)
    requires i < |ts|
    ensures Group(ts[..i + 1]) == Adopt(Group(ts[..i]), ts[i])
    ensures OrphanKeys(ts[..i + 1]) == OrphanKeys(ts[..i]) + OrphanKey(ts[i])
    ensures OrphanWarnings(ts[..i + 1]) == OrphanWarnings(ts[..i]) + IfOrphan(ts[i], [(Warn, OrphanText)])
    ensures KeysOf(Orphans(ts[..i + 1])) == KeysOf(Orphans(ts[..i])) + IfOrphan(ts[i], [ts[i].key])
    ensures |Orphans(ts[..i + 1])| == |Orphans(ts[..i])| + |IfOrphan(ts[i], [ts[i]])|
  {
    assert ts[..i + 1][..i] == ts[..i];
  }

  lemma RemoveMore<K, V>(m: map<K, V>, a: set<K>, b: set<K>)
    ensures m - (a + b) == (m - a) - b
  {
  }

  const RepeatedLoadText := "loadTimers called multiple times"
  const OrphanText := "Aborting orphaned timer"

  /** One warning per orphaned timer. */
  function OrphanWarnings(ts: seq<PersistentTimer>): (r: seq<(Level, string)>)
    ensures |r| == |Orphans(ts)| && forall i :: 0 <= i < |r| ==> r[i] == (Warn, OrphanText)
  {
    seq(|Orphans(ts)|, _ => (Warn, OrphanText))
  }

  function LoadedText(count: nat, total: nat, tournaments: nat): string {
    "Loaded " + NatToString(count) + " of " + NatToString(total) + " PersistentTimers for "
    + NatToString(tournaments) + " tournaments."
  }

  /** What loadTimers logs for the loaded timers: a warning per orphan, then the summary. */
  function LoadLog(ts: seq<PersistentTimer>): (r: seq<(Level, string)>)
    ensures |r| == |Orphans(ts)| + 1
    ensures r[|r| - 1].0 == Info && forall k :: 0 <= k < |r| - 1 ==> r[k] == (Warn, OrphanText)
  {
    OrphanWarnings(ts) + [(Info, LoadedText(|ts| - |Orphans(ts)|, |ts|, |Group(ts)|))]
  }

  // ---------------------------------------------------------------------------
  // Registration
  // ---------------------------------------------------------------------------

  const NoPublicChannelText := "You must register at least one public announcement channel before opening a tournament for registration!"

  /** The registration message posted in each public channel when a tournament opens. */
  function OpenText(t: DbTournament): string {
    "__Registration now open for **" + t.name + "**!__\n" + t.description + "\n__Click the " + CheckEmoji + " below to sign up!__"
  }

  /** The registration messages stored for channels whose messages got consecutive ids. */
  function RegistrationsOf(cs: seq<ChannelId>, id: string, id0: nat): (r: seq<RegisterMessage>)
    ensures |r| == |cs|
    ensures forall i :: 0 <= i < |cs| ==> r[i] == RegisterMessage(cs[i], id0 + i, id)
  {
    seq(|cs|, i requires 0 <= i < |cs| => RegisterMessage(cs[i], id0 + i, id))
  }

  /** Check-mark listeners on `n` messages with consecutive ids, all running the same callback. */
  function Listeners(id0: nat, n: nat, response: string): (r: seq<ReactionHandler>)
    ensures |r| == n
    ensures forall i :: 0 <= i < n ==> r[i] == ReactionHandler(id0 + i, CheckEmoji, response)
  {
    seq(n, i requires 0 <= i < n => ReactionHandler(id0 + i, CheckEmoji, response))
  }

  const TooFewPlayersText := "Cannot start a tournament without at least 2 confirmed participants!"

  /** The direct message to a pending player dropped when the tournament starts. */
  function DroppedText(t: DbTournament): string {
    "Sorry, Tournament " + t.name + " has started and you didn't submit a deck, so you have been dropped."
  }

  /** The deletion of each registration message, in order. */
  function DeletionsOf(ms: seq<RegisterMessage>): (r: seq<Effect>)
    ensures |r| == |ms|
    ensures forall i :: 0 <= i < |ms| ==> r[i] == Deleted(ms[i].channelId, ms[i].messageId)
  {
    seq(|ms|, i requires 0 <= i < |ms| => Deleted(ms[i].channelId, ms[i].messageId))
  }

  /** Whether every one of the users accepts direct messages. */
  predicate Reachable(us: seq<UserId>, blocked: set<UserId>) {
    forall u :: u in us ==> u !in blocked
  }

  /** The same direct message to each user, in order, skipping those who do not accept direct messages. */
  function DirectMessages(us: seq<UserId>, text: string, blocked: set<UserId>): (r: seq<Effect>)
    ensures |r| <= |us|
    ensures (forall u :: u in us ==> u !in blocked) ==> |r| == |us|
  {
    if us == [] then []
    else
      var k := |us| - 1;
      DirectMessages(us[..k], text, blocked) + if us[k] in blocked then [] else [DirectMessage(us[k], text)]
  }

  /** Every one of those direct messages carries the text and goes to a listed user who accepts them. */
  lemma {:induction false} DirectMessagesOnlyTo(us: seq<UserId>, text: string, blocked: set<UserId>)
    ensures forall e :: e in DirectMessages(us, text, blocked) ==>
              e.DirectMessage? && e.user in us && e.user !in blocked && e.content == text
  {
    if us != [] {
      var k := |us| - 1;
      DirectMessagesOnlyTo(us[..k], text, blocked);
      assert forall u :: u in us[..k] ==> u in us;
    }
  }

  /** One more user adds at most their own direct message at the end. */
  lemma DirectMessagesStep(us: seq<UserId>, i: nat, text: string, blocked: set<UserId>)
    requires i < |us|
    ensures DirectMessages(us[..i + 1], text, blocked)
            == DirectMessages(us[..i], text, blocked) + if us[i] in blocked then [] else [DirectMessage(us[i], text)]
  {
    assert us[..i + 1][..i] == us[..i];
  }

  // ---------------------------------------------------------------------------
  // finishTournament
  // ---------------------------------------------------------------------------

  /** How many of the final standings a top cut takes. */
  const TopCutSize := 8

  function FinishText(t: DbTournament, cancel: bool, role: string, url: string): string {
    t.name + " has " + (if cancel then "been cancelled." else "concluded!") + " Thank you all for playing! "
    + MentionRole(role) + "\nResults: " + url
  }

  /** Only a finish that is not a cancellation, of more than eight players, seeds a top cut. */
  predicate TopCutDue(t: DbTournament, cancel: bool) {
    !cancel && |t.players| > TopCutSize
  }

  /** The creator of a top cut: the first host, or what `hosts[0]` shows for an empty list. */
  function LeadHost(t: DbTournament): UserId {
    if t.hosts == [] then "undefined" else t.hosts[0]
  }

  /** The deck a player registered in the tournament, when they have a record there. */
  function DeckOf(t: DbTournament, user: UserId): string {
    var p := t.FindPlayer(user);
    if p.Some? then p.value.deck else ""
  }

  /**
   * The top-cut record after confirming each of `top` in turn with the deck of
   * the original tournament; the k-th receives bracket id cid0 + k.
   */
  function Enrolled(rec: DbTournament, t: DbTournament, top: seq<WebPlayer>, cid0: int): DbTournament
    decreases |top|
  {
    if top == [] then rec
    else
      var k := |top| - 1;
      Confirm(Enrolled(rec, t, top[..k], cid0), Player(top[k].discordId, cid0 + k, DeckOf(t, top[k].discordId)))
  }

  /** Enrolling one more player confirms them in the record enrolled so far. */
  lemma EnrolledStep(rec: DbTournament, t: DbTournament, top: seq<WebPlayer>, cid0: int, i: nat)
    requires i < |top|
    ensures Enrolled(rec, t, top[..i + 1], cid0)
            == Confirm(Enrolled(rec, t, top[..i], cid0), Player(top[i].discordId, cid0 + i, DeckOf(t, top[i].discordId)))
  {
    assert top[..i + 1][..i] == top[..i];
  }

  /** Enrolling touches only the players and the pending list of the record. */
  lemma {:induction false} EnrolledKeepsTheRest(rec: DbTournament, t: DbTournament, top: seq<WebPlayer>, cid0: int)
    ensures Enrolled(rec, t, top, cid0).(players := rec.players, pending := rec.pending) == rec
  {
    if top != [] {
      EnrolledKeepsTheRest(rec, t, top[..|top| - 1], cid0);
    }
  }

  /**
   * Every player of the top cut ends up confirmed in it, with the deck they
   * played in the original tournament.
   */
  lemma {:induction false} EnrolledConfirmsAll(rec: DbTournament, t: DbTournament, top: seq<WebPlayer>, cid0: int, j: nat)
    requires j < |top|
    ensures var found := Enrolled(rec, t, top, cid0).FindPlayer(top[j].discordId);
            found.Some? && found.value.deck == DeckOf(t, top[j].discordId)
  {
    var k := |top| - 1;
    var u := top[j].discordId;
    var prev := Enrolled(rec, t, top[..k], cid0);
    var p := Player(top[k].discordId, cid0 + k, DeckOf(t, top[k].discordId));
    assert Enrolled(rec, t, top, cid0) == Confirm(prev, p);
    ConfirmFind(prev, p, u);
    if u == p.discordId {
      assert p.deck == DeckOf(t, u);
    } else {
      assert top[..k][j] == top[j];
      EnrolledConfirmsAll(rec, t, top[..k], cid0, j);
    }
  }

  /** No player of the top cut is left pending in it. */
  lemma {:induction false} EnrolledLeavesNonePending(rec: DbTournament, t: DbTournament, top: seq<WebPlayer>, cid0: int, j: nat)
    requires j < |top|
    ensures top[j].discordId !in Enrolled(rec, t, top, cid0).pending
  {
    var k := |top| - 1;
    var prev := Enrolled(rec, t, top[..k], cid0);
    var p := Player(top[k].discordId, cid0 + k, DeckOf(t, top[k].discordId));
    ConfirmFind(prev, p, top[j].discordId);
    if top[j].discordId != top[k].discordId {
      EnrolledLeavesNonePending(rec, t, top[..k], cid0, j);
      assert top[..k][j] == top[j];
    }
  }

  /**
   * A tournament seeded as the top cut of t: named after it, on its server,
   * with its hosts; once `complete`, with its announcement channels and every
   * top player confirmed with the deck they played in t.
   */
  predicate SeededFrom(t: DbTournament, rec: DbTournament, top: seq<WebPlayer>, complete: bool) {
    && rec.name == t.name + " Top Cut" && rec.description == "Top Cut for " + t.name && rec.server == t.server
    && (t.hosts != [] ==> rec.hosts == t.hosts)
    && (complete ==>
          && rec.publicChannels == t.publicChannels && rec.privateChannels == t.privateChannels
          && forall j :: 0 <= j < |top| ==>
               rec.FindPlayer(top[j].discordId).Some? && rec.FindPlayer(top[j].discordId).value.deck == DeckOf(t, top[j].discordId))
  }

  /** Starting a seeded tournament keeps it seeded. */
  lemma SeededFromStarted(t: DbTournament, rec: DbTournament, top: seq<WebPlayer>, complete: bool, now: bool)
    requires SeededFrom(t, rec, top, complete) && (now ==> complete)
    ensures SeededFrom(t, rec.(status := InProgress, pending := []), top, now)
  {
    var started := rec.(status := InProgress, pending := []);
    forall j | 0 <= j < |top|
      ensures started.FindPlayer(top[j].discordId) == rec.FindPlayer(top[j].discordId)
    {
    }
  }

  /**
   * A new top-cut record with t's hosts, after the first `done` top players
   * were enrolled into it: seeded from t, and, once every top player is
   * enrolled and t's channels copied, seeded completely.
   */
  lemma EnrolledSeeded(t: DbTournament, id: string, rec1: DbTournament, top: seq<WebPlayer>, role: string, done: nat,
                       cid0: int, db1: seq<DbTournament>, e1: seq<Effect>, db: seq<DbTournament>, effects: seq<Effect>, ok: bool)
    requires done <= |top| && (ok ==> done == |top|)
    requires rec1 == NewTournament(LeadHost(t), t.server, id, t.name + " Top Cut", "Top Cut for " + t.name).(hosts := rec1.hosts)
    requires t.hosts != [] ==> rec1.hosts == t.hosts
    requires ConfirmedUpTo(t, id, top, role, done, Some(rec1), db1, e1, cid0, db, effects)
    ensures var rec2 := Enrolled(rec1, t, top[..done], cid0);
            && ChangedOnly(db1, db, id, Some(rec2)) && e1 <= effects
            && rec2.status == Preparing && SeededFrom(t, rec2, top, false)
            && (ok ==> var rec4 := WithChannels(WithChannels(rec2, t.publicChannels, false), t.privateChannels, true);
                       rec4.status == Preparing && SeededFrom(t, rec4, top, true))
  {
    var rec2 := Enrolled(rec1, t, top[..done], cid0);
    EnrolledKeepsTheRest(rec1, t, top[..done], cid0);
    Extends(e1, Grants(top[..done], role), [], []);
    if ok {
      assert top[..done] == top;
      forall j | 0 <= j < |top|
        ensures rec2.FindPlayer(top[j].discordId).Some? && rec2.FindPlayer(top[j].discordId).value.deck == DeckOf(t, top[j].discordId)
      {
        EnrolledConfirmsAll(rec1, t, top, cid0, j);
      }
    }
  }

  /** The participant role granted to each player, in order. */
  function Grants(top: seq<WebPlayer>, role: string): (r: seq<Effect>)
    ensures |r| == |top|
    ensures forall j :: 0 <= j < |top| ==> r[j] == RoleGranted(top[j].discordId, role)
  {
    seq(|top|, j requires 0 <= j < |top| => RoleGranted(top[j].discordId, role))
  }

  /** The bracket participants registered for each player, in order, with consecutive ids from cid0. */
  function Signups(top: seq<WebPlayer>, cid0: int, nameOf: UserId -> string): (r: seq<WebPlayer>)
    ensures |r| == |top|
    ensures forall j :: 0 <= j < |top| ==> r[j] == WebPlayer(cid0 + j, top[j].discordId, nameOf(top[j].discordId))
  {
    seq(|top|, j requires 0 <= j < |top| => WebPlayer(cid0 + j, top[j].discordId, nameOf(top[j].discordId)))
  }

  /** The bracket participants after `ws` are registered on bracket `id`, starting from `p0`. */
  function Registered(p0: map<string, seq<WebPlayer>>, id: string, ws: seq<WebPlayer>): map<string, seq<WebPlayer>> {
    if ws == [] then p0 else p0[id := (if id in p0 then p0[id] else []) + ws]
  }

  /** Registering one more participant on bracket `id` extends its list by that one. */
  lemma RegisteredNext(p0: map<string, seq<WebPlayer>>, id: string, ws: seq<WebPlayer>, w: WebPlayer)
    ensures var ps := Registered(p0, id, ws);
            ps[id := (if id in ps then ps[id] else []) + [w]] == Registered(p0, id, ws + [w])
  {
    var base := if id in p0 then p0[id] else [];
    if ws != [] {
      assert base + ws + [w] == base + (ws + [w]);
      UpdateTwice(p0, id, base + ws, base + ws + [w]);
    } else {
      assert ws + [w] == [w];
    }
  }

  /** The first `i` top players found in the original, confirmed in record `id` and given the role, from db0 and effects e0. */
  ghost predicate ConfirmedUpTo(t: DbTournament, id: string, top: seq<WebPlayer>, role: string, i: nat,
                            before: Option<DbTournament>, db0: seq<DbTournament>, e0: seq<Effect>, cid0: int,
                            db: seq<DbTournament>, effects: seq<Effect>)
    requires i <= |top|
  {
    && (forall j :: 0 <= j < i ==> t.FindPlayer(top[j].discordId).Some?)
    && ChangedOnly(db0, db, id, if before.Some? then Some(Enrolled(before.value, t, top[..i], cid0)) else None)
    && effects == e0 + Grants(top[..i], role)
  }

  /** The first `n` top players registered on bracket `id` with consecutive ids from cid0, from participants p0. */
  ghost predicate SignedUp(id: string, top: seq<WebPlayer>, n: nat, cid0: int, p0: map<string, seq<WebPlayer>>,
                           nameOf: UserId -> string, nextId: int, ps: map<string, seq<WebPlayer>>)
    requires n <= |top|
  {
    && nextId == cid0 + n
    && ps == Registered(p0, id, Signups(top[..n], cid0, nameOf))
  }

  /**
   * The state after the first `i` top players were enrolled and the first
   * `n` registered on the bracket, from the database db0, effects e0, next
   * bracket id cid0 and bracket participants p0.
   */
  ghost predicate Enrolment(t: DbTournament, id: string, top: seq<WebPlayer>, role: string, i: nat, n: nat,
                            before: Option<DbTournament>, db0: seq<DbTournament>, e0: seq<Effect>, cid0: int,
                            p0: map<string, seq<WebPlayer>>, nameOf: UserId -> string,
                            db: seq<DbTournament>, effects: seq<Effect>, nextId: int, ps: map<string, seq<WebPlayer>>)
  {
    && i <= n <= |top|
    && ConfirmedUpTo(t, id, top, role, i, before, db0, e0, cid0, db, effects)
    && SignedUp(id, top, n, cid0, p0, nameOf, nextId, ps)
  }

  /** Registering top player `n` on the bracket after the first `n`. */
  lemma SignedUpNext(id: string, top: seq<WebPlayer>, n: nat, cid0: int, p0: map<string, seq<WebPlayer>>,
                     nameOf: UserId -> string, id1: int, ps1: map<string, seq<WebPlayer>>, got1: seq<WebPlayer>,
                     ps2: map<string, seq<WebPlayer>>)
    requires n < |top| && SignedUp(id, top, n, cid0, p0, nameOf, id1, ps1)
    requires got1 == (if id in ps1 then ps1[id] else [])
    requires ps2 == ps1[id := got1 + [WebPlayer(id1, top[n].discordId, nameOf(top[n].discordId))]]
    ensures SignedUp(id, top, n + 1, cid0, p0, nameOf, id1 + 1, ps2)
  {
    var w := WebPlayer(cid0 + n, top[n].discordId, nameOf(top[n].discordId));
    assert Signups(top[..n + 1], cid0, nameOf) == Signups(top[..n], cid0, nameOf) + [w];
    RegisteredNext(p0, id, Signups(top[..n], cid0, nameOf), w);
  }

  /** Confirming top player `i`, found in the original, after the first `i`. */
  lemma ConfirmedNext(t: DbTournament, id: string, top: seq<WebPlayer>, role: string, i: nat,
                      before: Option<DbTournament>, db0: seq<DbTournament>, e0: seq<Effect>, cid0: int,
                      db1: seq<DbTournament>, rec1: Option<DbTournament>, e1: seq<Effect>,
                      db2: seq<DbTournament>, e2: seq<Effect>)
    requires i < |top| && ConfirmedUpTo(t, id, top, role, i, before, db0, e0, cid0, db1, e1)
    requires rec1 == Lookup(db1, id) && t.FindPlayer(top[i].discordId).Some?
    requires ChangedOnly(db1, db2, id, if rec1.Some? then Some(Confirm(rec1.value, Player(top[i].discordId, cid0 + i, DeckOf(t, top[i].discordId)))) else None)
    requires e2 == e1 + [RoleGranted(top[i].discordId, role)]
    ensures ConfirmedUpTo(t, id, top, role, i + 1, before, db0, e0, cid0, db2, e2)
  {
    if before.Some? {
      EnrolledStep(before.value, t, top, cid0, i);
    }
    assert Grants(top[..i + 1], role) == Grants(top[..i], role) + [RoleGranted(top[i].discordId, role)];
  }

  /** Enlisting top player `i` after the first `i` were enrolled: the enrolment moves on by one when they are found. */
  lemma EnrolmentNext(t: DbTournament, id: string, top: seq<WebPlayer>, role: string, i: nat,
                      before: Option<DbTournament>, db0: seq<DbTournament>, e0: seq<Effect>, cid0: int,
                      p0: map<string, seq<WebPlayer>>, nameOf: UserId -> string,
                      db1: seq<DbTournament>, rec1: Option<DbTournament>, e1: seq<Effect>, id1: int,
                      ps1: map<string, seq<WebPlayer>>, got1: seq<WebPlayer>,
                      db2: seq<DbTournament>, e2: seq<Effect>, ps2: map<string, seq<WebPlayer>>, found: bool)
    requires i < |top| && id1 == cid0 + i
    requires Enrolment(t, id, top, role, i, i, before, db0, e0, cid0, p0, nameOf, db1, e1, id1, ps1)
    requires rec1 == Lookup(db1, id) && got1 == (if id in ps1 then ps1[id] else [])
    requires found <==> t.FindPlayer(top[i].discordId).Some?
    requires ps2 == ps1[id := got1 + [WebPlayer(id1, top[i].discordId, nameOf(top[i].discordId))]]
    requires found ==> ChangedOnly(db1, db2, id, if rec1.Some? then Some(Confirm(rec1.value, Player(top[i].discordId, id1, DeckOf(t, top[i].discordId)))) else None)
    requires found ==> e2 == e1 + [RoleGranted(top[i].discordId, role)]
    requires !found ==> db2 == db1 && e2 == e1
    ensures Enrolment(t, id, top, role, if found then i + 1 else i, i + 1, before, db0, e0, cid0, p0, nameOf, db2, e2, cid0 + i + 1, ps2)
  {
    SignedUpNext(id, top, i, cid0, p0, nameOf, id1, ps1, got1, ps2);
    if found {
      ConfirmedNext(t, id, top, role, i, before, db0, e0, cid0, db1, rec1, e1, db2, e2);
      EnrolmentOf(t, id, top, role, i + 1, i + 1, before, db0, e0, cid0, p0, nameOf, db2, e2, cid0 + i + 1, ps2);
    } else {
      EnrolmentOf(t, id, top, role, i, i + 1, before, db0, e0, cid0, p0, nameOf, db2, e2, cid0 + i + 1, ps2);
    }
  }

  /** The enrolment state is its confirmations and its registrations together. */
  lemma EnrolmentOf(t: DbTournament, id: string, top: seq<WebPlayer>, role: string, i: nat, n: nat,
                    before: Option<DbTournament>, db0: seq<DbTournament>, e0: seq<Effect>, cid0: int,
                    p0: map<string, seq<WebPlayer>>, nameOf: UserId -> string,
                    db: seq<DbTournament>, effects: seq<Effect>, nextId: int, ps: map<string, seq<WebPlayer>>)
    requires i <= n <= |top|
    requires ConfirmedUpTo(t, id, top, role, i, before, db0, e0, cid0, db, effects)
    requires SignedUp(id, top, n, cid0, p0, nameOf, nextId, ps)
    ensures Enrolment(t, id, top, role, i, n, before, db0, e0, cid0, p0, nameOf, db, effects, nextId, ps)
  {
  }

  lemma Extends<T>(a: seq<T>, x: seq<T>, y: seq<T>, z: seq<T>)
    ensures a <= a + x + y + z && a <= a + x + y && a <= a + x
  {
    assert (a + x + y + z)[..|a|] == a;
    assert (a + x + y)[..|a|] == a;
    assert (a + x)[..|a|] == a;
  }

  lemma PrefixThen<T>(a: seq<T>, b: seq<T>, c: seq<T>)
    requires a <= b && b <= c
    ensures a <= c
  {
    assert c[..|b|][..|a|] == c[..|a|];
  }

  lemma UpdateTwice<K, V>(m: map<K, V>, k: K, a: V, b: V)
    ensures m[k := a][k := b] == m[k := b]
  {
  }

  /**
   * countStrings: how many times each string occurs in the list; a string
   * that does not occur has no entry.
   */
  function CountStrings(list: seq<string>): (counts: map<string, nat>)
    ensures forall s :: s in counts <==> s in list
    ensures forall s :: s in counts ==> counts[s] == multiset(list)[s]
  {
    TallyOfList(list);
    TallyFrom(map[], list)
  }

  class TournamentManager {
    /** The first report of each open match, by match id. */
    var matchScores: map<int, MatchScore>
    /** The countdown timers of each tournament's current round, by tournament id. */
    var timers: map<string, seq<PersistentTimer>>
    const front: DiscordInterface
    const discord: Discord
    const database: Database
    const website: Website
    const table: CountdownTable
    const log: Logger
    /** templater.format(name, tournament id). */
    const template: (string, string) -> string
    /** getRESTUsername: the user's name, when Discord knows the user. */
    const restUsername: UserId -> Option<string>

    constructor (front: DiscordInterface, database: Database, website: Website, table: CountdownTable, log: Logger,
                 template: (string, string) -> string, restUsername: UserId -> Option<string>)
      ensures matchScores == map[] && timers == map[]
      ensures this.front == front && discord == front.api && this.database == database && this.website == website
      ensures this.table == table && this.log == log && this.template == template && this.restUsername == restUsername
      ensures Valid()
    {
      matchScores := map[];
      timers := map[];
      this.front := front;
      discord := front.api;
      this.database := database;
      this.website := website;
      this.table := table;
      this.log := log;
      this.template := template;
      this.restUsername := restUsername;
    }

    /** A timer of this manager: it talks to the manager's Discord, table and logger, and was started. */
    predicate Owns(tm: PersistentTimer) {
      tm.discord == discord && tm.table == table && tm.log == log && tm.interval
    }

    function TimersOf(id: string): seq<PersistentTimer>
      reads this`timers
    {
      if id in timers then timers[id] else []
    }

    function AllTimers(): set<PersistentTimer>
      reads this`timers
    {
      set id, i | id in timers && 0 <= i < |timers[id]| :: timers[id][i]
    }

    ghost predicate Valid()
      reads this`timers
    {
      && front.api == discord
      && forall id, i :: id in timers && 0 <= i < |timers[id]| ==> Owns(timers[id][i])
    }

    /**
     * getRealUsername as written: the REST name of an id that passes the
     * naive check, otherwise nothing. Ids starting with 9 never reach Discord.
     */
    function RealUsername(userId: UserId): (r: Option<string>)
      ensures r.Some? ==> r == restUsername(userId) && |userId| > 0 && '1' <= userId[0] <= '8'
      ensures SnowflakeStartAsWritten(userId) ==> r == restUsername(userId)
      ensures |userId| > 0 && userId[0] == '9' ==> r.None?
    {
      if SnowflakeStartAsWritten(userId) then restUsername(userId) else None
    }

    /**
     * getRealUsername with the intended check: every snowflake is looked up,
     * and an id that does not start with a digit (the BYE# and DUMMY#
     * placeholders) is not.
     */
    function IntendedUsername(userId: UserId): (r: Option<string>)
      ensures Snowflake(userId) ==> r == restUsername(userId)
      ensures r.Some? ==> r == restUsername(userId) && |userId| > 0 && '1' <= userId[0] <= '9'
      ensures |userId| == 0 || !('0' <= userId[0] <= '9') ==> r.None?
    {
      if SnowflakeStart(userId) then restUsername(userId) else None
    }

    /** The two checks give different answers exactly for a known user whose id starts with 9. */
    lemma UsernameChecksDiffer(userId: UserId)
      ensures RealUsername(userId) != IntendedUsername(userId) <==>
              |userId| > 0 && userId[0] == '9' && restUsername(userId).Some?
    {
    }

    /**
     * What one player of a pairing is sent, and the next message id: the
     * matchup by direct message when they have a name and accept DMs,
     * otherwise a note to each private channel.
     */
    function Notice(t: DbTournament, receiver: UserId, opponent: UserId, receiverName: Option<string>,
                    opponentName: Option<string>, id0: nat): (seq<Effect>, nat)
    {
      if Truthy(receiverName) && receiver !in discord.blockedDMs then
        ([DirectMessage(receiver, MatchupText(t, opponent, opponentName))], id0)
      else
        (Posts(t.privateChannels, DmFailureText(t, receiver, opponent, discord.usernameOf(opponent)), id0),
         id0 + |t.privateChannels|)
    }

    /** Both players of a match are told, the first player first; a match with an unknown player is skipped. */
    function MatchNotices(t: DbTournament, m: WebMatch, ps: seq<WebPlayer>, id0: nat): (seq<Effect>, nat)
    {
      var p1, p2 := FindDiscord(ps, m.player1), FindDiscord(ps, m.player2);
      if Truthy(p1) && Truthy(p2) then
        var n1, n2 := RealUsername(p1.value), RealUsername(p2.value);
        var a := Notice(t, p1.value, p2.value, n1, n2, id0);
        var b := Notice(t, p2.value, p1.value, n2, n1, a.1);
        (a.0 + b.0, b.1)
      else ([], id0)
    }

    function Pairings(t: DbTournament, ms: seq<WebMatch>, ps: seq<WebPlayer>, id0: nat): (seq<Effect>, nat)
    {
      if ms == [] then ([], id0)
      else
        var before := Pairings(t, ms[..|ms| - 1], ps, id0);
        var last := MatchNotices(t, ms[|ms| - 1], ps, before.1);
        (before.0 + last.0, last.1)
    }

    /** One more match adds its notices at the end, numbered from where the earlier ones stopped. */
    lemma PairingsStep(t: DbTournament, ms: seq<WebMatch>, i: nat, ps: seq<WebPlayer>, id0: nat)
      requires i < |ms|
      ensures var before := Pairings(t, ms[..i], ps, id0);
              var last := MatchNotices(t, ms[i], ps, before.1);
              Pairings(t, ms[..i + 1], ps, id0) == (before.0 + last.0, last.1)
      ensures Warnings(ms[..i + 1], ps) == Warnings(ms[..i], ps) + MatchWarning(ms[i], ps)
    {
      assert ms[..i + 1][..i] == ms[..i];
    }

    /** The direct messages of a round: the pairings of the open matches `ms`, then the bye's. */
    function RoundMessages(t: DbTournament, ms: seq<WebMatch>, ps: seq<WebPlayer>, bye: Option<UserId>, id0: nat): seq<Effect>
    {
      Pairings(t, ms, ps, id0).0
        + if Truthy(bye) && bye.value !in discord.blockedDMs then [DirectMessage(bye.value, ByeText(t))] else []
    }

    /**
     * Everything a new round shows on Discord: the announcement and countdown
     * in each public channel, then, unless skipped, the round's direct messages.
     */
    function RoundEffects(t: DbTournament, url: string, skip: bool, id0: nat): seq<Effect>
      reads website`matches, website`players, website`byes
    {
      Announcements(t.publicChannels, NewRoundText(t, discord.playerRoleOf(t.id), url), RoundStartCountdown, id0)
        + if skip then [] else RoundMessages(t, website.GetMatches(t.id), website.GetPlayers(t.id), website.GetBye(t.id), id0 + 2 * |t.publicChannels|)
    }

    /** A round's bye who does not accept DMs makes the round's start throw, after everything else was sent. */
    predicate ByeBlocked(t: DbTournament, skip: bool)
      reads website`matches, website`players, website`byes
    {
      var bye := website.GetBye(t.id);
      !skip && Truthy(bye) && bye.value in discord.blockedDMs
    }

    /** The decision submitScore takes for a report, from the current claims and open match. */
    function ReportOf(tid: string, p: Player, own: JsInt, opp: JsInt, host: bool): Step
      reads this`matchScores, website`openMatches
    {
      Report(matchScores, host, website.FindMatch(tid, p.challongeId), p.challongeId, p.discordId, own, opp)
    }

    // -------------------------------------------------------------------------
    // Sending
    // -------------------------------------------------------------------------

    /** The same message to each channel, one after the other. */
    method Broadcast(cs: seq<ChannelId>, content: string)
      modifies discord`effects, discord`nextId, discord`messages
      ensures discord.effects == old(discord.effects) + Posts(cs, content, old(discord.nextId))
      ensures discord.nextId == old(discord.nextId) + |cs|
    {
      var i := 0;
      while i < |cs|
        invariant 0 <= i <= |cs|
        invariant discord.effects == old(discord.effects) + Posts(cs[..i], content, old(discord.nextId))
        invariant discord.nextId == old(discord.nextId) + i
      {
        var id := discord.SendMessage(cs[i], content);
        assert Posts(cs[..i + 1], content, old(discord.nextId)) == Posts(cs[..i], content, old(discord.nextId)) + [Sent(cs[i], content, id)];
        i := i + 1;
      }
      assert cs[..i] == cs;
    }

    // -------------------------------------------------------------------------
    // submitScore
    // -------------------------------------------------------------------------

    /**
     * submitScore: the tournament must be in progress and the reporter one of
     * its players; the report is then decided by Scores.Report, whose verdict,
     * if any, is sent to the bracket. A confirmed score is also told to the
     * claimant by direct message and to the hosts' private channels.
     */
    method SubmitScore(tid: string, playerId: UserId, own: JsInt, opp: JsInt, host: bool) returns (r: Result<string, Error>)
      modifies this`matchScores, website`submitted, discord`effects, discord`nextId, discord`messages
      ensures var t := old(database.GetTournament(tid, Some(InProgress)));
              t.Err? ==> && r == Err(t.error) && matchScores == old(matchScores)
                         && website.submitted == old(website.submitted) && discord.effects == old(discord.effects)
      ensures var t := old(database.GetTournament(tid, Some(InProgress)));
              t.Ok? && t.value.FindPlayer(playerId).None? ==>
                && r == Err(Undefined) && matchScores == old(matchScores)
                && website.submitted == old(website.submitted) && discord.effects == old(discord.effects)
      ensures var t := old(database.GetTournament(tid, Some(InProgress)));
              t.Ok? && t.value.FindPlayer(playerId).Some? ==>
                var step := old(ReportOf(tid, t.value.FindPlayer(playerId).value, own, opp, host));
                && matchScores == step.claims
                && website.submitted == old(website.submitted)
                     + (if step.verdict.Some?
                        then [Submission(tid, step.verdict.value.winner, step.verdict.value.winnerScore, step.verdict.value.loserScore)]
                        else [])
                && (!step.outcome.Confirmed? ==>
                      r == Ok(ReplyFor(step.outcome, t.value, MentionUser(playerId), own, opp)) && discord.effects == old(discord.effects))
                && (step.outcome.Confirmed? && step.outcome.claim.playerDiscord in discord.blockedDMs ==>
                      r == Err(BlockedDMs) && discord.effects == old(discord.effects))
                && (step.outcome.Confirmed? && step.outcome.claim.playerDiscord !in discord.blockedDMs ==>
                      && r == Ok(ReplyFor(step.outcome, t.value, MentionUser(playerId), own, opp))
                      && discord.effects == old(discord.effects)
                           + [DirectMessage(step.outcome.claim.playerDiscord, ConfirmedDMText(t.value, own, opp))]
                           + Posts(t.value.privateChannels,
                                   ReportedToHostsText(t.value, playerId, discord.usernameOf(playerId), step.outcome.claim.playerDiscord,
                                                       discord.usernameOf(step.outcome.claim.playerDiscord), own, opp),
                                   old(discord.nextId)))
    {
      var got := database.GetTournament(tid, Some(InProgress));
      if got.Err? {
        return Err(got.error);
      }
      var t := got.value;
      var player := t.FindPlayer(playerId);
      if player.None? {
        return Err(Undefined);
      }
      var step := ReportOf(tid, player.value, own, opp, host);
      matchScores := step.claims;
      if step.verdict.Some? {
        website.SubmitScore(tid, step.verdict.value.winner, step.verdict.value.winnerScore, step.verdict.value.loserScore);
      }
      if step.outcome.Confirmed? {
        var opponent := step.outcome.claim.playerDiscord;
        var delivered := discord.SendDirectMessage(opponent, ConfirmedDMText(t, own, opp));
        if !delivered {
          return Err(BlockedDMs);
        }
        Broadcast(t.privateChannels, ReportedToHostsText(t, playerId, discord.usernameOf(playerId), opponent,
                                                         discord.usernameOf(opponent), own, opp));
      }
      r := Ok(ReplyFor(step.outcome, t, MentionUser(playerId), own, opp));
    }

    // -------------------------------------------------------------------------
    // Timers and rounds
    // -------------------------------------------------------------------------

    /** None of the timers is still running. */
    predicate Stopped(ts: seq<PersistentTimer>)
      reads ts`scheduled
    {
      forall i :: 0 <= i < |ts| ==> !ts[i].scheduled
    }

    /** cancelTimers: aborts every timer of the tournament, then leaves it an empty list. */
    method CancelTimers(id: string)
      requires Valid()
      modifies this`timers, TimersOf(id)`scheduled, table`rows, table`removals
      ensures Valid()
      ensures timers == old(timers)[id := []]
      ensures Stopped(old(TimersOf(id)))
      ensures table.removals == old(table.removals) + KeysOf(old(TimersOf(id)))
      ensures table.rows == old(table.rows) - set i | 0 <= i < |old(TimersOf(id))| :: old(TimersOf(id))[i].key
    {
      var ts := TimersOf(id);
      var i := 0;
      while i < |ts|
        invariant 0 <= i <= |ts|
        invariant timers == old(timers) && Valid()
        invariant forall j :: 0 <= j < i ==> !ts[j].scheduled
        invariant table.removals == old(table.removals) + KeysOf(ts[..i])
        invariant table.rows == old(table.rows) - set j | 0 <= j < i :: ts[j].key
      {
        assert ts[i] in AllTimers() && Owns(ts[i]);
        ts[i].Abort();
        assert KeysOf(ts[..i + 1]) == KeysOf(ts[..i]) + [ts[i].key];
        assert (set j | 0 <= j < i + 1 :: ts[j].key) == (set j | 0 <= j < i :: ts[j].key) + {ts[i].key};
        i := i + 1;
      }
      assert ts[..i] == ts;
      timers := timers[id := []];
    }

    /** sendNewRoundMessage in one channel, then a new countdown timer there until `end`. */
    method AnnounceUntil(channel: ChannelId, text: string, finalMessage: string, now: int, end: int, id: string)
      returns (tm: PersistentTimer)
      modifies discord`effects, discord`nextId, discord`messages, table`rows, table`nextKey
      ensures discord.effects == old(discord.effects)
                + [Sent(channel, text, old(discord.nextId)), Sent(channel, CountdownText(FormatTime(end - now)), old(discord.nextId) + 1)]
      ensures discord.nextId == old(discord.nextId) + 2
      ensures fresh(tm) && RoundTimer(tm, end, channel, old(discord.nextId) + 1, finalMessage, id)
    {
      var _ := discord.SendMessage(channel, text);
      tm := PersistentTimer.Create(discord, table, log, now, end, channel, finalMessage, RoundUpdateInterval, Some(id));
    }

    /** The same for a round starting now: its countdown opens at 50 minutes. */
    method AnnounceIn(channel: ChannelId, text: string, finalMessage: string, now: int, id: string)
      returns (tm: PersistentTimer)
      modifies discord`effects, discord`nextId, discord`messages, table`rows, table`nextKey
      ensures discord.effects == old(discord.effects)
                + [Sent(channel, text, old(discord.nextId)), Sent(channel, RoundStartCountdown, old(discord.nextId) + 1)]
      ensures discord.nextId == old(discord.nextId) + 2
      ensures fresh(tm) && RoundTimer(tm, RoundEnd(now), channel, old(discord.nextId) + 1, finalMessage, id)
    {
      tm := AnnounceUntil(channel, text, finalMessage, now, RoundEnd(now), id);
      RoundStartText(now);
    }

    /** A timer of this manager, still scheduled, counting down in `channel` on message `messageId`. */
    predicate RoundTimer(tm: PersistentTimer, end: int, channel: ChannelId, messageId: nat, finalMessage: string, id: string)
      reads tm`scheduled
    {
      Owns(tm) && tm.scheduled && tm.entity == Countdown(end, channel, messageId, finalMessage, RoundUpdateInterval, Some(id))
    }

    /** One round timer per channel, in order, each on the second of the two messages sent to its channel from `id0` on. */
    predicate RoundTimers(ts: seq<PersistentTimer>, end: int, channels: seq<ChannelId>, id0: nat, finalMessage: string, id: string)
      reads ts`scheduled
    {
      && |ts| == |channels|
      && forall i :: 0 <= i < |ts| ==> RoundTimer(ts[i], end, channels[i], id0 + 2 * i + 1, finalMessage, id)
    }

    /** The announcement and a new countdown timer in each public channel, in order. */
    method AnnounceRound(t: DbTournament, text: string, finalMessage: string, now: int) returns (created: seq<PersistentTimer>)
      modifies discord`effects, discord`nextId, discord`messages, table`rows, table`nextKey
      ensures |created| == |t.publicChannels|
      ensures discord.effects == old(discord.effects) + Announcements(t.publicChannels, text, RoundStartCountdown, old(discord.nextId))
      ensures discord.nextId == old(discord.nextId) + 2 * |t.publicChannels|
      ensures forall i :: 0 <= i < |created| ==> fresh(created[i])
      ensures forall i :: 0 <= i < |created| ==>
                RoundTimer(created[i], RoundEnd(now), t.publicChannels[i], old(discord.nextId) + 2 * i + 1, finalMessage, t.id)
    {
      var cs := t.publicChannels;
      ghost var e0, id0 := discord.effects, discord.nextId;
      created := [];
      var i := 0;
      while i < |cs|
        invariant 0 <= i <= |cs| && |created| == i
        invariant discord.effects == e0 + Announcements(cs[..i], text, RoundStartCountdown, id0)
        invariant discord.nextId == id0 + 2 * i
        invariant forall j :: 0 <= j < i ==> fresh(created[j])
        invariant forall j :: 0 <= j < i ==> RoundTimer(created[j], RoundEnd(now), cs[j], id0 + 2 * j + 1, finalMessage, t.id)
      {
        var tm := AnnounceIn(cs[i], text, finalMessage, now, t.id);
        AnnouncementsStep(cs, i, text, RoundStartCountdown, id0);
        created := created + [tm];
        i := i + 1;
      }
      assert cs[..i] == cs;
    }

    /** sendMatchupDM, falling back to reportMatchDMFailure; or reportMatchDMFailure alone for a receiver without a name. */
    method NotifyReceiver(t: DbTournament, receiver: UserId, opponent: UserId, receiverName: Option<string>, opponentName: Option<string>)
      modifies discord`effects, discord`nextId, discord`messages
      ensures var n := Notice(t, receiver, opponent, receiverName, opponentName, old(discord.nextId));
              discord.effects == old(discord.effects) + n.0 && discord.nextId == n.1
    {
      var failure := DmFailureText(t, receiver, opponent, discord.usernameOf(opponent));
      ghost var fallback := (Posts(t.privateChannels, failure, discord.nextId), discord.nextId + |t.privateChannels|);
      if Truthy(receiverName) {
        var delivered := discord.SendDirectMessage(receiver, MatchupText(t, opponent, opponentName));
        if !delivered {
          assert Notice(t, receiver, opponent, receiverName, opponentName, old(discord.nextId)) == fallback;
          Broadcast(t.privateChannels, failure);
        }
      } else {
        assert Notice(t, receiver, opponent, receiverName, opponentName, old(discord.nextId)) == fallback;
        Broadcast(t.privateChannels, failure);
      }
    }

    /** The pairing messages of one match, or a warning when a player is missing from the list. */
    method NotifyMatch(t: DbTournament, m: WebMatch, ps: seq<WebPlayer>)
      modifies discord`effects, discord`nextId, discord`messages, log`entries
      ensures var n := MatchNotices(t, m, ps, old(discord.nextId));
              discord.effects == old(discord.effects) + n.0 && discord.nextId == n.1
      ensures log.entries == old(log.entries) + MatchWarning(m, ps)
    {
      var p1, p2 := FindDiscord(ps, m.player1), FindDiscord(ps, m.player2);
      if Truthy(p1) && Truthy(p2) {
        var n1 := RealUsername(p1.value);
        var n2 := RealUsername(p2.value);
        NotifyReceiver(t, p1.value, p2.value, n1, n2);
        NotifyReceiver(t, p2.value, p1.value, n2, n1);
      } else {
        log.Log(Warn, MissingPlayersText(p1, p2, m.matchId));
      }
    }

    /** The pairing messages of every open match, in the bracket's order. */
    method NotifyPairings(t: DbTournament)
      modifies discord`effects, discord`nextId, discord`messages, log`entries
      ensures var p := Pairings(t, website.GetMatches(t.id), website.GetPlayers(t.id), old(discord.nextId));
              discord.effects == old(discord.effects) + p.0 && discord.nextId == p.1
      ensures log.entries == old(log.entries) + Warnings(website.GetMatches(t.id), website.GetPlayers(t.id))
    {
      var ms := website.GetMatches(t.id);
      var ps := website.GetPlayers(t.id);
      ghost var e0, w0, id0 := discord.effects, log.entries, discord.nextId;
      ghost var done: (seq<Effect>, nat) := ([], id0);
      var i := 0;
      while i < |ms|
        invariant 0 <= i <= |ms|
        invariant done == Pairings(t, ms[..i], ps, id0)
        invariant discord.effects == e0 + done.0 && discord.nextId == done.1
        invariant log.entries == w0 + Warnings(ms[..i], ps)
      {
        ghost var next := MatchNotices(t, ms[i], ps, done.1);
        ghost var before := discord.effects;
        NotifyMatch(t, ms[i], ps);
        assert discord.effects == before + next.0;
        Associate(e0, done.0, next.0);
        PairingsStep(t, ms, i, ps, id0);
        done := (done.0 + next.0, next.1);
        i := i + 1;
      }
      assert ms[..i] == ms;
    }

    /** The first half of startNewRound: the old timers aborted, the round announced, one new timer per public channel. */
    method RestartTimers(t: DbTournament, text: string, finalMessage: string, now: int)
      requires Valid()
      modifies this`timers, TimersOf(t.id)`scheduled, table`rows, table`nextKey, table`removals, discord`effects, discord`nextId, discord`messages
      ensures Valid()
      ensures t.id in timers && timers == old(timers)[t.id := timers[t.id]]
      ensures RoundTimers(timers[t.id], RoundEnd(now), t.publicChannels, old(discord.nextId), finalMessage, t.id)
      ensures forall i :: 0 <= i < |timers[t.id]| ==> fresh(timers[t.id][i])
      ensures Stopped(old(TimersOf(t.id)))
      ensures table.removals == old(table.removals) + KeysOf(old(TimersOf(t.id)))
      ensures discord.effects == old(discord.effects) + Announcements(t.publicChannels, text, RoundStartCountdown, old(discord.nextId))
      ensures discord.nextId == old(discord.nextId) + 2 * |t.publicChannels|
    {
      CancelTimers(t.id);
      var created := AnnounceRound(t, text, finalMessage, now);
      timers := timers[t.id := created];
    }

    /** The second half, unless skipped: the pairings of the bracket's open matches, then the bye's direct message. */
    method SendRoundMessages(t: DbTournament, skip: bool) returns (r: Result<(), Error>)
      modifies discord`effects, discord`nextId, discord`messages, log`entries
      ensures discord.effects == old(discord.effects)
                + if skip then [] else RoundMessages(t, website.GetMatches(t.id), website.GetPlayers(t.id), website.GetBye(t.id), old(discord.nextId))
      ensures log.entries == old(log.entries) + if skip then [] else Warnings(website.GetMatches(t.id), website.GetPlayers(t.id))
      ensures r.Err? <==> ByeBlocked(t, skip)
      ensures r.Err? ==> r.error == BlockedDMs
    {
      r := Ok(());
      if skip {
        return;
      }
      NotifyPairings(t);
      var bye := website.GetBye(t.id);
      if Truthy(bye) {
        var delivered := discord.SendDirectMessage(bye.value, ByeText(t));
        if !delivered {
          r := Err(BlockedDMs);
        }
      }
    }

    /**
     * startNewRound: the tournament's old timers are aborted and replaced by
     * exactly one new 50-minute timer per public channel; then, unless
     * skipped, the players are told their pairings and the bye its bye.
     */
    method StartNewRound(t: DbTournament, url: string, now: int, skip: bool) returns (r: Result<(), Error>)
      requires Valid()
      modifies this`timers, TimersOf(t.id)`scheduled, table`rows, table`nextKey, table`removals, discord`effects, discord`nextId, discord`messages, log`entries
      ensures Valid()
      ensures t.id in timers && timers == old(timers)[t.id := timers[t.id]]
      ensures RoundTimers(timers[t.id], RoundEnd(now), t.publicChannels, old(discord.nextId), TimeUpText(MentionRole(discord.playerRoleOf(t.id))), t.id)
      ensures discord.effects == old(discord.effects) + old(RoundEffects(t, url, skip, discord.nextId))
      ensures log.entries == old(log.entries) + if skip then [] else Warnings(website.GetMatches(t.id), website.GetPlayers(t.id))
      ensures r.Err? <==> ByeBlocked(t, skip)
      ensures r.Err? ==> r.error == BlockedDMs
    {
      var role := discord.playerRoleOf(t.id);
      ghost var e0, id0 := discord.effects, discord.nextId;
      ghost var ms, ps, bye := website.GetMatches(t.id), website.GetPlayers(t.id), website.GetBye(t.id);
      ghost var ann := Announcements(t.publicChannels, NewRoundText(t, role, url), RoundStartCountdown, id0);
      ghost var msgs := if skip then [] else RoundMessages(t, ms, ps, bye, id0 + 2 * |t.publicChannels|);
      assert RoundEffects(t, url, skip, id0) == ann + msgs;
      RestartTimers(t, NewRoundText(t, role, url), TimeUpText(MentionRole(role)), now);
      assert discord.nextId == id0 + 2 * |t.publicChannels|;
      assert msgs == if skip then [] else RoundMessages(t, website.GetMatches(t.id), website.GetPlayers(t.id), website.GetBye(t.id), discord.nextId);
      ghost var timers1 := timers;
      r := SendRoundMessages(t, skip);
      assert timers == timers1;
      assert discord.effects == (e0 + ann) + msgs;
      Associate(e0, ann, msgs);
    }

    /** nextRound: only for a tournament in progress whose bracket can be read. */
    method NextRound(id: string, now: int, skip: bool) returns (r: Result<(), Error>)
      requires Valid()
      modifies this`timers, TimersOf(id)`scheduled, table`rows, table`nextKey, table`removals, discord`effects, discord`nextId, discord`messages, log`entries
      ensures Valid()
      ensures var t := old(database.GetTournament(id, Some(InProgress)));
              t.Err? ==> r == Err(t.error) && timers == old(timers) && discord.effects == old(discord.effects)
      ensures var t, w := old(database.GetTournament(id, Some(InProgress))), old(website.GetTournament(id));
              t.Ok? && w.Err? ==> r == Err(w.error) && timers == old(timers) && discord.effects == old(discord.effects)
      ensures var t, w := old(database.GetTournament(id, Some(InProgress))), old(website.GetTournament(id));
              t.Ok? && w.Ok? ==>
                && id in timers && |timers[id]| == |t.value.publicChannels|
                && discord.effects == old(discord.effects) + old(RoundEffects(t.value, w.value.url, skip, discord.nextId))
                && (r.Err? <==> ByeBlocked(t.value, skip))
    {
      var t := database.GetTournament(id, Some(InProgress));
      if t.Err? {
        return Err(t.error);
      }
      var w := website.GetTournament(id);
      if w.Err? {
        return Err(w.error);
      }
      r := StartNewRound(t.value, w.value.url, now, skip);
    }

    // -------------------------------------------------------------------------
    // loadTimers
    // -------------------------------------------------------------------------

    /** One loaded timer: it joins its tournament's list, or, as an orphan, is aborted with a warning. */
    method AdoptOne(tm: PersistentTimer)
      requires Owns(tm) && tm.table == table && (tm.scheduled || Orphan(tm))
      modifies this`timers, tm`scheduled, table`rows, table`removals, log`entries
      ensures Owns(tm) && (tm.scheduled <==> !Orphan(tm))
      ensures timers == Adopt(old(timers), tm)
      ensures table.rows == old(table.rows) - OrphanKey(tm)
      ensures table.removals == old(table.removals) + IfOrphan(tm, [tm.key])
      ensures log.entries == old(log.entries) + IfOrphan(tm, [(Warn, OrphanText)])
    {
      if !Orphan(tm) {
        var id := tm.entity.tournament.value;
        timers := timers[id := (if id in timers then timers[id] else []) + [tm]];
      } else {
        log.Log(Warn, OrphanText);
        tm.Abort();
      }
    }

    /**
     * The loop of loadTimers over freshly loaded timers: each timer with a
     * tournament joins that tournament's list; each orphan is aborted with a
     * warning; then the totals are logged.
     */
    /** Where the loop of loadTimers stands after the first `i` timers. */
    ghost predicate AdoptedUpTo(ts: seq<PersistentTimer>, i: nat, w0: seq<(Level, string)>,
                                rows0: map<nat, Countdown>, removals0: seq<nat>)
      requires i <= |ts|
      reads this`timers, ts`scheduled, table`rows, table`removals, log`entries
    {
      && timers == Group(ts[..i])
      && log.entries == w0 + OrphanWarnings(ts[..i])
      && table.rows == rows0 - OrphanKeys(ts[..i])
      && table.removals == removals0 + KeysOf(Orphans(ts[..i]))
      && (forall j :: 0 <= j < i ==> (ts[j].scheduled <==> !Orphan(ts[j])))
      && (forall j :: i <= j < |ts| ==> ts[j].scheduled || Orphan(ts[j]))
    }

    /** One turn of the loop of loadTimers: the next timer is adopted. */
    method AdoptNext(ts: seq<PersistentTimer>, i: nat, tm: PersistentTimer, ghost w0: seq<(Level, string)>,
                     ghost rows0: map<nat, Countdown>, ghost removals0: seq<nat>)
      requires i < |ts| && AdoptedUpTo(ts, i, w0, rows0, removals0)
      requires tm == ts[i] && Owns(tm) && tm.table == table
      modifies this`timers, tm`scheduled, table`rows, table`removals, log`entries
      ensures AdoptedUpTo(ts, i + 1, w0, rows0, removals0)
      ensures |Orphans(ts[..i + 1])| == |Orphans(ts[..i])| + (if Orphan(ts[i]) then 1 else 0)
    {
      AdoptOne(tm);
      AdoptStep(ts, i);
      RemoveMore(rows0, OrphanKeys(ts[..i]), OrphanKey(tm));
      Associate(removals0, KeysOf(Orphans(ts[..i])), IfOrphan(tm, [tm.key]));
      Associate(w0, OrphanWarnings(ts[..i]), IfOrphan(tm, [(Warn, OrphanText)]));
    }

    /**
     * The loop of loadTimers: every timer adopted in turn; `count` is the
     * number that were not orphans.
     */
    method AdoptEach(ts: seq<PersistentTimer>) returns (count: nat)
      requires timers == map[]
      requires forall i :: 0 <= i < |ts| ==> Owns(ts[i]) && ts[i].scheduled && ts[i].table == table
      modifies this`timers, ts`scheduled, table`rows, table`removals, log`entries
      ensures timers == Group(ts)
      ensures forall i :: 0 <= i < |ts| ==> (ts[i].scheduled <==> !Orphan(ts[i]))
      ensures table.rows == old(table.rows) - OrphanKeys(ts)
      ensures table.removals == old(table.removals) + KeysOf(Orphans(ts))
      ensures log.entries == old(log.entries) + OrphanWarnings(ts)
      ensures count == |ts| - |Orphans(ts)|
    {
      ghost var w0, rows0, removals0 := log.entries, table.rows, table.removals;
      assert ts[..0] == [];
      count := 0;
      var i := 0;
      while i < |ts|
        invariant 0 <= i <= |ts| && AdoptedUpTo(ts, i, w0, rows0, removals0)
        invariant count == i - |Orphans(ts[..i])|
      {
        AdoptNext(ts, i, ts[i], w0, rows0, removals0);
        if !Orphan(ts[i]) {
          count := count + 1;
        }
        i := i + 1;
      }
      AdoptedAll(ts, w0, rows0, removals0);
    }

    /** loadTimers after loading: the loop over the loaded timers, then the totals logged. */
    method AdoptTimers(ts: seq<PersistentTimer>)
      requires timers == map[]
      requires forall i :: 0 <= i < |ts| ==> Owns(ts[i]) && ts[i].scheduled && ts[i].table == table
      modifies this`timers, ts`scheduled, table`rows, table`removals, log`entries
      ensures timers == Group(ts)
      ensures forall i :: 0 <= i < |ts| ==> (ts[i].scheduled <==> !Orphan(ts[i]))
      ensures table.rows == old(table.rows) - OrphanKeys(ts)
      ensures table.removals == old(table.removals) + KeysOf(Orphans(ts))
      ensures log.entries == old(log.entries) + LoadLog(ts)
    {
      var count := AdoptEach(ts);
      log.Log(Info, LoadedText(count, |ts|, |timers|));
      Associate(old(log.entries), OrphanWarnings(ts), [(Info, LoadedText(count, |ts|, |timers|))]);
    }

    /** After the whole list, the timers are grouped and every orphan is stopped, removed and reported. */
    lemma AdoptedAll(ts: seq<PersistentTimer>, w0: seq<(Level, string)>, rows0: map<nat, Countdown>, removals0: seq<nat>)
      requires AdoptedUpTo(ts, |ts|, w0, rows0, removals0)
      ensures timers == Group(ts)
      ensures forall i :: 0 <= i < |ts| ==> (ts[i].scheduled <==> !Orphan(ts[i]))
      ensures table.rows == rows0 - OrphanKeys(ts)
      ensures table.removals == removals0 + KeysOf(Orphans(ts))
      ensures log.entries == w0 + OrphanWarnings(ts)
      ensures |Orphans(ts[..|ts|])| == |Orphans(ts)|
    {
      assert ts[..|ts|] == ts;
    }

    /** Grouping timers this manager owns gives lists of timers it owns. */
    lemma GroupOwned(ts: seq<PersistentTimer>)
      requires forall i :: 0 <= i < |ts| ==> Owns(ts[i])
      ensures forall id, j :: id in Group(ts) && 0 <= j < |Group(ts)[id]| ==> Owns(Group(ts)[id][j])
    {
      forall id, j | id in Group(ts) && 0 <= j < |Group(ts)[id]|
        ensures Owns(Group(ts)[id][j])
      {
        GroupMembers(ts, id, j);
      }
    }

    /**
     * loadTimers: a second call only warns. The first loads the countdowns
     * still running, drops the expired rows, and keeps each loaded timer on its
     * tournament's list, aborting the orphans. `loaded` names the timers
     * loadAll returned.
     */
    method LoadTimers(now: int) returns (ghost loaded: seq<PersistentTimer>)
      requires Valid()
      modifies this`timers, table`rows, table`removals, log`entries
      ensures Valid()
      ensures old(timers) != map[] ==>
                && timers == old(timers) && table.rows == old(table.rows) && table.removals == old(table.removals)
                && log.entries == old(log.entries) + [(Warn, RepeatedLoadText)]
      ensures old(timers) == map[] ==>
                && timers == Group(loaded)
                && (forall i :: 0 <= i < |loaded| ==>
                      && fresh(loaded[i]) && loaded[i].key in old(table.rows)
                      && loaded[i].entity == old(table.rows)[loaded[i].key] && loaded[i].entity.end > now
                      && (loaded[i].scheduled <==> !Orphan(loaded[i])))
                && (forall k :: k in Running(old(table.rows), now) ==> exists i :: 0 <= i < |loaded| && loaded[i].key == k)
                && table.rows == Running(old(table.rows), now) - OrphanKeys(loaded)
                && multiset(table.removals) == multiset(old(table.removals)) + multiset(Expired(old(table.rows), now))
                                               + multiset(KeysOf(Orphans(loaded)))
                && log.entries == old(log.entries) + LoadLog(loaded)
    {
      if timers != map[] {
        log.Log(Warn, RepeatedLoadText);
        return [];
      }
      var ts := PersistentTimer.LoadAll(discord, table, log, now);
      loaded := ts;
      ghost var removals1 := table.removals;
      AdoptTimers(ts);
      GroupOwned(ts);
      assert multiset(table.removals) == multiset(removals1) + multiset(KeysOf(Orphans(ts)));
    }

    // -------------------------------------------------------------------------
    // createTournament
    // -------------------------------------------------------------------------

    /** The urls checkUrlTaken reports as taken. */
    ghost function TakenUrls(): set<string>
      reads website`tournaments, website`readOnly, database`tournaments
    {
      website.tournaments.Keys + website.readOnly + set t | t in database.tournaments :: t.id
    }

    /**
     * checkUrlTaken: taken when the website has the bracket, or refuses to
     * show it because another account owns it; otherwise taken when the
     * database has the tournament.
     */
    function UrlTaken(url: string): (taken: bool)
      reads website`tournaments, website`readOnly, database`tournaments
      ensures taken <==> url in TakenUrls()
    {
      var w := website.GetTournament(url);
      if w.Ok? || w.error.Message() == ReadOnlyMessage then true
      else database.GetTournament(url, None).Ok?
    }

    /**
     * createTournament's search for a url: the name's slug, then the slug
     * followed by 0, 1, 2, ..., until checkUrlTaken says one is free.
     */
    method FreeUrl(base: string) returns (url: string)
      ensures exists k :: FirstFree(base, k, TakenUrls()) && url == Candidate(base, k)
      ensures url !in TakenUrls()
    {
      url := base;
      var i: nat := 0;
      ghost var taken := TakenUrls();
      while UrlTaken(url)
        invariant url == Candidate(base, i)
        invariant forall j :: 0 <= j < i ==> Candidate(base, j) in taken
        invariant Tried(base, i) <= taken
        decreases taken - Tried(base, i)
      {
        NextUntried(base, i);
        assert Tried(base, i + 1) == Tried(base, i) + {url};
        url := base + NatToString(i);
        i := i + 1;
      }
    }

    /**
     * createTournament: the bracket and then the tournament record are
     * created under the first free url.
     */
    method CreateTournament(host: UserId, server: string, name: string, desc: string, topCut: bool)
      returns (r: (string, string, string))
      modifies website`tournaments, website`calls, database`tournaments
      ensures exists k :: FirstFree(Slug(name), k, old(TakenUrls())) && r.0 == Candidate(Slug(name), k)
      ensures r.0 !in old(TakenUrls())
      ensures r == (r.0, website.addressOf(r.0), template("create", r.0))
      ensures website.tournaments == old(website.tournaments)[r.0 := WebTournament(r.0, website.addressOf(r.0), name, desc)]
      ensures website.calls == old(website.calls) + [Created(r.0, topCut)]
      ensures ChangedOnly(old(database.tournaments), database.tournaments, r.0, Some(NewTournament(host, server, r.0, name, desc)))
    {
      var url := FreeUrl(Slug(name));
      var web := website.CreateTournament(name, desc, url, topCut);
      database.CreateTournament(host, server, web.id, name, desc);
      r := (web.id, web.url, template("create", web.id));
    }

    // -------------------------------------------------------------------------
    // Opening registration
    // -------------------------------------------------------------------------

    /** A registration message in each public channel, each listening for the check mark and stored. */
    method PostRegistrations(t: DbTournament)
      requires front.api == discord
      modifies discord`effects, discord`nextId, discord`messages, discord`onReaction, discord`onReactionRemove,
               database`registerMessages
      ensures discord.effects == old(discord.effects) + Posts(t.publicChannels, OpenText(t), old(discord.nextId))
      ensures discord.nextId == old(discord.nextId) + |t.publicChannels|
      ensures database.registerMessages == old(database.registerMessages) + RegistrationsOf(t.publicChannels, t.id, old(discord.nextId))
      ensures discord.onReaction == old(discord.onReaction) + Listeners(old(discord.nextId), |t.publicChannels|, "registerPlayer")
      ensures discord.onReactionRemove == old(discord.onReactionRemove)
                + Listeners(old(discord.nextId), |t.publicChannels|, "dropPlayerReaction")
    {
      var cs := t.publicChannels;
      ghost var id0 := discord.nextId;
      var i := 0;
      while i < |cs|
        invariant 0 <= i <= |cs|
        invariant discord.nextId == id0 + i
        invariant discord.effects == old(discord.effects) + Posts(cs[..i], OpenText(t), id0)
        invariant database.registerMessages == old(database.registerMessages) + RegistrationsOf(cs[..i], t.id, id0)
        invariant discord.onReaction == old(discord.onReaction) + Listeners(id0, i, "registerPlayer")
        invariant discord.onReactionRemove == old(discord.onReactionRemove) + Listeners(id0, i, "dropPlayerReaction")
      {
        var msg := front.AwaitReaction(OpenText(t), cs[i], CheckEmoji, "registerPlayer", "dropPlayerReaction");
        database.OpenRegistration(t.id, cs[i], msg);
        assert Posts(cs[..i + 1], OpenText(t), id0) == Posts(cs[..i], OpenText(t), id0) + [Sent(cs[i], OpenText(t), msg)];
        assert RegistrationsOf(cs[..i + 1], t.id, id0) == RegistrationsOf(cs[..i], t.id, id0) + [RegisterMessage(cs[i], msg, t.id)];
        assert Listeners(id0, i + 1, "registerPlayer") == Listeners(id0, i, "registerPlayer") + [ReactionHandler(msg, CheckEmoji, "registerPlayer")];
        assert Listeners(id0, i + 1, "dropPlayerReaction") == Listeners(id0, i, "dropPlayerReaction") + [ReactionHandler(msg, CheckEmoji, "dropPlayerReaction")];
        i := i + 1;
      }
      assert cs[..i] == cs;
    }

    /**
     * openTournament: only a preparing tournament with at least one public
     * channel opens; each public channel gets a registration message, then
     * each private channel the hosts' guide.
     */
    method OpenTournament(id: string) returns (r: Result<(), Error>)
      requires front.api == discord
      modifies discord`effects, discord`nextId, discord`messages, discord`onReaction, discord`onReactionRemove,
               database`registerMessages
      ensures var t := old(database.GetTournament(id, Some(Preparing)));
              t.Err? || |t.value.publicChannels| < 1 ==>
                && r == Err(if t.Err? then t.error else UserError(NoPublicChannelText))
                && discord.effects == old(discord.effects) && database.registerMessages == old(database.registerMessages)
                && discord.onReaction == old(discord.onReaction)
      ensures var t := old(database.GetTournament(id, Some(Preparing)));
              t.Ok? && |t.value.publicChannels| >= 1 ==>
                && r == Ok(())
                && discord.effects == old(discord.effects) + Posts(t.value.publicChannels, OpenText(t.value), old(discord.nextId))
                     + Posts(t.value.privateChannels, template("open", id), old(discord.nextId) + |t.value.publicChannels|)
                && database.registerMessages == old(database.registerMessages) + RegistrationsOf(t.value.publicChannels, id, old(discord.nextId))
                && discord.onReaction == old(discord.onReaction) + Listeners(old(discord.nextId), |t.value.publicChannels|, "registerPlayer")
    {
      var t := database.GetTournament(id, Some(Preparing));
      if t.Err? {
        return Err(t.error);
      }
      if |t.value.publicChannels| < 1 {
        return Err(UserError(NoPublicChannelText));
      }
      PostRegistrations(t.value);
      Broadcast(t.value.privateChannels, template("open", id));
      r := Ok(());
    }

    // -------------------------------------------------------------------------
    // Starting
    // -------------------------------------------------------------------------

    /** Deletes each registration message, one after the other. */
    method DeleteRegistrations(ms: seq<RegisterMessage>)
      modifies discord`effects, discord`messages
      ensures discord.effects == old(discord.effects) + DeletionsOf(ms)
    {
      var i := 0;
      while i < |ms|
        invariant 0 <= i <= |ms|
        invariant discord.effects == old(discord.effects) + DeletionsOf(ms[..i])
      {
        discord.DeleteMessage(ms[i].channelId, ms[i].messageId);
        assert DeletionsOf(ms[..i + 1]) == DeletionsOf(ms[..i]) + [Deleted(ms[i].channelId, ms[i].messageId)];
        i := i + 1;
      }
      assert ms[..i] == ms;
    }

    /**
     * The same direct message to each user. Every message is attempted; the
     * result says whether all were delivered (a Promise.all over the sends
     * rejects if one of them does).
     */
    method SendDirectMessages(us: seq<UserId>, text: string) returns (all: bool)
      modifies discord`effects
      ensures discord.effects == old(discord.effects) + DirectMessages(us, text, discord.blockedDMs)
      ensures all <==> Reachable(us, discord.blockedDMs)
    {
      all := true;
      var i := 0;
      while i < |us|
        invariant 0 <= i <= |us|
        invariant discord.effects == old(discord.effects) + DirectMessages(us[..i], text, discord.blockedDMs)
        invariant all <==> forall j :: 0 <= j < i ==> us[j] !in discord.blockedDMs
      {
        var delivered := discord.SendDirectMessage(us[i], text);
        DirectMessagesStep(us, i, text, discord.blockedDMs);
        all := all && delivered;
        i := i + 1;
      }
      assert us[..i] == us;
    }

    /** The command guides, to the players in the public channels and to the hosts in the private ones. */
    function Guides(t: DbTournament, id0: nat): (r: seq<Effect>)
      ensures |r| == |t.publicChannels| + |t.privateChannels|
    {
      Posts(t.publicChannels, template("player", t.id), id0)
        + Posts(t.privateChannels, template("start", t.id), id0 + |t.publicChannels|)
    }

    /** A tournament's first round, when its bracket can be read; nothing otherwise. */
    function FirstRoundEffects(t: DbTournament, id0: nat): seq<Effect>
      reads website`tournaments, website`readOnly, website`matches, website`players, website`byes
    {
      var w := website.GetTournament(t.id);
      if w.Ok? then RoundEffects(t, w.value.url, false, id0) else []
    }

    /** What starting a tournament does before anything else: its registration messages deleted, its pending players told. */
    function DropEffects(t: DbTournament, ms: seq<RegisterMessage>): seq<Effect> {
      DeletionsOf(ms) + DirectMessages(t.pending, DroppedText(t), discord.blockedDMs)
    }

    /** The command guides to the players and the hosts, then the bracket started with its byes. */
    method AnnounceStart(t: DbTournament)
      requires Valid()
      modifies discord`effects, discord`nextId, discord`messages, website`calls
      ensures Valid()
      ensures discord.effects == old(discord.effects) + Guides(t, old(discord.nextId))
      ensures discord.nextId == old(discord.nextId) + |t.publicChannels| + |t.privateChannels|
      ensures website.calls == old(website.calls) + [ByesAssigned(t.id, t.byes), Started(t.id)]
    {
      ghost var e0, id0 := discord.effects, discord.nextId;
      Broadcast(t.publicChannels, template("player", t.id));
      Broadcast(t.privateChannels, template("start", t.id));
      assert discord.effects == e0 + Guides(t, id0);
      website.Call(ByesAssigned(t.id, t.byes));
      website.Call(Started(t.id));
    }

    /**
     * How a first round ended, given the bracket w as read before it and the
     * timers before: an unreadable bracket is the error and changes no
     * timer; otherwise the round's countdowns replace the tournament's, and
     * the round fails only when the bye cannot be told.
     */
    predicate RoundBegun(t: DbTournament, r: Result<(), Error>, w: Result<WebTournament, Error>,
                         timers0: map<string, seq<PersistentTimer>>)
      reads this`timers, website`matches, website`players, website`byes
    {
      && (w.Err? ==> r == Err(w.error) && timers == timers0)
      && (w.Ok? ==> (r.Err? <==> ByeBlocked(t, false)) && (r.Err? ==> r.error == BlockedDMs))
      && (w.Ok? ==> t.id in timers && timers == timers0[t.id := timers[t.id]])
    }

    /**
     * The end of startTournament: the first round on the bracket's address,
     * then the placeholder players of the byes dropped; nothing when the
     * bracket cannot be read.
     */
    method FirstRound(t: DbTournament, now: int) returns (r: Result<(), Error>, ghost round: seq<Effect>)
      requires Valid()
      modifies this`timers, TimersOf(t.id)`scheduled, table`rows, table`nextKey, table`removals,
               discord`effects, discord`nextId, discord`messages, log`entries, website`calls
      ensures Valid()
      ensures discord.effects == old(discord.effects) + round && round == FirstRoundEffects(t, old(discord.nextId))
      ensures RoundBegun(t, r, old(website.GetTournament(t.id)), old(timers))
      ensures old(website.GetTournament(t.id)).Ok? ==>
                RoundTimers(timers[t.id], RoundEnd(now), t.publicChannels, old(discord.nextId),
                            TimeUpText(MentionRole(discord.playerRoleOf(t.id))), t.id)
      ensures website.calls == old(website.calls) + if r.Ok? then [ByesDropped(t.id, |t.byes|)] else []
    {
      round := FirstRoundEffects(t, discord.nextId);
      var w := website.GetTournament(t.id);
      if w.Err? {
        return Err(w.error), round;
      }
      assert round == RoundEffects(t, w.value.url, false, discord.nextId);
      r := StartNewRound(t, w.value.url, now, false);
      ghost var calls1 := website.calls;
      assert calls1 == old(website.calls);
      if r.Ok? {
        website.Call(ByesDropped(t.id, |t.byes|));
      }
    }

    /**
     * The first half of startTournament: the registration messages deleted,
     * the tournament in progress with its pending players dropped, and each of
     * them told. `all` says whether every one of them could be told.
     */
    method DropPending(t: DbTournament) returns (all: bool)
      requires database.GetTournament(t.id, Some(Preparing)) == Ok(t)
      modifies discord`effects, discord`messages, database`tournaments
      ensures ChangedOnly(old(database.tournaments), database.tournaments, t.id, Some(t.(status := InProgress, pending := [])))
      ensures discord.effects == old(discord.effects) + DropEffects(t, old(database.RegisterMessagesOf(t.id)))
      ensures all <==> Reachable(t.pending, discord.blockedDMs)
    {
      DeleteRegistrations(database.RegisterMessagesOf(t.id));
      ghost var e1 := discord.effects;
      var dropped := database.StartTournament(t.id);
      all := SendDirectMessages(dropped, DroppedText(t));
      Associate(old(discord.effects), DeletionsOf(old(database.RegisterMessagesOf(t.id))), DirectMessages(t.pending, DroppedText(t), discord.blockedDMs));
    }

    /**
     * What the guides and the first round leave behind, from the effects e0,
     * the first message id id0, the bracket calls calls0, the timers timers0
     * and the bracket w before them: the guides, then the first round's
     * messages, one countdown per public channel, and the bracket started
     * with its byes, which are dropped once the round has begun.
     */
    predicate Begun(t: DbTournament, r: Result<(), Error>, e0: seq<Effect>, id0: nat, calls0: seq<WebCall>,
                    timers0: map<string, seq<PersistentTimer>>, w: Result<WebTournament, Error>)
      reads this`timers, discord`effects, website`calls, website`tournaments, website`readOnly,
            website`matches, website`players, website`byes
    {
      && discord.effects == e0 + Guides(t, id0) + FirstRoundEffects(t, id0 + |t.publicChannels| + |t.privateChannels|)
      && RoundBegun(t, r, w, timers0)
      && (w.Ok? ==> |timers[t.id]| == |t.publicChannels|)
      && website.calls == calls0 + [ByesAssigned(t.id, t.byes), Started(t.id)]
           + if r.Ok? then [ByesDropped(t.id, |t.byes|)] else []
    }

    lemma BegunIntro(t: DbTournament, r: Result<(), Error>, e0: seq<Effect>, id0: nat, id1: nat, calls0: seq<WebCall>,
                     timers0: map<string, seq<PersistentTimer>>, w: Result<WebTournament, Error>)
      requires id1 == id0 + |t.publicChannels| + |t.privateChannels|
      requires discord.effects == e0 + Guides(t, id0) + FirstRoundEffects(t, id1)
      requires RoundBegun(t, r, w, timers0)
      requires w.Ok? ==> |timers[t.id]| == |t.publicChannels|
      requires website.calls == calls0 + [ByesAssigned(t.id, t.byes), Started(t.id)]
                 + if r.Ok? then [ByesDropped(t.id, |t.byes|)] else []
      ensures Begun(t, r, e0, id0, calls0, timers0, w)
    {
    }

    /** The guides, the bracket started with its byes, then its first round. */
    method Commence(t: DbTournament, now: int) returns (r: Result<(), Error>)
      requires Valid()
      modifies this`timers, TimersOf(t.id)`scheduled, table`rows, table`nextKey, table`removals,
               discord`effects, discord`nextId, discord`messages, log`entries, website`calls
      ensures Valid()
      ensures Begun(t, r, old(discord.effects), old(discord.nextId), old(website.calls), old(timers), old(website.GetTournament(t.id)))
    {
      AnnounceStart(t);
      ghost var id1 := discord.nextId;
      ghost var round;
      r, round := FirstRound(t, now);
      BegunIntro(t, r, old(discord.effects), old(discord.nextId), id1, old(website.calls), old(timers), old(website.GetTournament(t.id)));
    }

    /**
     * The outcome of starting the preparing tournament t, from the effects
     * e0, the first message id id0, the bracket calls calls0, the timers
     * timers0 and the bracket w before: a pending player who cannot be told
     * stops it after the drop; otherwise the guides and the first round follow.
     */
    predicate StartOutcome(t: DbTournament, r: Result<(), Error>, ms: seq<RegisterMessage>, e0: seq<Effect>, id0: nat,
                           calls0: seq<WebCall>, timers0: map<string, seq<PersistentTimer>>,
                           w: Result<WebTournament, Error>)
      reads this`timers, discord`effects, website`calls, website`tournaments, website`readOnly,
            website`matches, website`players, website`byes
    {
      if !Reachable(t.pending, discord.blockedDMs) then
        && r == Err(BlockedDMs) && discord.effects == e0 + DropEffects(t, ms)
        && website.calls == calls0 && timers == timers0
      else
        Begun(t, r, e0 + DropEffects(t, ms), id0, calls0, timers0, w)
    }

    lemma StartIntro(t: DbTournament, r: Result<(), Error>, ms: seq<RegisterMessage>, e0: seq<Effect>, id0: nat,
                     calls0: seq<WebCall>, timers0: map<string, seq<PersistentTimer>>, w: Result<WebTournament, Error>)
      requires Reachable(t.pending, discord.blockedDMs)
      requires Begun(t, r, e0 + DropEffects(t, ms), id0, calls0, timers0, w)
      ensures StartOutcome(t, r, ms, e0, id0, calls0, timers0, w)
    {
    }

    /**
     * startTournament: only a preparing tournament with at least two
     * confirmed players starts. Its registration messages are deleted, its
     * pending players dropped and told; then the guides are posted, the
     * bracket is started with the byes, and the first round begins.
     */
    method StartTournament(id: string, now: int) returns (r: Result<(), Error>)
      requires Valid()
      modifies this`timers, TimersOf(id)`scheduled, table`rows, table`nextKey, table`removals,
               discord`effects, discord`nextId, discord`messages, log`entries, website`calls, database`tournaments
      ensures Valid()
      ensures var g := old(database.GetTournament(id, Some(Preparing)));
              g.Err? || |g.value.players| < 2 ==>
                && r == Err(if g.Err? then g.error else UserError(TooFewPlayersText))
                && database.tournaments == old(database.tournaments) && discord.effects == old(discord.effects)
                && website.calls == old(website.calls) && timers == old(timers)
      ensures var g := old(database.GetTournament(id, Some(Preparing)));
              g.Ok? && |g.value.players| >= 2 ==>
                && ChangedOnly(old(database.tournaments), database.tournaments, id, Some(g.value.(status := InProgress, pending := [])))
                && StartOutcome(g.value, r, old(database.RegisterMessagesOf(id)), old(discord.effects), old(discord.nextId),
                                old(website.calls), old(timers), old(website.GetTournament(id)))
    {
      var got := database.GetTournament(id, Some(Preparing));
      if got.Err? {
        return Err(got.error);
      }
      if |got.value.players| < 2 {
        return Err(UserError(TooFewPlayersText));
      }
      r := Launch(got.value, now);
    }

    /** A preparing tournament started: its pending players dropped, then, if all of them could be told, its first round. */
    method Launch(t: DbTournament, now: int) returns (r: Result<(), Error>)
      requires Valid() && database.GetTournament(t.id, Some(Preparing)) == Ok(t)
      modifies this`timers, TimersOf(t.id)`scheduled, table`rows, table`nextKey, table`removals,
               discord`effects, discord`nextId, discord`messages, log`entries, website`calls, database`tournaments
      ensures Valid()
      ensures ChangedOnly(old(database.tournaments), database.tournaments, t.id, Some(t.(status := InProgress, pending := [])))
      ensures StartOutcome(t, r, old(database.RegisterMessagesOf(t.id)), old(discord.effects), old(discord.nextId),
                           old(website.calls), old(timers), old(website.GetTournament(t.id)))
    {
      ghost var e0, id0, calls0, timers0 := discord.effects, discord.nextId, website.calls, timers;
      ghost var ms0, w0 := database.RegisterMessagesOf(t.id), website.GetTournament(t.id);
      var all := DropPending(t);
      if !all {
        return Err(BlockedDMs);
      }
      assert discord.nextId == id0 && website.calls == calls0 && timers == timers0;
      assert website.GetTournament(t.id) == w0 && discord.effects == e0 + DropEffects(t, ms0);
      r := Commence(t, now);
      StartIntro(t, r, ms0, e0, id0, calls0, timers0, w0);
    }

    // -------------------------------------------------------------------------
    // finishTournament
    // -------------------------------------------------------------------------

    /** The finishing notice in each public channel, then the participant role deleted. */
    function Farewell(t: DbTournament, cancel: bool, url: string, id0: nat): (r: seq<Effect>)
      ensures |r| == |t.publicChannels| + 1 && r[|t.publicChannels|] == RoleDeleted(t.id)
    {
      Posts(t.publicChannels, FinishText(t, cancel, discord.playerRoleOf(t.id), url), id0) + [RoleDeleted(t.id)]
    }

    /** The tournament wound up: its timers cancelled, its record complete, its channels told, its role deleted. */
    method Conclude(t: DbTournament, cancel: bool, url: string)
      requires Valid()
      modifies this`timers, TimersOf(t.id)`scheduled, table`rows, table`removals, database`tournaments,
               discord`effects, discord`nextId, discord`messages
      ensures Valid()
      ensures timers == old(timers)[t.id := []] && Stopped(old(TimersOf(t.id)))
      ensures var before := old(Lookup(database.tournaments, t.id));
              ChangedOnly(old(database.tournaments), database.tournaments, t.id,
                          if before.Some? then Some(before.value.(status := Complete)) else None)
      ensures discord.effects == old(discord.effects) + Farewell(t, cancel, url, old(discord.nextId))
      ensures discord.nextId == old(discord.nextId) + |t.publicChannels|
    {
      CancelTimers(t.id);
      database.FinishTournament(t.id);
      Broadcast(t.publicChannels, FinishText(t, cancel, discord.playerRoleOf(t.id), url));
      discord.DeletePlayerRole(t.id);
    }

    /** Each host of the list added to the tournament, in order. */
    method AddHosts(id: string, hs: seq<UserId>)
      modifies database`tournaments
      ensures var before := old(Lookup(database.tournaments, id));
              ChangedOnly(old(database.tournaments), database.tournaments, id,
                          if before.Some? then Some(before.value.(hosts := before.value.hosts + hs)) else None)
    {
      ghost var db0 := database.tournaments;
      ghost var before := Lookup(db0, id);
      if before.Some? {
        assert before.value.(hosts := before.value.hosts + hs[..0]) == before.value;
      }
      var i := 0;
      while i < |hs|
        invariant 0 <= i <= |hs|
        invariant ChangedOnly(db0, database.tournaments, id,
                              if before.Some? then Some(before.value.(hosts := before.value.hosts + hs[..i])) else None)
      {
        ghost var db1 := database.tournaments;
        database.AddHost(id, hs[i]);
        if before.Some? {
          assert before.value.hosts + hs[..i + 1] == before.value.hosts + hs[..i] + [hs[i]];
        }
        ChangedOnlyThen(db0, db1, database.tournaments, id, Lookup(db1, id), Lookup(database.tournaments, id));
        i := i + 1;
      }
      assert hs[..i] == hs;
    }

    /** Each channel of the list added to the tournament's public or private announcement channels, in order. */
    method CopyChannels(id: string, cs: seq<ChannelId>, private: bool)
      modifies database`tournaments
      ensures var before := old(Lookup(database.tournaments, id));
              ChangedOnly(old(database.tournaments), database.tournaments, id,
                          if before.Some? then Some(WithChannels(before.value, cs, private)) else None)
    {
      ghost var db0 := database.tournaments;
      ghost var before := Lookup(db0, id);
      if before.Some? {
        assert WithChannels(before.value, cs[..0], private) == before.value;
      }
      var i := 0;
      while i < |cs|
        invariant 0 <= i <= |cs|
        invariant ChangedOnly(db0, database.tournaments, id,
                              if before.Some? then Some(WithChannels(before.value, cs[..i], private)) else None)
      {
        ghost var db1 := database.tournaments;
        database.AddAnnouncementChannel(id, cs[i], private);
        if before.Some? {
          assert cs[..i + 1] == cs[..i] + [cs[i]];
          assert WithChannels(before.value, cs[..i + 1], private) == AddChannel(WithChannels(before.value, cs[..i], private), cs[i], private);
        }
        ChangedOnlyThen(db0, db1, database.tournaments, id, Lookup(db1, id), Lookup(database.tournaments, id));
        i := i + 1;
      }
      assert cs[..i] == cs;
    }

    /**
     * One top player registered on the new bracket under their Discord name,
     * then, when they have a record in the original, confirmed in the new
     * tournament with its deck and given the role.
     */
    method Enlist(t: DbTournament, id: string, user: UserId, role: string) returns (found: bool)
      modifies website`players, website`nextPlayerId, database`tournaments, discord`effects
      ensures found <==> t.FindPlayer(user).Some?
      ensures website.nextPlayerId == old(website.nextPlayerId) + 1
      ensures website.players == old(website.players)[id := old(website.GetPlayers(id))
                                  + [WebPlayer(old(website.nextPlayerId), user, discord.usernameOf(user))]]
      ensures found ==> ChangedOnly(old(database.tournaments), database.tournaments, id,
                                    if old(Lookup(database.tournaments, id)).Some?
                                    then Some(Confirm(old(Lookup(database.tournaments, id)).value, Player(user, old(website.nextPlayerId), DeckOf(t, user))))
                                    else None)
      ensures found ==> discord.effects == old(discord.effects) + [RoleGranted(user, role)]
      ensures !found ==> database.tournaments == old(database.tournaments) && discord.effects == old(discord.effects)
    {
      var challongeId := website.RegisterPlayer(id, discord.usernameOf(user), user);
      var player := t.FindPlayer(user);
      found := player.Some?;
      if found {
        database.ConfirmPlayer(id, user, challongeId, player.value.deck);
        discord.GrantPlayerRole(user, role);
      }
    }

    /** Enrolment of `top` into bracket and record `id` as far as the current state shows it. */
    ghost predicate EnrolledUpTo(t: DbTournament, id: string, top: seq<WebPlayer>, role: string, i: nat, n: nat,
                                 before: Option<DbTournament>, db0: seq<DbTournament>, e0: seq<Effect>, cid0: int,
                                 p0: map<string, seq<WebPlayer>>)
      reads database`tournaments, discord`effects, website`nextPlayerId, website`players
    {
      Enrolment(t, id, top, role, i, n, before, db0, e0, cid0, p0, discord.usernameOf,
                database.tournaments, discord.effects, website.nextPlayerId, website.players)
    }

    /** The next top player enlisted: on success the enrolment moves on by one; otherwise only the bracket registration does. */
    method EnrolNext(t: DbTournament, id: string, top: seq<WebPlayer>, role: string, i: nat,
                     ghost before: Option<DbTournament>, ghost db0: seq<DbTournament>, ghost e0: seq<Effect>, ghost cid0: int,
                     ghost p0: map<string, seq<WebPlayer>>)
      returns (found: bool)
      requires i < |top| && EnrolledUpTo(t, id, top, role, i, i, before, db0, e0, cid0, p0)
      requires before == Lookup(db0, id)
      modifies website`players, website`nextPlayerId, database`tournaments, discord`effects
      ensures found <==> t.FindPlayer(top[i].discordId).Some?
      ensures EnrolledUpTo(t, id, top, role, if found then i + 1 else i, i + 1, before, db0, e0, cid0, p0)
    {
      ghost var db1, rec1, e1 := database.tournaments, Lookup(database.tournaments, id), discord.effects;
      ghost var id1, ps1, got1 := website.nextPlayerId, website.players, website.GetPlayers(id);
      found := Enlist(t, id, top[i].discordId, role);
      EnrolmentNext(t, id, top, role, i, before, db0, e0, cid0, p0, discord.usernameOf, db1, rec1, e1, id1, ps1, got1,
                    database.tournaments, discord.effects, website.players, found);
    }

    /**
     * The top players registered on the new bracket, confirmed in the new
     * tournament with the deck of the original, and given its role. A player
     * without a record in the original fails with the TypeError of reading
     * its deck, after their bracket registration; `done` players were enrolled.
     */
    method Enrol(t: DbTournament, id: string, top: seq<WebPlayer>, role: string) returns (r: Result<(), Error>, ghost done: nat)
      modifies website`players, website`nextPlayerId, database`tournaments, discord`effects
      ensures done <= |top| && (r.Ok? <==> done == |top|)
      ensures r.Err? ==> r.error == Undefined && t.FindPlayer(top[done].discordId).None?
      ensures ConfirmedUpTo(t, id, top, role, done, old(Lookup(database.tournaments, id)), old(database.tournaments),
                        old(discord.effects), old(website.nextPlayerId), database.tournaments, discord.effects)
      ensures SignedUp(id, top, if r.Ok? then done else done + 1, old(website.nextPlayerId), old(website.players),
                       discord.usernameOf, website.nextPlayerId, website.players)
    {
      ghost var db0, e0, cid0, p0 := database.tournaments, discord.effects, website.nextPlayerId, website.players;
      ghost var before := Lookup(db0, id);
      if before.Some? {
        assert Enrolled(before.value, t, top[..0], cid0) == before.value;
      }
      var i := 0;
      while i < |top|
        invariant EnrolledUpTo(t, id, top, role, i, i, before, db0, e0, cid0, p0)
      {
        var found := EnrolNext(t, id, top, role, i, before, db0, e0, cid0, p0);
        if !found {
          return Err(Undefined), i;
        }
        i := i + 1;
      }
      r, done := Ok(()), i;
    }

    /** A preparing tournament, and at the end of its start, nothing of the effects or bracket calls before it is lost. */
    lemma StartOutcomeExtends(t: DbTournament, r: Result<(), Error>, ms: seq<RegisterMessage>, e0: seq<Effect>, id0: nat,
                              calls0: seq<WebCall>, timers0: map<string, seq<PersistentTimer>>, w: Result<WebTournament, Error>)
      requires StartOutcome(t, r, ms, e0, id0, calls0, timers0, w)
      ensures e0 <= discord.effects && calls0 <= website.calls
    {
      if Reachable(t.pending, discord.blockedDMs) {
        Extends(e0, DropEffects(t, ms), Guides(t, id0), FirstRoundEffects(t, id0 + |t.publicChannels| + |t.privateChannels|));
        Extends(calls0, [ByesAssigned(t.id, t.byes), Started(t.id)], if r.Ok? then [ByesDropped(t.id, |t.byes|)] else [], []);
      } else {
        Extends(e0, DropEffects(t, ms), [], []);
      }
    }

    /**
     * The new top-cut tournament filled in from the original: the other hosts
     * added, the top players enrolled, then the public and private channels
     * copied. Nothing else in the database changes.
     */
    method Seed(t: DbTournament, id: string, top: seq<WebPlayer>) returns (r: Result<(), Error>)
      requires Lookup(database.tournaments, id) == Some(NewTournament(LeadHost(t), t.server, id, t.name + " Top Cut", "Top Cut for " + t.name))
      modifies website`players, website`nextPlayerId, database`tournaments, discord`effects
      ensures r.Err? ==> r.error == Undefined
      ensures ChangedOnly(old(database.tournaments), database.tournaments, id, Lookup(database.tournaments, id))
      ensures Lookup(database.tournaments, id).Some? && Lookup(database.tournaments, id).value.status == Preparing
      ensures SeededFrom(t, Lookup(database.tournaments, id).value, top, r.Ok?)
      ensures old(discord.effects) <= discord.effects
    {
      ghost var db0 := database.tournaments;
      ghost var rec0 := Lookup(db0, id).value;
      if |t.hosts| > 1 {
        AddHosts(id, t.hosts[1..]);
        assert [t.hosts[0]] + t.hosts[1..] == t.hosts;
      }
      ghost var db1 := database.tournaments;
      ghost var rec1 := Lookup(db1, id).value;
      assert rec1 == rec0.(hosts := rec1.hosts);
      var role := discord.playerRoleOf(id);
      ghost var done;
      ghost var cid0, e1 := website.nextPlayerId, discord.effects;
      r, done := Enrol(t, id, top, role);
      EnrolledSeeded(t, id, rec1, top, role, done, cid0, db1, e1, database.tournaments, discord.effects, r.Ok?);
      ghost var rec2 := Enrolled(rec1, t, top[..done], cid0);
      ChangedOnlyThen(db0, db1, database.tournaments, id, Some(rec1), Some(rec2));
      if r.Err? {
        return;
      }
      ghost var db2 := database.tournaments;
      CopyChannels(id, t.publicChannels, false);
      ChangedOnlyThen(db0, db2, database.tournaments, id, Some(rec2), Some(WithChannels(rec2, t.publicChannels, false)));
      ghost var db3 := database.tournaments;
      CopyChannels(id, t.privateChannels, true);
      ChangedOnlyThen(db0, db3, database.tournaments, id, Some(WithChannels(rec2, t.publicChannels, false)),
                      Some(WithChannels(WithChannels(rec2, t.publicChannels, false), t.privateChannels, true)));
    }

    /**
     * The top-cut tournament opened: the best eight of t's final standings,
     * a new bracket and record at an unused url, created as a top cut by t's
     * first host, and seeded from t. No existing tournament record changes.
     */
    method OpenTopCut(t: DbTournament) returns (r: Result<(), Error>, newId: string)
      modifies website`tournaments, website`players, website`nextPlayerId, website`calls,
               database`tournaments, discord`effects
      ensures newId !in old(TakenUrls()) && old(Lookup(database.tournaments, newId)).None?
      ensures website.calls == old(website.calls) + [Created(newId, true)]
      ensures old(discord.effects) <= discord.effects
      ensures forall x :: x != newId ==> Lookup(database.tournaments, x) == old(Lookup(database.tournaments, x))
      ensures Lookup(database.tournaments, newId).Some? && Lookup(database.tournaments, newId).value.status == Preparing
      ensures SeededFrom(t, Lookup(database.tournaments, newId).value, website.TopCut(t.id, TopCutSize), r.Ok?)
      ensures r.Err? ==> r.error == Undefined
    {
      ghost var db0, taken0 := database.tournaments, TakenUrls();
      var top := website.TopCut(t.id, TopCutSize);
      var created := CreateTournament(LeadHost(t), t.server, t.name + " Top Cut", "Top Cut for " + t.name, true);
      newId := created.0;
      forall rec | rec in db0
        ensures rec.id != newId
      {
        assert rec.id in taken0;
      }
      ghost var db1 := database.tournaments;
      r := Seed(t, newId, top);
      ChangedOnlyThen(db0, db1, database.tournaments, newId, Lookup(db1, newId), Lookup(database.tournaments, newId));
    }

    /**
     * startTournament on the new top cut, as far as finishing the original
     * relies on it: only a successful start leaves the record in progress,
     * no other record changes, and nothing before it is lost.
     */
    method StartTopCut(id: string, now: int) returns (r: Result<(), Error>)
      requires Valid()
      modifies this`timers, TimersOf(id)`scheduled, table`rows, table`nextKey, table`removals,
               discord`effects, discord`nextId, discord`messages, log`entries, website`calls, database`tournaments
      ensures Valid()
      ensures old(discord.effects) <= discord.effects && old(website.calls) <= website.calls
      ensures var g := old(database.GetTournament(id, Some(Preparing)));
              if g.Ok? && |g.value.players| >= 2
              then ChangedOnly(old(database.tournaments), database.tournaments, id, Some(g.value.(status := InProgress, pending := [])))
              else r.Err? && database.tournaments == old(database.tournaments)
    {
      ghost var e0, c0, id0, timers0 := discord.effects, website.calls, discord.nextId, timers;
      ghost var g := database.GetTournament(id, Some(Preparing));
      ghost var ms, w0 := database.RegisterMessagesOf(id), website.GetTournament(id);
      r := StartTournament(id, now);
      if g.Ok? && |g.value.players| >= 2 {
        StartOutcomeExtends(g.value, r, ms, e0, id0, c0, timers0, w0);
      }
    }

    /**
     * The top cut of a finished tournament: opened and, when seeding
     * succeeded, started. No existing tournament record changes.
     */
    method TopCut(t: DbTournament, now: int) returns (r: Result<(), Error>, newId: string)
      requires Valid()
      modifies this`timers, AllTimers()`scheduled, table`rows, table`nextKey, table`removals,
               discord`effects, discord`nextId, discord`messages, log`entries,
               website`tournaments, website`players, website`nextPlayerId, website`calls, database`tournaments
      ensures Valid()
      ensures newId !in old(TakenUrls())
      ensures old(website.calls) + [Created(newId, true)] <= website.calls
      ensures old(discord.effects) <= discord.effects
      ensures forall x :: old(Lookup(database.tournaments, x)).Some? ==> Lookup(database.tournaments, x) == old(Lookup(database.tournaments, x))
      ensures Lookup(database.tournaments, newId).Some?
      ensures SeededFrom(t, Lookup(database.tournaments, newId).value, old(website.TopCut(t.id, TopCutSize)), r.Ok?)
      ensures r.Ok? ==> Lookup(database.tournaments, newId).value.status == InProgress
    {
      r, newId := OpenTopCut(t);
      if r.Err? {
        return;
      }
      ghost var e1, c1 := discord.effects, website.calls;
      ghost var g := database.GetTournament(newId, Some(Preparing));
      ghost var top := website.TopCut(t.id, TopCutSize);
      r := StartTopCut(newId, now);
      if g.Ok? && |g.value.players| >= 2 {
        SeededFromStarted(t, g.value, top, true, r.Ok?);
      }
      PrefixThen(old(discord.effects), e1, discord.effects);
      PrefixThen(old(website.calls) + [Created(newId, true)], c1, website.calls);
    }

    /**
     * What finishing t leaves behind: t complete and every other existing
     * record as it was; after the effects e0, the closing notices and the role
     * deletion; after the calls calls0, the bracket finalised unless
     * cancelled. A top cut follows exactly when TopCutDue, its creation being
     * the next bracket call; otherwise nothing else happens.
     */
    ghost predicate FinishOutcome(t: DbTournament, cancel: bool, url: string, r: Result<(), Error>, e0: seq<Effect>, id0: nat,
                                  calls0: seq<WebCall>, db0: seq<DbTournament>, timers0: map<string, seq<PersistentTimer>>,
                                  db: seq<DbTournament>, effects: seq<Effect>, calls: seq<WebCall>,
                                  timers: map<string, seq<PersistentTimer>>)
    {
      var told := e0 + Farewell(t, cancel, url, id0);
      var finished := calls0 + if cancel then [] else [Finished(t.id)];
      && Lookup(db, t.id) == Some(t.(status := Complete))
      && (forall x :: x != t.id && Lookup(db0, x).Some? ==> Lookup(db, x) == Lookup(db0, x))
      && told <= effects
      && finished <= calls
      && (TopCutDue(t, cancel) <==> |calls| > |finished|)
      && (TopCutDue(t, cancel) ==> calls[|finished|].Created? && calls[|finished|].topCut)
      && (!TopCutDue(t, cancel) ==>
            && r == Ok(()) && effects == told && calls == finished
            && ChangedOnly(db0, db, t.id, Some(t.(status := Complete)))
            && timers == timers0[t.id := []])
    }

    /** Once t is concluded, with no top cut due, finishing is over. */
    lemma FinishedPlain(t: DbTournament, cancel: bool, url: string, e0: seq<Effect>, id0: nat,
                        calls0: seq<WebCall>, db0: seq<DbTournament>, timers0: map<string, seq<PersistentTimer>>,
                        db: seq<DbTournament>, effects: seq<Effect>, calls: seq<WebCall>,
                        timers: map<string, seq<PersistentTimer>>)
      requires !TopCutDue(t, cancel)
      requires ChangedOnly(db0, db, t.id, Some(t.(status := Complete)))
      requires effects == e0 + Farewell(t, cancel, url, id0)
      requires calls == calls0 + if cancel then [] else [Finished(t.id)]
      requires timers == timers0[t.id := []]
      ensures FinishOutcome(t, cancel, url, Ok(()), e0, id0, calls0, db0, timers0, db, effects, calls, timers)
    {
    }

    /** Once t is concluded, a top cut that changes no existing record and creates one bracket first ends the finish. */
    lemma FinishedWithTopCut(t: DbTournament, cancel: bool, url: string, r: Result<(), Error>, e0: seq<Effect>, id0: nat,
                             calls0: seq<WebCall>, db0: seq<DbTournament>, timers0: map<string, seq<PersistentTimer>>,
                             db1: seq<DbTournament>, e1: seq<Effect>, c1: seq<WebCall>, newId: string,
                             db: seq<DbTournament>, effects: seq<Effect>, calls: seq<WebCall>,
                             timers: map<string, seq<PersistentTimer>>)
      requires TopCutDue(t, cancel)
      requires ChangedOnly(db0, db1, t.id, Some(t.(status := Complete)))
      requires e1 == e0 + Farewell(t, cancel, url, id0)
      requires c1 == calls0 + if cancel then [] else [Finished(t.id)]
      requires c1 + [Created(newId, true)] <= calls && e1 <= effects
      requires forall x :: Lookup(db1, x).Some? ==> Lookup(db, x) == Lookup(db1, x)
      ensures FinishOutcome(t, cancel, url, r, e0, id0, calls0, db0, timers0, db, effects, calls, timers)
    {
      assert calls[|c1|] == (c1 + [Created(newId, true)])[|c1|];
      assert Lookup(db1, t.id).Some?;
    }

    /**
     * finishTournament: only a tournament in progress finishes. Its bracket is
     * finalised (only read when cancelling), its timers cancelled, its record
     * completed, its public channels told and its role deleted; a finish of
     * more than eight players that is not a cancellation then runs a top cut.
     */
    method FinishTournament(id: string, cancel: bool, now: int) returns (r: Result<(), Error>)
      requires Valid()
      modifies this`timers, AllTimers()`scheduled, table`rows, table`nextKey, table`removals,
               discord`effects, discord`nextId, discord`messages, log`entries,
               website`tournaments, website`players, website`nextPlayerId, website`calls, database`tournaments
      ensures Valid()
      ensures var g, w := old(database.GetTournament(id, Some(InProgress))), old(website.GetTournament(id));
              g.Err? || w.Err? ==>
                && r == Err(if g.Err? then g.error else w.error)
                && database.tournaments == old(database.tournaments) && discord.effects == old(discord.effects)
                && website.calls == old(website.calls) && timers == old(timers)
      ensures var g, w := old(database.GetTournament(id, Some(InProgress))), old(website.GetTournament(id));
              g.Ok? && w.Ok? ==> FinishOutcome(g.value, cancel, w.value.url, r, old(discord.effects), old(discord.nextId),
                                               old(website.calls), old(database.tournaments), old(timers),
                                               database.tournaments, discord.effects, website.calls, timers)
    {
      var got := database.GetTournament(id, Some(InProgress));
      if got.Err? {
        return Err(got.error);
      }
      var t := got.value;
      var web;
      if cancel {
        web := website.GetTournament(id);
      } else {
        web := website.FinishTournament(id);
      }
      if web.Err? {
        return Err(web.error);
      }
      ghost var e0, id0, calls0, db0, timers0 := old(discord.effects), old(discord.nextId), old(website.calls), old(database.tournaments), old(timers);
      assert discord.effects == e0 && discord.nextId == id0 && database.tournaments == db0 && timers == timers0;
      assert website.calls == calls0 + if cancel then [] else [Finished(t.id)];
      assert Lookup(db0, t.id) == Some(t);
      Conclude(t, cancel, web.value.url);
      ghost var db1, e1, c1 := database.tournaments, discord.effects, website.calls;
      if TopCutDue(t, cancel) {
        var newId;
        r, newId := TopCut(t, now);
        FinishedWithTopCut(t, cancel, web.value.url, r, e0, id0, calls0, db0, timers0, db1, e1, c1, newId,
                           database.tournaments, discord.effects, website.calls, timers);
      } else {
        r := Ok(());
        FinishedPlain(t, cancel, web.value.url, e0, id0, calls0, db0, timers0, database.tournaments, discord.effects, website.calls, timers);
      }
    }

    // -------------------------------------------------------------------------
    // registerPlayer and confirmPlayer
    // -------------------------------------------------------------------------

    /**
     * What a user newly pending in t is told: a direct message asking for a
     * deck or, when the user does not accept DMs, a note to each private channel.
     */
    function SignUpNotice(t: DbTournament, user: UserId, id0: nat): seq<Effect> {
      if user !in discord.blockedDMs then [DirectMessage(user, RegisteringText(t))]
      else Posts(t.privateChannels, SignUpBlockedText(t, user, discord.usernameOf(user)), id0)
    }

    /**
     * registerPlayer, for a reaction by `user` on a registration message. A
     * user already pending anywhere loses the reaction and is refused before
     * anything is stored; otherwise the tournament the message belongs to gains
     * the user as pending, when it can, and the user is asked for a deck.
     */
    method RegisterPlayer(channel: ChannelId, message: MessageId, user: UserId) returns (r: Result<(), Error>)
      modifies discord`effects, discord`nextId, discord`messages, database`tournaments
      ensures var p := old(database.PendingTournaments(user));
              |p| > 0 ==>
                && r == Err(UserError(OneAtATimeText(p[0])))
                && database.tournaments == old(database.tournaments)
                && discord.effects == old(discord.effects) + [ReactionRemoved(channel, message, CheckEmoji, user)]
      ensures var p, a := old(database.PendingTournaments(user)), old(database.PendingTarget(channel, message, user));
              |p| == 0 ==>
                && r == Ok(())
                && (a.None? ==> database.tournaments == old(database.tournaments) && discord.effects == old(discord.effects))
                && (a.Some? ==> && ChangedOnly(old(database.tournaments), database.tournaments, a.value.id, a)
                                && discord.effects == old(discord.effects) + SignUpNotice(a.value, user, old(discord.nextId)))
    {
      var pending := database.PendingTournaments(user);
      if |pending| > 0 {
        discord.RemoveUserReaction(channel, message, CheckEmoji, user);
        return Err(UserError(OneAtATimeText(pending[0])));
      }
      var added := database.AddPendingPlayer(channel, message, user);
      r := Ok(());
      if added.Some? {
        var delivered := discord.SendDirectMessage(user, RegisteringText(added.value));
        if !delivered {
          Broadcast(added.value.privateChannels, SignUpBlockedText(added.value, user, discord.usernameOf(user)));
        }
      }
    }

    /** Each channel gets `first`, then `second`, with consecutive message ids. */
    method PostPairs(cs: seq<ChannelId>, first: string, second: string)
      modifies discord`effects, discord`nextId, discord`messages
      ensures discord.effects == old(discord.effects) + Announcements(cs, first, second, old(discord.nextId))
      ensures discord.nextId == old(discord.nextId) + 2 * |cs|
    {
      ghost var e0, id0 := discord.effects, discord.nextId;
      var i := 0;
      while i < |cs|
        invariant 0 <= i <= |cs|
        invariant discord.effects == e0 + Announcements(cs[..i], first, second, id0)
        invariant discord.nextId == id0 + 2 * i
      {
        var a := discord.SendMessage(cs[i], first);
        var b := discord.SendMessage(cs[i], second);
        AnnouncementsStep(cs, i, first, second, id0);
        i := i + 1;
      }
      assert cs[..i] == cs;
    }

    /** An accepted deck is shown to the hosts' private channels, then to its sender. */
    method ShowDeck(t: DbTournament, msg: IncomingMessage, notice: string, reply: string, printout: string)
      modifies discord`effects, discord`nextId, discord`messages
      ensures discord.effects == old(discord.effects) + DeckShown(t, msg, notice, reply, printout, old(discord.nextId))
    {
      ghost var e0, id0 := discord.effects, discord.nextId;
      PostPairs(t.privateChannels, notice, printout);
      ghost var a := Announcements(t.privateChannels, notice, printout, id0);
      discord.Reply(msg.channel, msg.id, reply);
      discord.Reply(msg.channel, msg.id, printout);
      assert discord.effects == e0 + a + [Replied(msg.channel, msg.id, reply), Replied(msg.channel, msg.id, printout)];
    }

    /**
     * confirmPlayer's outcome for the user's one pending tournament t, from the
     * state (e0, id0, db0, ps0, next0) to (e, db, ps, next). A missing or
     * illegal deck is refused and nothing is stored; a legal one registers the
     * user on the bracket under the next bracket id, confirms them with the
     * deck's url, grants the participant role and shows the deck.
     */
    ghost predicate SignUpOutcome(t: DbTournament, msg: IncomingMessage, deck: Option<SubmittedDeck>,
                             e0: seq<Effect>, id0: nat, db0: seq<DbTournament>, ps0: map<string, seq<WebPlayer>>, next0: int,
                             e: seq<Effect>, db: seq<DbTournament>, ps: map<string, seq<WebPlayer>>, next: int)
    {
      if deck.None? || !deck.value.legal then
        e == e0 + DeckRefused(msg, deck, IllegalDeckText(t)) && db == db0 && ps == ps0 && next == next0
      else
        var name := discord.usernameOf(msg.author);
        && ps == ps0[t.id := (if t.id in ps0 then ps0[t.id] else []) + [WebPlayer(next0, msg.author, name)]]
        && next == next0 + 1
        && ChangedOnly(db0, db, t.id, ConfirmedRecord(db0, t.id, Player(msg.author, next0, deck.value.url)))
        && e == e0 + [RoleGranted(msg.author, discord.playerRoleOf(t.id))]
                + DeckShown(t, msg, SignedUpText(t, msg.author, name), SignedUpReply(t), deck.value.printout, id0)
    }

    /** confirmPlayer for a user pending in exactly the tournament t. */
    method ConfirmPending(t: DbTournament, msg: IncomingMessage, deck: Option<SubmittedDeck>)
      modifies discord`effects, discord`nextId, discord`messages, database`tournaments, website`players, website`nextPlayerId
      ensures SignUpOutcome(t, msg, deck, old(discord.effects), old(discord.nextId), old(database.tournaments), old(website.players),
                       old(website.nextPlayerId), discord.effects, database.tournaments, website.players, website.nextPlayerId)
    {
      if deck.None? {
        discord.Reply(msg.channel, msg.id, DeckNotFoundMessage);
        return;
      }
      if !deck.value.legal {
        discord.Reply(msg.channel, msg.id, IllegalDeckText(t));
        discord.Reply(msg.channel, msg.id, deck.value.printout);
        assert discord.effects == old(discord.effects) + DeckRefused(msg, deck, IllegalDeckText(t));
        return;
      }
      var name := discord.usernameOf(msg.author);
      var cid := website.RegisterPlayer(t.id, name, msg.author);
      database.ConfirmPlayer(t.id, msg.author, cid, deck.value.url);
      discord.GrantPlayerRole(msg.author, discord.playerRoleOf(t.id));
      ShowDeck(t, msg, SignedUpText(t, msg.author, name), SignedUpReply(t), deck.value.printout);
    }

    /**
     * confirmPlayer's outcome for the user's one confirmed tournament t, where
     * the user plays under bracket id cid: a missing or illegal deck is refused
     * and the stored deck stays; a legal one replaces the stored deck and is shown.
     */
    ghost predicate DeckUpdated(t: DbTournament, cid: int, msg: IncomingMessage, deck: Option<SubmittedDeck>,
                                e0: seq<Effect>, id0: nat, db0: seq<DbTournament>, e: seq<Effect>, db: seq<DbTournament>)
    {
      if deck.None? || !deck.value.legal then
        e == e0 + DeckRefused(msg, deck, IllegalUpdateText(t)) && db == db0
      else
        && ChangedOnly(db0, db, t.id, ConfirmedRecord(db0, t.id, Player(msg.author, cid, deck.value.url)))
        && e == e0 + DeckShown(t, msg, UpdatedDeckText(t, msg.author, discord.usernameOf(msg.author)), ChangedDeckReply(t),
                               deck.value.printout, id0)
    }

    /** confirmPlayer for a user confirmed in exactly the tournament t: the deck is resubmitted. */
    method UpdateDeck(t: DbTournament, cid: int, msg: IncomingMessage, deck: Option<SubmittedDeck>)
      modifies discord`effects, discord`nextId, discord`messages, database`tournaments
      ensures DeckUpdated(t, cid, msg, deck, old(discord.effects), old(discord.nextId), old(database.tournaments),
                          discord.effects, database.tournaments)
    {
      if deck.None? {
        discord.Reply(msg.channel, msg.id, DeckNotFoundMessage);
        return;
      }
      if !deck.value.legal {
        discord.Reply(msg.channel, msg.id, IllegalUpdateText(t));
        discord.Reply(msg.channel, msg.id, deck.value.printout);
        assert discord.effects == old(discord.effects) + DeckRefused(msg, deck, IllegalUpdateText(t));
        return;
      }
      database.ConfirmPlayer(t.id, msg.author, cid, deck.value.url);
      ShowDeck(t, msg, UpdatedDeckText(t, msg.author, discord.usernameOf(msg.author)), ChangedDeckReply(t), deck.value.printout);
    }

    /**
     * confirmPlayer, for a message carrying `deck` (what getDeckFromMessage
     * makes of it). Only direct messages count. The user's pending
     * tournaments are considered first: more than one is refused, exactly one
     * is signed up for. With none pending, the confirmed tournaments still in
     * preparation: more than one is refused, exactly one has its deck updated.
     */
    method ConfirmPlayer(msg: IncomingMessage, deck: Option<SubmittedDeck>)
      modifies discord`effects, discord`nextId, discord`messages, database`tournaments, website`players, website`nextPlayerId
      ensures msg.server != "private" ==>
                discord.effects == old(discord.effects) && database.tournaments == old(database.tournaments) && website.players == old(website.players)
      ensures deck.None? || !deck.value.legal ==>
                database.tournaments == old(database.tournaments) && website.players == old(website.players)
      ensures var p := old(database.PendingTournaments(msg.author));
              msg.server == "private" && |p| > 1 ==>
                && discord.effects == old(discord.effects) + [Replied(msg.channel, msg.id, MultiplePendingText(p))]
                && database.tournaments == old(database.tournaments)
      ensures var p := old(database.PendingTournaments(msg.author));
              msg.server == "private" && |p| == 1 ==>
                SignUpOutcome(p[0], msg, deck, old(discord.effects), old(discord.nextId), old(database.tournaments), old(website.players),
                         old(website.nextPlayerId), discord.effects, database.tournaments, website.players, website.nextPlayerId)
      ensures var p, c := old(database.PendingTournaments(msg.author)), old(database.ConfirmedTournaments(msg.author));
              msg.server == "private" && |p| == 0 && |c| > 1 ==>
                && discord.effects == old(discord.effects) + [Replied(msg.channel, msg.id, MultipleConfirmedText(c))]
                && database.tournaments == old(database.tournaments)
      ensures var p, c := old(database.PendingTournaments(msg.author)), old(database.ConfirmedTournaments(msg.author));
              msg.server == "private" && |p| == 0 && |c| == 1 ==>
                && c[0].FindPlayer(msg.author).Some?
                && website.players == old(website.players)
                && DeckUpdated(c[0], c[0].FindPlayer(msg.author).value.challongeId, msg, deck, old(discord.effects), old(discord.nextId),
                               old(database.tournaments), discord.effects, database.tournaments)
      ensures var p, c := old(database.PendingTournaments(msg.author)), old(database.ConfirmedTournaments(msg.author));
              msg.server == "private" && |p| == 0 && |c| == 0 ==>
                discord.effects == old(discord.effects) && database.tournaments == old(database.tournaments)
    {
      if msg.server != "private" {
        return;
      }
      var pending := database.PendingTournaments(msg.author);
      if |pending| > 1 {
        discord.Reply(msg.channel, msg.id, MultiplePendingText(pending));
        return;
      }
      if |pending| == 1 {
        ConfirmPending(pending[0], msg, deck);
        return;
      }
      var confirmed := database.ConfirmedTournaments(msg.author);
      if |confirmed| > 1 {
        discord.Reply(msg.channel, msg.id, MultipleConfirmedText(confirmed));
        return;
      }
      if |confirmed| == 1 {
        assert confirmed[0] in confirmed;
        UpdateDeck(confirmed[0], confirmed[0].FindPlayer(msg.author).value.challongeId, msg, deck);
      }
    }
  }
}
