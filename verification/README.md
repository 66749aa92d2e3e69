# Emcee tournament bot, modelled in Dafny

Emcee is a Discord bot that runs Yu-Gi-Oh! tournaments, with a Challonge bracket behind each one.
This project models its coordination core and proves what each operation does. Each Dafny module
follows one part of the bot:

- `Scores` (scores.dfy) is the score confirmation protocol of `submitScore`, written as a pure
  function `Report` over the in-memory claims map.
  - The first report of a match is stored as a claim.
  - The opponent's mirrored report commits the result.
  - A mismatch clears the claim.
  - A host's report is trusted as given.
  - The claim is kept on agreement, as the code does.
- `Manager` (manager.dfy) is the `TournamentManager` class. Its fields are the `matchScores` claims
  and the `timers` record. Its methods are:
  - `SubmitScore`;
  - `CancelTimers` and `StartNewRound`, with one new round timer per public channel;
  - `LoadTimers`;
  - `CreateTournament`, which derives the url from the name and tries numbered suffixes in a
    `while` loop;
  - the status guards of `OpenTournament`, `StartTournament`, `FinishTournament` and `NextRound`,
    including the top cut after a finish;
  - the `RegisterPlayer` and `ConfirmPlayer` routing;
  - `getRealUsername` and `countStrings`.
- `Timer` (timer.dfy) is `PersistentTimer`: `Create`, `LoadAll`, `IsActive`, `Abort` and `Tick`,
  over a `CountdownTable` of persisted rows. It also holds `formatTime`'s "MM:SS" text and the
  facts about it.
- `Decks` and `Counting` (deck.dfy, counting.dfy) cover:
  - the YDK text parser and serialiser, and their round trip;
  - how a deck is built from a message: a `.ydk` attachment or a `ydke://` url;
  - the profile counts, built with the in-place `increment`;
  - the archetype threshold.
- `Interface` (interface.dfy) is the Discord front end:
  - prefix and command-name parsing, and the `|`-separated trimmed arguments;
  - dispatch to a registered command;
  - UserError replies versus logged internal errors;
  - the mention formats, `getChannel` and `awaitReaction`.
- `Commands` (commands.dfy) is `CommandHandler`:
  - `validateArgs` and the `#-#` score split;
  - channel-type normalisation and the target channel;
  - the `nextRound` reply;
  - the host commands, which authenticate before their request.
- `ChannelCommands` (channel_commands.dfy) holds the `addchannel` and `removechannel` executors of
  the newer command framework.
- `Roles` (roles.dfy) is the organiser role cache of `OrganiserRoleProvider` and the bot's
  `toRoles` cache.
- `Errors` (errors.dfy) is the error hierarchy: which errors are user errors, and the message formats.

The collaborators are abstract state. Each method of these stands for one call the core makes, and
does what the core relies on:

- `Messaging.Discord` is an append-only outbox of what the bot did on Discord: messages sent,
  edited, deleted and replied, direct messages, reactions removed, roles granted and deleted. It
  also holds the messages that still exist and the users whose direct messages are closed. Message
  ids are naturals handed out in order. `Messaging.Logger` is a list of log entries.
- `Persistence.Database` holds the tournament records and the registration messages.
- `Bracket.Website` is the Challonge side:
  - readable and read-only brackets;
  - each player's open match, registered players, byes and standings;
  - a log of submitted scores and lifecycle calls.
- `Commands.Requests` stands for the tournament manager as the command handler sees it. It
  records each request. The error the manager answers it with is a function given at
  construction.
- `Roles.RoleApi` is Discord's role creation. It records each request, and a set of servers
  refuses it.
- `Interface.DiscordInterface.HandleMessage` takes the registered handler's outcome (the error it
  throws, if any) as a function parameter.

`Js` (js.dfy) gives the JavaScript built-ins the code leans on their ECMAScript meaning:
- parseInt's NaN, and `===`, under which NaN equals nothing;
- `%`, which truncates;
- the String methods split, join, trim, padStart and toLowerCase, and number-to-string.

Clocks are integer milliseconds passed in as `now`.

## Model

| member | source | states |
|---|---|---|
| Interface.MentionFormats | src/discord/interface.ts:139-149 | `<#id>`, `<@id>` and `<&id>` never coincide, and each determines its id |
| Interface.ChannelAt | src/discord/interface.ts:184 | a match of `<#(\d+?)>` at the start of the text: a non-empty digit run that the text starts with as a channel mention |
| Interface.GetChannel | src/discord/interface.ts:183-187 | the digits of the leftmost channel mention in the query (nothing matches before it), or none exactly when no position holds one |
| Interface.GetChannelOfMention | src/discord/interface.ts:183-187 | getChannel of `<#id>` followed by anything is id |
| Interface.MapTrim | src/discord/interface.ts:91 | each argument is its piece trimmed |
| Interface.ParseCommand | src/discord/interface.ts:82-91 | a command is parsed exactly when the content starts with the prefix, and it always has at least one argument |
| Interface.JoinRestOfTerms | src/discord/interface.ts:85-89 | joining the space-separated terms after the first gives the text after the first space |
| Interface.ArgumentsArePieces | src/discord/interface.ts:87-91 | the arguments are the '\|'-separated pieces of the text after the first space, trimmed; the pieces join back to that text; an empty text gives [""] |
| Interface.CommandName | src/discord/interface.ts:85-86 | the command name is the first space-delimited term with the prefix cut off, lowercased |
| Interface.DiscordInterface.constructor | src/discord/interface.ts:73-79 | no commands registered yet |
| Interface.DiscordInterface.RegisterCommand | src/discord/interface.ts:106-108 | the name now maps to the new handler, overwriting any earlier one; every other entry is unchanged |
| Interface.DiscordInterface.HandleMessage | src/discord/interface.ts:81-104 | runs a command exactly when the prefix matches and the name is registered; a UserError it throws is replied verbatim, any other error only logged, and nothing else is sent |
| Interface.DiscordInterface.AwaitReaction | src/discord/interface.ts:122-133 | sends the message, then registers the add and the remove handler keyed by the sent message's id, and returns that id |
| Errors.UserErrorClassification | src/errors.ts:1-46 | TournamentNotFound, UnauthorisedHost, UnauthorisedTO, DeckNotFound and AssertTextChannel are UserErrors; ChallongeAPIError, MiscInternalError and any other error are not |
| Errors.TournamentNotFoundKeepsId | src/errors.ts:5-11 | "Unknown tournament <id>" determines the id |
| Errors.UnauthorisedHostNamesBoth | src/errors.ts:14-22 | "User <host> not authorised for tournament <id>" starts with the host and ends with the id |
| Errors.DeckNotFoundFixed | src/errors.ts:33-35 | DeckNotFoundError always carries the fixed "Must provide either attached…" message and is a UserError |
| Commands.ValidateArgs | src/CommandHandler.ts:43-52 | succeeds, returning the arguments unchanged, exactly when the first `count` are all present and non-empty; otherwise the UserError "Missing parameter number i!" for the smallest such i |
| Commands.MissingTextNamesPosition | src/CommandHandler.ts:47 | different positions give different messages |
| Commands.Arg | src/CommandHandler.ts:85 | the destructured argument: present exactly when the list is long enough, and then the element itself |
| Commands.ScoreTexts | src/CommandHandler.ts:173 | none exactly when the score has no '-'; otherwise the first two '-'-free pieces, with the score being those two pieces joined by '-' and followed by nothing or by more '-'-separated text |
| Commands.ParseScore | src/CommandHandler.ts:173-177 | a score without '-' is refused with "Must provide score in format `#-#` e.g. `2-1`."; otherwise the parseInt of the first two pieces, as player and opponent |
| Commands.SingleScorePiece | src/CommandHandler.ts:173-175 | split("-") gives fewer than two pieces only for a score without '-' |
| Commands.ScorePieces | src/CommandHandler.ts:173-174 | with two pieces or more, the first two pieces are '-'-free and the score is them joined by '-', then the rest |
| Commands.ParseScoreOfNumbers | src/CommandHandler.ts:173-178 | "a-b" for natural numbers a and b reads as (a, b) |
| Commands.ChannelPrivate | src/CommandHandler.ts:87-90 | private exactly when the argument is given and, lowercased and trimmed, reads "private"; public otherwise, including when it is absent or empty |
| Commands.ChannelPrivateIgnoresCaseAndSpace | src/CommandHandler.ts:87 | any capitalisation of "private" with spaces around it is private |
| Commands.TargetChannel | src/CommandHandler.ts:91-94 | the channel found in the mention argument when there is one, else the message's own channel |
| Commands.TargetOfMention | src/CommandHandler.ts:91-94 | a `<#id>` argument selects id, no argument selects the message's channel |
| Commands.NextRoundReply | src/CommandHandler.ts:185-190 | -1 gives the "progressed past final round and completed" reply, any other round the "progressed to round N" reply |
| Commands.NextRoundReplyCompleted | src/CommandHandler.ts:186-190 | the completion reply is given exactly for -1 |
| Commands.Requests.Make | src/TournamentManager.ts:23-58 | a call into the tournament manager is recorded and answered by the manager's outcome for it |
| Commands.CommandHandler.constructor | src/CommandHandler.ts:11-41 | registers all 21 command names, each with its handler, over any earlier entries |
| Commands.CommandHandler.RegisterInfo | src/CommandHandler.ts:16-20 | help, list, create and update are registered |
| Commands.CommandHandler.RegisterStaff | src/CommandHandler.ts:21-24 | addchannel, removechannel, addhost and removehost are registered |
| Commands.CommandHandler.RegisterLifecycle | src/CommandHandler.ts:25-29 | open, start, cancel, score and round are registered |
| Commands.CommandHandler.RegisterPlayers | src/CommandHandler.ts:30-33 | players, deck, drop and forcedrop are registered |
| Commands.CommandHandler.RegisterUpkeep | src/CommandHandler.ts:34-37 | sync, pie, addbye and removebye are registered |
| Commands.CommandHandler.HostCommand | src/CommandHandler.ts:146-167 | a missing id is refused before anything else; a failed host check returns its error with no call made and nothing sent; otherwise exactly one manager call, and the reply only when it succeeds |
| Commands.CommandHandler.CommandOpenTournament | src/CommandHandler.ts:146-152 | openTournament is called only after the id check and host authentication pass; success exactly when all three pass, with the "opened for registration" reply |
| Commands.CommandHandler.CommandStartTournament | src/CommandHandler.ts:154-160 | the same order for startTournament, replying "successfully commenced" |
| Commands.CommandHandler.CommandCancelTournament | src/CommandHandler.ts:162-167 | the same order for cancelTournament, replying "successfully canceled" |
| Commands.CommandHandler.CommandSyncTournament | src/CommandHandler.ts:227-232 | the same order for syncTournament, replying "database successfully synchronised" |
| Commands.CommandHandler.CommandNextRound | src/CommandHandler.ts:182-191 | the same order for nextRound; the reply depends on whether its result is -1 |
| Commands.CommandHandler.CommandSubmitScore | src/CommandHandler.ts:170-180 | both arguments must be present; player authentication comes before reading the score; a score without '-' is refused after it; otherwise submitScore gets the two parsed numbers, and its response is the reply; an error sends nothing |
| Commands.CommandHandler.ChannelCommand | src/CommandHandler.ts:84-126 | after the id check and host authentication, the target channel is added or removed with the normalised type; on success the channel is told "This channel … announcement channel for Tournament id!" and the author gets the same notice naming the channel |
| Commands.CommandHandler.ChangeChannel | src/CommandHandler.ts:95-103 | the manager call first; only if it succeeds, the message to the channel and then the reply |
| ChannelCommands.ExecutorPrivate | src/commands/addchannel.ts:13 | private only for a given argument of exactly seven characters that lowercases to "private", with no trimming |
| ChannelCommands.ExecutorTypeIsStricter | src/commands/addchannel.ts:13 | whatever the executors call private, the command handler calls private too |
| ChannelCommands.SpacedPrivate | src/commands/removechannel.ts:15 | " private" is public to the executors but private to the command handler, which trims |
| ChannelCommands.AddChannel | src/commands/addchannel.ts:10-47 | host authentication first, with no change on failure; then the message's own channel is added with the executor's type and the channel gets "This channel added as a <type> announcement channel for Tournament <id>!" |
| ChannelCommands.RemoveChannel | src/commands/removechannel.ts:11-53 | host authentication first; a COMPLETE tournament only gets "**name** has already concluded!" and keeps its channels; otherwise the message's own channel is removed and the channel gets "This channel removed as a <type> announcement channel for Tournament <id>!" |
| Roles.FindRole | src/role/organiser.ts:48 | roles.find by name: none exactly when no role has the name, otherwise the first role with it |
| Roles.RoleApi.CreateRole | src/role/organiser.ts:24-30 | guild.createRole: a fresh role with the requested name, recorded with its colour and reason; a server that refuses gives the "Missing Permissions" error and nothing is created |
| Roles.OrganiserRoleProvider.constructor | src/role/organiser.ts:11-14 | an empty role cache, with the configured name and colour |
| Roles.OrganiserRoleProvider.Create | src/role/organiser.ts:23-34 | creates a role with the configured name and colour and the reason "Auto-created by Emcee.", caches its id for the server and returns it; a creation error propagates with the cache unchanged |
| Roles.OrganiserRoleProvider.Get | src/role/organiser.ts:43-55 | a cached id is returned with nothing created or changed; else the first role with the configured name is cached and returned; else a new role is created; after success the cache holds the returned id, and no cached entry is ever replaced |
| Roles.OrganiserRoleProvider.Authorise | src/role/organiser.ts:65-89 | UnauthorisedTOError(author) for a message outside a server channel or from an unknown member, before the role is looked up; success exactly when the member holds the server's organiser role; otherwise UnauthorisedTOError or the creation error |
| Roles.BotRoles.constructor | src/bot.ts:9 | the toRoles record starts empty |
| Roles.BotRoles.CreateTORole | src/bot.ts:11-25 | creates the configured role with colour 0x3498db and the reason "Auto-created by Emcee bot." and records its id in toRoles; a creation error propagates with toRoles unchanged |
| Roles.BotRoles.GetTORole | src/bot.ts:27-42 | an unknown guild is MiscInternalError("Invalid guild <id>!"); a cached id is returned unchanged; else a role found by name is cached and returned; else a new role is created and cached; no cached entry is ever replaced |
| Roles.BotRoles.GetTORoleFromMessage | src/bot.ts:44-51 | a message outside a server channel is AssertTextChannelError(channel id); otherwise getTORole of the channel's guild |
| Roles.BotRoles.OnGuildCreate | src/bot.ts:53-60 | joining a server creates and records its role; a failure is only logged as an error with its message |
| Scores.HostReportBypassesClaims | src/TournamentManager.ts:657-661 | a host's report is sent to the bracket as given, with the reporter as winner, and the stored claims are untouched, whether or not an open match is known |
| Scores.NoMatchChangesNothing | src/TournamentManager.ts:662-665 | a player without an open match changes no claim and sends nothing to the bracket |
| Scores.FirstReportIsStored | src/TournamentManager.ts:706-712 | the first report of a match is stored as that match's claim (reporter, Discord id, both scores) and nothing is sent |
| Scores.DoubleReportIsRejected | src/TournamentManager.ts:666-671 | a second report by the player who made the claim is refused, the claims stay as they were and nothing is sent |
| Scores.AgreementCommitsOnce | src/TournamentManager.ts:672-701 | a mirrored report by the opponent sends a result whose winner score is at least its loser score; the reporter wins only with the higher own score, a tie goes to the claimant; the claim is left in place |
| Scores.MismatchClearsClaim | src/TournamentManager.ts:702-704 | an opponent's report that does not mirror the claim deletes that claim and sends nothing |
| Scores.NaNIsNeverConfirmed | src/TournamentManager.ts:673 | a player's report with a NaN score never sends anything to the bracket, because NaN is never `===` to anything |
| Scores.TwoMatchingReportsCommit | src/TournamentManager.ts:666-712 | the report a-b and then the opponent's b-a send exactly one result, the higher scorer as winner (the first reporter on a tie) |
| Scores.RepeatedConfirmationCommitsAgain | src/TournamentManager.ts:672-701 | since agreement keeps the claim, the same confirmation sent again commits the same result a second time |
| Manager.RoundStartText | src/TournamentManager.ts:484-491 | a round timer set 50 minutes ahead first shows the countdown "50:00" |
| Manager.RoundStartAfterDelay | src/timer.ts:35-38 | when create reads the clock again up to one second after the round's start, the first countdown shows "49:59" |
| Manager.Posts | src/TournamentManager.ts:411-415 | one message per channel, in channel order, each with the next message id |
| Manager.FindDiscord | src/TournamentManager.ts:503-504 | the Discord id found belongs to a listed player with that bracket id; none is found exactly when no player has it |
| Manager.NineSnowflakeRejected | src/TournamentManager.ts:471 | a snowflake starting with 9 fails the check as written and passes the intended one |
| Manager.TournamentManager.RealUsername | src/TournamentManager.ts:468-475 | getRealUsername as written: a name only comes from the REST lookup, only for ids starting with 1 to 8; every id starting with 9 gets none |
| Manager.TournamentManager.IntendedUsername | src/TournamentManager.ts:468-475 | the intended check: every snowflake is looked up, and ids not starting with a digit (BYE#, DUMMY#) are not |
| Manager.TournamentManager.UsernameChecksDiffer | src/TournamentManager.ts:471 | the two checks disagree exactly on known users whose id starts with 9 |
| Manager.NamesOf | src/TournamentManager.ts:287 | the names of the tournaments, in order |
| Manager.KeepSlugChars | src/TournamentManager.ts:190 | the replace keeps only letters, digits and underscores of the lowered name, in order |
| Manager.KeepSlugCharsAppend | src/TournamentManager.ts:190 | the character filter distributes over concatenation |
| Manager.SlugAppend | src/TournamentManager.ts:190 | the base url of a concatenation is the concatenation of the base urls |
| Manager.SlugOfChar | src/TournamentManager.ts:190 | one character is lowered and kept exactly when it is a url character |
| Manager.SlugAlphabet | src/TournamentManager.ts:190 | a base url holds only lower-case letters, digits and underscores |
| Manager.KeepSlugCharsOfSlugText | src/TournamentManager.ts:190 | the filter leaves a text made of url characters alone |
| Manager.SlugIdempotent | src/TournamentManager.ts:190 | deriving a base url from a base url changes nothing |
| Manager.Candidate | src/TournamentManager.ts:191-196 | the first candidate is the base url, every later one extends it |
| Manager.CandidatesDistinct | src/TournamentManager.ts:191-196 | no two candidates coincide, so each loop pass tries a new url |
| Manager.NextUntried | src/TournamentManager.ts:191-196 | the n-th candidate is none of the n tried before it |
| Manager.FirstFreeUnique | src/TournamentManager.ts:191-196 | the loop's stopping candidate (free, all earlier ones taken) is unique |
| Manager.GroupIsByTournament | src/TournamentManager.ts:88-95 | the timers are grouped under a tournament exactly when some loaded timer names it, each group the loaded timers of that tournament in load order |
| Manager.GroupMembers | src/TournamentManager.ts:88-95 | every grouped timer is a loaded timer of that tournament |
| Manager.AdoptStep | src/TournamentManager.ts:88-96 | one more loaded timer extends the grouping, the aborted keys and the warnings by that timer alone |
| Manager.OrphanWarnings | src/TournamentManager.ts:93 | one "Aborting orphaned timer" warning per orphan |
| Manager.LoadLog | src/TournamentManager.ts:93-98 | the orphan warnings, then one info line with the counts |
| Manager.RegistrationsOf | src/TournamentManager.ts:396-407 | one registration message record per public channel, with that channel and its message id |
| Manager.Listeners | src/TournamentManager.ts:398-404 | one ✅ handler per registration message, in order |
| Manager.DeletionsOf | src/TournamentManager.ts:543-548 | one deletion per registration message, in order |
| Manager.DirectMessages | src/TournamentManager.ts:550-557 | at most one DM per dropped player, and one for each when none has DMs blocked |
| Manager.DirectMessagesOnlyTo | src/TournamentManager.ts:550-557 | every DM sent goes to a dropped player who accepts DMs and carries the drop text |
| Manager.EnrolledStep | src/TournamentManager.ts:617-626 | enrolling one more top player confirms them with the next bracket id and their deck from the original |
| Manager.EnrolledKeepsTheRest | src/TournamentManager.ts:617-626 | enrolling changes only the players and pending lists of the new record |
| Manager.EnrolledConfirmsAll | src/TournamentManager.ts:617-626 | every top player ends up confirmed in the new record with their deck from the original |
| Manager.EnrolledLeavesNonePending | src/TournamentManager.ts:617-626 | no top player is left pending in the new record |
| Manager.SeededFromStarted | src/TournamentManager.ts:552 | starting the seeded top cut keeps it seeded from the original |
| Manager.EnrolledSeeded | src/TournamentManager.ts:611-640 | after enrolment and the channel copies the new record is a preparing tournament seeded from the original |
| Manager.Grants | src/TournamentManager.ts:626 | one role grant per top player, in order |
| Manager.Signups | src/TournamentManager.ts:618-622 | one bracket registration per top player, with consecutive bracket ids and their usernames |
| Manager.RegisteredNext | src/TournamentManager.ts:618-622 | registering one more top player appends them to the new bracket's list |
| Manager.CountStrings | src/TournamentManager.ts:813-818 | a key for exactly the strings of the list, each counted as often as it occurs |
| Manager.TournamentManager.constructor | src/TournamentManager.ts:61-69 | no claims and no timers, and the given collaborators |
| Manager.TournamentManager.PairingsStep | src/TournamentManager.ts:500-526 | one more match appends that match's notices and warning to the round's |
| Manager.TournamentManager.Broadcast | src/TournamentManager.ts:411-415 | the outbox grows by one message per channel, in order |
| Manager.TournamentManager.SubmitScore | src/TournamentManager.ts:646-715 | a failed lookup or a non-player changes nothing; otherwise the claims and the bracket become what Scores.Report decides, and only a confirmation DMs the claimant and posts to the private channels, a blocked DM failing the call |
| Manager.TournamentManager.CancelTimers | src/TournamentManager.ts:427-432 | every timer of the tournament is aborted (stopped, its row removed) and the tournament keeps an empty list |
| Manager.TournamentManager.AnnounceUntil | src/TournamentManager.ts:484-491 | the round message, then a countdown message, and a fresh timer on that countdown |
| Manager.TournamentManager.AnnounceIn | src/TournamentManager.ts:484-491 | the round message and "50:00", and a fresh timer ending 50 minutes ahead |
| Manager.TournamentManager.AnnounceRound | src/TournamentManager.ts:480-493 | for every public channel its round message and countdown, and one fresh timer per channel on that countdown |
| Manager.TournamentManager.NotifyReceiver | src/TournamentManager.ts:434-466 | the matchup DM when the receiver has a name and accepts DMs, otherwise the failure notice in every private channel |
| Manager.TournamentManager.NotifyMatch | src/TournamentManager.ts:500-526 | both players notified, first player first, or a warning for a match with an unlisted player |
| Manager.TournamentManager.NotifyPairings | src/TournamentManager.ts:497-527 | every open match notified in the bracket's order, with every warning logged |
| Manager.TournamentManager.RestartTimers | src/TournamentManager.ts:479-493 | the old timers aborted, then one new 50-minute timer per public channel replaces them |
| Manager.TournamentManager.SendRoundMessages | src/TournamentManager.ts:494-533 | nothing when skipping; otherwise the pairing notices then the bye DM, failing exactly when the bye player blocks DMs |
| Manager.TournamentManager.StartNewRound | src/TournamentManager.ts:477-533 | the timers restarted, the announcements and round messages sent, failing exactly when the bye DM is blocked |
| Manager.TournamentManager.NextRound | src/TournamentManager.ts:717-721 | a missing tournament or bracket changes nothing; otherwise a new round is started in every public channel |
| Manager.TournamentManager.AdoptOne | src/TournamentManager.ts:88-95 | a timer naming a tournament joins its group and keeps running; an orphan is aborted with a warning |
| Manager.TournamentManager.AdoptNext | src/TournamentManager.ts:88-95 | adopting timer i extends the adopted prefix by one |
| Manager.TournamentManager.AdoptEach | src/TournamentManager.ts:87-96 | all loaded timers grouped, the orphans aborted and warned about, and the adopted ones counted |
| Manager.TournamentManager.AdoptTimers | src/TournamentManager.ts:86-98 | the grouping and aborts of AdoptEach, then the summary info line |
| Manager.TournamentManager.AdoptedAll | src/TournamentManager.ts:87-96 | the adopted prefix over every timer is the whole grouping |
| Manager.TournamentManager.GroupOwned | src/TournamentManager.ts:88-95 | every grouped timer belongs to the manager |
| Manager.TournamentManager.LoadTimers | src/TournamentManager.ts:82-100 | a second call only warns; the first loads one timer per running row, aborts the expired rows and orphans, and groups the rest by tournament |
| Manager.TournamentManager.UrlTaken | src/TournamentManager.ts:155-180 | a url is taken exactly when the website has it, refuses to read it, or the database has it |
| Manager.TournamentManager.FreeUrl | src/TournamentManager.ts:186-196 | the first candidate of the base url that is not taken |
| Manager.TournamentManager.CreateTournament | src/TournamentManager.ts:182-202 | the bracket and the record are made under the first free candidate of the name's base url, and the url, web address and guide come back |
| Manager.TournamentManager.PostRegistrations | src/TournamentManager.ts:396-407 | one registration message per public channel, recorded, with a sign-up and a drop handler each |
| Manager.TournamentManager.OpenTournament | src/TournamentManager.ts:389-417 | a missing tournament or one without public channels changes nothing; otherwise the registration posts, then the open guide in every private channel |
| Manager.TournamentManager.DeleteRegistrations | src/TournamentManager.ts:543-548 | every registration message deleted, in order |
| Manager.TournamentManager.SendDirectMessages | src/TournamentManager.ts:550-557 | the drop DM to every pending player that accepts DMs; all reached exactly when none blocks them |
| Manager.TournamentManager.Guides | src/TournamentManager.ts:559-568 | one guide per public channel and one per private channel |
| Manager.TournamentManager.AnnounceStart | src/TournamentManager.ts:559-571 | the player and host guides posted, then the byes assigned and the bracket started |
| Manager.TournamentManager.FirstRound | src/TournamentManager.ts:572-577 | the bracket is read, the first round started in every public channel, and the byes dropped only when the round began |
| Manager.TournamentManager.DropPending | src/TournamentManager.ts:543-557 | the registration messages deleted, the record set in progress with no pending players, who are told by DM |
| Manager.TournamentManager.BegunIntro | src/TournamentManager.ts:559-577 | guides, round and bracket calls in that order make up the start outcome |
| Manager.TournamentManager.Commence | src/TournamentManager.ts:559-577 | the guides, the bracket start and the first round, in that order |
| Manager.TournamentManager.StartIntro | src/TournamentManager.ts:543-577 | the drops followed by the begun round make up the outcome of startTournament |
| Manager.TournamentManager.StartTournament | src/TournamentManager.ts:535-578 | a missing tournament or fewer than two players changes nothing; otherwise the record is started and the drops, guides and first round follow |
| Manager.TournamentManager.Launch | src/TournamentManager.ts:540-577 | the record is started and the drops, guides and first round follow |
| Manager.TournamentManager.StartOutcomeExtends | src/TournamentManager.ts:535-578 | starting only appends to the outbox and the bracket calls |
| Manager.TournamentManager.Farewell | src/TournamentManager.ts:593-603 | one closing message per public channel, then the role deletion |
| Manager.TournamentManager.Conclude | src/TournamentManager.ts:589-603 | timers cancelled, the record completed, the closing messages and the role deletion |
| Manager.TournamentManager.AddHosts | src/TournamentManager.ts:615-619 | every other host added to the new record, and nothing else changed |
| Manager.TournamentManager.CopyChannels | src/TournamentManager.ts:634-639 | the channels added to the new record, and nothing else changed |
| Manager.TournamentManager.Enlist | src/TournamentManager.ts:617-627 | the player registered on the bracket; when found in the original, confirmed with their deck and given the role |
| Manager.TournamentManager.EnrolNext | src/TournamentManager.ts:617-627 | enrolling player i extends the enrolled prefix by one |
| Manager.TournamentManager.Enrol | src/TournamentManager.ts:617-627 | every top player enrolled in order, stopping at the first not found in the original |
| Manager.TournamentManager.Seed | src/TournamentManager.ts:611-640 | the new record, seeded from the original, stays preparing |
| Manager.TournamentManager.OpenTopCut | src/TournamentManager.ts:605-640 | a new top cut under a free url, seeded with the top players; every other record unchanged |
| Manager.TournamentManager.StartTopCut | src/TournamentManager.ts:641 | startTournament on the new top cut |
| Manager.TournamentManager.TopCut | src/TournamentManager.ts:604-642 | the top cut created, seeded and, when seeding succeeds, started; existing records unchanged |
| Manager.TournamentManager.FinishedPlain | src/TournamentManager.ts:580-603 | a finish without a top cut is the closing outcome |
| Manager.TournamentManager.FinishedWithTopCut | src/TournamentManager.ts:580-642 | a finish with a top cut extends the closing outcome |
| Manager.TournamentManager.FinishTournament | src/TournamentManager.ts:580-644 | a missing tournament or bracket changes nothing; otherwise the tournament is closed and, when it had more than eight players and was not cancelled, the top cut follows |
| Manager.TournamentManager.RegisterPlayer | src/TournamentManager.ts:250-276 | a player pending elsewhere loses the reaction and gets an error; otherwise the pending sign-up and its DM or DM-failure notice |
| Manager.TournamentManager.PostPairs | src/TournamentManager.ts:317-327 | two messages per private channel, in order |
| Manager.TournamentManager.ShowDeck | src/TournamentManager.ts:317-332 | the host notices, then the two replies |
| Manager.TournamentManager.ConfirmPending | src/TournamentManager.ts:290-333 | no deck or an illegal one is refused; a legal deck registers the player on the bracket, confirms them and notifies hosts and player |
| Manager.TournamentManager.UpdateDeck | src/TournamentManager.ts:344-381 | no deck or an illegal one changes nothing; a legal one replaces the deck and notifies hosts and player |
| Manager.TournamentManager.ConfirmPlayer | src/TournamentManager.ts:278-382 | only DMs count; several pending tournaments are listed back; one is confirmed; otherwise one confirmed tournament gets its deck updated |
| Timer.FormatTimeFields | src/timer.ts:103-107 | for ms ≥ 0, formatTime's "MM:SS" reads back as minutes and seconds with seconds in 0..59 and minutes·60 + seconds = floor(ms/1000) |
| Timer.ReadClockOfFields | src/timer.ts:106 | two non-negative fields padded to two places and joined by ':' read back as those two numbers |
| Timer.DivideInStages | src/timer.ts:104-105 | floor(ms/1000/60)·60 + floor(ms/1000) mod 60 = floor(ms/1000) for ms ≥ 0 |
| Timer.Pad2Digits | src/timer.ts:106 | padStart(2, "0") of a non-negative number is a digit string, without ':', of the same value |
| Timer.Pad2Zero | src/timer.ts:106 | zero pads to "00" |
| Timer.FormatTimeNegative | src/timer.ts:103-107 | a negative time left renders with a leading minus sign |
| Timer.FormatTimeLastSecond | src/timer.ts:103-107 | 0 ≤ ms < 1000 renders as "00:00" |
| Timer.FormatTimeFiftyMinutes | src/timer.ts:103-107 | fifty minutes render as "50:00" |
| Timer.FormatTimeZero | src/timer.ts:103-107 | the rendering is "00:00" exactly when 0 ≤ ms < 1000 |
| Timer.FormatTimeMonotone | src/timer.ts:103-107 | for 0 ≤ a ≤ b the clock shown for a is never more than the clock shown for b |
| Timer.Expired | src/timer.ts:63-64 | exactly the rows whose end is at or before now |
| Timer.Running | src/timer.ts:56-57 | exactly the rows whose end is after now, unchanged |
| Timer.PrunedAll | src/timer.ts:62-69 | after visiting every row, the table holds the running rows and each expired row was removed once |
| Timer.VisitStep | src/timer.ts:63-68 | one step of the pruning loop: an expired row is removed, a running one kept |
| Timer.CountdownTable.Save | src/timer.ts:47 | entity.save() stores the new row under a fresh key and changes no other row |
| Timer.CountdownTable.RemoveExpired | src/timer.ts:61-69 | the loop leaves exactly the running rows and removes every expired row once |
| Timer.CountdownTable.Remove | src/timer.ts:84 | entity.remove() deletes the row and logs the removal |
| Timer.PersistentTimer.constructor | src/timer.ts:22-26 | the constructor starts the interval: the timer is active and scheduled |
| Timer.PersistentTimer.Create | src/timer.ts:28-50 | sends "Time left in the round: `MM:SS`" first, then saves an entity with the given end, channel, the sent message's id, final message and interval; the timer is active |
| Timer.PersistentTimer.LoadAll | src/timer.ts:52-74 | one active timer per row with end > now (distinct rows, entity as stored); exactly the expired rows are removed, and nothing is sent for them |
| Timer.PersistentTimer.Abort | src/timer.ts:80-86 | with the interval set, stops the ticks and removes the row; the interval handle is not cleared (not in the frame), so the timer stays active and a second abort removes again; without it nothing changes |
| Timer.PersistentTimer.Tick | src/timer.ts:89-101 | at or after end: sends the final message and aborts, and then still edits the countdown; before end only the edit; a missing countdown message only logs a warning naming channel and message |
| Decks.YdkToRecord | src/deck.ts:72-101 | the loop's record is the line-by-line reading of the text: a '#' or '!' line sets the section to the rest of the line, a non-blank line in main, extra or side appends its parseInt as a Uint32 to that section |
| Decks.DroppedOutsideSections | src/deck.ts:82-91 | lines read outside main, extra and side, with no header among them, add nothing |
| Decks.ReadLinesGrows | src/deck.ts:77-92 | reading lines only appends to the three sections, at most one code per line |
| Decks.ReadLinesAppend | src/deck.ts:77 | reading a + b is reading a, then b from where a left off |
| Decks.RecordToYdk | src/deck.ts:107-121 | the accumulated text is "#created by Akira bot\n#main\n", the main codes, "#extra\n", the extra codes, "!side\n", the side codes, each code followed by "\n" |
| Decks.AppendCodes | src/deck.ts:109-111 | each `ydk += code + "\n"` loop appends the codes' decimal lines in order |
| Decks.CodeLinesAppend | src/deck.ts:109-111 | the lines of a + b are the lines of a followed by the lines of b |
| Decks.SplitCodeLines | src/deck.ts:77 | splitting the written code lines on line breaks gives back one decimal string per code |
| Decks.CodeParses | src/deck.ts:83 | parseInt of a code's decimal string, stored in a Uint32Array, is the code again |
| Decks.CodeLineIsCode | src/deck.ts:78-82 | a code's decimal line is neither a header nor blank |
| Decks.ReadSection | src/deck.ts:78-91 | a header line followed by code lines sets the section and appends those codes to it |
| Decks.ReadCodeStrings | src/deck.ts:82-91 | inside a section, reading code lines appends exactly those codes |
| Decks.ReadBlank | src/deck.ts:82 | a blank line changes nothing |
| Decks.YdkLines | src/deck.ts:107-121 | the written text splits into the four headers, each section's code lines and a final empty line |
| Decks.ReadLayout | src/deck.ts:77-92 | reading that layout yields exactly the three sections written |
| Decks.RecordOfYdkText | src/deck.ts:72-121 | round trip: ydkToRecord(recordToYdk(r)) == r for every record of Uint32 codes |
| Decks.UrlRun | src/deck.ts:59 | the length of the leading run of [A-Za-z0-9+/=] characters |
| Decks.GroupEnd | src/deck.ts:59 | a lazy `[A-Za-z0-9+/=]*?!` group ends just after a '!' |
| Decks.YdkeAt | src/deck.ts:59 | a match found at a position starts with "ydke://", is a prefix of the text there and ends with '!' |
| Decks.FirstMatch | src/deck.ts:60 | the leftmost position where the matcher succeeds, and no match before it |
| Decks.FindYdke | src/deck.ts:59-60 | none exactly when no position matches; otherwise the match at the leftmost matching position |
| Decks.YdkeAtUrl | src/deck.ts:59 | "ydke://a!b!c!" with url characters in a, b, c matches itself at its start, whatever follows |
| Decks.FindYdkeOfUrl | src/deck.ts:59-65 | a message starting with such a url yields that url |
| Decks.Construct | src/deck.ts:55-66 | a first attachment named *.ydk wins and the deck is built from the fetched text; otherwise the first ydke match is parsed; with neither the plain Error "Must provide either attached…" (not a UserError); every deck's record is the reading of its ydk |
| Decks.FirstType | src/deck.ts:171-177 | the label of the first type in the if/else-if order that the card has, and none when it has none of them |
| Decks.UnknownCodeCounts | src/deck.ts:155-160 | a code with no card data counts under its numeric string and adds no type and no archetype |
| Decks.KeysStep | src/deck.ts:155-178 | one more code adds its name key, its type key and its set codes |
| Decks.CountCode | src/deck.ts:156-177 | one code's increments: its name (or code string), the first matching type and, where sets are counted, each of its set codes |
| Decks.CountSection | src/deck.ts:155-226 | the counts after a section's loop are the tallies of its name keys and type keys, and of its set codes for main and extra |
| Decks.SelectArchetypes | src/deck.ts:228-233 | exactly the keys counted more than 9 times, each once |
| Decks.ArchetypeThreshold | src/deck.ts:228-233 | a set code is counted more than 9 times exactly when it occurs more than 9 times among the main and extra cards' set codes |
| Decks.GetProfile | src/deck.ts:131-250 | name and type counts per section are the tallies of the section's keys from their start maps, archetypes are exactly the set codes seen more than 9 times (no repeats), and ydk and url are the deck's |
| Counting.Bumped | src/deck.ts:123-129 | increment's new counts: a present key goes up by one, an absent key becomes 1, every other key is unchanged |
| Counting.ProfileCounts.Increment | src/deck.ts:123-129 | increment updates the dictionary in place to the bumped counts |
| Counting.TallyFromCounts | src/deck.ts:123-129 | after incrementing once per key, a key is present exactly when it was present or occurs, and its count is its old count plus its number of occurrences |
| Counting.TallyFromAppend | src/deck.ts:155-233 | counting two lists in turn is counting their concatenation, as the main and extra loops share the archetype counts |
| Counting.TallyOfList | src/TournamentManager.ts:813-818 | counted from an empty dictionary, the keys are exactly the list's elements and each count is its number of occurrences |

## Left out

- Js.LowerChar: toLowerCase is modelled for ASCII letters only. JavaScript lowers every Unicode letter, and some lowerings change a text's length: "İ" becomes "i̇". So `Manager.Slug`, the command name in `Interface.ParseCommand`, `Commands.ChannelPrivate` and `ChannelCommands.ExecutorPrivate` differ from the code on non-ASCII input. For example, the url for "İstanbul" keeps "i" in the code and loses it in the model, and "!DECK" spelt with the Kelvin sign K (U+212A) runs `deck` in the code but nothing in the model.
- Js.ParseInt: parseInt gives an exact integer here, but a double in JavaScript. Digit strings beyond 2^53 therefore differ from the code:
  - In `Decks.ToUint32`, the code "18446744073709551617" is 0 in the code (a rounded double) and 1 in the model.
  - In `Manager.TournamentManager.SubmitScore`, the reports "9007199254740993-0" and "0-9007199254740992" mirror each other in the code but not in the model.
- Manager.TournamentManager.UrlTaken: the website and database lookups never fail in unexpected ways. So the rethrows of checkUrlTaken (src/TournamentManager.ts:167-169, 177) cannot happen, and a url is taken exactly when the website has it, refuses to read it, or the database has it.
- Failures of the collaborators are left out. Only the failures the core handles are modelled: a lookup of a missing tournament or bracket, and a direct message to a user who blocks them. Message sends, `website.submitScore`, the Countdown entity's `save` and `remove`, the pruning transaction of `loadAll` and its catch, and `fetch` of an attachment never fail.
- Interface.DiscordInterface.HandleMessage: the registered commands are a map. The code's `cmdName in this.commands` looks at a plain object and also sees inherited names, so "!constructor" or "!__proto__" run a handler there but nothing here. The same holds for Counting.ProfileCounts.Increment (the `key in obj` of src/deck.ts:124) and Manager.CountStrings (the `acc[curr] || 0` of src/TournamentManager.ts:815): an inherited key such as "constructor" starts from its inherited value there and from zero here.
- Decks.SelectArchetypes: returns the qualifying set codes without duplicates but in no particular order. The code lists them in the key order of a plain object, which puts integer-like keys in ascending numeric order.
- Timer.Countdown: the row and `Timer.PersistentTimer.Create` carry a `tournament` field that src/timer.ts:28-49 does not have. The tournament manager passes a tournament id to create (src/TournamentManager.ts:489) and reads `timer.tournament` (src/TournamentManager.ts:89), so the model follows the caller. The two files come from different revisions.
- Manager.TournamentManager.AnnounceIn: the code reads the clock twice, once for the round's end (src/TournamentManager.ts:484) and again inside create (src/timer.ts:37); the model takes both readings as one instant, so the first countdown is always "50:00". A later second reading shows "49:59" (Manager.RoundStartAfterDelay). AnnounceRound, RestartTimers, StartNewRound, NextRound and StartTournament inherit this through AnnounceIn.
- Timer.PersistentTimer.Tick: requires `scheduled`, because only setInterval calls tick. Scheduling, clearInterval and the clock are left out. Time is an integer argument.
- Promise.all fan-outs run one after another, in list order. Concurrency between commands, including the race in the status guards, is left out.
- The ydke library's parseURL and toURL, and the card database's getCard, are function parameters (`Decks.Construct`, `Decks.GetProfile`). Reading a `.ydk` attachment is a parameter too, and src/deck/discordDeck.ts is not part of this model.
- Logging appears only where the core's logic logs (the `Messaging.Logger` entries). Verbose and info logging with no decision behind it is left out, and so is the log line about role creation in src/bot.ts.
- Commands.Requests: the manager's answers to the command handler are the functions `failure`, `roundOf` and `responseTo`. They are not linked to `Manager.TournamentManager` in the same run.
  - `authenticateHost` and `authenticatePlayer` are modelled by their outcome: `Persistence.Database.AuthenticateHost`, and the AuthenticatePlayer request.
  - `cancelTournament` (src/CommandHandler.ts:165) is not in the manager's interface at this revision; it is modelled as a request.
  - So is the number `nextRound` hands back to the handler, although the manager's method returns nothing.
- ChannelCommands.AddChannel and ChannelCommands.RemoveChannel: require at least one argument, which the command framework checks before an executor runs. The reply is modelled as a message in the command's channel. removechannel's extra guild argument to `authenticateHost` is not modelled.
- Interface.MentionFormats: the role mention is `<&id>`, as src/discord/interface.ts:148 writes it (not `<@&id>`).
- Roles.RoleApi.CreateRole: role ids come from `Roles.NewRoleId` as opaque strings. The `Guild` a provider reads is a snapshot, and a newly created role is not added to its list.
- CSV rendering, `getDeck`, `generatePieChart`, `generateDeckDump` and `listTournaments` are left out; they are formatting over a foreign library.
- These TournamentManager operations are outside the modelled core: `updateTournament`, `addHost`/`removeHost`, `dropPlayer` and `dropPlayerReaction`, `listPlayers`, `getPlayerDeck`, `syncTournament`, `registerBye`/`removeBye`, `cleanRegistration` and `loadButtons`. The two reaction handlers appear only as the names `awaitReaction` registers.
- `onPing`, `onMessage` and `onDelete` in src/discord/interface.ts only store a callback; they are not modelled.
- Manager.LeadHost: `hosts[0]` of an empty list is undefined; the model writes it as the text "undefined", a case the code's comment at src/TournamentManager.ts:610 rules out.

## Findings

| source | as written | input that shows it | evidently intended | confidence | as-written member | corrected member |
|---|---|---|---|---|---|---|
| src/TournamentManager.ts:471 | `userId[0] <= "0" \|\| userId[0] >= "9"` treats an id starting with 9 as a placeholder | a player whose Discord id is "912345678901234567": getRealUsername gives null, so the player gets no matchup DM and the private channels get the DM-failure notice | `userId[0] > "9"` in place of `>= "9"`: only ids that do not start with a digit from 1 to 9 are placeholders, so every snowflake is looked up | medium, not executed | Manager.TournamentManager.RealUsername (Manager.NineSnowflakeRejected, Manager.TournamentManager.UsernameChecksDiffer) | Manager.TournamentManager.IntendedUsername |

The pairing notices (`Manager.TournamentManager.MatchNotices`, `NotifyMatch`) use `RealUsername` as written, so they show the code's behaviour for such players.
