# Kobold Librarian, modelled in Dafny

Kobold Librarian is a chat bot for a Pokémon Showdown writing room. This
project models the parts of it that keep state and make decisions, and proves
properties of that model:

- **utils** (`utils.dfy`, `jstext.dfy`): the identifier normalisation every
  other component keys its maps by (`toId`, `toRoomId`), the zero padding of
  `leftpad`, and the query-string reader of the web pages. `jstext.dfy`
  states the JavaScript string built-ins these use: `toLowerCase`, `trim`,
  `split`, `join`, number rendering and `parseInt`.
- **client** (`client.dfy`): the per-room presence table that `parse` keeps
  from protocol lines, the reconnect counter behind the exponential back-off,
  and the command table `init` fills from the core and plugin command maps
  (as written, `init` stops after the core commands; see Findings).
- **game** (`game.dfy`): the lifecycle every scripted game shares. It has a
  signups/started state and an ordered, duplicate-free player list.
- **hemingway** (`hemingway.dfy`, `ordered_map.dfy`): the Ernest Hemingway
  round machine. It covers submissions, passes, numbered entries, votes,
  accountability, the topic timer, the tally with ties, and the command
  guards. `ordered_map.dfy` models a JavaScript `Map` with its insertion order.
- **quills** (`quills.dfy`): the quill ledger and the Scribe Shop. Accounts
  are created on first access, credited, debited (clamped at zero) and items
  are used up. `purchase` validates an order, counts it down to what the
  balance pays for, then charges and stocks the inventory. `getTop` builds
  the leaderboard.
- **server** (`server.dfy`): the base URL, the access-token table, the token
  and permission gate of `Page.resolve`, and the restart flags.
- **mail** (`mail.dfy`): offline mail. It covers scheduling, the monthly
  prune and delivery by the plugin's `onJoin` hook.
- **daily** (`daily.dfy`): the daily-entry form ingestion (including the
  TypeError a valid key sent twice raises, since the body parser turns it
  into an array), the alias table, the `daily` command branches and the
  empty case of `getHTML`.
- **greetings and personal** (`perks.dfy`, `greetings.dfy`, `personal.dfy`):
  greetings, bios and personal pages bought in the shop. Owners set them;
  staff remove them and the item is spent. Also covered: the edit links of
  `editpage`, the public-page title, and the token-user check of `/page.html`.

Each stateful object of the bot is a class with the source's fields. Each
method is proved against a transition function on values, and the lemmas
state what those functions promise. These are the objects: the client, a
game, a Hemingway round, the ledger, the server, and the mail, daily,
greeting and personal stores.

The bot's environment becomes plain inputs:
- the clock, random token bytes, `hasPerms` and the plugin's command name
  are parameters;
- the messages sent with `send`/`sendPM` come back as results;
- `storage.getJSON` is a map that reads an absent document as empty.

## Model

| member | source | states |
|---|---|---|
| JsText.Lower | utils.js:15 | toLowerCase keeps the length and lower-cases every character in place |
| JsText.Trim | utils.js:18 | the trimmed text neither starts nor ends with white space; TrimIsSlice ties it to the input |
| JsText.TrimIsSlice | utils.js:18 | the trimmed text is the slice of the input from its first non-white-space character, with only white space before and after it |
| JsText.TrimOfTrimmed | utils.js:18 | a text that neither starts nor ends with white space is its own trim |
| JsText.TrimIdempotent | utils.js:18 | trimming twice is trimming once |
| JsText.Split | utils.js:26 | split gives at least one piece, and no piece holds the separator |
| JsText.JoinSplit | plugins/mail.js:38-40 | joining the pieces of a split with the same separator gives the text back |
| JsText.SplitNoSeparator | utils.js:27 | a text without the separator splits into itself alone |
| JsText.SplitAtFirst | plugins/mail.js:38 | the first piece is the text before the first separator, and the rest is the split of what follows |
| JsText.ParseIntOfDecimal | utils.js:11-13 | parseInt reads back a decimal rendering of n, with or without one leading zero, as n |
| Utils.KeepIdChars | utils.js:15 | the result of replace(/[^a-z0-9]/g, '') holds only a-z and 0-9 |
| Utils.ToId | utils.js:14-16 | toId holds only a-z and 0-9 |
| Utils.ToRoomId | utils.js:17-19 | toRoomId holds only a-z, 0-9 and '-' |
| Utils.ToIdIdempotent | utils.js:14-16 | toId(toId(s)) == toId(s) |
| Utils.ToRoomIdIdempotent | utils.js:17-19 | toRoomId(toRoomId(s)) == toRoomId(s) |
| Utils.RankIsNotPartOfId | utils.js:15 | a leading rank symbol does not change the id of a name |
| Utils.ToIdIsRoomIdWithoutHyphens | client.js:57 | toId of a room is its toRoomId with the hyphens removed, so "a-b" and "ab" share one presence entry |
| Utils.LeftPad | utils.js:11-13 | the text is all decimal digits and reads back as n; it has a leading "0" exactly when n < 10, and is then exactly two digits, otherwise at least two |
| Utils.ParseQueryString | utils.js:25-38 | the loop builds exactly the query map of the URL |
| Utils.QueryWithoutQuestionMark | utils.js:26-27 | a URL without '?' gives the empty map |
| Utils.QueryBetweenFirstTwo | utils.js:26-28 | only the text between the first and second '?' is read |
| Utils.QueryMapKeys | utils.js:31-36 | a key is present exactly when some part splits on '=' into that key and one value |
| Utils.QueryMapLastWins | utils.js:31-36 | a later pair with the same key overwrites an earlier one |
| OrderedMaps.PutGet | plugins/hemingway.js:70 | after set(k, v), get(k) is v, other keys read as before, and keys stay distinct |
| OrderedMaps.PutKeys | plugins/hemingway.js:119 | set keeps a present key in place and puts a new key last |
| OrderedMaps.RemoveShifts | plugins/hemingway.js:83 | delete keeps the entries before the key and moves those after it down by one |
| OrderedMaps.RemoveGet | plugins/hemingway.js:83 | after delete(k), get(k) is undefined, other keys read as before and keep their order |
| ShowdownClient.EntryOf | client.js:99 | the entry is [user[0], user.slice(1)], with an undefined rank for an empty name |
| ShowdownClient.Client.constructor | client.js:16-23 | a new client has no reconnects, no presence table and no commands |
| ShowdownClient.Client.OnConnectFailed | client.js:25-29 | a failure counts one more reconnect and waits 2^reconnects seconds |
| ShowdownClient.Client.OnConnect | client.js:31-33 | a connection resets the reconnect counter |
| ShowdownClient.Client.OnClose | client.js:35-39 | a close counts one more reconnect and waits 2^reconnects seconds |
| ShowdownClient.Client.Parse | client.js:54-141 | the table after one line is the line's transition over the old table |
| ShowdownClient.Client.ParseJoin | client.js:96-100 | the J case creates the room's map if missing and enters the user under its id |
| ShowdownClient.Client.ParseLeave | client.js:101-104 | the L case deletes the user's id, and fails on an unknown room |
| ShowdownClient.Client.ParseRename | client.js:105-113 | the N case drops the old id, or creates the room, then enters the new name |
| ShowdownClient.Client.ParseInit | client.js:118-124 | the init case replaces the room's whole map with the roster of field 6 |
| ShowdownClient.Client.Init | client.js:143-164 | meant: init sends the avatar and autojoin lines, then registers the core commands and each plugin's commands in order |
| ShowdownClient.PluginOnlyCommandMissingAsWritten | client.js:153 | as written, `fs` is never required, so a command only a plugin defines is missing from the table, while the meant table has it |
| ShowdownClient.BackoffMonotone | client.js:27-28 | the delay is at least one second and never shrinks as failures accumulate |
| ShowdownClient.RegisterLookup | client.js:149-162 | after registration a name maps to its last entry, or keeps its old handler when no entry names it |
| ShowdownClient.PluginCommandWins | client.js:158-162 | a plugin command replaces a core one of the same name, and the last plugin to define it wins |
| ShowdownClient.RosterKeys | client.js:120-122 | a user is in an init list exactly when some token has that id |
| ShowdownClient.RosterLastWins | client.js:120-122 | of two tokens with the same id, the later one's entry is kept |
| ShowdownClient.JoinLine | client.js:96-100 | room\|J\|user enters exactly that user in that room and leaves the other rooms alone |
| ShowdownClient.LeaveLine | client.js:101-104 | room\|L\|user removes exactly that id from a known room, and fails on an unknown one |
| ShowdownClient.JoinThenLeave | client.js:96-104 | a join then a leave of the same user leaves the room without them and its other entries unchanged |
| ShowdownClient.RenameLine | client.js:105-113 | room\|N\|name\|oldid drops the old id and enters the new name |
| ShowdownClient.OwnLinesChangeNothing | client.js:125-134 | the bot's own updateuser, pm and c lines leave the table unchanged |
| ShowdownClient.ApplyLineFrame | client.js:54-141 | only a non-empty J, L, N or init line changes the table, and only in the line's own room |
| ShowdownClient.InitTokensDropCount | client.js:120 | the user field is trimmed and split on commas, and its leading count is dropped |
| ShowdownClient.InitRecordsRankedUsers | client.js:118-124 | ranked users on an init line are keyed by the id of their name, with the rank kept apart |
| Games.HostOf | game.js:34 | a game always has a host while the bot's name has an id |
| Games.HostFallsBackToBot | game.js:34 | an empty host option counts as none, and the game then has the bot as host |
| Games.GameBase.constructor | game.js:12-35 | a new game has no players, round 0, free join, signups state and the host above |
| Games.GameBase.OpenSignups | game.js:41-46 | signups starts the game exactly when it is free-join |
| Games.GameBase.Start | game.js:66-71 | start is a no-op once started, and otherwise moves to started |
| Games.GameBase.UserJoin | game.js:48-55 | a join is refused for a started closed game or a current player; otherwise the user goes last, and reaching maxPlayers starts the game |
| Games.GameBase.UserLeave | game.js:57-64 | a free-join game only sends a notice; otherwise exactly that player is dropped, the first one included |
| Games.GameBase.End | game.js:73-77 | end announces only a forced end and changes no state |
| Games.FirstPlayerCannotLeaveAsWritten | game.js:60 | as written, the first player can never leave; with the guard meant they leave and the rest stay in order |
| Games.LeaveAgreesPastFirst | game.js:59-61 | the two guards agree for every user but the first player |
| Games.LeaveRemovesExactly | game.js:59-61 | a leave succeeds exactly for a player, drops only them, keeps the order and keeps the list duplicate-free |
| Games.JoinAppends | game.js:50-51 | a join puts the newcomer last and keeps the list duplicate-free |
| HemingwayGame.BracketedVoteIsBare | plugins/hemingway.js:111-112 | a vote in one pair of brackets is read as the bare vote and names the same target or gets the same refusal; a bare vote is left as it is |
| HemingwayGame.StripSubmissionBrackets | plugins/hemingway.js:69 | any number of brackets around an entry are dropped |
| HemingwayGame.Hemingway.constructor | plugins/hemingway.js:17-32 | a new round has submissions and voting closed and every table empty |
| HemingwayGame.Hemingway.CanParticipate | plugins/hemingway.js:147-156 | the acting user takes part if they play or the game is free-join, and a newcomer is then added |
| HemingwayGame.Hemingway.SetupRound | plugins/hemingway.js:49-59 | submissions open, voting closes, and all five tables are cleared |
| HemingwayGame.Hemingway.OpenVoting | plugins/hemingway.js:88-105 | the plain call numbers the entries, clears accountability and moves to voting; openVoting(true) changes nothing |
| HemingwayGame.Hemingway.Submit | plugins/hemingway.js:61-75 | submit is the submit transition of the round |
| HemingwayGame.Hemingway.Pass | plugins/hemingway.js:77-86 | pass is the pass transition of the round |
| HemingwayGame.Hemingway.RecordPass | plugins/hemingway.js:80-83 | the user is marked as passed and any entry of theirs is deleted |
| HemingwayGame.Hemingway.Vote | plugins/hemingway.js:107-124 | vote is the vote transition, and a tally pays each most-voted player in the ledger |
| HemingwayGame.Hemingway.Count | plugins/hemingway.js:118-123 | the vote is counted, the voter accounted for, and the round tallied once everyone is accounted for |
| HemingwayGame.Hemingway.CheckVote | plugins/hemingway.js:109-117 | a vote is accepted only for another player who still plays and has an entry |
| HemingwayGame.Hemingway.ParseVotes | plugins/hemingway.js:126-141 | with votes, each most-voted player is paid 10 quills once; with none it fails on votes[0] |
| HemingwayGame.Hemingway.Tally | plugins/hemingway.js:128-130 | the sort and filter give the users sharing the highest tally, in insertion order |
| HemingwayGame.Hemingway.TopicTimeout | plugins/hemingway.js:195-200 | the timer's body is the topic-timeout transition |
| HemingwayGame.Hemingway.Topic | plugins/hemingway.js:187-202 | topic records the topic and begins a round |
| HemingwayGame.EhCommand | plugins/hemingway.js:178-186 | a game command is dispatched only by alias, with a game running, and submit and vote only by PM |
| HemingwayGame.TopicGuard | plugins/hemingway.js:187-190 | topic is allowed exactly to the host or room staff while a game runs |
| HemingwayGame.SubmittedGuard | plugins/hemingway.js:203-206 | submitted is allowed exactly to the host or a room voice while a game runs |
| HemingwayGame.Submitted | plugins/hemingway.js:207 | the report names exactly the players who are accounted for |
| HemingwayGame.ParticipateAsWrittenIgnoresUser | plugins/hemingway.js:62 | as called with one argument, the acting user is never added, and a free-join game gains an undefined player |
| HemingwayGame.ParticipateJoins | plugins/hemingway.js:147-156 | meant: only a closed game turns a newcomer away; an accepted user is then a player and nothing else changes |
| HemingwayGame.PendingCount | plugins/hemingway.js:144 | the count the getter compares with is the number of players who have not passed |
| HemingwayGame.AllHaveMeansEveryone | plugins/hemingway.js:143-145 | allHaveSubmitted holds exactly when every player who has not passed is accounted for |
| HemingwayGame.RecordingKeepsInvariant | plugins/hemingway.js:69-83 | a recorded submission or pass keeps the round invariant |
| HemingwayGame.VoteKeepsInvariant | plugins/hemingway.js:118-120 | a counted vote keeps the round invariant |
| HemingwayGame.TransitionsKeepInvariant | plugins/hemingway.js:49-124 | setup, submit, pass, vote and the timer all keep the round invariant |
| HemingwayGame.SubmitRecords | plugins/hemingway.js:61-75 | an entry is recorded exactly when submissions are open, the user has not passed and it has 3 to 6 words; the trimmed, bracket-stripped text is stored; a refusal changes nothing |
| HemingwayGame.PassDropsEntry | plugins/hemingway.js:77-86 | a pass is recorded exactly while submissions are open, marks the user and drops their entry; a refusal changes nothing |
| HemingwayGame.PassAfterSubmitOpensVotingEarly | plugins/hemingway.js:77-86 | a player who submits and then passes still counts, so voting opens while another player has done nothing |
| HemingwayGame.NumberingIsOrder | plugins/hemingway.js:90-95 | entry numbers run from 1 to n and name the submitters in insertion order |
| HemingwayGame.NumberingOnePerSubmitter | plugins/hemingway.js:90-95 | every submitter gets exactly one number |
| HemingwayGame.CountVoteAddsOne | plugins/hemingway.js:118-120 | a counted vote adds exactly one to the target's tally, changes no other tally and accounts for the voter |
| HemingwayGame.VoteCountsOnlyLiveEntries | plugins/hemingway.js:107-121 | a vote counts only while voting is open, from a voter who has not passed, for another player with an entry |
| HemingwayGame.EveryLaterVoteRetallies | plugins/hemingway.js:123 | once everyone is accounted for, every further vote tallies and pays again |
| HemingwayGame.TiedAreTheMaxima | plugins/hemingway.js:128-130 | the tied list is never empty and holds exactly the users with the highest tally |
| HemingwayGame.TieDoublePaysFirst | plugins/hemingway.js:131-139 | as written, the first tied player is paid twice; as meant, each tied player is paid once |
| HemingwayGame.TimeoutPassesInactive | plugins/hemingway.js:195-200 | the timer marks every player not accounted for as passed and opens voting |
| QuillLedger.Debited | quills.js:103-104 | the balance never goes below zero, and is the plain difference when that stays non-negative |
| QuillLedger.CreditedOne | quills.js:93-99 | addQuills changes only the credited user's account, by the amount on both counters |
| QuillLedger.CreditedAllBalance | plugins/hemingway.js:134-139 | crediting a list of users raises each one's counters by the amount per appearance |
| QuillLedger.PropertyOrder | quills.js:90 | Object.entries lists every created key exactly once |
| QuillLedger.PropertyOrderShape | quills.js:90 | Object.entries lists the integer-like ids first, rising in value, then the other ids in creation order |
| QuillLedger.NamedKeysKeepOrder | quills.js:90 | when no id is integer-like, Object.entries keeps creation order |
| QuillLedger.Quills.constructor | quills.js:16-18 | the ledger starts from the stored accounts with an empty shop |
| QuillLedger.Quills.AddShopItem | quills.js:79-82 | a known id is reported and the shop kept; a new id is added |
| QuillLedger.Quills.GetAccount | quills.js:84-87 | an empty account is created only for an unknown user, and the stored one is returned otherwise |
| QuillLedger.Quills.AddQuills | quills.js:93-99 | balance and totalEarned both grow by the amount, and the new balance is returned |
| QuillLedger.Quills.RemoveQuills | quills.js:101-107 | the debit is clamped to the balance and totalEarned is untouched |
| QuillLedger.Quills.UseItem | quills.js:109-118 | useItem spends one use, or deletes the item, or reports -1 |
| QuillLedger.UseItemCountsDown | quills.js:109-118 | -1 exactly for an item not owned, which changes nothing; a positive result is the uses left on the kept item; 0 exactly when the item is deleted; other users and items are untouched |
| QuillLedger.Quills.Purchase | quills.js:120-169 | an unknown item is refused; otherwise the account is charged and stocked, or left unchanged with the error thrown |
| QuillLedger.Quills.Quote | quills.js:121-135 | the checks of purchase give the count and price of the order, or the error thrown |
| QuillLedger.Quills.ShortOrder | quills.js:136-151 | the countdown names the most copies the balance pays for, or that none can be afforded |
| QuillLedger.Countdown | quills.js:142-146 | the loop stops at balance / price copies, or at none when the balance is negative |
| QuillLedger.Quills.GetTop | quills.js:89-91 | the leaderboard is the stable sort by totalEarned of the accounts as Object.entries lists them, cut to the limit |
| QuillLedger.BuyCharges | quills.js:135-153 | a purchase charges the price once for a limited item and per copy otherwise, never overdraws, and adds only the bought item |
| QuillLedger.BuyStocks | quills.js:154-166 | a plain item records the copies bought, a limited item its full uses, and a unique item an empty record |
| QuillLedger.OwnedItemsAreRefused | quills.js:124 | any item already owned is refused, whether or not it is unique or limited |
| QuillLedger.ShortfallNamesMostAffordable | quills.js:136-151 | the error names the largest count k with price * k within the balance |
| QuillLedger.SortByEarnedCorrect | quills.js:90 | the sort orders the accounts by totalEarned, highest first, and keeps every entry exactly once |
| QuillLedger.TopDominates | quills.js:90 | everyone left off the leaderboard earned no more than anyone on it |
| WebServer.Server.constructor | server.js:48-63 | the server has the constructor's URL, an empty token table, clear restart flags, and a server only when https has its SSL files |
| WebServer.Server.Restart | server.js:145-161 | restart queues behind one in progress, refuses without a server, or starts closing |
| WebServer.Server.OnClosed | server.js:153-160 | the close callback ends the restart and starts one queued restart |
| WebServer.Server.CreateAccessToken | server.js:163-174 | the token is stored with its permission, room, user and mins * 60000 expiry |
| WebServer.Server.GetAccessToken | server.js:176-184 | the stored record, or false for an unknown token |
| WebServer.Server.RemoveAccessToken | server.js:186-193 | the result is true exactly when the token was there, and every other token stays |
| WebServer.UrlShape | server.js:49-53 | the URL is https exactly for port 443, and names the port unless it is 443 or 80 |
| WebServer.PortAsTextIsHttp | server.js:49 | a port given as the text "443" is served over http, with the port in the URL |
| WebServer.GateRequiresToken | server.js:37-38 | without a token, a page that requires one refuses, and any other page renders |
| WebServer.GateChecksToken | server.js:31-36 | a token passes only if it is in the table with the page's permission, and onPost runs only for a POST with a body behind such a token |
| WebServer.TokenLifecycle | server.js:163-193 | a created token opens its page until it is removed, and removing it leaves the others |
| WebServer.QueuedRestartsCollapse | server.js:145-160 | restarts asked for during a restart collapse into exactly one more |
| WebServer.NoServerNoRestart | server.js:150 | without a server, restart reports false and changes nothing |
| OfflineMail.KeepRecent | plugins/mail.js:16 | the filter keeps exactly the messages younger than a month |
| OfflineMail.MailStore.Schedule | plugins/mail.js:37-50 | the mail command is the schedule transition of the store |
| OfflineMail.MailStore.Prune | plugins/mail.js:15-22 | the loop replaces each inbox with its recent mail |
| OfflineMail.MailStore.OnJoin | plugins/mail.js:26-35 | the inbox is delivered in stored order and then deleted |
| OfflineMail.MailArgsSplitAtFirstComma | plugins/mail.js:38-40 | the target is toId of the text before the first comma, and the message is the rest trimmed |
| OfflineMail.MailWithoutCommaIsRejected | plugins/mail.js:41 | a message without a comma only gets the syntax reply |
| OfflineMail.ScheduleAppendsOne | plugins/mail.js:41-46 | a scheduled message goes last in a non-full inbox; a refusal changes nothing; no inbox grows past five |
| OfflineMail.PruneKeepsRecent | plugins/mail.js:15-22 | pruning keeps every user and exactly the mail younger than a month |
| OfflineMail.PrunedInboxStays | plugins/mail.js:17-18 | a user whose mail is all old keeps an empty inbox rather than none |
| OfflineMail.ScheduledMailIsDelivered | plugins/mail.js:26-35 | scheduled mail is delivered when the plugin's onJoin next runs for the target, after the mail already waiting, and the inbox is then gone |
| Dailies.ParamsOf | plugins/daily.js:18-71 | only the three dailies have form fields |
| Dailies.FormKey | plugins/daily.js:114-115 | a key counts only for a known daily and one of its fields |
| Dailies.GetHtml | plugins/daily.js:73-74 | a daily never stored gives the fixed "No … has been set yet." text |
| Dailies.DailyStore.OnPost | plugins/daily.js:108-128 | the parsed form is ingested property by property until a valid key holding an array throws; the mod note goes out exactly when something changed and nothing threw |
| Dailies.ParseForm | server.js:79 | the parsed body has one property per key sent |
| Dailies.DistinctFormIngestsAll | plugins/daily.js:113-124 | a form that sends each key once never throws and is ingested field by field |
| Dailies.RepeatedFieldThrows | plugins/daily.js:117 | a valid key sent twice makes onPost throw, so no mod note goes out |
| Dailies.DailyStore.Ingest | plugins/daily.js:113-124 | one field is ingested into the store |
| Dailies.DailyStore.Put | plugins/daily.js:120-123 | the entry is created, and the value is stored when it is new and not empty |
| Dailies.BuildAliases | plugins/daily.js:130-131 | every daily id, and nothing else, aliases to daily |
| Dailies.RecordChanges | plugins/daily.js:120-123 | the daily is noted as changed exactly when its stored value is replaced, and other dailies stay |
| Dailies.UnnotedDailiesKeepValues | plugins/daily.js:113-124 | a daily not noted as changed keeps its stored values |
| Dailies.ChangesAreDistinctDailies | plugins/daily.js:111-122 | the changes name each daily at most once, and only known dailies |
| Dailies.IngestKeepsWellFormed | plugins/daily.js:117-123 | ingesting keeps every stored value non-empty and every stored image a web URL |
| Dailies.EmptyFieldCreatesEntry | plugins/daily.js:120-121 | a valid field with an empty value still creates the entry, which then counts as set |
| Dailies.ImageGetsScheme | plugins/daily.js:117-118 | an image without a scheme is stored behind http://, and an empty one as http:// alone |
| Dailies.DailyCommandBranches | plugins/daily.js:136-149 | an entry goes by PM exactly unless it is used in a room by a voice; the form link needs staff and defaults to the library's room |
| Dailies.FormLinkOpensForm | plugins/daily.js:149 | the link the daily command hands out carries the form page's permission, so it opens the form |
| Perks.SetPerkStoresTrimmed | plugins/greetings.js:18-27 | an owner's trimmed, non-empty text within the limit is stored under the caller; otherwise the store stays; only the caller's account may be created |
| Perks.RemovalHitsCallerAsWritten | plugins/greetings.js:31-34 | as written, staff removing a target's text remove their own and the target's stays |
| Perks.RemoveTakesTargetOnly | plugins/greetings.js:28-38 | meant: a removal takes exactly the target's text and one use of their item, only for staff and a target who owns the item and has one set |
| Greetings.GreetingOnJoin | plugins/greetings.js:14-16 | a line is sent exactly when the user has a greeting, and it is the user's id followed by the greeting |
| Greetings.GreetingStore.OnJoin | plugins/greetings.js:14-16 | onJoin sends the line above |
| Greetings.GreetingStore.SetGreeting | plugins/greetings.js:18-27 | setgreeting is the set command with an 80-character limit, and every reply goes to the caller |
| Greetings.GreetingStore.DeleteGreeting | plugins/greetings.js:28-38 | deletegreeting removes the target's greeting and spends the target's item |
| Greetings.TooLongNoticeMisaddressedAsWritten | plugins/greetings.js:22 | as written, the over-80 notice is addressed to a user named by the notice itself, never the caller |
| Greetings.SetGreetingIsSentOnJoin | plugins/greetings.js:14-24 | a greeting that was set is what the plugin's onJoin sends for its owner, and a removed one is no longer sent |
| PersonalPages.Issued | server.js:165-170 | the record stored for a link has its permission, room, user and mins * 60000 expiry |
| PersonalPages.PageTargetIsAnId | plugins/personal.js:104-105 | the page looked up is an account id, and is the caller's own (so the notice says "You don't have") exactly when the message names no one or names the caller |
| PersonalPages.PageIdOf | plugins/personal.js:28 | the page id is the segment without its last five characters |
| PersonalPages.PersonalStore.SetBio | plugins/personal.js:83-91 | setbio is the set command with no length limit |
| PersonalPages.PersonalStore.DeleteBio | plugins/personal.js:92-102 | deletebio removes the target's bio and spends the target's item |
| PersonalPages.PersonalStore.DeletePage | plugins/personal.js:118-128 | deletepage removes the target's page and spends the target's item |
| PersonalPages.PersonalStore.Page | plugins/personal.js:103-106 | page looks up the target's page item, creating the account if absent |
| PersonalPages.PersonalStore.EditPage | plugins/personal.js:107-117 | editpage answers as EditPageSpec: a room owner gets a `publicpage` link for a public page, a page owner a `page` link to their own, and only the own-page branch creates the caller's account |
| PersonalPages.PubResolverOfRoute | plugins/personal.js:27-30 | the title of /pages/id.html is the id with its first letter upper-cased |
| PersonalPages.PageRouteChecksTokenUser | plugins/personal.js:51-64 | with a token, the edit form comes only when the token's user is the query user; without one the page shows only when it exists |
| PersonalPages.EditPageLinks | plugins/personal.js:107-117 | a link goes only to a room owner for a public page (`publicpage` token), or to a page owner for their own (`page` token), and lasts three hours |
| PersonalPages.OwnPageLinkRefusedAsWritten | plugins/personal.js:65 | as written, `/page.html` asks for `publicpage`, so the `page` token of the own-page link is refused |
| PersonalPages.OwnPageLinkOpensEditor | plugins/personal.js:51-65 | with `/page.html` asking for `page`, the own-page link passes the gate and opens the edit form exactly for the caller's own page |
| PersonalPages.PublicPagesNeedRank | plugins/personal.js:107-117 | a caller without `@` gets no public-page link, and the link they may get does not pass the `/public-page.html` gate |

## Left out

- WebSocket connection, HTTP login exchange and `process.exit` (client.js:49-90): only the reconnect counter and the delay it produces are modelled.
- ShowdownClient.Client.Parse: the challstr case only reports the challenge. As written, client.js never requires `request`, so `request.post` (client.js:62) throws a ReferenceError and the login never reaches `init`.
- ShowdownClient.Client.OnConnectFailed: the delay is computed, but the retry is not modelled. As written, `setTimeout(this.connect, …)` (client.js:28) passes an unbound method, so the retry throws when it fires.
- ShowdownClient.Client.OnClose: as for OnConnectFailed, the retry at client.js:38 passes an unbound `this.connect` and throws when it fires; only the counter and delay are modelled.
- Timers: the topic timer, the voting timer, and the token expiry and refresh (`setTimeout`/`clearTimeout`). The callback bodies are ordinary methods (`TopicTimeout`, `RemoveAccessToken`). `getAccessToken`'s rescheduling is not modelled.
- Random token bytes and the clock are parameters (`token`, `now`).
- File storage: `storage.getJSON`/`exportJSON` become the store fields.
- HTML and markdown rendering: `renderEntry`, `md.toHTML`, `wrapHTML`, the shop and bios pages and the daily form page. Message texts are reduced to reply values.
- `toLowerCase`/`toUpperCase` are modelled for ASCII letters only. `trim` uses the white-space set of the language standard's WhiteSpace and LineTerminator. String length is the number of characters, not of UTF-16 code units.
- Server start-up (server.js:75-123), `addRoute`/`removeRoute`, and the route table beyond one page's gate.
- No file of the source calls a plugin's `onJoin`; the J case of client.js:96-100 only updates the user list. OfflineMail.MailStore.OnJoin and Greetings.GreetingStore.OnJoin model the hooks themselves, not when they run.
- What a throw from the daily onPost does to the request: it leaves `resolve` at server.js:35 before the page is rendered, and the connect framework's error handling is not part of this model. Dailies.DailyStore.OnPost reports only that it threw, with the store as the loop left it.
- The onPost handlers of `/public-page.html` and `/page.html` (plugins/personal.js:37-49, 65-75), which store submitted text with a date.
- The `check` command of hemingway (plugins/hemingway.js:210-219) and the commented-out `openvoting` command.
- HemingwayGame.Submitted: the "awaited on" half of the report reads `this.players` of the command context, which is not the game; only the list of players accounted for is modelled.
- The game's `send`/`sendPM` texts, and `onSignups`' announcement.
- The Hemingway class holds its `GameBase` as a field instead of extending it.
- The constructor's `votesOpen` field is kept, but nothing reads it except `check`, which is left out; the round uses `votingOpen`.
- Daily form keys that name `Object.prototype` properties (for example `toString|x`): the model treats them as unknown dailies.
- User ids that name `Object.prototype` properties (for example "constructor", the id of "Constructor"): `userid in this.data` at quills.js:85 is true through inheritance, so getAccount returns the shared `Object` function instead of an account. addQuills and removeQuills (quills.js:93-107) then do not throw but write `NaN` into `Object.balance` and `Object.totalEarned`, shared by every such id; a Hemingway payout to such a player does exactly that. useItem (quills.js:110) and purchase (quills.js:124) throw, because `.inventory` is undefined; so does setgreeting (plugins/greetings.js:19). The greetings onJoin (plugins/greetings.js:15) finds the function truthy and sends its source text as the greeting. The mail command passes the full-inbox check (plugins/mail.js:45, the function's `length` is 1) and throws at plugins/mail.js:46, where `concat` is not a function. QuillLedger.AccountOf, Perks.Owns, Greetings.GreetingOnJoin and OfflineMail.InboxOf treat such an id like any other: absent until something is stored under it.
- Room ids that name `Object.prototype` properties (for example "constructor"): the user list lookup at client.js:98 finds the inherited function, so the failsafe makes no list and the user is stored as a property of that shared function. ShowdownClient.Client.ParseJoin, ParseLeave and ParseRename treat such a room like any other, with a list of its own.
- OfflineMail.MailStore.Prune: uses one clock reading for the whole loop, where the source reads `Date.now()` per message.
- The daily display branch's rendering: `DailyCommand` returns which infobox is sent, not its HTML.
- JsText.ParseIntOfDecimal: only decimal texts are proved to read back; the hexadecimal and sign branches of `ParseInt` are modelled but not separately proved.
- client.js command dispatch for `pm`, `c` and `c:` lines is a TODO in the source; only the self-message early returns are modelled.
- core-commands.js, leaderboard.js, noticeboard.js, main.js and storage.js are not part of this model.

## Findings

| source | as written | input that shows it | evidently intended | confidence | as-written member | corrected member |
|---|---|---|---|---|---|---|
| plugins/hemingway.js:62 | `canParticipate(type, userid)` is called with one argument, so `userid` is undefined | any user submitting in a free-join game they have not joined | check and add the acting user | high, not executed | HemingwayGame.ParticipateAsWrittenIgnoresUser | HemingwayGame.Hemingway.CanParticipate |
| game.js:60 | `playerIndex <= 0` turns away the player at index 0 | players ["a", "b"], closed game, "a" leaves | `playerIndex < 0`: only non-players are turned away | high, not executed | Games.FirstPlayerCannotLeaveAsWritten | Games.GameBase.UserLeave |
| plugins/hemingway.js:131-139 | after paying each tied player, votes[0] is paid again as the winner | votes a:1, b:1 — a receives 20 quills, b 10 | each most-voted player paid 10 once | high, not executed | HemingwayGame.TieDoublePaysFirst | HemingwayGame.Hemingway.ParseVotes |
| plugins/personal.js:65 | `/page.html` asks for `publicpage` tokens (the permission of `/public-page.html`), while editpage's own-page link carries a `page` token (plugins/personal.js:116) | a page owner runs editpage with no argument and opens the link | `/page.html` asks for `page`, so the link opens and public-page tokens stay with room owners | high, not executed | PersonalPages.OwnPageLinkRefusedAsWritten | PersonalPages.OwnPageLinkOpensEditor |
| client.js:153 | `fs` is never required (client.js:7-10), so `fs.readdirSync` throws once the core commands are set | any start-up with a plugin that defines a command | every plugin's commands are registered after the core ones | high, not executed | ShowdownClient.PluginOnlyCommandMissingAsWritten | ShowdownClient.Client.Init |
| plugins/greetings.js:31-34 | the check reads the caller's greeting, and the deletion removes the caller's entry and spends the caller's item (also plugins/personal.js:95-98 and 121-124) | staff "s" with a greeting runs deletegreeting t, where t owns one and has one set | the target's greeting, bio or page is removed and the target's item spent | high, not executed | Perks.RemovalHitsCallerAsWritten | Greetings.GreetingStore.DeleteGreeting |
| plugins/greetings.js:22 | `sendPM` gets the notice as its recipient and no message | an owner sets a greeting of 81 characters | the notice is sent to the caller | high, not executed | Greetings.TooLongNoticeMisaddressedAsWritten | Greetings.GreetingStore.SetGreeting |
