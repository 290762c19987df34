# Matches, queues, lobbies and ratings of a geography duel

A Dafny model of the parts of GeoDuels that keep state over time, with proofs
of what they promise. `dafny verify dfyconfig.toml` checks everything.

- **Ranked queue** (`SortedSets.dfy`, `MatchQueue.dfy`, `MatchStore.dfy`,
  `QueueProtocol.dfy`): the Redis keys of every (pool, ruleset) as four maps,
  the matching script as a loop over its range query, the greedy sweep, and a
  state machine in which clients, expiries and any number of matchers
  interleave step by step.
- **Match engine** (`Decimal.dfy`, `Scoring.dfy`, `Passes.dfy`, `Duel*.dfy`,
  `SinglePlayer.dfy`, `Winner.dfy`): matches as objects updated in place. Go
  visits maps in an arbitrary order, so every loop over one takes its next key
  nondeterministically; each method is proved equal to a function of the state
  before, which is at once its specification and independence of that order.
  `DuelModel.dfy` has those functions; the other files prove what they keep:
  the invariant (`DuelInvariant`, `DuelSafety`), the books (`DuelLedger`), what
  each round and guess does in terms of the judge and the provider (`DuelLaws`),
  rounds and deadlines (`DuelProgress`), whole runs and termination
  (`DuelRuns`), and the table of matches (`DuelMatches`).
- **Lobbies** (`LobbyPatches.dfy`, `LobbyStream.dfy`, `LobbyClient.dfy`,
  `Lobbies.dfy`, `LobbyMembers.dfy`, `ChatLimiter.dfy`): the patch between two
  snapshots, the socket that streams patches, the web client that merges them,
  who owns and who belongs to a lobby, and the chat limiter with its shared, compacted buffer.
- **Ratings** (`Rating.dfy`, `EloWeb.dfy`, `Refunds.dfy`,
  `CheatEvidence.dfy`): the rating step over the reals with its web twin, the
  refunds to a cheater's victims, and the automatic-ban rule.
- **Location sampler** (`Sampler.dfy`): the swap-remove pool and the store it
  remembers matches in.

The two rating examples take the system's constant and functions to lie in small
intervals around their values at the ratings named.

`Common.dfy` holds small datatypes and arithmetic.

## Where the code falls short of what one would expect

Each of these is proved; the members named also say when it does not happen.

- Between the end of an intermission and the Tick that advances, guesses are
  still taken. One that resolves the round files it twice
  (`DuelProgress.RoundsOnceExactly`, `GapResolvesTwice`); one that is only
  stored survives into the next round (`TidyExactly`, `UntimedDuelLeaks`).
- The web client lays a sent member over the one it holds, but the server
  leaves empty optional keys out. A key that goes away, such as `connected`
  when a connection drops, is never cleared (`LobbyClient.MergeExactly`,
  `DropIsMissed`, `ClientExactly`).
- A chat message stamped earlier than one before it may be let through though
  the window is full (`ChatLimiter.BackwardsClockForgets`); one stamped no
  earlier is always decided exactly (`RightExactlyFromPeak`).
- Two matches made in one millisecond get the same id
  (`MatchStore.IdsClashExactly`, `SameMillisecondClashes`).
- A second refund run can pay: a loss skipped because it gained nothing may
  gain later (`Refunds.SecondRunExactly`, `LaterRefund`).
- A former owner who rejoins a lobby cannot be kicked
  (`Lobbies.FormerOwnerStays`, `UnkickableHasOwned`).
- Two branches at the end of a Tick never do anything: the one for everybody's
  grace having run out, and, on a clock that never runs backwards, the one for
  stale matches (`DuelEngine.Match.Clean`, `DuelRuns.StaleNeverFires`).
- The web's rating preview shows a loser one point more on exact halves
  (`EloWeb.DeltaTwins`, `PreviewErrs`).

## Model

| member | source | states |
|---|---|---|
| `SortedSets.ZRangeByScore` | pkg/matchstore/store.go:36 | A range query returns exactly the members with a score in range, each once, by score and then by name. |
| `MatchQueue.Choose` | pkg/matchstore/store.go:36-70 | The script's loop over the range, which removes ticketless members on the way, settles on the pick defined over the whole queue: the admissible user with the least MMR difference, ties by scan order, or nobody exactly when nobody is admissible. |
| `MatchQueue.PickUnique` | pkg/matchstore/store.go:63-66 | That definition leaves no choice: there is at most one such user. |
| `MatchQueue.RangeLosesNobody` | pkg/matchstore/store.go:446-447 | Whoever the widening window admits lies inside the +/-500 query, so the query loses no candidate. |
| `MatchQueue.WindowWidens` | pkg/matchstore/store.go:55-61 | The window never narrows as the wait grows. |
| `MatchQueue.PairSymmetric` | pkg/matchstore/store.go:52-63 | If one user may be paired with another, then also the other way round. |
| `MatchQueue.PairAtExactly` | pkg/matchstore/store.go:52-63 | In numbers: both have waited a second, and the ratings are within 150, plus 75 for every two seconds of the longer wait, 500 at most. |
| `MatchQueue.PairStays` | pkg/matchstore/store.go:52-63 | A pair once admissible stays so at any later time, while both keep their tickets. |
| `MatchQueue.ScriptRemovesTwo` | pkg/matchstore/store.go:71-77 | From a backed queue the closing ZREM always removes two members, and the queue loses exactly those two tickets. |
| `MatchQueue.ScriptedBacked` | pkg/matchstore/store.go:71-79 | The script leaves every remaining ticket backed by members and joined. |
| `MatchQueue.MatchIdsDiffer` | pkg/matchstore/store.go:536 | Match ids differ exactly if the times they are made from do. |
| `MatchStore.Store.Join` | pkg/matchstore/store.go:277-320 | One transaction: the user leaves every queue and match of the other pool and takes a ticket, a member entry and a joined entry here. |
| `MatchStore.JoinQueues` | pkg/matchstore/store.go:277-320 | Afterwards the user is queued there with just that ticket and in no other pool's queue, and nobody else's entries have changed. |
| `MatchStore.Store.NormalizedRulesets` | pkg/matchstore/store.go:229-247 | The requested rulesets, each once, in the order of first mention; none requested means the moving one. |
| `MatchStore.FirstsInOrder` | pkg/matchstore/store.go:229-247 | What comes earlier in that list was first mentioned earlier. |
| `MatchStore.LeaveLeaves` | pkg/matchstore/store.go:350-361 | Whoever leaves is gone from every queue named, matches included; no other queue and nobody else's entries change. |
| `MatchStore.Store.Heartbeat` | pkg/matchstore/store.go:322-348 | 'matched' exactly if one of the rulesets holds a match, and then only the queues asked about before it were touched; 'queueing' only with a live ticket left; 'missing' only if the user is gone from every queue asked about. |
| `MatchStore.Store.Poll` | pkg/matchstore/store.go:367-385 | The match handed out, once, is that of the first ruleset, in the order asked for, that holds one; nothing is found only if none does. |
| `MatchStore.Store.MatchScript` | pkg/matchstore/store.go:15-80 | The whole script on the store, including the case that the caller is no longer a member. |
| `MatchStore.Store.TryMatch` | pkg/matchstore/store.go:423-489 | One user of the sweep: on success exactly the user and the pick are paired off, both and nobody else get the match, and both leave the pool's other queues; otherwise no ticket or result changes and, if the user had one, nobody was admissible. |
| `MatchStore.Store.Sweep` | pkg/matchstore/store.go:400-420 | The greedy loop: exactly the users of the matches made lose their tickets, each match was at its time the best choice among those still left, its two users have it stored, and if the loop stops below the limit no two users left were a pair when it began. |
| `MatchStore.Store.RunMatchmaking` | pkg/matchstore/store.go:387-421 | The sweep makes a matching, and a maximal one: the matches made are pairwise disjoint, each an eligible pair at its time and the closest choice then left; each is stored for both and nobody else, and names the opponent and the user tried, in this order, with the ratings of their tickets, the queue's ruleset and the user's season or, if that is empty, the opponent's; exactly their tickets are gone, two per match; and with fewer than `limit` of them no two users left were an eligible pair when it began, under a clock that may advance between steps. |
| `MatchStore.PollFindsTheMatch` | pkg/matchstore/store.go:367-385 | After a sweep a poll of either user of a match made, about any rulesets with this one among them, finds just that match: the opponent first, then the user tried. |
| `MatchStore.PickIsChoice` | pkg/matchstore/store.go:36-70 | The script's pick over the queue as it stands is the best choice among the users the sweep has left. |
| `MatchStore.SweptPairs` | pkg/matchstore/store.go:407-419 | No user is in two matches, and every match costs two tickets. |
| `MatchStore.IdsClashExactly` | pkg/matchstore/store.go:529-536 | Two matches of a sweep share an id exactly if they were made in the same millisecond. |
| `MatchStore.SameMillisecondClashes` | pkg/matchstore/store.go:529-536 | It happens: two pairs matched within one millisecond get one id. |
| `MatchStore.SettledExhausted` | pkg/matchstore/store.go:400-420 | Why the user list suffices: whoever waited long enough is on it. |
| `QueueProtocol.StepKeepsInv` | pkg/matchstore/store.go:277-489 | Every atomic step of any client or matcher, and every expiry, keeps the queue invariant, with matchers suspended anywhere and no lock. |
| `QueueProtocol.RunKeepsInv` | pkg/matchstore/store.go:277-489 | So does every run from empty queues. |
| `QueueProtocol.QueueSafety` | pkg/matchstore/store.go:277-489 | In every reachable state live tickets are backed with their MMR and join time, members is part of joined, nobody is queued in two pools, and no Join is used by two matches. |
| `QueueProtocol.ConsumedOnlyOnce` | pkg/matchstore/store.go:71-77 | After a script hit nobody holds a ticket of a Join that a match has used. |
| `QueueProtocol.MatchesTraced` | pkg/matchstore/store.go:277-489 | In every reachable state each match stored for a user is of a pairing formed in that queue, names its two users, and is stored for one of them. |
| `Decimal.PrintDecimal` | pkg/duel/engine.go:786-797 | The hand-written printer's loop yields the decimal digits. |
| `Decimal.DecValue` | pkg/duel/engine.go:786-797 | The digits denote the number printed. |
| `Decimal.DecInjective` | pkg/duel/engine.go:786-797 | Two numbers printed alike are equal. |
| `Scoring.RoundScore` | pkg/gameplay/scoring.go:28-34 | A score lies in 0..5000, whatever the distance. |
| `Scoring.ScoreExactly` | pkg/gameplay/scoring.go:28-34 | Within the perfect distance the score is full; beyond it, it is the decay's share of it in whole points. |
| `Scoring.FartherScoresNoMore` | pkg/gameplay/scoring.go:24-34 | A farther guess never scores more. |
| `Scoring.ClampDistanceKm` | pkg/gameplay/scoring.go:24-26 | The clamped distance is in range, and is the distance if that was. |
| `DuelModel.Judge` | pkg/duel/engine.go:397-409 | The engine's judgement of a guess, or of none, is a score in 0..5000 at a distance no greater than half the globe. |
| `DuelModel.NormalizeMatchConfig` | pkg/contracts/contracts.go:112-152 | A normalized configuration is fixed with a limit within bounds, or has no timer; only the default pressure survives. |
| `DuelModel.NormalizeIdempotent` | pkg/contracts/contracts.go:112-152 | Normalizing twice is normalizing once. |
| `DuelModel.DamageExact` | pkg/duel/engine.go:824-829 | Rounding the multiplied difference equals the whole-number form: the difference for two rounds, then half its product with the round, rounded up. |
| `DuelModel.DamagePositive` | pkg/duel/engine.go:824-829 | Damage is at least the difference, and zero only if that is. |
| `DuelInvariant.BestIsFirst` | pkg/duel/engine.go:494-510 | A team's result is its members' highest score, held by the first member in team order that reaches it. |
| `DuelEngine.Match.ScoreGuesses` | pkg/duel/engine.go:390-415 | The scoring loop over the players in any order gives everybody the same result. |
| `DuelEngine.Match.DuelDamage` | pkg/duel/engine.go:457-486 | Whichever player the map listed first, the lower score pays the damage, HP stops at zero, and both results record it. |
| `DuelEngine.Match.TeamDamage` | pkg/duel/engine.go:488-545 | The weaker team pays, and every member of a team ends with the team's HP, for every order of teams. |
| `DuelEngine.Match.SpreadHp` | pkg/duel/engine.go:525-540 | Clamping teams and handing their HP to members commutes with the order of teams. |
| `DuelEngine.Match.ResolveRound` | pkg/duel/engine.go:379-455 | Resolution has one outcome for every iteration order of players and teams: HP, results and state are a function of the state before. |
| `DuelEngine.Match.ReapOverdue` | pkg/duel/engine.go:271-285 | The pass over the players, in any order: exactly the overdue lose their HP. |
| `DuelEngine.Match.Clean` | pkg/duel/engine.go:271-310 | After that pass the branch for everyone's grace having run out cannot be reached. |
| `DuelMatches.Engine.CreateMatch` | pkg/duel/engine.go:86-169 | Exactly which requests are refused and why, in the source's order of checks; an accepted one adds one match and touches no other; the table keeps the invariant and the books of every match from its creation on. |
| `DuelMatches.Engine.BuildTeams` | pkg/duel/engine.go:736-765 | Members on the side they picked, in listing order, and an empty side dropped. |
| `DuelMatches.SidesPartition` | pkg/duel/engine.go:736-765 | Both teams exist exactly if both sides were picked, and then they partition the players. |
| `DuelMatches.SideInOrder` | pkg/duel/engine.go:736-765 | Whoever comes first on a side was listed first. |
| `DuelMatches.AcceptedExactly` | pkg/duel/engine.go:86-140 | A request is accepted exactly for two users, or a party of two to eight, in team duels with both sides picked, if the world is known, has a first location and the id is free. |
| `DuelMatches.CreatedSeats` | pkg/duel/engine.go:86-169 | The new match is at the provider's first location, its players are just those asked for, unhurt, on the sides they picked. |
| `DuelMatches.CreatedSound` | pkg/duel/engine.go:86-169 | Every accepted match starts with the invariants that the run theorems start from. |
| `DuelMatches.Engine.Tick` | pkg/duel/engine.go:248-315 | For every order of matches, each is ticked once, and the ids returned are exactly those of the matches that changed, each once; every match keeps its invariant and books, and its grace periods and exact deadlines while the clock has not run backwards. |
| `DuelMatches.OpKept` | pkg/duel/engine.go:181-455 | Any operation on a match keeps what the table promises of it. |
| `DuelSafety.TallyFair` | pkg/duel/engine.go:457-545 | HP after a round is HP before less the recorded damage, at least zero; team members share the team's. |
| `DuelSafety.OpKeepsValid` | pkg/duel/engine.go:181-455 | Every operation keeps: HP in 0..6000 and never rising, a live match has all HP positive, in a live team duel the teams partition the players and share HP, the index stays below 20 (5 in free-for-all). |
| `DuelSafety.ChangeRaisesEventSeq` | pkg/duel/engine.go:181-455 | Whatever an operation stores, it raises the event sequence. |
| `DuelSafety.EndedIsFinal` | pkg/duel/engine.go:181-455 | Once ended, no operation changes state, HP, total scores, results or index. |
| `DuelLedger.TallyBalanced` | pkg/duel/engine.go:457-545 | Damage dealt is the other side's damage taken, and at most one side takes any. |
| `DuelLedger.OpKeepsLedger` | pkg/duel/engine.go:379-545 | While live, HP is 6000 less all damage on record, per player in a duel and per team in a team duel; in free-for-all the total score is the sum of the recorded scores. |
| `DuelLaws.ResolvedTells` | pkg/duel/engine.go:390-415 | Every resolution files one row, and in it each player's own guess with the distance and score the judge gives that guess at the round's location, or no guess with what that is worth. |
| `DuelLaws.NearerScoresMore` | pkg/duel/engine.go:397-409 | The engine's judge never scores a farther guess, or none, above a nearer one. |
| `DuelLaws.NearerNeverPays` | pkg/duel/engine.go:390-486 | So in a duel whoever guessed no farther off than the other, or alone guessed, loses no HP. |
| `DuelLaws.DuelCharges` | pkg/duel/engine.go:457-486 | In a duel the lower of the two scores filed costs its player the rounded product of the deficit and the round's multiplier, down to zero HP; the other pays nothing and is credited. |
| `DuelLaws.TeamRepresented` | pkg/duel/engine.go:488-524 | A team's result is the guess, distance and score of its first member to reach its best score. |
| `DuelLaws.TeamCharges` | pkg/duel/engine.go:488-545 | The team whose representative scored less pays the same price, the other nothing, and members share what is left. |
| `DuelLaws.RoundEndsExactly` | pkg/duel/engine.go:429-442 | A round ends the match exactly if it leaves somebody at zero HP or is the last of twenty; in free-for-all exactly if it is the last of five. |
| `DuelLedger.OneStanding` | pkg/duel/engine.go:429-486 | A two-player duel ends early exactly if a round brings one player to zero, and never brings both there. |
| `DuelLaws.RunKeepsPlaced` | pkg/duel/engine.go:379-597 | Over every run a match is played, and each row on file was played, at the location the provider gives for that round. |
| `DuelLaws.NextRoundOpens` | pkg/duel/engine.go:565-597 | A Tick past the intermission opens the next round at the provider's location for it, with a fresh clock and nobody shown as final or with a guess, or ends the match if there is none; HP, scores and results stay. |
| `DuelLaws.GuessClosesExactly` | pkg/duel/engine.go:206-246 | A guess inside a round replaces the user's provisional one, touches nobody else's, and resolves the round exactly if it is final and so is everybody else's. |
| `DuelLaws.LateGuessIgnored` | pkg/duel/engine.go:191-215 | A guess before the round's intro is over, or after the user's final one, changes nothing; one after its end resolves the round without it. |
| `DuelLaws.RefusedExactly` | pkg/duel/engine.go:188-203 | A guess is an error exactly if the match has ended, else if it names another round, else if its user is a stranger and no intermission is running. |
| `DuelLaws.QuietTick` | pkg/duel/engine.go:267-313 | A Tick inside a round with nobody overdue does nothing, but for announcing once that the round is live. |
| `DuelLaws.ForfeitCosts` | pkg/duel/engine.go:353-377 | A forfeit ends a live match with the forfeiter at zero HP and everybody else, results and teams as they were. |
| `DuelLaws.ComesBack` | pkg/duel/engine.go:335-351 | A resumption, or a guess that is taken, makes a player present. |
| `DuelLaws.PresentNotReaped` | pkg/duel/engine.go:271-285 | Whatever the run, until the next disconnection no Tick's connection check costs a present player HP. |
| `DuelProgress.RoundIdInjective` | pkg/duel/engine.go:782-797 | Round identifiers of one match do not collide. |
| `DuelProgress.OtherRoundRejected` | pkg/duel/engine.go:191-193 | A guess that names any other round is refused and changes nothing. |
| `DuelProgress.RoundsOnceExactly` | pkg/duel/engine.go:181-455 | Results stay one per round, in order and complete, exactly as long as no guess resolves a round between the end of an intermission and the Tick that advances. |
| `DuelProgress.GapResolvesTwice` | pkg/duel/engine.go:194-208 | In that gap two late guesses file the same round twice. |
| `DuelProgress.TidyExactly` | pkg/duel/engine.go:194-215 | A round opens without guesses exactly as long as no guess is stored in that gap. |
| `DuelProgress.GapGuessLeaks` | pkg/duel/engine.go:565-597 | A guess stored there is still on file, as the user's, in the next round. |
| `DuelProgress.UntimedDuelLeaks` | pkg/duel/engine.go:194-215 | It happens: two players finalize one point in an untimed round, one guesses again once the intermission has run out, and the next round opens with that guess on file. |
| `DuelProgress.DeadlineNeverLater` | pkg/duel/engine.go:222-233 | Within a round a set deadline never moves later. |
| `DuelProgress.OpKeepsDeadline` | pkg/duel/engine.go:222-233 | On a clock that does not run backwards every operation keeps an open round's deadline at the least of the fixed deadline and, under pressure, the finalize times of the round's own guesses plus the pressure time; guesses left over from the round before never press. |
| `DuelRuns.OpTakesSteps` | pkg/duel/engine.go:248-315 | No operation adds to the steps left, and a Tick later than the current phase takes one away. |
| `DuelRuns.LateTicksBounded` | pkg/duel/engine.go:181-315 | In any run of any operations at most 2*(L - index) Ticks find the match live and its phase over, and as many end it. |
| `DuelRuns.TicksEndTheMatch` | pkg/duel/engine.go:248-315 | From any live state 2*(L - index) Ticks, each later than the phase it finds, end the match. |
| `DuelRuns.OutcomeCarries` | pkg/duel/engine.go:181-455 | An ended match keeps its outcome over every later run. |
| `DuelRuns.RunKeepsBooks` | pkg/duel/engine.go:181-455 | Over every run HP only falls and the damage and score books balance. |
| `DuelRuns.GapFreeRun` | pkg/duel/engine.go:181-455 | Over every run without gap guesses each round is resolved once, and rounds open without guesses. |
| `DuelRuns.RunKeepsDeadlines` | pkg/duel/engine.go:181-605 | Over every run on such a clock, gap guesses included, open rounds have exact deadlines. |
| `DuelMatches.CreatedRun` | pkg/duel/engine.go:86-455 | From every accepted request on, over every run: the books balance, HP only falls, rounds are played where the provider puts them, and on such a clock deadlines are exact. |
| `DuelRuns.OpenedSound` | pkg/duel/engine.go:145-169 | What a new match satisfies. |
| `DuelRuns.StaleNeverFires` | pkg/duel/engine.go:303-309 | On a clock that never runs backwards no Tick ends a match as stale: a disconnection's grace period always runs out first. |
| `DuelRuns.TickEndsExactly` | pkg/duel/engine.go:271-313 | Inside a round a Tick ends the match exactly when somebody's grace has run out, and costs just them their HP. |
| `DuelRuns.AbsentLoses` | pkg/duel/engine.go:271-285 | Whatever the others do after a disconnection, if the player gives no sign past the grace period, a Tick inside a round ends a match still live, with that player at zero. |
| `SinglePlayer.SoloKeepsTally` | pkg/singleplayer/engine.go:102-263 | Every operation, a connection coming or going included, keeps one result per round in order, and a total score that is the sum of the recorded scores. |
| `SinglePlayer.SoloRunTallied` | pkg/singleplayer/engine.go:102-263 | Over every run from the start each round is resolved at most once, in order, and the total stays within five perfect rounds. |
| `SinglePlayer.GuessIsFiled` | pkg/singleplayer/engine.go:102-135 | A final guess in an open round files its own point with the distance and score the judge gives it at the round's location; any other guess files nothing. |
| `SinglePlayer.SoloRunPlaced` | pkg/singleplayer/engine.go:102-263 | Over every run every round is played, and filed, at the location the provider gives for it. |
| `SinglePlayer.OpeningPlaced` | pkg/singleplayer/engine.go:58-100 | A session starts at the first of them. |
| `SinglePlayer.SoloNextRound` | pkg/singleplayer/engine.go:137-179 | Advancing after a round opens the next at the provider's location for it, without a guess; after the fifth it ends the session, and without a location it waits. |
| `SinglePlayer.EngineJudgeFair` | pkg/singleplayer/engine.go:238-239 | The engine's own judge gives the scores in 0..5000 that this rests on. |
| `Winner.SnapshotWinner` | pkg/persistence/store.go:2892-2912 | For every iteration order: the one player with strictly more HP than all others, or nobody if there is none. |
| `Winner.RulesAgree` | pkg/persistence/store.go:2511-2516 | On two players it agrees with the rating record's choice exactly when somebody's HP is not negative or it is a draw. |
| `Winner.EarlyEndNamesWinner` | pkg/persistence/store.go:2511-2516 | When a round ends a duel early both rules name the player left standing. |
| `LobbyPatches.LobbyPatch` | services/match-coordinator/lobby_handlers.go:756-803 | The patch carries a field exactly if it changed, the members that are new or differ, and the ids that are gone, each once, in any order. |
| `LobbyPatches.PatchReplays` | services/match-coordinator/lobby_handlers.go:756-803 | Applied to the previous snapshot it gives the next one's fields and member table, exactly unless the next holds an all-zero member with an empty id that the previous lacked. |
| `LobbyPatches.UpsertsAndRemovesDisjoint` | services/match-coordinator/lobby_handlers.go:777-801 | No id is both sent and removed. |
| `LobbyPatches.EmptyMeansSame` | services/match-coordinator/lobby_handlers.go:756-803 | A patch is empty exactly if nothing it could carry has changed. |
| `LobbyStream.Connection.SendChange` | services/match-coordinator/lobby_handlers.go:361-367 | A patch, with the next revision, exactly if the snapshot changed. |
| `LobbyStream.Connection.Refresh` | services/match-coordinator/lobby_handlers.go:350-380 | One refresh: what is sent in which case, and when the stream ends; everything sent so far still replays to the last snapshot. |
| `LobbyStream.Connection.Replays` | services/match-coordinator/lobby_handlers.go:350-372 | Over a whole connection the reader's view is the last snapshot, and patch i carries revision i+2. |
| `LobbyStream.ViewFollows` | services/match-coordinator/lobby_handlers.go:756-803 | Patches between successive snapshots replay to the last one. |
| `LobbyStream.Connection.ClientAgrees` | apps/web/features/lobby/lib/lobby-client.ts:110-132 | The web client's copy is exact too, if no member who stays ever loses a key. |
| `LobbyClient.EncodeReads` | pkg/contracts/contracts.go:542-555 | Leaving out empty optional keys loses nothing, and different members differ on the wire. |
| `LobbyClient.MergeExactly` | apps/web/features/lobby/lib/lobby-client.ts:125-128 | Laying a new member over the old one is right exactly when every key the old one had on the wire the new one has too. |
| `LobbyClient.ConnectedSticks` | apps/web/features/lobby/lib/lobby-client.ts:125-128 | A member once shown as connected stays so, whatever is merged in. |
| `LobbyClient.DropIsMissed` | apps/web/features/lobby/lib/lobby-client.ts:125-128 | So the client misses every connection that drops. |
| `LobbyClient.ClientExactly` | apps/web/features/lobby/lib/lobby-client.ts:110-132 | From an exact copy the client shows the next snapshot exactly when nobody who stays loses a key. |
| `LobbyClient.ClientFollows` | apps/web/features/lobby/lib/lobby-client.ts:110-132 | Over a run in which nobody does, its copy is the server's. |
| `LobbyClient.ClientStrays` | apps/web/features/lobby/lib/lobby-client.ts:110-132 | The first patch of a run that takes a key away is the one at which it goes wrong. |
| `ChatLimiter.Limiter.Compact` | services/match-coordinator/chat_handlers.go:241-248 | The in-place loop leaves exactly the live entries, in order, at the front of the shared buffer. |
| `ChatLimiter.Limiter.AllowChatSend` | services/match-coordinator/chat_handlers.go:234-255 | A message stamped no earlier than all before it under its key is accepted exactly when fewer than 5 accepted ones, over the whole history, are newer than now - 10 s; with any stamp a message that this rule allows is accepted; other keys are untouched. |
| `ChatLimiter.Limiter.SendsAreSpaced` | services/match-coordinator/chat_handlers.go:249-253 | On such a clock the (i+5)th accepted message is at least 10 s after the ith. |
| `ChatLimiter.BackwardsClockForgets` | services/match-coordinator/chat_handlers.go:241-253 | For every latest stamp and every earlier one there is a history after which the earlier one is let through though five accepted messages are still in its window. |
| `ChatLimiter.RightExactlyFromPeak` | services/match-coordinator/chat_handlers.go:241-253 | A message is answered as the whole history asks, after every history with a given latest stamp, exactly if it is stamped no earlier. |
| `ChatLimiter.RightFromPeak` | services/match-coordinator/chat_handlers.go:241-253 | The decision is never harsher than the whole history asks, and just what it asks from the latest stamp on. |
| `ChatLimiter.PlayedAgrees` | services/match-coordinator/chat_handlers.go:241-253 | What compaction has dropped can never count again: log and history agree on every cutoff from the latest stamp's on. |
| `ChatLimiter.PlayedSpaced` | services/match-coordinator/chat_handlers.go:249-253 | Over ascending stamps any six accepted messages in a row span at least 10 s. |
| `ChatLimiter.NewerIsTail` | services/match-coordinator/chat_handlers.go:241-248 | Compaction of a sorted log keeps a tail of it. |
| `ChatLimiter.SpacedGrows` | services/match-coordinator/chat_handlers.go:249-253 | An accepted message keeps any six in a row at least 10 s apart. |
| `ChatLimiter.KeyInjective` | services/match-coordinator/chat_handlers.go:235 | Users whose ids hold no colon share a log with nobody. |
| `Lobbies.StepKeepsSound` | pkg/persistence/lobbies.go:118-507 | Every operation, a Kick with an outdated owner check included, keeps: a live lobby's owner is an active member with the owner's role, at most eight are active, modes are party modes, and invite codes are unique. |
| `Lobbies.RunKeepsSound` | pkg/persistence/lobbies.go:118-507 | So does every run. |
| `Lobbies.EndedForGood` | pkg/persistence/lobbies.go:270-442 | A closed or expired lobby never reopens. |
| `Lobbies.OwnerMovesByOwner` | pkg/persistence/lobbies.go:171-235 | Ownership moves only when the owner hands it over or leaves, and only to an active member. |
| `Lobbies.FormerOwnerStays` | pkg/persistence/lobbies.go:150-157 | A former owner who rejoins has the owner's role again and cannot be kicked. |
| `Lobbies.UnkickableHasOwned` | pkg/persistence/lobbies.go:336-346 | Whoever cannot be kicked for having the owner's role has owned the lobby at some time. |
| `LobbyMembers.JoinAllowedExactly` | pkg/persistence/lobbies.go:118-169 | A join works exactly on an open lobby not past its time with a seat free for the user. |
| `LobbyMembers.AllowedExactly` | pkg/persistence/lobbies.go:171-371 | Leaving works exactly for members of an open lobby, handing over for its owner with another member, a Kick on members without the owner's role. |
| `LobbyMembers.CreateOpens` | pkg/persistence/lobbies.go:17-79 | A lobby starts open, with its owner as its only member. |
| `LobbyMembers.JoinAdds` | pkg/persistence/lobbies.go:118-169 | A join that works adds just that user to the active members, from now on unless active already; every other row, every other lobby and the rest of this one stay. |
| `LobbyMembers.LeaveDrops` | pkg/persistence/lobbies.go:171-235 | A leave that works makes just that user inactive; ownership moves or the lobby closes exactly if the owner left. |
| `LobbyMembers.KickDrops` | pkg/persistence/lobbies.go:327-350 | A Kick that works makes just its target inactive. |
| `LobbyMembers.TransferHands` | pkg/persistence/lobbies.go:352-371 | A transfer makes its taker the one active member with the owner's role; nobody joins or leaves. |
| `LobbyMembers.BelongsExactly` | pkg/persistence/lobbies.go:17-371 | After any run a user is an active member exactly if some join or creation made the user one and no leave or Kick since took the user out. |
| `LobbyMembers.MatchOpensAgain` | pkg/persistence/lobbies.go:373-425 | A lobby that starts a match is in it until that match has ended, and then open again with it as its last match. |
| `LobbyMembers.OpensOnlyByReopen` | pkg/persistence/lobbies.go:394-425 | Nothing else opens a lobby that is not open. |
| `LobbyMembers.StartsOnlyByBegin` | pkg/persistence/lobbies.go:373-392 | Only a start takes an open lobby into a match, the one started. |
| `LobbyMembers.ExpiresExactly` | pkg/persistence/lobbies.go:270-281 | Expiry takes exactly the open lobbies past their time. |
| `Lobbies.LobbyStore.CreateLobby` | pkg/persistence/lobbies.go:17-79 | A missing owner or an unsupported mode is refused; else the first of five tries whose id and code are free, or none. |
| `Lobbies.LobbyStore.JoinLobby` | pkg/persistence/lobbies.go:118-169 | Who is refused, and what a first or repeated join does. |
| `Lobbies.LobbyStore.NextOwner` | pkg/persistence/lobbies.go:199-206 | An active member who joined no later than any other, or nobody. |
| `Lobbies.LobbyStore.LeaveLobby` | pkg/persistence/lobbies.go:171-235 | An owner's leaving passes the lobby on, or closes it. |
| `Lobbies.LobbyStore.KickLobbyMember` | pkg/persistence/lobbies.go:327-350 | A Kick works exactly on active members without the owner's role. |
| `Rating.Variance` | pkg/rating/rating.go:77-78 | The variance after a game is positive and never larger than before. |
| `Rating.NextRatingMoves` | pkg/rating/rating.go:70-82 | Before the cap a rating moves toward the score, by less than 300 points. |
| `Rating.ForgiveBetween` | pkg/rating/rating.go:136-150 | Forgiveness takes part of a loss and nothing else, and never goes below the floor. |
| `Rating.ForgiveInProportion` | pkg/rating/rating.go:136-150 | Between floor and full weight a loss counts in proportion to the height above the floor, to the nearest point. |
| `Rating.NextBounds` | pkg/rating/rating.go:33-57 | From MMR 500 up the result is within [max(500, cur-80), cur+80], doing better than expected never costs, doing worse never pays, and the final clamp is the identity. |
| `Rating.DuelBounds` | pkg/rating/rating.go:33-57 | The same for both players of a duel: a winner never drops, a loser never rises. |
| `Rating.BetterScoreNeverLess` | pkg/rating/rating.go:33-57 | Through rounding, cap, forgiveness and floor a better score never leaves a player with less. |
| `Rating.LoserNeverRisesExactly` | pkg/rating/rating.go:118-123 | A loser never rises exactly from MMR 500 up; below, the floor lifts. |
| `Rating.GameSharpens` | pkg/rating/rating.go:70-82 | A game never raises the rating deviation, which stays in [110, 220]. |
| `Rating.GameIsGlicko` | pkg/rating/rating.go:70-82 | A game is Glicko's step: the variance is the inverse of the sum of the prior precision and what the game tells, the rating moves by q * variance * g times the surprise, and the deviation is the variance's root within its bounds. |
| `Rating.WaitingBlurs` | pkg/rating/rating.go:93-116 | Inactivity never lowers it. |
| `Rating.WaitingIsGlicko` | pkg/rating/rating.go:93-116 | The square of the deviation grows by 36300/365 a day up to its bound. |
| `Rating.PlayersSwap` | pkg/rating/rating.go:33-57 | Naming the players the other way round swaps their updates. |
| `EloWeb.ForgivenessTwins` | apps/web/lib/elo.ts:110-120 | The web's forgiveness differs from the server's on exact halves only, and there by one. |
| `EloWeb.DeltaTwins` | apps/web/lib/elo.ts:14-68 | The web's change of one player is the server's, plus one exactly when the forgiven loss falls on a half point. |
| `EloWeb.PreviewTwins` | apps/web/lib/elo.ts:14-68 | For a whole duel: a winner's preview is exact, a loser's at most one point high, deviations equal. |
| `EloWeb.PreviewErrs` | apps/web/lib/elo.ts:110-120 | It happens: a player at 750 who loses to one at 1500, both at the least deviation, is shown no loss and loses a point. |
| `Refunds.Ledger.IssueRefunds` | pkg/persistence/store.go:4349-4440 | A whole run, with the summary's count and total those of the refunds made. |
| `Refunds.RefundBounds` | pkg/persistence/store.go:4382-4395 | A refund is the gain capped by the loss, hence at most both the loss and 80, and only a missing gain prevents it. |
| `Refunds.RunPays` | pkg/persistence/store.go:4365-4440 | Every refund of a run is positive and within its bounds, recorded under a key that was free, and raises its victim's rating by just its amount. |
| `Refunds.GainIsTheWin` | pkg/persistence/store.go:4377-4381 | The gain is that of the victim's own win, from where the victim stands, over the cheater as of that match. |
| `Refunds.RunPaysEveryone` | pkg/persistence/store.go:4365-4440 | Nobody is passed over: a loss whose victim has a rank row and a gain above zero at its turn is on record afterwards, and, if it was not before, by a refund of the gain or the loss, whichever is less. |
| `Refunds.OneEntryEach` | pkg/persistence/store.go:4396-4408 | A key free before is taken afterwards exactly if one refund, and no other, was made under it. |
| `Refunds.KeysDiffer` | pkg/persistence/store.go:4396-4408 | Refunds to one victim for two matches, or to two victims, are kept apart. |
| `Refunds.BothPaid` | pkg/persistence/store.go:4365-4440 | Two victims with one gainful loss each are both paid. |
| `Refunds.RunStamps` | pkg/persistence/store.go:4425-4434 | A run restarts the inactivity clock of exactly the victims it pays. |
| `Refunds.RunConserves` | pkg/persistence/store.go:4365-4440 | All ratings together rise by exactly the total refunded. |
| `Refunds.NothingTwice` | pkg/persistence/store.go:4396-4408 | No match is refunded twice to one victim, whatever happens between runs. |
| `Refunds.SecondRunExactly` | pkg/persistence/store.go:4365-4440 | A second run makes no refund exactly when every loss is recorded, has no rank row, or would gain nothing now. |
| `Refunds.LaterRefund` | pkg/persistence/store.go:4379-4381 | A second run can pay: a victim at 1400, just played, gains nothing from a win over a cheater at 500, so the loss is skipped; a year later, nothing else changed, it is refunded. |
| `CheatEvidence.EvidenceGrows` | pkg/persistence/store.go:2844-2870 | Evidence never falls when the score rises or a positive guess time shrinks, across all tiers. |
| `CheatEvidence.EvidenceCorners` | pkg/persistence/store.go:2844-2870 | What the formula gives at the corners of its tiers. |
| `CheatEvidence.AutoCheatBanReason` | pkg/persistence/store.go:4529-4566 | The single pass over a player's recent guesses decides as the sums and counts say. |
| `CheatEvidence.TiersExactly` | pkg/persistence/store.go:4529-4566 | Each tier, and that earlier ones go first, by counting guesses: sums over 10 and 20, three extreme ones, five of the last ten, nineteen of twenty. |
| `CheatEvidence.BanIsMonotone` | pkg/persistence/store.go:4529-4566 | Making each recent guess at least as strong never turns a ban into no ban. |
| `Sampler.RoundKeyInjective` | pkg/locationsampler/store.go:263-265 | No two rounds, of the same or different matches, share a key. |
| `Sampler.UsedKeyInjective` | pkg/locationsampler/store.go:267-269 | Neither do two matches' sets of used locations. |
| `Sampler.MemoryStore.SaveRound` | pkg/locationsampler/store.go:242-247 | Saving one round leaves every other as it was. |
| `Sampler.MemoryStore.MarkUsed` | pkg/locationsampler/store.go:249-261 | True exactly for a location new to the match. |
| `Sampler.WithoutKeeps` | pkg/locationsampler/sampler.go:158-162 | Swapping the last row into the gap loses nothing but the row drawn. |
| `Sampler.LocationSampler.Draw` | pkg/locationsampler/sampler.go:145-170 | A row drawn leaves the pool; all rows the database answered with are in the pool or drawn. |
| `Sampler.LocationSampler.NextRound` | pkg/locationsampler/sampler.go:90-133 | A round served before is answered unchanged. A new one is the first row drawn that is new to the match if one of the first 12 is, else the 13th; failure means at most 12 draws, all used. Over any sequence of calls two rounds of a match share a location only if one of them came after 12 draws in a row of used locations. |
| `Sampler.FallbackNeedsRepeats` | pkg/locationsampler/sampler.go:105-126 | Draws that do not repeat a row cannot all be used by a match with fewer locations than draws: a match with fewer than 12 falls back only if the pool drew a row twice. |

## Operations

The remaining operations do just what the function in their contract says; what
those functions keep is stated above.

| operation | source | does |
|---|---|---|
| `MatchStore.Store.Leave` | pkg/matchstore/store.go:350-361 | The user leaves the named queues of the pool and no others. |
| `MatchStore.Store.Beat` | pkg/matchstore/store.go:82-111 | The heartbeat script on one queue: its answer, and the traces it removes. |
| `MatchStore.Store.Commit` | pkg/matchstore/store.go:471-488 | Both users get the same match, and lose every ticket and every other match in the pool. |
| `DuelEngine.Match.constructor` | pkg/duel/engine.go:145-164 | A new match as the creation step leaves it. |
| `DuelEngine.Match.RoundDamage` | pkg/duel/engine.go:461-462 | The rounded product of difference and multiplier is the whole-number damage. |
| `DuelEngine.Match.BestOf` | pkg/duel/engine.go:494-510 | The scan for a team's representative. |
| `DuelEngine.Match.AddScores` | pkg/duel/engine.go:421-427 | Free-for-all: scores are added, the HP column is blanked, in any order. |
| `DuelEngine.Match.CheckHp` | pkg/duel/engine.go:429-436 | Anyone at zero ends the match, in any order. |
| `DuelEngine.Match.AdvanceRound` | pkg/duel/engine.go:565-597 | The next round opens, or the match ends when the provider fails. |
| `DuelEngine.Match.StartRoundTimer` | pkg/duel/engine.go:599-605 | A fixed timer sets the deadline, anything else leaves it. |
| `DuelEngine.Match.SubmitGuess` | pkg/duel/engine.go:181-246 | Which guesses are refused, ignored, overtaken by the clock, or stored, and when storing one resolves the round. |
| `DuelEngine.Match.MarkDisconnected` | pkg/duel/engine.go:317-333 | A disconnection starts the grace period. |
| `DuelEngine.Match.MarkResumed` | pkg/duel/engine.go:335-351 | A resumption clears it. |
| `DuelEngine.Match.Forfeit` | pkg/duel/engine.go:353-377 | A live match ends with the player at zero HP. |
| `DuelEngine.Match.Tick` | pkg/duel/engine.go:248-315 | One match's share of a Tick, phase by phase. |
| `DuelMatches.Engine.SubmitGuess` | pkg/duel/engine.go:181-246 | A guess changes the named match as the model says, and no other. |
| `DuelMatches.Engine.MarkDisconnected` | pkg/duel/engine.go:317-333 | The same for a disconnection. |
| `DuelMatches.Engine.MarkResumed` | pkg/duel/engine.go:335-351 | The same for a resumption. |
| `DuelMatches.Engine.Forfeit` | pkg/duel/engine.go:353-377 | The same for a forfeit. |
| `SinglePlayer.Session.SubmitGuess` | pkg/singleplayer/engine.go:102-135 | A guess is refused, ignored, stored, or resolves the round. |
| `SinglePlayer.Session.ResolveRound` | pkg/singleplayer/engine.go:233-263 | The round is filed with its score, which is added to the total. |
| `SinglePlayer.Session.AdvanceRound` | pkg/singleplayer/engine.go:137-179 | The next round, or the end after five. |
| `SinglePlayer.Session.Forfeit` | pkg/singleplayer/engine.go:181-197 | The session ends, results untouched. |
| `SinglePlayer.Session.MarkDisconnected` | pkg/singleplayer/engine.go:201-215 | A connection goes. |
| `SinglePlayer.Session.MarkResumed` | pkg/singleplayer/engine.go:217-231 | A connection comes back. |
| `LobbyStream.Connection.constructor` | services/match-coordinator/lobby_handlers.go:334-348 | What the socket sends first, and when it refuses. |
| `LobbyClient.ApplyLobbyPatch` | apps/web/features/lobby/lib/lobby-client.ts:110-132 | The client's merge: removed members go, sent ones are laid over what is held. |
| `ChatLimiter.Limiter.Append` | services/match-coordinator/chat_handlers.go:253 | Appending in place or into a larger copy. |
| `Lobbies.LobbyStore.EnsureOpen` | pkg/persistence/lobbies.go:427-442 | A lobby found past its expiry is marked expired. |
| `Lobbies.LobbyStore.RemoveMember` | pkg/persistence/lobbies.go:336-346 | Its second step alone, on whatever the table holds by then. |
| `Lobbies.LobbyStore.TransferLobbyOwner` | pkg/persistence/lobbies.go:352-371 | A transfer, with its checks in order. |
| `Lobbies.LobbyStore.MarkLobbyInMatch` | pkg/persistence/lobbies.go:373-392 | Only an open lobby starts a match. |
| `Lobbies.LobbyStore.SetLobbyMode` | pkg/persistence/lobbies.go:85-104 | Only an open lobby changes its mode, and only to a party mode. |
| `Lobbies.LobbyStore.ReopenEndedLobbies` | pkg/persistence/lobbies.go:394-425 | Lobbies whose match has ended open again. |
| `Lobbies.LobbyStore.ExpireOpenLobbies` | pkg/persistence/lobbies.go:270-281 | Open lobbies past their expiry expire. |
| `Refunds.Ledger.RefundOne` | pkg/persistence/store.go:4365-4437 | One candidate: skipped in exactly the cases listed, else recorded and paid. |
| `Sampler.MemoryStore.GetRound` | pkg/locationsampler/store.go:235-240 | The location saved for this round, if any. |
| `Sampler.LocationSampler.RefillSync` | pkg/locationsampler/sampler.go:184-203 | Fetched rows are appended to the pool. |

## Left out

- HTTP, websockets as transport, OAuth, tokens, metrics, logging, user interface.
- The transcendental functions: the score's exponential enters by range and order, Glicko's g and expected score by range, square root by its defining equation, distances as a parameter. Floating-point rounding is not modelled; arithmetic is over the reals.
- One engine operation reads the clock once here; the code reads it again in helpers it calls. Clock readings are parameters, and the run theorems that need an order say so.
- Match fields that only inform: display names, avatars, ratings and rating preview, guess times in results, ruleset and map key of a configuration, the last round's result (it is the last entry of the results). Snapshots are not modelled.
- Players and teams are values inside a match object rather than objects of their own; nothing in the engine shares one between matches.
- User ids are non-empty strings in the queue, the engine and the lobby tables.
- Redis: expiry is a step that may happen at any time, key names in the queue are datatypes. The cleanup after a missed ticket read (Get, then two ZREMs) is one step; so is a whole transaction. Failures of Redis and the expiry of the matcher lock are not modelled, and no queue theorem but the sweep's uses the lock.
- The profile stored with a match may come from an older Join's ticket of the same user than the ticket the script consumed; nothing is claimed about it.
- `IsQueued`, which no service calls, and a bound on matches across rulesets with concurrent matchers, which the code does not give.
- MatchStore.Store.RunMatchmaking: maximality is for a sweep without concurrent client steps or expiries, because a user who joins meanwhile is not on its list.
- Lobby persistence: methods are atomic but for Kick, whose check and update are two steps. Team, ready flag, map scope and the update time are left out, and with them `SetLobbyMemberTeam` and `CloseInactiveOpenLobbies`, the last without a caller.
- LobbyClient.ApplyLobbyPatch: the client's member list is a table by id; its order is not modelled. Fields that no patch carries (id, invite code, map scope, creation and expiry times) stay as first received.
- LobbyStream.Connection.Refresh: members of a snapshot have distinct, non-zero rows, as the table's primary key and the role column give; presence and settings are already applied to the snapshot; fingerprints are equality.
- Sampler: the Redis-backed store, its expiry, and the database. Answers of the database are a sequence given from outside; the background refill is the same method called at another time, and the low-water flag stands for its trigger.
- Refunds: the query that selects candidate rows, and notifications. Each turn's clock reading is part of the input.
- The ban query is the sequence of at most twenty guesses it returns; error returns of the database are not modelled.
- `pkg/coordinator`, `pkg/matchlaunch`, `pkg/sessionpolicy`, `pkg/maintenance` and `apps/web/lib/matchmaking.ts`: wrappers, or settled by reading their branches.
