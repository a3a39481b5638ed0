# A verified model of the game server's stateful core

This Dafny project models the part of the server that keeps state: a battle and its session index, the
ownership of players across servers, accounts and guest devices, guilds, settlement and the asset ledger,
and a few small protocols around them. `dafny verify dfyconfig.toml` checks all of it (Dafny 4.11).

How the model is built:

- What a piece of code does to its state is given once, as functions on values. Where the source changes
  an object step by step, a class or a method with the same branches and loops is proved to compute exactly
  those functions (`BattleRuntime`, `OwnerStore`, `AccountService`, `GuildService`, `AssetService`,
  `SettlementService`, `CommandCache.Cache`, `Tickets.MemoryNonceStore`, `Chat.MessageTable`, `Workshop.Service`
  and the loops of `Allocator`, `GameData` and `Dispatcher`).
- Properties of whole runs are lemmas about those functions: over every list of commands of a battle, or over
  every interleaving of any number of goroutines, servers, connections, requests or transactions.
- Database tables are maps with their unique keys, a transaction is all or nothing and may fail at will, a
  Redis script is one step. Clocks, random ids, hashes, HMAC, JSON and base64 are parameters, with freshness or
  injectivity as explicit hypotheses where a result needs it.

| module | what it covers |
|---|---|
| `GameData` | start-up validation of the battle configuration |
| `Battle`, `BattleRuntime` | the order engine and the commands of one battle |
| `SessionStore`, `SessionCalls` | the uid index of battles under its two levels of locks |
| `OwnerStore`, `Ownership`, `OwnershipContinuity`, `OwnershipSteps`, `OwnershipClaims`, `OwnershipRuns` | which server a player is on; logins, disconnects, kicks and the reconciler |
| `Accounts`, `AccountRuns`, `AccountService` | sessions, guest devices and identities |
| `Guild`, `GuildService` | guilds, members, applications, guild chat |
| `Assets`, `AssetService` | balances and the asset log |
| `Settlement`, `SettlementRuns`, `SettlementService` | level settlement over sessions, progress and ledger |
| `CommandCache`, `Dispatcher` | the retry cache and the entry point that uses it |
| `Tickets` | one-time entry tickets and their nonces |
| `Allocator` | the choice of a server at login |
| `Chat` | history pages and cursors |
| `Workshop` | offline rewards |
| `Common`, `Text` | small types, splitting at dots |

## Where the code does something else than one might expect

- An order that names a resource twice can be completed with too little of it, and drives the amount below
  zero: affordability is checked requirement by requirement. `Battle.AcceptedLevelOverdraws` plays it on a level
  that validation accepts; `Battle.CompletionKeepsNonNegativeIff` gives the exact condition on an order,
  `Battle.EveryRunNonNegative` levels for which no run ever shows a negative amount.
- Level rewards are not validated at start-up; a completed level with an unusable reward can never be settled
  (`SettlementRuns.SettlementCommitsIff`, `SettlementRuns.UnusableNeverSettles`, `SettlementRuns.AcceptedLevelNeverSettles`).
- The re-check before `storeSession` replaces a finished session can never fail
  (`SessionCalls.SwapCheckNeverFails`).
- A login that was overtaken by a newer one of the same player can still take the owner record from it, when it
  is slow between binding and claiming: `OwnershipRuns.OlderLoginTakesTheRecord`; `OwnershipClaims.RivalsTake` and
  `OwnershipClaims.OnlyLaterBindsTake` say exactly when.
- A claim may run although its reply is lost; the next login then takes the server for the owner all along and
  keeps what it held from before: `OwnershipRuns.LostReplyRevivesOldState`, with the exact condition in
  `OwnershipContinuity.SurvivorWasAlwaysOwned`.
- The reconciler removes players on the strength of what it read earlier. A login that claims after that read
  is closed although the record already names this server: `OwnershipClaims.ClaimAfterFetchIsClosed`, reachable by
  `OwnershipRuns.StaleFetchIsReachable`; `OwnershipClaims.CurrentIsClosedIff` gives the exact condition.
- A successful command whose result is too large for the retry cache, or does not encode, runs again when it is
  repeated (`Dispatcher.OversizedResultRunsAgain`; exactly when, in `Dispatcher.RepeatRunsIff`).
- Putting a resident id into the retry cache again does not make it young: the list is first in, first out
  (`CommandCache.PutIsRecencyIff`). Through the dispatcher that never happens, so there the cache does hold
  the last ids stored (`Dispatcher.HoldsTheLastStored`).
- A ticket can be accepted twice in two ways: by a call that stalls between reading the second and reaching the
  nonce store (`Tickets.StalledCallIsAcceptedAgain`), and by one that has read the store's clock and waits for
  its mutex while a clean-up drops the nonce (`Tickets.LateCallIsAcceptedAgain`). `Tickets.SecondUseIff` and
  `Tickets.AcceptedAgainIff` say exactly when.
- A guild message whose channel was looked up before the guild was disbanded is inserted after its channel was
  cleared (`Guild.OrphansAreLateInserts`, `Guild.LateInsertHappens`).

## Model

| member | source | states |
|---|---|---|
| GameData.CheckItems | internal/gamedata/game_data_validate.go:132-161 | a reward or cost list passes exactly when it is not empty and every entry is positive and names a known item |
| GameData.CheckCard | internal/gamedata/game_data_validate.go:48-75 | the card check accepts exactly the well-formed cards |
| GameData.CheckOrder | internal/gamedata/game_data_validate.go:78-94 | the order check accepts exactly the well-formed orders |
| GameData.CheckLevel | internal/gamedata/game_data_validate.go:97-127 | the level check accepts exactly the levels whose cards and orders exist and whose parameters are positive |
| GameData.NewGameData | internal/gamedata/game_data_validate.go:8-45 | accepts exactly the acceptable configurations; an accepted one is indexed whole, a refused one is refused for a reason that is true of the named entry |
| GameData.AcceptedIsReady | internal/gamedata/game_data_validate.go:78-127 | validation supplies what battles rely on: positive requirement counts, non-empty pools of known orders, a goal of at least one |
| Battle.ConsumeTakesDemand | internal/gameplay/battle/service.go:491-495 | paying for an order takes exactly its total demand of every resource, also when a resource is named twice |
| Battle.VisitQuietens | internal/gameplay/battle/service.go:435-458 | completing one order leaves it finished and makes no order completable that was not, since resources only fall |
| Battle.ScanQuietens | internal/gameplay/battle/service.go:435-460 | after the scan no unfinished order of the grown list is completable |
| Battle.ScanKeepsBooks | internal/gameplay/battle/service.go:435-460 | the scan keeps the list a round-robin prefix of the pool, the counter and the rewards those of the completed orders, and stock plus what completed orders took unchanged |
| Battle.EffectsBalance | internal/gameplay/battle/service.go:462-480 | playing effects changes each resource by their gains minus their conversions |
| Battle.EffectsFitIff | internal/gameplay/battle/service.go:462-480 | a card's effects go through exactly when every conversion finds enough after what the effects before it brought in and used up |
| Battle.StepConsistent | internal/gameplay/battle/service.go:156-225 | every command, refused or not, keeps the whole bookkeeping of a battle |
| Battle.RefusalChangesNothing | internal/gameplay/battle/service.go:156-225 | a refused command leaves the battle as it was: no points spent, no effect half applied |
| Battle.PlayMeans | internal/gameplay/battle/service.go:156-192 | a card takes effect, for its cost, exactly when it is known, in hand, affordable and convertible in a running level; otherwise nothing changes and the error names the first thing that is wrong |
| Battle.EndTurnMeans | internal/gameplay/battle/service.go:196-225 | ending a turn of a running level short of its goal begins the next with a full allowance, or fails the level in its last turn; nothing else changes |
| Battle.SettleMeans | internal/gameplay/battle/service.go:230-250 | a settled level answers every later settlement that has a request id; a running one settles exactly when it reached its goal and storage commits |
| Battle.EveryRunDrawsRoundRobin | internal/gameplay/battle/service.go:420-433 | in every run, entry i of the order list has id, name, type and requirements of the order configured for place i of the pool, counted round and round; while unfinished, some resource is short of what it asks for |
| Battle.EveryRunConsistent | internal/gameplay/battle/service.go:129-192 | in every run of commands resources are gains minus conversions minus needs of completed orders, pending rewards are as a multiset those of the completed orders, the list is the pool drawn round robin to length initial + min(completed, target - 1), and nothing unfinished is completable |
| Battle.FinishedIsFinal | internal/gameplay/battle/service.go:173-217 | once settled or failed, no later command changes the battle |
| Battle.SpendingWithinAllowance | internal/gameplay/battle/service.go:173-223 | the costs of the cards that took effect in a run, with the points left, never exceed one allowance for each turn begun |
| Battle.CompletionKeepsNonNegativeIff | internal/gameplay/battle/service.go:482-495 | the affordability test protects every stock from going negative exactly when the order names no resource twice |
| Battle.ConsumeStaysNonNegativeIff | internal/gameplay/battle/service.go:491-495 | from a given stock, paying for an order stays non-negative exactly when the stock covers the total demand of every resource |
| Battle.OneOrderAccepted | internal/gamedata/game_data_validate.go:8-45 | validation accepts a level whose one order names a resource twice, whatever its first-clear reward |
| Battle.AcceptedLevelOverdraws | internal/gameplay/battle/service.go:435-458 | playing the one card of that level completes the order and leaves minus one of the resource |
| Battle.EffectKeepsNonNegativeIff | internal/gameplay/battle/service.go:462-480 | the exact card effects that can never leave a negative amount |
| Battle.EveryRunNonNegative | internal/gameplay/battle/service.go:156-192 | with such orders and cards no run ever shows a negative resource |
| BattleRuntime.RuntimeSession.constructor | internal/gameplay/battle/service.go:115-152 | a new session is in the start state, its first orders drawn one by one |
| BattleRuntime.RuntimeSession.DrawOrder | internal/gameplay/battle/service.go:420-433 | the next order of the pool, round robin, is appended; an empty pool yields a blank one |
| BattleRuntime.RuntimeSession.Affordable | internal/gameplay/battle/service.go:482-489 | true exactly when each requirement alone is covered |
| BattleRuntime.RuntimeSession.ConsumeRequirements | internal/gameplay/battle/service.go:491-495 | requirements are subtracted one after the other |
| BattleRuntime.RuntimeSession.CompleteOrder | internal/gameplay/battle/service.go:443-455 | one completion pays, marks, counts, collects the rewards in order and draws the next order while the goal is not reached |
| BattleRuntime.RuntimeSession.CompleteReadyOrders | internal/gameplay/battle/service.go:435-460 | the pass-repeating loop terminates and computes the same orders, resources, count and rewards as one left-to-right scan over the growing list |
| BattleRuntime.RuntimeSession.ApplyCardEffects | internal/gameplay/battle/service.go:462-480 | all effects go through in order on a copy, or the card fails as a whole |
| BattleRuntime.RuntimeSession.Play | internal/gameplay/battle/service.go:156-192 | the mutable session takes the model's step, with the same refusals in the same order and nothing changed by a refusal |
| BattleRuntime.RuntimeSession.FinishTurn | internal/gameplay/battle/service.go:196-225 | ending a turn takes the model's step, failing the level at the limit |
| BattleRuntime.EffectsFailEarly | internal/gameplay/battle/service.go:462-480 | a failing prefix of effects fails the whole card |
| SessionStore.EveryRunInv | internal/gameplay/battle/service.go:328-418 | for any interleaving of any number of goroutines: lock ownership, the index and the deleted flags stay consistent |
| SessionCalls.LockedSessionIsCurrent | internal/gameplay/battle/service.go:370-384 | from lockSession's return to the unlock, the session is the one the index holds, alive and the one asked for |
| SessionCalls.DeletedExactlyWhenGone | internal/gameplay/battle/service.go:345-418 | a published session is marked deleted exactly when it has left the index |
| SessionCalls.ChangesCountsEntries | internal/gameplay/battle/service.go:328-418 | the counter that the retry bound uses counts exactly the steps that change an entry |
| SessionCalls.StartNeverReplacesUnfinished | internal/gameplay/battle/service.go:328-368 | an entry goes away only by deletion of that player's runtime or because a new level replaces a settled or failed one |
| SessionCalls.SwapCheckNeverFails | internal/gameplay/battle/service.go:355-366 | the third check of the loop can never send it round again |
| SessionCalls.RetryOnlyAfterChange | internal/gameplay/battle/service.go:328-368 | every retry comes after a change of the entry since it was read, and a call never retries more often than its entry changed |
| SessionCalls.StartEnds | internal/gameplay/battle/service.go:328-368 | when storeSession returns, either the player's entry was an unfinished level at that moment, or the call has made its own session the entry, under the player and id asked for, and what was there before is deleted |
| SessionCalls.PublishingStep | internal/gameplay/battle/service.go:335-365 | the step in which a call inserts, or replaces a finished session, makes its session the entry and leaves the one before deleted |
| SessionCalls.DeleteRemoves | internal/gameplay/battle/service.go:398-418 | the critical section of DeletePlayerRuntime leaves the session it found deleted and, if that was still the entry, the player without one |
| SessionCalls.DeleteEnds | internal/gameplay/battle/service.go:398-418 | when DeletePlayerRuntime returns, there was a moment in the call such that whatever entry the player had then is deleted |
| SessionCalls.CommandRefusedIff | internal/gameplay/battle/service.go:370-384 | a command is refused exactly when there is no entry as it reads, or when the session it locks is not the entry any more or has another id |
| SessionCalls.CommandWorks | internal/gameplay/battle/service.go:173-300 | a command that holds its session may finish it, keeps or releases its lock, and touches no other session and no entry |
| SessionCalls.RunAges | internal/gameplay/battle/service.go:328-418 | over any stretch of a run a session keeps its player and id and never loses a mark: published, deleted or finished |
| SessionCalls.WaitsDescend | internal/gameplay/battle/service.go:328-418 | waiting goes strictly down, so no goroutines ever wait for each other in a circle |
| SessionCalls.NeverDeadlocked | internal/gameplay/battle/service.go:328-418 | every goroutine with work in progress can take a step, or heads a chain, each waiting for the next, that ends in one that can, even if no reader is let in while a writer waits |
| OwnerStore.PlayerOwnerStore.Claim | internal/infra/redis/player_owner_store.go:52-68 | overwrites the owner with a fresh lifetime and returns the live one before; an error means bad arguments and no change, or a lost reply or an unreached store, with and without the change |
| OwnerStore.PlayerOwnerStore.MarkOffline | internal/infra/redis/player_owner_store.go:71-83 | re-dates the record only while it is this server's and this connection's, whether or not the reply arrives |
| OwnerStore.PlayerOwnerStore.GetOwners | internal/infra/redis/player_owner_store.go:104-130 | returns exactly the live, non-empty records of the listed players; fails exactly when the store is down and some uid is not empty |
| OwnerStore.PlayerOwnerStore.RefreshOwned | internal/infra/redis/player_owner_store.go:133-153 | re-dates exactly the listed players that are still this server's, or those of the commands that ran before the connection broke |
| OwnerStore.OfflineTouchesOnlyItsOwnClaim | internal/infra/redis/player_owner_store.go:23-30 | the offline script re-dates exactly the live record of that server and connection, and touches no other record |
| OwnerStore.RefreshTouchesOnlyItsOwnServer | internal/infra/redis/player_owner_store.go:32-38 | the renewal re-dates a live record of that server, whatever its connection, and touches no other record |
| OwnerStore.MemoryManager.BindWithinLimit | internal/platform/session/manager.go:43-54 | admits a player already online even at the limit, never exceeds the limit, returns the connection it replaced |
| OwnerStore.MemoryManager.Unbind | internal/platform/session/manager.go:67-76 | removes the session only if it is still that connection's |
| OwnerStore.Reconcile | internal/app/gameserver/player_owner_reconciler.go:24-59 | removes exactly the listed players whose record names another server, or who have neither record nor session; renews exactly those whose record names this server and who have a session |
| OwnershipContinuity.EveryRunFresh | internal/app/gameserver/bootstrap.go:186-195 | in every run ownership begins with a claim, and if that was answered, all the owner keeps for the player was made since |
| OwnershipContinuity.OwnedWithoutGap | internal/infra/redis/player_owner_store.go:12-38 | the recorded beginning of ownership is right: the server owned the player at every step since |
| OwnershipContinuity.StampsAreCreations | internal/app/gameserver/bootstrap.go:186-195 | the step a runtime or cached result carries is the one at which a connection of that player on that server made it |
| OwnershipContinuity.SurvivorWasAlwaysOwned | internal/app/gameserver/bootstrap.go:186-195 | what survives a login was made while this server owned the player without a gap until now, exactly when the server did not in between take the record by a claim whose reply was lost; so with replies that arrive, going A, B, A revives nothing |
| OwnershipSteps.ClaimMeans | internal/app/gameserver/bootstrap.go:186-195 | an answered claim makes this server the owner for a whole period and a bound connection the current one; what the server held for the player stays exactly if it was the owner before |
| OwnershipSteps.NoticesAreSentByClaims | internal/app/gameserver/bootstrap.go:196-206 | kick notices are sent by answered claims, to the server and connection they overtook, and by nothing else |
| OwnershipSteps.OvertakenIsNotified | internal/app/gameserver/bootstrap.go:196-206 | a login that overtakes a live owner on another server leaves a notice that can be delivered in every later state, and whose delivery closes the overtaken connection while it is a registered client of that player there |
| OwnershipSteps.DeliveryClosesIff | internal/framework/gateway/ws/server.go:570-583 | a delivery closes the connection named, if it is a registered client of the player named, and no other |
| OwnershipSteps.ReplacedIsKicked | internal/framework/gateway/ws/server.go:441-492 | a login that replaced a connection on its own server closes it before it serves, if it is a registered client by then, and closes no other |
| OwnershipSteps.CallbackMeans | internal/app/gameserver/bootstrap.go:209-213 | a connection that ends marks its player offline exactly when no newer session took its place |
| OwnershipSteps.QuietDeparture | internal/framework/gateway/ws/server.go:263-273 | a current connection that leaves while nothing else happens is in no table any more, and its player's record lives for the offline period from then on |
| OwnershipSteps.DueIff | internal/app/gameserver/player_owner_reconciler.go:40-57 | what a pass does to a player follows from what it read: removal for another server's record, or for no record and no session; renewal for this server's record and a session |
| OwnershipSteps.RemovalMeans | internal/app/gameserver/player_owner_reconciler.go:84-94 | a removal forgets level and results of its player and closes the connection that is bound, if it is a client, and no other |
| OwnershipSteps.RenewalMeans | internal/app/gameserver/player_owner_reconciler.go:50-58 | a renewal gives this server's record another whole period, and no other record anything |
| OwnershipSteps.OthersUntouched | internal/framework/gateway/ws/server.go:363-583 | a step about one player leaves record, sessions, levels and results of every other player alone |
| OwnershipRuns.LostReplyRevivesOldState | internal/app/gameserver/bootstrap.go:186-195 | a concrete run in which a claim runs but its reply is lost, and the next login keeps a level from before another server owned the player |
| OwnershipClaims.EveryRunLinked | internal/framework/gateway/ws/server.go:363-497 | in every run, sessions, clients, owner records, notices and remembered prior connections refer to the connections they should |
| OwnershipClaims.StepUndisturbed | internal/framework/gateway/ws/server.go:533-583 | no single event disturbs the current claim but the connection's own end, a login bound on its server, a claim by any connection of the player, expiry or a removal |
| OwnershipClaims.ClaimUndisturbed | internal/app/gameserver/bootstrap.go:196-217 | over any stretch of a run without such an event the current connection stays bound, open and owner, and its record never expires sooner, whatever disconnects, unbinds and late, repeated or reordered notices of other connections occur |
| OwnershipClaims.RivalsTake | internal/framework/gateway/ws/server.go:432-462 | a connection already bound can take the record of a current one exactly when it is still authenticating, be it older or newer |
| OwnershipClaims.OnlyLaterBindsTake | internal/framework/gateway/ws/server.go:432-462 | over a stretch that begins without such a rival, only a connection bound later can take the record: as long as none does and no other ending event comes, the claim stays undisturbed |
| OwnershipRuns.OlderLoginTakesTheRecord | internal/framework/gateway/ws/server.go:432-492 | a concrete run in which an older login claims after the newer one serves: both serve and are open, the session is the newer one's and the record the older one's, and the newer one cannot re-date it |
| OwnershipClaims.FetchedClaimIsSpared | internal/app/gameserver/player_owner_reconciler.go:24-59 | a pass that read the owners while the connection was current does not remove its player |
| OwnershipClaims.CurrentIsClosedIff | internal/app/gameserver/player_owner_reconciler.go:24-94 | a current, registered connection is closed by a pass exactly when, at its read, the pass saw the player on another server, or saw no record and no session |
| OwnershipClaims.RemovalClosesWhoeverIsBound | internal/app/gameserver/player_owner_reconciler.go:84-94 | a removal closes whichever registered connection is bound at that moment |
| OwnershipClaims.ClaimAfterFetchIsClosed | internal/app/gameserver/player_owner_reconciler.go:40-57 | a claim made after the read is not spared: its connection is closed although the record names this server |
| OwnershipRuns.TwoLogins | internal/framework/gateway/ws/server.go:441-470 | a concrete run in which a player authenticates on one server and claims on another first |
| OwnershipRuns.StaleFetchIsReachable | internal/app/gameserver/player_owner_reconciler.go:24-59 | such a late claim is reachable from the start |
| Accounts.ParseNewToken | internal/platform/account/session.go:29-51 | a token issued for an account parses back to that account |
| Accounts.ParsedTokenIsBuilt | internal/platform/account/session.go:37-51 | only tokens put together that way parse |
| AccountRuns.AcceptedExactlyWhileLive | internal/platform/account/session.go:135-180 | Authenticate accepts a token exactly while it is its account's live one |
| AccountRuns.OneTokenPerAccount | internal/platform/account/session.go:123-148 | an account accepts at most one token |
| AccountRuns.EveryRunHashIssued | internal/platform/account/session.go:53-121 | in every run the stored hash is that of a token the server issued for this account, or empty |
| AccountRuns.OnlyIssuedTokensLive | internal/platform/account/session.go:53-148 | only issued tokens are ever accepted |
| AccountRuns.DeadTokensStayDead | internal/platform/account/session.go:84-200 | a replaced, logged-out or expired token is never accepted again, given fresh tokens and a clock that does not run back |
| AccountRuns.LoginOpensIff | internal/platform/account/session.go:84-121 | in every run a login opens a session for its new token exactly when it is committed, the account is active and, for a login by device, still holds the device and has no identity |
| AccountRuns.LoginMeans | internal/platform/account/session.go:84-121 | a login that goes through sets the token, a whole idle period and the device of that account and nothing else; any other changes nothing |
| AccountRuns.LoginReplaces | internal/platform/account/session.go:104-116 | the account's token before it is dead at once |
| AccountRuns.LoginCommitsWhatWasLookedUp | internal/platform/account/session.go:65-121 | a login commits for the account its lookup found, by device or by password, whatever requests come in between |
| AccountRuns.LogoutEnds | internal/platform/account/session.go:184-200 | a committed logout ends the session of its token and no other |
| AccountRuns.LogoutIsFinal | internal/platform/account/session.go:184-200 | after it, Authenticate refuses that token in every later state |
| AccountRuns.AuthenticateMeans | internal/platform/account/session.go:150-182 | an accepted use moves the deadline to a whole idle period from then, or leaves a later one, and notes the device; a refused one changes nothing, and is told that the session ran out exactly when that is all that is wrong |
| AccountRuns.LateLogoutHarmless | internal/platform/account/session.go:184-200 | a late logout with another token leaves the live session alone |
| AccountRuns.ExpiryNeverShortens | internal/platform/account/session.go:150-182 | no request but the token's own end shortens the expiry of a live session |
| AccountRuns.EveryRunGuestsOk | internal/platform/account/device.go:27-73 | with lookups between other transactions, guest keys stay unique and accounts with an identity hold none |
| AccountRuns.GuestKeysUniqueAndUnbound | internal/platform/account/service.go:65-94 | no two accounts hold one device key, and no account with a formal identity holds any |
| AccountRuns.RegisteredIsTheHolder | internal/platform/account/device.go:27-55 | the uid registerDevice answers was at its commit the one active, unbound holder of the device |
| AccountRuns.HolderStays | internal/platform/account/service.go:65-94 | the holder stays the holder until it is bound |
| AccountRuns.RegistrationIsStable | internal/platform/account/device.go:27-55 | until then every later registration of the device answers the same uid |
| AccountRuns.RegistersUndisturbedIff | internal/platform/account/device.go:27-73 | with nothing between lookup and transaction, a device is registered exactly when nobody holds it or its holder is active: the holder, or a new active account without a session |
| AccountRuns.ConflictMeansChange | internal/platform/account/device.go:27-55 | a round conflicts exactly when, since its lookup, someone else came to hold the device or the account found does not any more; then there is a second round and no third |
| AccountRuns.CreateFormalMeans | internal/platform/account/service.go:41-100 | without a session a new active account and its identity come into being, exactly when the name is free |
| AccountRuns.BindMeans | internal/platform/account/service.go:65-100 | with a guest's session the account gets the identity exactly when the session is live, the account has none and the name is free; its device key is released and its session stays |
| AccountService.Service.Session | internal/platform/account/session.go:123-133 | compares the whole token with the stored hash |
| AccountService.Service.ActiveSession | internal/platform/account/session.go:135-148 | refuses inactive, logged-out and expired sessions, in that order |
| AccountService.Service.Authenticate | internal/platform/account/session.go:150-182 | the method is the transaction of the model: it extends and never shortens, and a bad device or token changes nothing |
| AccountService.Service.Logout | internal/platform/account/session.go:184-200 | clears hash and expiry only for the account's present token |
| AccountService.Service.GuestAccount | internal/platform/account/device.go:57-73 | re-checks inside the transaction that the account still holds the device, is active and unbound |
| AccountService.Service.CommitLogin | internal/platform/account/session.go:84-121 | a login replaces the token of an active account, or refuses and changes nothing |
| AccountService.Service.RegisterNamed | internal/platform/account/service.go:41-103 | a new account, or the guest's own made formal and its device key released; a taken name rolls everything back |
| AccountService.Service.RegisterDevice | internal/platform/account/device.go:27-55 | the loop answers by its last round: the first if that met no conflict, else the second; with any other requests between lookup and transaction it answers only a sole active unbound holder |
| AccountService.NewGuestKeepsKeys | internal/platform/account/device.go:27-73 | one round of it keeps device keys unique |
| Guild.EveryRunConsistent | internal/globalcore/guild_service.go:67-287 | in every run a guild exists exactly while it has members, has exactly one leader and that is its owner; applications come from players outside any guild and go to existing guilds; names are distinct |
| Guild.OneHeir | internal/repo/guild_repo.go:72-84 | the successor query has one answer |
| Guild.CreateMeans | internal/globalcore/guild_service.go:67-91 | founding needs a request id, a free name of 2 to 20 characters and a player outside any guild, who becomes leader and owner; the first failing test is the error |
| Guild.ApplyMeans | internal/globalcore/guild_service.go:190-212 | applying needs a guild that exists and a player outside any guild without an application there; then the application stands and nothing else changes |
| Guild.ApproveMeans | internal/globalcore/guild_service.go:215-250 | approving needs the guild's leader and a standing application; then the applicant is a member under a new key and all the applicant's applications are gone |
| Guild.LeaveMeans | internal/globalcore/guild_service.go:253-287 | whoever may leave does; a leader's heir becomes leader and owner, without one the guild goes with its channel and applications; no other member, guild or channel changes |
| Guild.EarliestJoinerSucceeds | internal/repo/guild_repo.go:72-84 | with a clock that does not run back, the successor of a leaving leader has been in the guild without a break since before any other remaining member came in |
| Guild.MembershipNeedsConsent | internal/globalcore/guild_service.go:190-251 | a player enters a guild only by founding it or when its leader approves an application the player made and that still stands, and leaves it only by leaving |
| Guild.NewGuildHasEmptyChannel | internal/globalcore/guild_service.go:67-94 | a new guild never sees messages of an earlier one |
| Guild.SendingMeans | internal/globalcore/chat_service.go:37-60 | a message goes to the end of the channel of the guild its sender was in when the channel was looked up, and to no other |
| Guild.OrphansAreLateInserts | internal/globalcore/chat_service.go:37-60 | messages outlive their guild exactly when one was inserted after it was gone |
| Guild.LateInsertHappens | internal/globalcore/chat_service.go:37-60 | a concrete run in which that happens |
| GuildService.Service.LockPlayers | internal/globalcore/guild_service.go:307-321 | succeeds exactly when every player exists |
| GuildService.Service.AddMember | internal/repo/guild_repo.go:122-132 | inserts the member and withdraws all the player's applications, or reports that the player is in a guild already |
| GuildService.Service.CreateGuild | internal/globalcore/guild_service.go:67-91 | the method is the transaction of the model, refusals in the source's order |
| GuildService.Service.Apply | internal/globalcore/guild_service.go:190-212 | the method is the transaction of the model |
| GuildService.Service.Approve | internal/globalcore/guild_service.go:215-250 | the method is the transaction of the model: only the guild's leader, only a standing application |
| GuildService.Service.FindSuccessor | internal/repo/guild_repo.go:72-84 | finds the other member who comes first by join time and key, or none if there is no other |
| GuildService.Service.TransferLeadership | internal/repo/guild_repo.go:151-161 | promotes the successor, names it owner and removes the old leader's row |
| GuildService.Service.DeleteGuild | internal/repo/guild_repo.go:164-175 | removes the guild with its channel, applications and last member |
| GuildService.Service.LeaveGuild | internal/globalcore/guild_service.go:253-287 | the method is the transaction of the model: a member just leaves, a leader hands over or disbands |
| Assets.MergedIds | internal/domain/asset/service.go:161-194 | merging names each item once, in the order of first appearance |
| Assets.MergedTotals | internal/domain/asset/service.go:161-194 | merging keeps what every slot gains |
| Assets.ChangeMeans | internal/domain/asset/service.go:197-262 | a change goes through exactly when the item has a place and its slot stays non-negative, and moves only that slot |
| Assets.ChangeRefusals | internal/domain/asset/service.go:197-262 | a refused change is told the first thing that is wrong: unknown item, unsupported storage, no player row, too little |
| Assets.CostCommitsIff | internal/domain/asset/service.go:138-158 | a cost batch commits exactly when it is well formed, every item has a place and every slot can bear its total, however the batch is cut into items; then each slot falls by its total and nothing else moves |
| Assets.RewardCommitsIff | internal/domain/asset/service.go:113-133 | a reward batch commits exactly when it is well formed and every item has a place; then each slot rises by its total |
| Assets.GrantTakesEffectIff | internal/domain/asset/service.go:63-83 | in every run a grant that is committed, well formed and has a place for every item raises the player's slots by what it names and logs every item once; any other changes nothing, and no other balance moves |
| Assets.ConsumeTakesEffectIff | internal/domain/asset/service.go:88-108 | likewise a cost that every slot can bear lowers them |
| Assets.ChangeKeepsAudit | internal/repo/asset_repo.go:36-91 | one change keeps every balance the sum of its log |
| Assets.EveryRunAudited | internal/repo/asset_repo.go:36-120 | in every run with any transactions failing, every balance equals the sum of its logged changes and is not negative, and every row records the balance it led to |
| Assets.LogOnlyGrows | internal/repo/asset_repo.go:113-120 | a batch adds one row for each merged item, as asked for, and touches no older row |
| AssetService.MergeItems | internal/domain/asset/service.go:161-194 | the loop with its index map computes the merged list, or refuses a count that is not positive |
| AssetService.Service.ChangePlayerField | internal/domain/asset/service.go:219-241 | gold changes as the model says, with the same refusals |
| AssetService.Service.ChangeInventoryStack | internal/domain/asset/service.go:243-262 | an item stack changes as the model says, with the same refusal |
| AssetService.Service.ChangeInTx | internal/domain/asset/service.go:197-217 | each item is routed to its storage |
| AssetService.Service.ApplyRewardInTx | internal/domain/asset/service.go:113-133 | the reward loop is the model's batch |
| AssetService.Service.ApplyCostInTx | internal/domain/asset/service.go:138-158 | the cost loop is the model's batch |
| AssetService.Service.Grant | internal/domain/asset/service.go:63-83 | all or nothing: a refused or failed transaction leaves balances and log as they were |
| AssetService.Service.Consume | internal/domain/asset/service.go:88-108 | all or nothing, likewise |
| SettlementRuns.EveryRunBalances | internal/gameplay/battle/service.go:230-304 | over any run of plays, settlements and other asset changes with any transactions failing: the clear count is the number of settled sessions of that player and level, exactly one of them is the first clear, and what was logged as settlement pay is, slot by slot, the sum of their rewards |
| SettlementRuns.PaidForCompletedOrders | internal/gameplay/battle/service.go:309-319 | a settled session reached its goal and was paid for exactly the orders it completed plus the one reward for its place |
| SettlementRuns.SettledOnce | internal/gameplay/battle/service.go:241-303 | a settlement result never changes and a settled session is never paid again |
| SettlementRuns.RepeatsGetTheFirstResult | internal/gameplay/battle/service.go:241-243 | in every run, every later settlement of a settled session that has a request id is answered with the first result, whether storage works or not |
| SettlementRuns.SettlementMeans | internal/gameplay/battle/service.go:258-303 | a settlement that goes through counts one more clear of that player and level, keeps the first time, sets the last, and answers the order rewards followed by those of a first or later clear; no other row or session changes, and one that fails leaves ledger and progress alone |
| SettlementRuns.PlacesFollowTime | internal/repo/level_repo.go:17-65 | who settles earlier has the lower clear count, so the first clear is the first session to settle |
| SettlementRuns.SettlementCommitsIff | internal/gameplay/battle/service.go:251-300 | given storage that commits, a session with a request id that reached its goal and is neither settled nor failed is settled exactly when there is nothing to pay or every reward is positive and has a place; it pays its player alone |
| SettlementRuns.UnusableNeverSettles | internal/gameplay/battle/service.go:251-300 | a level whose first-clear reward has an entry that is not positive or has no place is never settled by anyone, in any run |
| SettlementRuns.AcceptedLevelNeverSettles | internal/gamedata/game_data_validate.go:97-127 | validation accepts such a level and a player can complete it: every test of the settlement passes and none ever goes through |
| Settlement.PayoutMeans | internal/gameplay/battle/service.go:286-292 | one payout raises the player's slots by the rewards and is logged as settlement pay |
| SettlementService.Service.BuildSettleRewards | internal/gameplay/battle/service.go:309-319 | order rewards first, then the reward of a first or later clear |
| SettlementService.Service.SettleInTx | internal/gameplay/battle/service.go:258-293 | the transaction writes the advanced progress row and pays, or fails |
| SettlementService.Service.SettleLevel | internal/gameplay/battle/service.go:230-304 | a repeat with a request id is answered with the first result; memory, progress and ledger move together or not at all |
| CommandCache.Cache.Get | internal/platform/session/command_cache.go:42-62 | finds exactly an entry of a player that has not expired; an expired player is dropped whole and nobody else |
| CommandCache.Cache.Store | internal/platform/session/command_cache.go:65-88 | stores exactly for non-empty ids, positive limits and a result within the size limit; then it is the put of the model, with order and entries in step and within the limit |
| CommandCache.Cache.Evict | internal/platform/session/command_cache.go:83-87 | the loop leaves exactly the last ids and their entries |
| CommandCache.Cache.Delete | internal/platform/session/command_cache.go:91-98 | forgets that player only |
| CommandCache.Cache.CleanupExpired | internal/platform/session/command_cache.go:101-112 | removes exactly the expired players |
| CommandCache.PutKeepsValid | internal/platform/session/command_cache.go:65-88 | the order stays duplicate-free, equal as a set to the entry keys, and within the limit |
| CommandCache.PutMeans | internal/platform/session/command_cache.go:65-88 | what is put is found until a lifetime after the last put; of what was there stays at most what had not expired, all of it while there is room; no other player is touched |
| CommandCache.PutIsRecencyIff | internal/platform/session/command_cache.go:78-87 | the order is that of least recent use exactly when a put names a new id or the newest one |
| Dispatcher.Window | internal/handler/dispatcher.go:59-90 | after a stored success, the id is followed by exactly the results stored since, until the limit pushes it out |
| Dispatcher.HandlerRunsOnce | internal/handler/dispatcher.go:59-90 | after a result was stored and while the player's cache lives, a repeated request does not run the handler as long as fewer than the limit of other results were stored: it gets the first result, or a conflict if operation or payload differ; from the limit on the handler runs again |
| Dispatcher.RepeatRunsIff | internal/handler/dispatcher.go:77-90 | after any successful run, stored or not, a repeat runs the handler again exactly when the first result did not encode or was refused by the cache as too large, or the limit of other results was stored since |
| Dispatcher.OversizedResultRunsAgain | internal/platform/session/command_cache.go:65-68 | a command whose result is too large for the cache takes effect again when repeated at once |
| Dispatcher.ExpiredRunsAgain | internal/platform/session/command_cache.go:42-62 | once the lifetime of the player's last stored result has passed, a request runs its handler whatever was stored before |
| Dispatcher.ForgottenRunsAgain | internal/platform/session/command_cache.go:91-112 | a player who was forgotten, or had expired when a clean-up came, has no results left |
| Dispatcher.UncachedMeans | internal/handler/dispatcher.go:31-90 | missing and unknown operations and cached ones without a request id are refused; routes that do not cache always run and leave the cache alone; a failed handler is not remembered |
| Dispatcher.HoldsTheLastStored | internal/handler/dispatcher.go:59-90 | through this entry point the cache holds exactly the last ids stored, each once |
| Dispatcher.Handle | internal/handler/dispatcher.go:31-57 | the entry point answers as the model says, missing and unknown operations refused first |
| Dispatcher.Execute | internal/handler/dispatcher.go:59-90 | the method answers and changes the cache as the model says; errors are never stored |
| Tickets.SignsIff | internal/platform/auth/ticket_verifier.go:37-48 | a ticket is signed exactly when there is a secret and every claim is there |
| Tickets.SignedTicketChecks | internal/platform/auth/ticket_verifier.go:37-81 | a properly signed ticket passes every check exactly until it expires and exactly on its own server, expiry judged first |
| Tickets.CheckedTicketIsSigned | internal/platform/auth/ticket_verifier.go:50-75 | conversely, whatever passes carries a signature by the secret over its own payload, and its claims are that payload's |
| Tickets.RefusalTakesNothing | internal/platform/auth/ticket_verifier.go:50-81 | a refused ticket takes no nonce; a checked one is accepted exactly when its nonce is not alive |
| Tickets.NonceReusedOnlyAfterExpiry | internal/platform/auth/nonce_store.go:31-55 | over any run, with calls in the order in which they take the mutex and readings in any order, a nonce is accepted again only by a reading past its entry's expiry or after a clean-up with such a reading |
| Tickets.AcceptedAtMostOnce | internal/platform/auth/ticket_verifier.go:50-81 | judged by the whole second of each call's reading, a ticket is accepted at most once for all time, unless a clean-up used a reading past its entry's expiry before a call with an earlier reading took the mutex |
| Tickets.AcceptedAtMostOnceInOrder | internal/platform/auth/ticket_verifier.go:50-81 | so at most once, without exception, when readings come in the order of the mutex |
| Tickets.AcceptedAgainIff | internal/platform/auth/nonce_store.go:33-53 | over a whole run judged by whole seconds in which a nonce names one ticket, a ticket is accepted once more exactly when it is presented, still valid, after such a clean-up |
| Tickets.LateCallIsAcceptedAgain | internal/platform/auth/nonce_store.go:33-53 | a concrete run of 2001 calls, each judged by its whole second, in which a call that waits for the mutex is accepted a second time |
| Tickets.SecondUseIff | internal/platform/auth/ticket_verifier.go:70-81 | whatever the clocks and whatever other tickets and clean-ups come between, the next use of an accepted ticket is accepted too exactly when its second was read before the expiry and its reading, or a clean-up's in between, is past the entry's expiry |
| Tickets.CleanupsAreSpaced | internal/platform/auth/nonce_store.go:45-53 | between any two clean-ups lies a whole interval by their own readings |
| Tickets.StalledCallIsAcceptedAgain | internal/platform/auth/ticket_verifier.go:70-81 | a concrete run in which a call stalls between its two readings and is accepted a second time |
| Tickets.MemoryNonceStore.ConsumeOnce | internal/platform/auth/nonce_store.go:31-55 | refuses a live nonce and changes nothing, else records it; at the threshold the clean-up removes only dead ones |
| Tickets.VerifyTicket | internal/platform/auth/ticket_verifier.go:50-81 | the checks in the source's order, the nonce last |
| Allocator.OrderDoesNotMatter | internal/platform/login/allocator.go:90-161 | with distinct server ids the choice does not depend on the order of the registry's list |
| Allocator.ChoosesAvailable | internal/platform/login/allocator.go:90-133 | a server is chosen exactly when one is available, it is an available one, and it is the player's last server whenever that is available |
| Allocator.NeverTheMostLoaded | internal/platform/login/allocator.go:135-177 | without affinity, of two or more available servers the choice is never more loaded than every other |
| Allocator.ChosenByKey | internal/platform/login/allocator.go:115-161 | without affinity, of two or more available servers in the order of their ids, the key points at one and a second hash some steps further round at another; the less loaded is chosen, the first if neither is |
| Allocator.LessLoadIff | internal/platform/login/allocator.go:163-177 | loads compare by the share of the limit that is taken, then by players; a server without a limit counts as empty |
| Allocator.SecondIndex | internal/platform/login/allocator.go:152-154 | the second candidate is in range and never the first |
| Allocator.FindAvailableNode | internal/platform/login/allocator.go:125-132 | the loop finds the first available server with that id |
| Allocator.PickLoadAwareNode | internal/platform/login/allocator.go:135-161 | the filter loop, the sort and the two-way choice compute the model's pick |
| Allocator.AllocateNode | internal/platform/login/allocator.go:90-123 | affinity first, then the pick by uid or address |
| Chat.ParseFormatted | internal/globalcore/core.go:57-79 | parsing a formatted cursor gives the number back, for every 64-bit id |
| Chat.FormatParsedIff | internal/globalcore/core.go:57-79 | the other way round it is the same string exactly when it is empty or does not begin with a zero |
| Chat.ParsePageIff | internal/globalcore/core.go:57-72 | a request is accepted exactly with a limit from 1 to 50, or 0 for 20, and a cursor that is empty or a number below 2^64; the limit is looked at first |
| Chat.MatchingIff | internal/repo/chat_repo.go:42-50 | the query selects by channel and id and by nothing else |
| Chat.PageMeans | internal/repo/chat_repo.go:42-62 | a page holds the newest messages of its channel below the cursor, oldest first, as many as asked for if there are as many; its cursor is 0 exactly when nothing older is left out |
| Chat.MatchingBefore | internal/repo/chat_repo.go:42-50 | asking below the id of a message gives exactly the messages before it |
| Chat.NewestReversed | internal/repo/chat_repo.go:49-60 | one row more than the limit tells whether there is a next page |
| Chat.FollowingCollects | internal/globalcore/chat_service.go:63-81 | after each pull the pages so far are the newest messages without a gap and the cursor names the oldest of them |
| Chat.HistoryIsComplete | internal/globalcore/chat_service.go:63-81 | following cursors from "" to "" returns every message of that channel present at the first pull and no other, once and in id order, for any limits and whatever larger ids are added, and ends after at most as many pulls as messages |
| Chat.MessageTable.CreateChatMessage | internal/repo/chat_repo.go:27-39 | appends the message under the next id |
| Chat.MessageTable.ListChatMessages | internal/repo/chat_repo.go:42-62 | the page of the model, oldest first, with the cursor to the next |
| Chat.TurnedRound | internal/repo/chat_repo.go:57-60 | the array loop reverses the rows |
| Workshop.StepBounded | internal/gameplay/workshop/service.go:192-303 | what one claim pays is covered by the time by which it moves the stamp |
| Workshop.PreviewMeans | internal/gameplay/workshop/service.go:281-331 | the reward is exactly 20 gold per level and one material an hour, rounded down, for the time since the stamp: none below five minutes, four hours at most |
| Workshop.ClaimMeans | internal/gameplay/workshop/service.go:192-242 | a claim that goes through pays exactly its preview, and moves the stamp exactly when the minimum has passed; one that fails does neither |
| Workshop.EveryRunBounded | internal/gameplay/workshop/service.go:192-303 | over any claims, failed ones included, with levels at most M: 3600 gold <= 20 M (last stamp - first stamp) and 3600 material <= that time |
| Workshop.SplittingNeverPaysMore | internal/gameplay/workshop/service.go:281-331 | at a fixed level, inside a window no longer than the cap, any number of claims pay no more than one claim at its end |
| Workshop.BeyondTheCapSplittingPays | internal/gameplay/workshop/service.go:323-331 | beyond the cap two claims do pay more than one |
| Workshop.PayoutIsCounted | internal/gameplay/workshop/service.go:205-226 | a committed claim raises the player's gold and material by the counted amounts and no other balance |
| Workshop.PayoutFitsIff | internal/gameplay/workshop/service.go:205-226 | a claim can be paid exactly when there is nothing to pay, or there is a request id and, for gold, a player row |
| Workshop.Service.ClaimOfflineReward | internal/gameplay/workshop/service.go:192-242 | rewards and stamp move together or not at all; the stamp moves only if the window reached the minimum |
| Text.SplitJoin | internal/platform/account/session.go:37-51 | splitting a joined string gives its parts back |
| Text.JoinSplit | internal/platform/account/session.go:37-51 | joining the parts of a split string gives the string back |

## Left out

- Machine arithmetic: numbers are mathematical integers and loads exact ratios, so 64-bit overflow (also of a ticket's lifetime in nanoseconds) and rounding of the load ratio are not modelled.
- Transport and plumbing: HTTP, WebSocket framing, JSON codecs, configuration loading, logging, metrics, drain mode and the rest of bootstrap.
- MySQL, GORM and Redis themselves: a commit whose outcome the caller cannot know, isolation below whole transactions, lock waits and deadlocks in the database.
- Cryptography and random ids: hashes, HMAC, bcrypt, base64 and UUIDs are parameters with injectivity or freshness as hypotheses.
- Error texts, request ids as values and log fields beyond those of the asset log.
- Text handling: trimming, lower-casing and invalid UTF-8; names and ids are taken as already normalised, and a string's length is its number of characters.
- Liveness that needs fairness or real time: heartbeats, reconnect timing, eventual reconciliation.
- Card and facility upgrades, profiles, friends, guild search and listing, rate limiters, mail, rank and notices: they would add easier members of the same kinds.
- Account lookup by password outside the transaction beyond who is found, and the normalisation of account names.
- Admin kicks of all connections or of a uid by an operator, and server shutdown.
- SessionCalls.LockedSessionIsCurrent: says nothing of the copies StartLevel and the commands return after the unlock, which are snapshots.
- SessionCalls.NeverDeadlocked: the chain ends in a goroutine that can move, not that a fair scheduler lets each one finish.
- OwnershipClaims.ClaimUndisturbed: names the events it excludes, claims of older connections among them (see OwnershipClaims.RivalsTake); OnSessionBound, one request and one removal are single steps, so what happens between the statements of one of them is not modelled.
- AccountRuns.HolderStays: a ban makes the holder inactive but does not release the device key, so activity is claimed only at the commit.
- Guild.EveryRunConsistent: each command is one atomic step; leaving reads the membership before it locks the guild, so nothing is claimed at a finer grain.
- Assets.EveryRunAudited: gold is read without a row lock, so one player's transactions are taken to run one after the other, as the dispatcher arranges on one server.
- SettlementRuns.EveryRunBalances: takes the settlement reason as used by settlement alone; a session removed from memory is one to which nothing more happens.
- Dispatcher.HandlerRunsOnce: execute is one step; two requests of one player at a time on a route outside the shard executor are not covered.
- Tickets.AcceptedAtMostOnce: the store lives in one process, so a restart forgets its nonces.
- Workshop.EveryRunBounded: the stamp is read outside the transaction, so one player's claims are taken to run one after the other.
- Chat.HistoryIsComplete: rows only gain larger ids between pulls; a disbanded guild's channel is emptied and is not covered.
