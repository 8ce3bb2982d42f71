# A verified model of morgoth

morgoth is a daemon that looks after Source dedicated game servers. It keeps a list of uniquely named servers, each with a
key/value configuration, and mirrors that list in a SQLite database. It starts and stops each server in a tmux session of its
own, listens to game servers that register over D-Bus, and keeps a local copy of what they report. Three parts are modelled,
each as specification functions with their theorems and, where the source changes objects in place, as classes whose methods
are proved against those functions.

**The durable mirror.** `Configuration`, `Tables` and `Persistence` describe configurations, the two tables and the state
machine of add, remove, setValue and restart, with every database statement that may fail. A restart drops the memory and
rebuilds it from the rows. Two theorems speak of all runs. `Copies` shows that, whatever fails, the daemon is a list of servers
in memory and a list of copies on disk, and `DatabaseFaults` reads off the steps alone when a run crashes. While deletes and
log writes are carried out, `Persistence` compares the daemon with a machine that has no database: no run crashes, and a
restart forgets exactly the servers that could not be stored. `Keys` says which keys a restart drops, `InPlace` that updating
rows in place would keep the same servers, and `Affinity` which texts the columns give back as they were.
`DatabaseObjects` and `Servers` hold the objects (`Database`, `ServerConfiguration`, `Server`, `ServerManager`, `Persistor`,
`MorgothDaemon`); the daemon carries the history of its run, and its invariant says that the objects are where that history
leads. So every theorem about runs is a theorem about the objects.

**Supervision.** `Tmux`, `Status`, `Mirror` and `Coordinator` describe one server: its tmux session, its status, its
coordinator and the starters that wait for a game server. `World` puts all servers and game servers together, and `Runs` states
what holds after any run of add, remove, start, stop, online, quit, ping failure, starter timeout, remote changes and
deliveries. tmux commands may fail at every point. `Transitions` says, in literal states and errors, what each event does to
a server, and which events lead to each state. `Outcomes` gives every starter exactly one end, and `Surprises` holds
short runs in which the daemon does what one might not expect. `TmuxWrapper`, `StatusObjects` and `Servers` hold the objects
(`TmuxSessionWrapper`, `GameServer`, `ServerStatus`, `ServerCoordinator`, `ServerStarter`, `Server` and the registry of
`ServerManager`). `Supervision` hands events to these objects one at a time; its `EventLoop` carries the history too, and its
invariant says that every server, proxy and session is where the run has led. Its last lemmas read theorems about runs off the
objects. `Lifecycle` uses both: programs that make the objects, take a server through its whole life, and write values that
outlive restarts.

**SteamIDs.** `Decimal` and `SteamId` describe the 64-bit word of five bit-fields, its three textual forms, and for which ids
and strings they round-trip.

## What is assumed

- Table scans go in rowid order, and `autoincrement` never repeats an id. Keys and values survive being stored: their column
  type `string` has NUMERIC affinity (section 3.1 of "Datatypes In SQLite"), and `Affinity.SurvivesIff` says exactly which
  texts do ("07" does not). Names, keys and values contain no quote characters, since src/persistor.cpp splices them into SQL
  text.
- QSQLITE never reports how many rows a SELECT found. So the check for an existing server (src/persistor.cpp:131) never fires
  and neither does the UPDATE of an existing row (src/persistor.cpp:214-216): every change appends a row.
- The statements of `storeServer`, of `deleteServer` and of `storeConfigurationEntry` may fail; starting, committing and
  rolling back a transaction, and reading the tables at start-up, do not. A failed `storeServer` leaves the configuration
  unconnected, so the server is listed but never stored.
- `deleteLater` acts at once, and signals run synchronously in connection order. Invariants are about the moments between two
  events of the event loop.
- A `has-session` probe that is not answered in time counts as a yes, never as a no. A tmux command that reports failure may
  still have taken effect. The random session name is unique.
- A remote game server announces every change of a watched conVar and of the map, and its notifications arrive in order. It
  answers the blocking reads with which it is tracked; an unanswered one would store an empty text.
- Two calls that the source leaves undefined are excluded: a ping that is lost for a game server no longer registered, or
  whose server was removed (src/servermanager.cpp:119 dereferences a missing or deleted server), and the departure of a
  player who is not listed (src/serverstatus.cpp:236-237 erases the end iterator). `Runs.DepartureIsListedIff` and
  `Surprises.AStopUnlistsPlayers` say when the daemon itself brings the second one about.
- Regular expressions are read as PCRE reads them: `\d` and `\w` are ASCII, and `$` also matches before one final line feed.
  Bit-fields are laid out from the lowest bit up on a little-endian machine.

## Where the code differs from what one might expect

- The status does not keep the snapshot it takes of a game server that morgoth started. The snapshot is taken first, and then
  the waiting starter moves the coordinator to Running, which resets the status (`Surprises.TheSnapshotIsLost`).
  `Runs.SnapshotSurvivesIffUnawaited` gives the exact condition for the five texts, `Runs.QuietSnapshotSurvivesIff` one that
  can be told beforehand, and `Runs.RestOfTheSnapshot` the one for the player limit, the address and the players. When no starter was waiting, players of an earlier game server stay.
- A departing game server does not always take its values and players with it: when it had no connection to the coordinator
  and says goodbye itself, the status stays (`Runs.DepartureBlanksStatusIff`, `Surprises.AStrangersPlayersStay`).
- `stop()` empties the player list while the players are still there, so their departures name nobody
  (`Surprises.AStopUnlistsPlayers`).
- An invalid installation never gets a coordinator (src/server.cpp:99-104), so no reachable start meets the checks for an
  invalid installation or a missing configuration (src/serverstarter.cpp:56-64; `Runs.StartChecksNeverFail`). They are
  modelled all the same.
- "Offline means no session" and "Crashed means no session" fail. `Coordinator.SessionAfterStart` says, error by error, which
  failed starts leave a session: always when the user is unknown; when creating it failed, exactly when there was one before
  or the failed command made one after all; and after a failed redirect or command, exactly when the kill had no effect. A
  timeout never touches the session, and quits and lost pings end it exactly when some kill takes effect
  (`Coordinator.SessionAfterTimeOut`, `SessionAfterQuit`, `SessionAfterPingFailed`). The runs
  `Surprises.ACrashedServerKeepsItsSession` and `Surprises.AnOfflineServerKeepsItsSession` end with a session left over.
- `start()` has no guard, so several starters may wait together; each of them connects the coordinator to the game server that
  registers, and `aboutToQuit` then runs the coordinator once per connection.
- Restarts keep every value but not every key. Setting an absent key to the empty string does nothing, and clearing a key
  leaves it listed; replaying the rows lists a key only if some row fills it. So a key whose stored rows are all empty (set
  and cleared before the server was stored) is listed before a restart and not after (`Keys.AClearedKeyIsLost`).
  `Keys.KeysSurviveARestartIff` and, over whole runs, `Keys.RestartsKeepKeysIff` give the exact condition. Everywhere else
  configurations are compared by `value(key)`.
- When the row of a removed server cannot be deleted, the server returns with the next restart, and if its name was stored
  again meanwhile, that restart crashes. `DatabaseFaults.RunsCrashIff` says exactly which runs crash;
  `DatabaseFaults.ARemovedServerReturns` and `DatabaseFaults.ADoubledNameCrashes` are the shortest such runs.
- Writing "07" and then "7" counts as a change and stores 7 twice (`Affinity.ALeadingZeroIsStoredTwice`).
- `remove` leaves the game servers of the removed server in the registry. They are nobody's from then on, until they quit.

## Model

| member | source | states |
|---|---|---|
| `SteamId.PackingIsABijection` | src/steamid.cpp:21-31 | the five fields and the 64-bit word determine each other |
| `SteamId.UnpackOfPack` | src/steamid.cpp:21-31 | storing any numbers in the bit-fields and reading the word back gives the numbers cut to 1, 31, 20, 4 and 8 bits |
| `SteamId.PackOfUnpack` | src/steamid.cpp:21-31 | every 64-bit word is rebuilt from its fields, which are in range |
| `SteamId.CombineWeighsTheFields` | src/steamid.cpp:25-31 | for fields in range, `combine` is y + 2·account + 2^32 + 2^52·type + 2^56·universe |
| `SteamId.MatchTextIsThePattern` | src/steamid.cpp:52-54 | the matcher accepts a string with given groups exactly when the string is a spelling of the Text pattern with these groups |
| `SteamId.MatchId3IsThePattern` | src/steamid.cpp:38-40 | the same for the Id3 pattern with its optional brackets |
| `SteamId.TextParsing` | src/steamid.cpp:51-64 | for every string: the id is 0 exactly when the pattern is rejected; else its fields are the captured decimals cut to their widths, a number above 2^32-1 reading as 0 and universe 0 as 1 |
| `SteamId.Id3Parsing` | src/steamid.cpp:37-49 | for every string: the id is 0 exactly when the pattern is rejected; else w is split into parity and half without loss |
| `SteamId.TextRoundTrip` | src/steamid.cpp:51-64 | parse after print of the Text form is the identity for exactly the ids of type 1, instance 1 and universe 1 to 9, among all 64-bit ids |
| `SteamId.Id3RoundTrip` | src/steamid.cpp:108-114 | the Id3 form exists for exactly the account numbers below 2^30, and there identifies exactly the ids of type 1, instance 1 and universe 0 to 9 |
| `SteamId.Id64RoundTrip` | src/steamid.cpp:66-67 | the decimal form round-trips exactly for ids below 2^63 |
| `SteamId.PrintAfterParseText` | src/steamid.cpp:94-106 | print after parse is idempotent on every accepted Text string |
| `SteamId.PrintAfterParseId3` | src/steamid.cpp:94-114 | print after parse is idempotent on every accepted Id3 string whose id has an Id3 form |
| `SteamId.TextToId3AndBack` | src/steamid.cpp:94-114 | Text to Id3 to Text gives the same id and the canonical Text string |
| `SteamId.IdsPrintAs` | src/steamid.cpp:94-114 | the Text form of every id is `STEAM_u:y:a`, its Id3 form, where there is one, `[U:u:w]` with the brackets, and its decimal form a number, all written without leading zeros; u is the universe (0 for 1 in the Text form), w is 2·account + y |
| `SteamId.MalyPrintsAs` | test/teststeamid.cpp:46-61 | 76561198074409147 has the three forms the repository's tests expect |
| `SteamId.Id64Parsing` | src/steamid.cpp:66-67 | digits read as their number up to 2^63-1, negative ones as 2^64 minus it, and a text that is no number in the range of `toLongLong` as 0 |
| `Decimal.RenderReadsBack` | src/steamid.cpp:97-98 | a printed number is a digit string that reads back as the number |
| `Decimal.PrintsOneWay` | src/steamid.cpp:97-98 | a number is written in exactly one way without leading zeros, and that is how it is printed |
| `Decimal.SignedReadsSpellings` | src/serverstatus.cpp:184 | `toInt` reads digits with an optional sign, amid white space, as the number they denote, when that is in range, else as none |
| `Decimal.SignedReadsOnlySpellings` | src/serverstatus.cpp:184 | and it reads no other text |
| `Decimal.RangesOfTheReaders` | src/steamid.cpp:66-67 | `toInt` stops at -2147483648 and 2147483647, `toLongLong` at -9223372036854775808 and 9223372036854775807 |
| `Configuration.ReplayIsLastWriterWins` | src/persistor.cpp:86-90 | after replaying a log, a key reads as the value of its last row |
| `Configuration.ReplaySparesOtherKeys` | src/persistor.cpp:86-90 | a key without a row reads after the replay as it did before |
| `Configuration.ReplayKeys` | src/persistor.cpp:86-90 | a replay lists the keys it starts from and the keys some row fills, and no other |
| `Configuration.SnapshotRestores` | src/persistor.cpp:152-166 | one row per key, replayed over any start whose keys are covered, restores every value |
| `Configuration.AppendingRefinesUpdating` | src/persistor.cpp:214-221 | appending a row per write and updating the row in place restore the same `value` function for every history; updating keeps at most one row per key |
| `Configuration.UpsertOverwrites` | src/persistor.cpp:214-221 | one write stored in place, over the key's row or as a new one, has after replay the effect of one `setValue`, wherever in the log the row stands |
| `Configuration.SetValueKeepsSame` | src/serverconfiguration.cpp:33-45 | configurations that agree on every value still do after the same write, also where only one of them has the key; the written key then reads as written |
| `Configuration.Sorted` | src/persistor.cpp:155-156 | the keys are listed once each |
| `Configuration.SortedAscends` | src/persistor.cpp:155-156 | they are listed in ascending order, as a QMap keeps them |
| `Configuration.DefaultsRead` | src/server.cpp:78-79 | a new configuration reads `-port 27015 -secured +map cp_badlands` and `logs` under the literal keys of the launch arguments and the log directory, and nothing under any other key |
| `Tables.StoreServerIsAllOrNothing` | src/persistor.cpp:125-171 | storing fails exactly when one of its statements does, and then both tables are as before; else there is one more server row, one entry per key, and no other id's entries change |
| `Tables.StoringAgainStartsAfresh` | src/persistor.cpp:125-196 | after a delete, storing the name again replays to the new server's own values, and no other server's rows change |
| `Tables.StoreServerKeepsSound` | src/persistor.cpp:135-166 | storing keeps ids ascending and every entry with a server row |
| `Tables.DeleteServerKeepsSound` | src/persistor.cpp:173-196 | deleting keeps ids ascending and leaves no orphaned entry |
| `Tables.FaultlessDelete` | src/persistor.cpp:173-196 | a delete none of whose statements fails removes the server's rows and all their entries |
| `Tables.DeletesCompose` | src/persistor.cpp:185-191 | deleting the entries of one id after another deletes those of all of them |
| `Persistence.RestartsOnlyForgetTheUnstored` | src/persistor.cpp:73-227 | main theorem: while deletes and log writes are carried out, no run of add, remove, setValue and restart crashes, and its servers are, in order and by `value`, those of a machine without a database whose restarts forget just the servers that could not be stored |
| `Persistence.RestartsAreInvisible` | src/persistor.cpp:73-227 | without database failure, a run and the same run without its restarts end with the same servers, in the same order, with the same values |
| `Persistence.ReachableTables` | src/persistor.cpp:73-123 | while deletes and log writes are carried out, every reachable database has distinct names, no orphaned entry and stutter-free logs, and restoring it succeeds |
| `Persistence.RestoreSucceeds` | src/persistor.cpp:80-92 | for any tables, restoring meets no taken name exactly when no two rows share a name; then it lists one server per row, in order |
| `Persistence.RestoreRecalls` | src/persistor.cpp:73-98 | rows that mirror a server list restore its stored servers, and still mirror the result, as restoring writes no row |
| `Persistence.StutterFreeAppends` | src/serverconfiguration.cpp:33-40 | a write that passes change detection never repeats the last logged value of its key |
| `Persistence.WriteKeepsConsistent` | src/persistor.cpp:198-227 | a write keeps memory and log in agreement, whether it is logged or not |
| `Persistence.AddKeepsConsistent` | src/persistor.cpp:125-171 | adding keeps memory and tables in agreement, also when storing fails |
| `Persistence.RemoveKeepsConsistent` | src/persistor.cpp:173-196 | removing keeps memory and tables in agreement |
| `Persistence.StepsTouchOneName` | src/persistor.cpp:125-227 | a step leaves the row and the log of every server it does not name as they were, whichever of its statements fail |
| `Persistence.StepsInMemory` | src/servermanager.cpp:175-211 | what a step does to the servers in memory, whatever fails: an add appends one server when its name is free, a remove takes away those of the name and keeps the order, a write changes the value of one key of one name |
| `Keys.KeysSurviveARestartIff` | src/serverconfiguration.cpp:33-40 | a restart lists no new key for a stored server, and the same keys exactly when each key listed before is a default or has a row that fills it |
| `Keys.FreshKeysSurviveIff` | src/persistor.cpp:152-166 | after a restart a server just stored lists the defaults and the keys that do not read as empty, so all its keys exactly when no other key reads as empty |
| `Keys.AClearedKeyIsLost` | src/serverconfiguration.cpp:33-40 | a run of add and restart whose restart drops a key that was set and cleared |
| `Keys.KeysAfterEveryRun` | src/persistor.cpp:83-94 | after every run without database failure, each configuration lists the defaults and the keys of its rows, or, if a restart came since it was added, the keys its rows fill |
| `Keys.TablesIgnoreRestarts` | src/persistor.cpp:73-98 | without database failure, the tables of a run are those of the same run without its restarts |
| `Keys.RestartsKeepKeysIff` | src/persistor.cpp:73-227 | without database failure, a server lists the same keys as in the same run without restarts exactly when no restart came since it was added, or each of those keys is a default or is filled by a row |
| `Keys.NewServersReadAsNew` | src/server.cpp:78-79 | after the run that adds one server, and again after a restart, it reads the two default values under their literal keys and nothing else |
| `InPlace.AppendingRunsLikeUpdating` | src/persistor.cpp:205-221 | while deletes and log writes are carried out, every run that updates the row of a changed key in place ends with the same servers, in order and by `value`, as the run that appends, and with one row per key |
| `DatabaseFaults.LostWritesAreUndone` | src/persistor.cpp:223-226 | a change whose row was not written is undone by the next restart |
| `DatabaseFaults.RemovedServerReturnsIff` | src/persistor.cpp:193-195 | a removed server comes back with the next restart exactly when it was stored and its row could not be deleted |
| `DatabaseFaults.AddingAgainCrashesIff` | src/persistor.cpp:83-84 | after such a removal and a second add of the name, the next restart crashes in exactly that case |
| `DatabaseFaults.OtherServersComeBack` | src/persistor.cpp:173-196 | whichever statements of a removal fail, every other server is after a restart exactly what it would be without the removal |
| `DatabaseFaults.ReturnedServerCarries` | src/persistor.cpp:180-191 | a removed server that returns has its path, and its values exactly unless its entries were deleted, else the defaults |
| `Copies.RunsKeepCopies` | src/persistor.cpp:73-227 | main theorem on faults: whatever statements fail, a run crashes just when the machine of memory and copies does, and else has its servers in memory and its copies, exactly, in the tables |
| `Copies.StoringKeeps` | src/persistor.cpp:152-166 | the rows of a stored server replay to its values without the empty keys that are no defaults |
| `DatabaseFaults.NamesAfterEveryRun` | src/persistor.cpp:73-227 | after every run that has not crashed, whether a name is listed and how many rows carry it can be counted from the steps |
| `DatabaseFaults.RunsCrashIff` | src/persistor.cpp:83-84 | a run crashes exactly when one of its restarts comes while some name, by that count, has more than one row |
| `DatabaseFaults.ARemovedServerReturns` | src/persistor.cpp:193-195 | a run of add and remove after which the server is not listed, and is listed again after a restart |
| `DatabaseFaults.ADoubledNameCrashes` | src/persistor.cpp:83-84 | a run of add, remove and add whose restart crashes |
| `Affinity.SurvivesIff` | src/persistor.cpp:62-66 | a stored text reads back unchanged exactly when it is no numeral, or a 64-bit integer without plus sign, white space, leading zero or negative zero, or another numeral that the driver prints as it stands |
| `Affinity.StoringTwiceIsOnce` | src/persistor.cpp:62-66 | what a 64-bit integer read back as is stored unchanged from then on |
| `Affinity.LoggedValueSurvivesIff` | src/persistor.cpp:86-90 | after a restart a key reads as the last value written has come through the column, so its value survives exactly when that text does |
| `Affinity.StoredValuesSurviveIff` | src/persistor.cpp:152-166 | a server just stored keeps all its values exactly when each of them survives |
| `Affinity.StoredLogStuttersIff` | src/serverconfiguration.cpp:33-40 | a logged change repeats the last stored value of its key exactly when both texts read back alike |
| `Affinity.ALeadingZeroIsStoredTwice` | src/serverconfiguration.cpp:33-40 | a number written with and then without a leading zero passes change detection and is stored twice |
| `Affinity.NumeralIsThePattern` | src/persistor.cpp:62-66 | a text counts as a numeral exactly when it is an optional sign, digits with an optional point, and an optional exponent, amid white space |
| `Tmux.SessionsStayHome` | src/tmuxsessionwrapper.cpp:207-276 | create, kill and setUser keep any session under the wrapper's current user, so a kill that reports success leaves no session under any user |
| `Status.DepartureRemovesFirst` | src/serverstatus.cpp:233-240 | counting one more departure of an id removes the first listed match, and an id is listed exactly when it arrived more often than it left |
| `Status.RemovePlayerKeepsCounted` | src/serverstatus.cpp:233-240 | removing a listed player keeps list, count and history in agreement |
| `Status.AddPlayerKeepsCounted` | src/serverstatus.cpp:225-231 | adding a player keeps list, count and history in agreement |
| `Status.SplitJoins` | src/serverstatus.cpp:179 | the parts of a split text hold no separator, and joined with it give the text back |
| `Status.SplitCounts` | src/serverstatus.cpp:179 | there is one part more than there are separators |
| `Status.JoinSplits` | src/serverstatus.cpp:179 | parts without the separator, once joined, are split into themselves |
| `Status.AddressReads` | src/serverstatus.cpp:179-187 | `host:port` reads as that host and that port, which is 0 when its text is no number |
| `Status.PrintedAddressReads` | src/serverstatus.cpp:179-187 | a host without a colon, a colon and a printed number up to 2147483647 read as that host and number |
| `Status.OtherTextsAreNoAddress` | src/serverstatus.cpp:179-187 | a text with no colon, or with two or more, leaves the address as it was |
| `Status.PortReads` | src/serverstatus.cpp:207-216 | a text that is a number sets the port, any other text leaves it as it was |
| `Mirror.TrackSettles` | src/serverstatus.cpp:73-108 | after tracking, every mirrored field shows the remote's text or will once the queue is delivered, whatever the remote did between any two calls |
| `Mirror.TrackKeepsTheRest` | src/serverstatus.cpp:73-108 | tracking stores the remote's player limit and address and leaves the players alone (`Mirror.TrackReadsTheAddress` says which address its text gives) |
| `Mirror.TrackReadsTheAddress` | src/serverstatus.cpp:179-187 | a tracked game server with address `host:port` gives the status that host and port, port 0 when it is no number; a text with no colon or several leaves an older address |
| `Mirror.TrackReadsPrintedAddresses` | src/serverstatus.cpp:179-187 | with a printed port up to 2147483647, the status has exactly that host and port |
| `Mirror.DeliveriesByName` | src/serverstatus.cpp:81-127 | what a delivered signal changes, by the literal conVar names; a tv_port that is no number and any other conVar change nothing; players join at the end and leave first match first |
| `Mirror.DeliverKeepsSettled` | src/serverstatus.cpp:81-86 | delivering the oldest notification keeps settled fields settled, and settles the field it is about |
| `Mirror.HappenKeepsSettled` | src/serverstatus.cpp:81-96 | a remote change keeps settled fields settled |
| `Mirror.DrainedMirrorIsCurrent` | src/serverstatus.cpp:73-127 | a settled field ends at the remote's current text once the queue is delivered; tv_port when that text is a number |
| `Mirror.DrainedByName` | src/serverstatus.cpp:73-127 | the same for a status whose five fields are settled, field by field under the literal conVar names |
| `Coordinator.StartKeepsHealthy` | src/serverstarter.cpp:52-111 | a start, at whichever stage it ends, keeps the invariant: sessions are accounted for by state and error, and starting = started + failed + armed |
| `Coordinator.ResolvingEndsRunning` | src/serverstarter.cpp:118-123 | n starters that hear of a game server make n connections to it and end in Running with the status blank |
| `Coordinator.OnlineKeepsHealthy` | src/servercoordinator.cpp:98-112 | a game server coming online keeps the invariant, however many starters wait |
| `Coordinator.QuitCallsEndOffline` | src/servercoordinator.cpp:114-127 | aboutToQuit ends Offline however many connections and failed kills there are, and leaves everything as it was when there is none |
| `Coordinator.TimeOutKeepsHealthy` | src/serverstarter.cpp:113-116 | a starter's timeout keeps the invariant |
| `Coordinator.PingFailedKeepsHealthy` | src/servercoordinator.cpp:129-138 | a failed ping keeps the invariant |
| `Coordinator.SessionAfterStart` | src/serverstarter.cpp:52-111 | for each way a start may end, whether a session is alive afterwards, as a condition on the one before and on the answers of tmux |
| `Coordinator.SessionAfterTimeOut` | src/serverstarter.cpp:113-116 | a starter's timeout leaves the session as it is |
| `Coordinator.SessionAfterQuit` | src/servercoordinator.cpp:114-127 | after aboutToQuit there is no session exactly when there was none or some connection's kill took effect |
| `Coordinator.SessionAfterPingFailed` | src/servercoordinator.cpp:129-138 | after a lost ping there is no session exactly when there was none or the kill took effect |
| `Coordinator.FreshStartsRunUnder` | src/tmuxsessionwrapper.cpp:265-276 | without a session and with an answered probe, a start runs under the user asked for, whatever user was set before |
| `World.NextKeepsValid` | src/servermanager.cpp:78-133 | every allowed event keeps the invariant of all servers, game servers, orphans, queues and connections |
| `World.NextKeepsLinked` | src/servercoordinator.cpp:77-112 | every event keeps starters single and connections only to live game servers of the very server |
| `World.NextKeepsFollow` | src/serverstatus.cpp:63-127 | every event keeps each field that a live game server wrote last settled with that game server |
| `World.NextKeepsAccounted` | src/servermanager.cpp:85-130 | every event keeps registrations equal to live entries plus orphans plus quits plus ping failures |
| `World.NextKeepsOrphaned` | src/servermanager.cpp:196-211 | every event keeps game servers whose server was removed apart from those with a server |
| `World.NextKeepsPlaced` | src/servermanager.cpp:83-97 | every event keeps each live game server with the first listed server at its location |
| `Runs.RunsAreValid` | src/servermanager.cpp:78-133 | the whole invariant holds after every run |
| `Runs.RunningHasALiveWitness` | src/servercoordinator.cpp:89-144 | after every run, a Running server has a registered game server whose aboutToQuit is connected to its coordinator |
| `Runs.SessionsAreAccountedFor` | src/servercoordinator.cpp:98-144 | after every run a session lives only under the wrapper's current user; unless the last kill failed, Offline means no session, and a session of a Crashed server means one of three errors (which failures leave one: `Coordinator.SessionAfterStart` and its neighbours) |
| `Runs.KillLeavesNoSession` | src/tmuxsessionwrapper.cpp:207-231 | after every run, a kill (or destruction) that reports success leaves no session under any user |
| `Runs.StartChecksNeverFail` | src/serverstarter.cpp:56-64 | after every run a server has a configuration and has never failed for lack of one or for an invalid installation; an invalid server is Offline without error |
| `Runs.StartersAreConserved` | src/serverstarter.cpp:52-123 | after every run, starting signals = started + failed + armed starters, and no starter is armed twice |
| `Runs.StartersEndOnce` | src/servercoordinator.cpp:77-87 | a starter that no longer waits is never armed again in any continuation of the run |
| `Outcomes.EveryStarterEndsOnce` | src/serverstarter.cpp:52-123 | after every run, a starter that was issued and no longer waits has had exactly one outcome (started, failed, or deleted with its server), every other starter none, and no starter waits for two servers |
| `Outcomes.CountersCountOutcomes` | src/servercoordinator.cpp:77-104 | after every run, a listed server has reported as many started and failed signals as it has starters with that outcome |
| `Outcomes.EveryStarterHasAServer` | src/servercoordinator.cpp:77-87 | after every run, exactly the issued starters were made for a server, and a waiting one for the server it waits for |
| `Runs.OnlineResolvesAllStarters` | src/serverstarter.cpp:109-123 | one game server coming online resolves every armed starter of its server as started |
| `Runs.RegistryIsConserved` | src/servermanager.cpp:78-133 | after every run, registrations = live entries + orphans of removed servers + quits + ping failures, and each live game server belongs to the first listed server at its location |
| `Runs.GameServersLeaveOnce` | src/servermanager.cpp:88-95 | a game server that has left or lost its server is never again registered for a server, and none is handed to another server, in any continuation of the run |
| `Runs.EventsAreIsolated` | src/servermanager.cpp:78-133 | an event changes nothing of any server but the one it is about |
| `Runs.PlayersAgreeWithHistory` | src/serverstatus.cpp:99-140 | after every run, the player list is the arrivals since the last reset, in order, less the first match of each departure, and the count is its length |
| `Runs.MirrorsFollowTheirGameServer` | src/serverstatus.cpp:73-127 | after every run, each field that a live game server wrote last since the last reset ends at that game server's current text once its queue is delivered |
| `Runs.MirrorsByName` | src/serverstatus.cpp:73-127 | the same after every run, field by field under the literal conVar names |
| `Runs.SnapshotSurvivesIffUnawaited` | src/serverstatus.cpp:73-114 | after a game server's arrival the status shows, or is about to show, its five texts exactly when no starter was waiting or each text has a notification under way or looks blank (empty; for the port 0 or no number); with a starter waiting the status is blank |
| `Runs.QuietSnapshotSurvivesIff` | src/serverstatus.cpp:73-114 | when nothing happens at the game server meanwhile, exactly when no starter was waiting or all its texts look blank |
| `Runs.RestOfTheSnapshot` | src/serverstatus.cpp:73-140 | after an arrival, exactly when the player limit is the game server's, the address is the one its text gives (`Mirror.TrackReadsTheAddress`), and players and their count are empty |
| `Runs.NewcomersWriteIffUnawaited` | src/serverstatus.cpp:110-114 | a newcomer is the last writer of all five fields exactly when no starter was waiting, else of none |
| `Runs.DepartureIsListedIff` | src/serverstatus.cpp:99-107 | after every run, an id is listed exactly when more of its arrivals than departures were delivered since the last reset |
| `Runs.DepartureBlanksStatusIff` | src/servermanager.cpp:88-122 | after every run, a game server's departure leaves a blank status exactly when it is a lost ping, the game server was connected, or the status was blank; else the server stays as it was |
| `Transitions.ANewServerIsIdle` | src/server.cpp:82-105 | an added server is the last of the list, Offline, without error, session, starter or connection |
| `Transitions.StopShutsDown` | src/servercoordinator.cpp:89-96 | over runs: a stopped server that was Running or Starting is ShuttingDown, its status blank with one reset more and all else as before; in any other state nothing changes |
| `Transitions.StartEnds` | src/serverstarter.cpp:52-111 | which refused command gives which error, in order; a start none of whose commands is refused leaves Starting and one more waiting starter; every failure leaves Crashed and one more failed starter |
| `Transitions.StartEndsInRuns` | src/serverstarter.cpp:52-111 | the same over runs, with the user the session runs under |
| `Transitions.StartRunsUnder` | src/tmuxsessionwrapper.cpp:265-276 | a start runs under the user asked for unless a session exists or might |
| `Transitions.TimeoutCrashes` | src/serverstarter.cpp:113-116 | over runs: a starter's timeout leaves Crashed with ServerNotRegisteredOnTime, and only that starter stopped waiting |
| `Transitions.ArrivalRuns` | src/servercoordinator.cpp:98-112 | an arrival leads to Running exactly when starters wait, each of which then is a connection; else the state stays |
| `Transitions.QuitEndsOffline` | src/servercoordinator.cpp:114-127 | over runs: a goodbye sets Offline when the game server was connected, and else keeps the state; its connections are gone and the session is as the kills left it; error, starters and counters stay |
| `Transitions.LostPingCrashes` | src/servercoordinator.cpp:129-138 | over runs: each of the four literal replies of a lost ping leaves a valid server Crashed, without connection to the game server, its session as the kill left it; error, starters and counters stay |
| `Transitions.AnsweredPingsChangeNothing` | src/servermanager.cpp:115-118 | after every run, an answer or any other error of a ping changes nothing at all |
| `Transitions.SessionEndsAlone` | src/tmuxsessionwrapper.cpp:239-263 | a session that ends by itself is all that changes |
| `Transitions.ArrivalsRegister` | src/servermanager.cpp:78-101 | a newcomer is registered for the first listed server at its location, and for nobody when there is none |
| `Transitions.RemovalOrphansItsGameServers` | src/servermanager.cpp:196-211 | over runs: a removed server leaves list and units, and exactly its game servers become orphans |
| `Transitions.OrphansLeaveQuietly` | src/servermanager.cpp:88-95 | over runs: when a game server nobody owns says goodbye, it is gone and nothing else changes |
| `Transitions.GameServersAreHeard` | src/serverstatus.cpp:73-108 | after every run, a registered game server of a valid server has all its signals connected and exactly the four conVars watched; one of an invalid server has none, and nothing is under way |
| `Transitions.ChangesByName` | src/serverstatus.cpp:81-107 | a change at such a game server posts exactly one signal, in literal terms, except for a conVar that is not watched |
| `Transitions.StatesComeFrom` | src/servercoordinator.cpp:70-144 | over runs and for each of the five states: an event that brings the state (say, Crashed: a refused start, a starter's timeout or a lost ping) leads to it, and no other event leads to it from another state |
| `Surprises.TheSnapshotIsLost` | src/serverstatus.cpp:110-114 | a run of add, start and connect after which the status does not show the game server's map, with no notification under way that would change it |
| `Surprises.ACrashedServerKeepsItsSession` | src/serverstarter.cpp:86-97 | a run that ends Crashed with the session alive though no kill failed |
| `Surprises.AnOfflineServerKeepsItsSession` | src/servercoordinator.cpp:114-127 | a run that ends Offline with the session alive after a failed kill |
| `Surprises.AStrangersPlayersStay` | src/servermanager.cpp:88-93 | a run after which no game server is registered and a player is still listed |
| `Surprises.AStopUnlistsPlayers` | src/serverstatus.cpp:110-114 | a run in which `stop` empties the list and the next departure under way names a player who is not listed |
| `Surprises.AStoppedServer` | src/servercoordinator.cpp:89-127 | a run of add, start, connect, stop and quit that ends Offline without a session |
| `TmuxWrapper.TmuxSessionWrapper.Create` | src/tmuxsessionwrapper.cpp:120-147 | creates at most one session, under the current user, and none when one exists |
| `TmuxWrapper.TmuxSessionWrapper.Kill` | src/tmuxsessionwrapper.cpp:207-231 | ends the current user's session when the command takes effect; true without a session |
| `TmuxWrapper.TmuxSessionWrapper.SetUser` | src/tmuxsessionwrapper.cpp:265-276 | keeps the old user as long as a session exists under it, or might, else takes the new one |
| `StatusObjects.ServerStatus.TrackGameServer` | src/serverstatus.cpp:73-108 | carries out `Mirror.Track` on the status and the game server's proxy |
| `StatusObjects.ServerStatus.HandleConVarChange` | src/serverstatus.cpp:116-127 | carries out the delivery of a conVar notification that `Mirror` speaks of |
| `StatusObjects.ServerStatus.RemovePlayer` | src/serverstatus.cpp:233-240 | erases the first player with the id, and counts one less |
| `StatusObjects.RemoveFirstAt` | src/serverstatus.cpp:236-237 | erasing what a search from the front finds is removing the first match |
| `StatusObjects.ServerStatus.Reset` | src/serverstatus.cpp:129-140 | leaves nothing of the mirrored state |
| `DatabaseObjects.Database.InsertServer` | src/persistor.cpp:135-150 | one more row with a fresh id, or nothing when the statement fails |
| `DatabaseObjects.Database.Rollback` | src/persistor.cpp:140-141 | returns both tables to where the transaction began |
| `Servers.ServerConfiguration.SetValue` | src/serverconfiguration.cpp:33-40 | changes the map and appends to the log exactly when the value read before differs; when the statement fails only the row is missing |
| `Servers.ServerStarter.Start` | src/serverstarter.cpp:52-111 | carries out `Coordinator.Start` with every early exit, on the server's own objects |
| `Servers.ServerStarter.TimeoutStart` | src/serverstarter.cpp:113-116 | carries out `Coordinator.TimeOut`: Crashed with ServerNotRegisteredOnTime, the failed starter gone, the session as it was |
| `Servers.ServerStarter.HandleGameServerRegistered` | src/serverstarter.cpp:118-123 | carries out `Coordinator.OnStarted`: one more connection and a reset status |
| `Servers.ServerCoordinator.Start` | src/servercoordinator.cpp:77-87 | always succeeds in making a starter, whatever the state; without a session and with an answered probe it runs under the configured user, else the daemon's |
| `Servers.Server.TheConfiguredUserWins` | src/serverstarter.cpp:66-70 | the user a start asks for is the one under the literal user key, and the daemon's when that is empty |
| `Servers.ServerCoordinator.Stop` | src/servercoordinator.cpp:89-96 | a Running or Starting server is ShuttingDown, any other keeps its state, as `Coordinator.Stop` says of all else |
| `Servers.ServerCoordinator.AboutToQuit` | src/servercoordinator.cpp:106-127 | runs once per connection and carries out `Coordinator.Quit`: Offline when there was a connection, and else as it was |
| `Servers.ServerCoordinator.PingFailed` | src/servercoordinator.cpp:129-138 | the server is Crashed; all else as `Coordinator.PingFailed` says |
| `Servers.Server.constructor` | src/server.cpp:82-105 | a new server has the two default values under their literal keys; only a valid one has a coordinator and a status of its own |
| `Servers.Server.GameServerOnline` | src/serverstatus.cpp:67-70 | the status hears the signal before the starters, as `Coordinator.Online` says |
| `Servers.Server.ResolveStarters` | src/serverstarter.cpp:109-123 | each armed starter hears the signal once, in order, and none stays armed |
| `Servers.ServerManager.Find` | src/servermanager.cpp:149-157 | finds a server of the name exactly when there is one |
| `Servers.ServerManager.ServerNames` | src/servermanager.cpp:228-238 | lists the names in list order |
| `Servers.ServerManager.AddServer` | src/servermanager.cpp:175-194 | keeps names unique; appends the server and stores it exactly when its name is free |
| `Servers.ServerManager.Add` | src/servermanager.cpp:159-173 | a new default server, or null exactly when the name is taken |
| `Servers.ServerManager.Remove` | src/servermanager.cpp:196-211 | removes exactly the server of the name from the list, and from the tables as far as the database obeys; keeps the others' order |
| `Servers.ExceptIsWithout` | src/servermanager.cpp:207-207 | as names are unique, removing the object is removing the name |
| `Servers.ServerManager.FindAt` | src/servermanager.cpp:83-85 | the first server at a location, or null exactly when there is none |
| `Servers.ServerManager.RegisterGameServer` | src/servermanager.cpp:78-101 | registers exactly when a server is at the location; that server hears the signal and no other server's supervision changes |
| `Servers.ServerManager.AboutToQuit` | src/servermanager.cpp:89-93 | the entry is gone, the coordinator, if its server is still listed, has heard it once per connection, and no other server's supervision changes |
| `Servers.ServerManager.PingLost` | src/servermanager.cpp:113-122 | the entry is gone, the server with a coordinator is Crashed and its session killed, and no other server's supervision changes |
| `Servers.Persistor.StoreServer` | src/persistor.cpp:125-171 | carries out the transaction `Tables.StoreServer` and listens to the configuration exactly when it commits |
| `Servers.Persistor.DeleteServer` | src/persistor.cpp:173-196 | deletes what `Tables.TryDeleteServer` says, whichever of its statements fail; when none does, that is `Tables.DeleteServer` |
| `Servers.Persistor.StoreConfigurationEntry` | src/persistor.cpp:198-227 | appends one row under the id of the configuration's server, or nothing when a statement fails |
| `Servers.Persistor.RestoreServers` | src/persistor.cpp:73-98 | rebuilds the list `Persistence.Restore` describes and fails exactly when that does; listens to every configuration and changes no table |
| `Servers.Persistor.RestoreConfiguration` | src/persistor.cpp:83-94 | replays the server's entries over the defaults, then listens |
| `Servers.Persistor.Initialize` | src/persistor.cpp:111-123 | restores first and connects to the manager afterwards |
| `Servers.MorgothDaemon.AddServer` | src/servermanager.cpp:175-194 | the objects are where the run with this step leads; true exactly when the name was free; the added server is new |
| `Servers.MorgothDaemon.RemoveServer` | src/servermanager.cpp:196-211 | the objects are where the run with this step leads, whichever statements fail; true exactly when the name was listed |
| `Servers.MorgothDaemon.SetValue` | src/serverconfiguration.cpp:33-40 | the objects are where the run with this step leads, whether the log write fails or not |
| `Servers.MorgothDaemon.Restart` | src/persistor.cpp:111-123 | succeeds exactly when the run with this step does not crash, always while deletes and log writes are carried out; then the objects are where the run leads, and manager, persistor and servers are new |
| `Servers.MorgothDaemon.RestartsWereInvisible` | src/persistor.cpp:73-227 | unless storing failed, the listed objects are those of the same history without its restarts |
| `Supervision.EventLoop.StartServer` | src/servercoordinator.cpp:77-87 | starting a server leaves all objects where the run with this event leads |
| `Supervision.EventLoop.StopServer` | src/servercoordinator.cpp:89-96 | stopping a server leaves all objects where the run with this event leads |
| `Supervision.EventLoop.StarterTimesOut` | src/serverstarter.cpp:113-116 | a starter's timeout leaves all objects where the run with this event leads |
| `Supervision.EventLoop.GameServerConnects` | src/servermanager.cpp:78-101 | a connecting game server is registered with the first server at its location, if any, and leaves all objects where the run with this event leads |
| `Supervision.EventLoop.GameServerQuits` | src/servermanager.cpp:89-93 | one aboutToQuit leaves all objects where the run with this event leads, and exactly this entry is gone, also when its server was removed before |
| `Supervision.EventLoop.PingReplied` | src/servermanager.cpp:103-133 | exactly four errors end the entry; any reply leaves all objects where the run with this event leads |
| `Supervision.EventLoop.RemoteChanges` | src/serverstatus.cpp:81-86 | a change at a game server that has a server queues what it announces and leaves all objects where the run with this event leads |
| `Supervision.EventLoop.SignalArrives` | src/serverstatus.cpp:81-107 | delivering a game server's oldest signal leaves all objects where the run with this event leads |
| `Supervision.EventLoop.AddServer` | src/servermanager.cpp:175-194 | a server with a free name joins the end of the list and of the run, as a new object with a coordinator exactly when its installation is valid; else nothing happens |
| `Supervision.EventLoop.RemoveServer` | src/servermanager.cpp:196-211 | a listed server leaves the list and the run, and its game servers stay registered for nobody; else nothing happens |
| `Supervision.FirstAtIsServerAt` | src/servermanager.cpp:83-85 | the object the search finds is the run's first server at the path |
| `Supervision.EventLoop.RunningServersHaveALiveWitness` | src/servercoordinator.cpp:98-112 | a coordinator in Running has a registered proxy of its server connected to it |
| `Supervision.EventLoop.ServersSessionsAreAccountedFor` | src/servercoordinator.cpp:114-144 | the wrapper's sessions are under its current user, and which state and error allow one alive |
| `Supervision.EventLoop.ServersStartersAreConserved` | src/serverstarter.cpp:52-123 | starting signals = started + failed + armed starters, and the player count is the list's length |
| `Lifecycle.WholeLife` | src/servermanager.cpp:78-211 | a program that makes the objects and adds, starts, connects, stops and quits: the server ends Offline without a session, and nothing is registered |
| `Lifecycle.Connect` | src/servercoordinator.cpp:98-112 | in that program the server is Running once its game server has connected |
| `Lifecycle.WriteAndRestart` | src/persistor.cpp:73-123 | a value written through a listed server reads back after a restart, from new objects, for every name, key and value |

## Left out

- D-Bus transport, adaptors and marshalling (`playerinfo.cpp`, `servererror.cpp`): only the order of signals matters here.
- `morgothctl`: command-line parsing, printing and waiting.
- SQL text, drivers and files; the plugin table and the plugin manager, an easy map.
- tmux processes, `getpwnam`, `chown` and `execve`: their outcomes are parameters (`Reply`, `StartReplies`).
- Signal handling and reading of the daemon's configuration file; its `user` entry is a parameter of `Start`.
- `QUrl` and `QDir` normalisation: paths are compared for equality. Host names and ports are kept as split, not normalised.
- The text of the log file path and of the launch command (src/serverstarter.cpp:77-81, 101-102): only whether tmux takes them matters.
- Timer durations: a timeout may happen whenever a starter is armed.
- `sendCommand`, `stopSync` and the plain getters: no state to speak of.
- Overflow of the player count, a C++ `int`: it would need 2^31 players.
- White space beyond ASCII around numbers in `toInt` and `toLongLong`.
- Destroying a removed server's coordinator, which kills its session: `Runs.KillLeavesNoSession` says what that kill leaves.
- EventLoop: covers one lifetime of the manager; restarts belong to `MorgothDaemon`, and no run combines restarts with supervision.
- Supervision.EventLoop.PingReplied: a lost ping needs a listed server; the source calls through a deleted one otherwise
  (src/servermanager.cpp:119).
- Servers.ServerManager.PingLost: the same.
- Supervision.EventLoop.SignalArrives: an unlisted departure is left out, since the source then erases the end
  iterator (src/serverstatus.cpp:236-237).
- What an orphaned game server changes or signals: nobody listens.
- Persistence.RestartsOnlyForgetTheUnstored: speaks of runs whose deletes and log writes are carried out; of other runs it is
  false (`DatabaseFaults.ARemovedServerReturns`), and `Copies.RunsKeepCopies` says what holds of all.
- Copies and DatabaseFaults: reading the tables at start-up does not fail; the source skips entries it cannot read.
- Affinity: how the driver prints a REAL is a parameter; the other modules take the texts that survive.
- Id3Of: undefined from account number 2^30 on, where the source's `int` doubling overflows (src/steamid.cpp:110).
