# DeathTracker: a verified model of the death-accounting and ban engine

DeathTracker is a server plugin that gives every player a fixed number of
free deaths. It keeps two collections in memory:

- a dictionary from player id to death count;
- a list of banned player ids.

On every death past the allowance, the plugin asks the economics plugin to
withdraw a penalty. If the withdrawal fails, the player is put on the ban
list, banned and kicked by the host, and sent the configured ban message. The
login hook rejects every id on the ban list. Chat commands report a player's
lives and deaths. Console commands list, wipe and edit the ban list and reset
all counts; each of them is gated on the caller's authorisation level.

The model has four modules:

- `Int32` (int32.dfy): C#'s 32-bit `int` with its unchecked wrap-around,
  used for the death counts, the allowance and the lives arithmetic.
- `DeathTrackerSpec` (death_tracker_spec.dfy): the configuration record and
  its defaults (3 lives, a penalty of 100.0, "You have been banned for
  exceeding death limits."), the caller and output datatypes, the exact
  console texts, and the functions and lemmas that specify the handlers.
- `DeathTrackerPlugin` (death_tracker.dfy): class `DeathTracker`, with the
  plugin's fields and one method per hook and command. The methods update the
  fields in place. Their contracts state the whole new state in terms of the
  old one and of the functions in `DeathTrackerSpec`.
- `Scenarios` (scenarios.dfy): client code that drives the class through the
  limited-lives story using only the method contracts. It covers a paid
  penalty, a ban, an unban followed by a second ban, a duplicate ban that
  outlives an unban, a death while the economics plugin is not loaded, and
  both resets.

Outside inputs are parameters:

- the economics plugin's answer to the withdrawal is an `EconomicsReply`:
  `Withdrawn`, `Refused` (the call returned `false`), or `NotLoaded` (the
  plugin reference is null, so the call throws);
- the console connection is a `Caller`, either `Console` (a null connection)
  or `Client(authLevel)`;
- command arguments are a `seq<string>`.

Outputs are return values:

- the death handler returns the `HostAction`s it would perform, in order: the
  withdrawal call, the ban, the kick, and the player messages; it also
  returns whether it ran to the end or threw;
- the chat commands return a `Notice`;
- the console commands return the lines they print;
- the login hook returns `Some(banMessage)` or `None` for C#'s `null`.

Writing the data files is modelled by two ghost fields. They hold the state of
the last flush. Start-up sets them to the data it loaded. After that only
`SaveData` sets them, and it is called only by the death handler (when it does
not throw) and the three lifecycle hooks.

Behaviour of the code that the model keeps as it is:

- Banning is not idempotent. The ban list is a list, and the death handler
  appends the id even when it is already listed (line 50). `unbanplayer`
  removes only the first occurrence (line 121).
- The lives reply is `DefaultLives - deaths` (line 65). It is not floored at
  zero and becomes negative once the allowance is passed.
- Only the death handler and the lifecycle hooks flush (lines 27-29, 57). The
  admin commands and the economics-wipe hook change memory only.
- The economics-wipe hook has no authorisation check (lines 178-182).
- A player who is already banned is enforced again on a further death. The
  withdrawal is attempted again, and when it is refused the id is appended
  again.
- Unbanning does not touch the death count, so the next unpaid death bans the
  player again.
- The economics plugin reference is used without a null check (line 44). When
  that plugin is not loaded, a death past the allowance throws after
  incrementing the count, so nothing is emitted, nobody is banned, and the
  flush at line 57 is skipped.

One consequence is proved: when an id is on the list twice, one unban prints
"has been unbanned" and the plugin's login hook still rejects the player
(`DuplicateSurvivesRemoval`, and `Scenarios.DuplicateBanOutlivesUnban`).

## Model

| member | source | states |
|---|---|---|
| `Int32.Wrap` | DeathTracker.cs:40 | the 32-bit result agrees with the exact value modulo 2^32 and equals it when it is in range |
| `Int32.Inc` | DeathTracker.cs:40 | `++` adds one below `int.MaxValue` and wraps `int.MaxValue` to `int.MinValue` |
| `Int32.Sub` | DeathTracker.cs:65 | `a - b` agrees with the exact difference modulo 2^32 and equals it when no overflow occurs |
| `DeathTrackerSpec.MayAdminister` | DeathTracker.cs:82 | the gate repeated at lines 82, 101, 110 and 172: an admin command returns early exactly for a client connection below level 2; the console (a null connection) always gets through |
| `DeathTrackerSpec.DeathsOf` | DeathTracker.cs:74 | the count lookup of lines 65 and 74 yields the stored entry for a known id and 0 for an unknown one; a non-zero result always comes from a stored entry |
| `DeathTrackerSpec.RecordDeath` | DeathTracker.cs:36-40 | after a death of `p`, `p` has an entry equal to its previous count (0 if absent) plus one, wrapping to `int.MinValue` from `int.MaxValue`; every other entry and the rest of the key set are unchanged |
| `DeathTrackerSpec.DeathsCountEvents` | DeathTracker.cs:36-40 | over any run of death events, `p`'s count grows by exactly the number of events for `p`, as long as the counter does not wrap |
| `DeathTrackerSpec.LivesOf` | DeathTracker.cs:62-67 | lives left is the allowance minus the stored deaths (0 for an unknown id), modulo 2^32, and exactly that difference when both are non-negative, with no floor |
| `DeathTrackerSpec.LivesGoNegative` | DeathTracker.cs:65 | once deaths exceed a non-negative allowance, the lives value is negative |
| `DeathTrackerSpec.Aborts` | DeathTracker.cs:42-44 | the handler throws only past the allowance, and there exactly when the economics plugin is not loaded; a throw and a ban never happen for the same death |
| `DeathTrackerSpec.DeathActions` | DeathTracker.cs:42-54 | the handler acts exactly when the new count is strictly above the allowance and the economics plugin is loaded; it then makes one withdrawal, first; on success it sends the penalty notice; a ban and a kick happen exactly when the withdrawal is refused, and the ban message is also sent to the player; with the plugin not loaded nothing is emitted |
| `DeathTrackerSpec.EnforcementStartsAfterAllowance` | DeathTracker.cs:36-42 | for a player with no entry, the k-th death leaves the count at k, so enforcement fires on death number allowance + 1 and on every later death, and on no earlier one |
| `DeathTrackerSpec.RemoveFirstAbsent` | DeathTracker.cs:119-127 | removing an id that is not on the list leaves the list unchanged |
| `DeathTrackerSpec.RemoveFirstSplices` | DeathTracker.cs:121 | removal cuts out exactly the element at the first index holding the id, and keeps the order of the rest |
| `DeathTrackerSpec.RemoveFirst` | DeathTracker.cs:121 | `List<string>.Remove` on the ban list: exactly one copy of the id is taken away when there is one, and every other entry keeps its multiplicity |
| `DeathTrackerSpec.DuplicateSurvivesRemoval` | DeathTracker.cs:50 | an id appended twice is still on the list after one removal |
| `DeathTrackerPlugin.DeathTracker.Init` | DeathTracker.cs:20-25 | start-up takes the configuration and both stored collections as the in-memory state, and the store holds the same data |
| `DeathTrackerPlugin.DeathTracker.LoadDefaultConfig` | DeathTracker.cs:141 | the configuration becomes the defaults: 3 lives, penalty 100.0 and the stock ban message |
| `DeathTrackerPlugin.DeathTracker.SaveData` | DeathTracker.cs:155-159 | the store holds exactly the current counts and ban list; nothing else changes |
| `DeathTrackerPlugin.DeathTracker.OnServerSave` | DeathTracker.cs:27 | the periodic save flushes both collections |
| `DeathTrackerPlugin.DeathTracker.OnServerShutdown` | DeathTracker.cs:28 | shutdown flushes both collections |
| `DeathTrackerPlugin.DeathTracker.Unload` | DeathTracker.cs:29 | unloading flushes both collections |
| `DeathTrackerPlugin.DeathTracker.OnEntityDeath` | DeathTracker.cs:32-58 | the counts become `RecordDeath` of the old counts; the emitted actions are `DeathActions` of the new count; the id is appended to the end of the ban list, even when already present, exactly when enforcement fires and the withdrawal is refused; otherwise the list is unchanged; the handler completes, and flushes both collections, unless it needs the economics plugin and that is not loaded, in which case the store is left as it was |
| `DeathTrackerPlugin.DeathTracker.CmdLives` | DeathTracker.cs:62-67 | replies `LivesOf` for the player, the full allowance for an unknown id, and changes nothing |
| `DeathTrackerPlugin.DeathTracker.CmdDeaths` | DeathTracker.cs:71-76 | replies the stored count, or 0 for an unknown id, and changes nothing |
| `DeathTrackerPlugin.DeathTracker.CmdBanList` | DeathTracker.cs:80-95 | prints nothing for a client below level 2; prints the "no bans" line for an empty list; otherwise prints the header followed by every id in stored order, duplicates included |
| `DeathTrackerPlugin.DeathTracker.CmdWipeBanList` | DeathTracker.cs:99-104 | an authorised caller empties the ban list and gets the wiped line; an unauthorised one changes nothing; counts and store are untouched either way |
| `DeathTrackerPlugin.DeathTracker.CmdUnbanPlayer` | DeathTracker.cs:108-128 | unauthorised: nothing; no argument: the usage line and no change; a listed id loses its first occurrence only, and "unbanned" is printed; an unlisted id leaves the list unchanged and "not banned" is printed; counts and store are untouched |
| `DeathTrackerPlugin.DeathTracker.CanUserLogin` | DeathTracker.cs:131-138 | rejects with the ban message if and only if the id is on the ban list, and allows otherwise |
| `DeathTrackerPlugin.DeathTracker.CmdResetDeaths` | DeathTracker.cs:170-175 | an authorised caller empties the death counts; an unauthorised one changes nothing; the ban list and store are untouched |
| `DeathTrackerPlugin.DeathTracker.OnEconomicsDataWiped` | DeathTracker.cs:178-182 | the death counts are emptied whoever calls; the ban list and store are untouched |

## Left out

- Reading and writing the data files and the configuration file (lines 143-158) goes through host library calls. The model does not show them. The stored data is a constructor parameter, and a write is a copy into the ghost snapshot. Serialisation and its round trip are not modelled.
- The economics plugin's `Withdraw` call (line 44) is foreign code. Its outcome is a parameter, and the call is shown as a `Withdraw` action. An exception thrown inside the economics plugin itself is not modelled; only the null plugin reference is.
- The host's own ban state is not tracked. The death handler's `Ban` action (line 51) bans the player at host level, and `unbanplayer` (lines 108-128) does not undo it. After an unban the model only says that the plugin's login hook no longer rejects the player; the host may still refuse them.
- `PenaltyAmount` is a C# `double`. It is modelled as a `real` that is only forwarded; no floating-point formatting is modelled.
- Player messages with numbers (lines 46, 66, 75) are returned as `Notice` values carrying the number. C#'s number-to-text formatting is not modelled.
- `player.Ban`, `player.Kick`, `player.Message` and `Puts` are host effects. They are returned as actions or console lines.
- Registering the `deathtracker.morelives` permission (line 22) is host plumbing and is left out. It has no effect on the model: the permission is never checked.
- The `entity is IPlayer` test (line 34) is left out: the death handler takes the dead player's id directly.
- A null `arg.Args` array in `unbanplayer` (line 112) is not modelled. The arguments are always a sequence, possibly empty.
- Handler parameters the code never reads are dropped: the death's `HitInfo` and the chat commands' name and arguments. The login hook keeps its unused `name`.
- The host delivers events one at a time. The model has no concurrency.
