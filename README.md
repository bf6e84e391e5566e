# ioq3-burek game and client core, modelled in Dafny

This project models three parts of the ioq3-burek game code, a C++ rework of
the ioquake3 engine's game modules.

**World** (`world.dfy`, module `World`) is the entity table of `GameWorld`.
`gEntities` is an array of `MAX_GENTITIES` (1024) optional entities. The
engine-side `g_entities[].inuse` flags are a second, read-only array. The
pool allocator hands out the lowest slot at or above `MAX_CLIENTS` (64) that
is free in both tables; if there is none it reaches `engine->Error`. The
indexed allocator installs an entity at a given slot, and refuses an
occupied slot with an error (debug builds) or a log line (release builds).
`KeyValueLibrary::operator[]` is a map lookup that inserts an empty value for
a missing key.

**Player** (`player.dfy`, module `Player`) is `BasePlayer`.
- `AddEvent` stores an event code together with a 2-bit sequence counter.
  Player states that have a client store it in the client's player state, the
  others in the entity state.
- `StopFollowing` returns a following spectator to free spectating on their
  own view.
- `FollowCycle` counts a tournament loss and makes the player a spectator.
  It then either toggles between the two automatic follow modes or walks the
  ring of client slots to the next connected non-spectator. `gclient_t` and
  `level` are values; `BasePlayer` is a class whose fields the methods update.
  The do-while loop of `FollowCycle` as written is the method `ScanRing`. It
  is proved against the specification function `FollowScan`, which is defined
  by walking the ring (`Walk`). The loop never ends for a stale target with
  nobody to follow (see "## Findings"), so `FollowCycle` uses the corrected
  one-lap scan `ScanLap`. `ScanLap` meets the same specification and stops
  exactly where the loop as written stops for every target inside the ring.
  The scan reads `level.clients` with the player's own entry replaced by the
  player's client record as updated so far (`SeenBy`), because in the source
  that entry is the record itself.

**CGame** (`client.dfy`, module `CGame`) is the client-game object `Client`.
- `GetCurrentWeapon` is a guarded table lookup.
- `Update` dispatches the pressed buttons to the current weapon's handlers in
  a fixed order.
- `ExecuteWeaponEvent` dispatches an event id to exactly one handler.
- `IsLocalClient` is the local-player test.
- `RegisterModelConfigData` loads a model's animations into the `anims` table.
- The `.mcfg` and `.mus` names are derived from an asset name by
  `substr(0, size() - 4) + ext`. The model includes the unsigned wrap-around
  of `size() - 4` for names shorter than four characters.

Handler invocations are returned as values: the weapon a call goes to, and
the sequence of handlers called, or the single handler called.

## Model

| member | source | states |
|---|---|---|
| World.FirstFreeSlot | code/game/Game/GameWorld.hpp:76-86 | the slot found is at or above the start, free in both tables, and the lowest such; None means no free slot is left |
| World.PoolFillsInOrder | code/game/Game/GameWorld.hpp:76-89 | starting from an empty pool, the k-th allocation gets slot MAX_CLIENTS + k; once the pool is full, allocation fails |
| World.GameWorld.CreateEntity | code/game/Game/GameWorld.hpp:73-90 | installs the entity, stamped with its index, in exactly the first slot free in both tables and returns that slot; with none, fails with CapacityExceeded and leaves the table unchanged; keeps every stored index equal to its slot |
| World.GameWorld.CreateEntityAt | code/game/Game/GameWorld.hpp:92-110 | an occupied slot is refused (fatal in debug builds, logged otherwise) and nothing changes; otherwise exactly that slot receives the entity with index and state number set to the slot |
| World.KeyValueLibrary.Subscript | code/game/Game/GameWorld.hpp:28-31 | afterwards the key is present and the value returned is its value; an existing key leaves the map as it was; a new key gets "" and nothing else changes |
| Player.EventSequence | code/game/Entities/BasePlayer.cpp:80 | the counter held in the EV_EVENT_BITS of a word is one of 0..3 |
| Player.NextEventBits | code/game/Entities/BasePlayer.cpp:80-81 | the new bits lie inside EV_EVENT_BITS and hold the old counter plus one, modulo four |
| Player.StampEvent | code/game/Entities/BasePlayer.cpp:80-82 | outside the counter bits the stored word is exactly the event code; for a code that leaves the counter bits clear, the counter advances by one modulo four |
| Player.StampAllCycles | code/game/Entities/BasePlayer.cpp:67-96 | after n events the counter has advanced by n modulo four, and only the latest event code is left in the word |
| Player.FourEventsRestoreSequence | code/game/Entities/BasePlayer.cpp:80-91 | four events bring the counter back to its starting value |
| Player.BasePlayer.AddEvent | code/game/Entities/BasePlayer.cpp:67-96 | a zero event only warns and changes nothing; otherwise the stamped event, its parameter and the level time go into the player state when there is a client, or event and parameter go into the entity state when there is none; the event time becomes the level time; nothing else changes |
| Player.ClearBits | code/game/Entities/BasePlayer.cpp:103-104 | the flags of the mask are cleared and every other flag is kept |
| Player.StopFollowingState | code/game/Entities/BasePlayer.cpp:98-114 | both team fields become spectator and the state becomes free spectating; PMF_FOLLOW is cleared; the client number becomes the player's own entity; health of 0 or below becomes 1 and positive health is kept; everything else is unchanged |
| Player.BasePlayer.StopFollowing | code/game/Entities/BasePlayer.cpp:98-114 | the client becomes StopFollowingState; SVF_BOT is cleared; the entity state takes the client's view angles; the other fields are unchanged |
| Player.Step | code/game/Entities/BasePlayer.cpp:159-168 | one step of the scan lands inside [0, maxclients), whatever the number it starts from |
| Player.StepIsNeighbour | code/game/Entities/BasePlayer.cpp:159-168 | from a slot of the ring a step moves to the neighbouring slot modulo maxclients; from a stale number at or above maxclients it lands on 0, or on maxclients - 1 when stepping back from maxclients itself |
| Player.Walk | code/game/Entities/BasePlayer.cpp:157-168 | every client number the scan reaches after at least one step is inside [0, maxclients) |
| Player.WalkShift | code/game/Entities/BasePlayer.cpp:157-168 | a walk of k + 1 steps is the first step followed by a walk of k steps |
| Player.WalkCoversFromAny | code/game/Entities/BasePlayer.cpp:157-186 | steps 1 to maxclients reach every client number, whatever the start, stale numbers included |
| Player.WalkOffset | code/game/Entities/BasePlayer.cpp:159-168 | within one lap, the client reached after k steps is start ± k, wrapped around the ring |
| Player.WalkReturnsAfterLap | code/game/Entities/BasePlayer.cpp:157-186 | the walk comes back to the original client after exactly maxclients steps and not sooner, which is what ends the do-while |
| Player.WalkCovers | code/game/Entities/BasePlayer.cpp:157-186 | one lap reaches every client number |
| Player.ScanFrom | code/game/Entities/BasePlayer.cpp:157-186 | a hit is the first followable (connected, non-spectator) client from step k on; a miss means no client from step k to the end of the lap is followable |
| Player.ScanFromFirst | code/game/Entities/BasePlayer.cpp:157-186 | if no client before step k is followable, the scan result is the client at step k when that client is followable, and None when it is not and k ends the lap |
| Player.FollowScan | code/game/Entities/BasePlayer.cpp:157-188 | the client the loop stops at, if any, is in range and followable; with none, no client met in the lap is followable |
| Player.FollowScanNoneIff | code/game/Entities/BasePlayer.cpp:157-188 | the scan finds nobody exactly when no client is followable |
| Player.ScanReachesOther | code/game/Entities/BasePlayer.cpp:154-186 | when the only followable clients are the start and one other, the scan stops at the other |
| Player.CycleForthAndBack | code/game/Entities/BasePlayer.cpp:154-186 | with exactly two followable clients, cycling forward from one reaches the other and cycling back returns |
| Player.ScanRing | code/game/Entities/BasePlayer.cpp:154-188 | the do-while loop as written, for a target inside the ring, returns exactly the specified scan result |
| Player.StaleTargetNeverExits | code/game/Entities/BasePlayer.cpp:157-186 | from a target at or above maxclients with nobody followable, every step of the loop as written fails both the followable test and the exit test, so the loop never ends |
| Player.ScanLap | code/game/Entities/BasePlayer.cpp:154-188 | the corrected scan, at most one lap from any target, returns exactly the specified scan result |
| Player.CountLoss | code/game/Entities/BasePlayer.cpp:121-126 | losses grow by one exactly for a free-team player in a tournament; nothing else changes |
| Player.BeforeScan | code/game/Entities/BasePlayer.cpp:121-132 | a player not yet spectating is sent to SetTeam after the loss is counted; any other player only has the loss counted and keeps their spectator state |
| Player.SeenBy | code/game/Entities/BasePlayer.cpp:171-180 | the level the scan reads has the player's own entry replaced by their client record, and every other entry, the time and maxclients unchanged |
| Player.Retarget | code/game/Entities/BasePlayer.cpp:138-188 | -1 and -2 swap; other negative targets stay; with nobody followable the client is unchanged; otherwise the new target is the client FollowScan stops at (the first followable one of the walk), in range, the state becomes following, and nothing else changes |
| Player.SpectatorNeverFollowsSelf | code/game/Entities/BasePlayer.cpp:171-183 | a spectator whose own entry is in the scanned table is never retargeted to themselves |
| Player.BasePlayer.FollowCycle | code/game/Entities/BasePlayer.cpp:116-189 | the loss is counted and SetTeam is applied first; a direction other than ±1 ends in BadDirection after those steps; otherwise the client is retargeted as Retarget states over the level with the player's own entry as updated; the entity number is kept, and when SetTeam is not called the entity fields (flags, angles, event, event time) are unchanged |
| CGame.GetCurrentWeapon | code/cgame/Client.cpp:71-81 | a weapon number outside [0, MAX_WEAPONS) gives no weapon; an in-range number gives exactly that table entry |
| CGame.FiredPrefix | code/cgame/Client.cpp:34-47 | going through the first n handlers invokes at most n of them, and none without a current weapon |
| CGame.FiredPrefixMembers | code/cgame/Client.cpp:34-47 | going through the first n handlers invokes exactly the pressed ones of rank below n |
| CGame.FiredPrefixOrdered | code/cgame/Client.cpp:34-47 | the handlers invoked in the first n checks have ranks below n, in strictly increasing order, so none is invoked twice |
| CGame.FiredPrefixComplete | code/cgame/Client.cpp:34-47 | going through all four handlers invokes exactly the firing handlers, in strictly increasing rank |
| CGame.InvokePressed | code/cgame/Client.cpp:34-47 | the four guarded calls on a present weapon produce the specified prefix of fired handlers |
| CGame.Update | code/cgame/Client.cpp:28-48 | the target is the current weapon; with none, nothing is called; a handler is called exactly when the weapon is present and its button bit is set; calls happen once each in the order primary, secondary, tertiary, reload |
| CGame.ExecuteWeaponEvent | code/cgame/Client.cpp:189-206 | without a weapon there, nothing happens; with one, the current player becomes the local client and the handler called is the unique one whose event id is the given id, or none when no handler has that id |
| CGame.IsLocalClient | code/cgame/Client.cpp:175-184 | true exactly for an entity that is present, of player type, and has the local client number |
| CGame.SizeMinus | code/cgame/Client.cpp:110 | `a - b` in size_type: the result is below 2^64 and adding `b` back gives `a` modulo 2^64 |
| CGame.Prefix | code/cgame/Client.cpp:110 | `substr(0, count)` is a prefix of the string, `count` characters long or the whole string when it is shorter |
| CGame.ReplaceExtension | code/cgame/Client.cpp:110-111 | the derived name is a prefix of the name followed by the extension |
| CGame.ConfigName | code/cgame/Client.cpp:109-111 | the config file name ends in ".mcfg", after a prefix of the model name |
| CGame.MusicName | code/cgame/Client.cpp:213-216 | the music file name ends in ".mus", after a prefix of the map name |
| CGame.ReplaceExtensionDropsFour | code/cgame/Client.cpp:110-111 | a name of four or more characters loses its last four; a shorter name is kept whole (the unsigned count wraps), then the extension is appended |
| CGame.ConfigNameOfModel | code/cgame/Client.cpp:109-111 | a model named base plus a four-character extension gets the config file base + ".mcfg" |
| CGame.MusicNameOfMap | code/cgame/Client.cpp:213-216 | the map base + ".bsp" plays the music file base + ".mus" |
| CGame.Client.RegisterModelConfigData | code/cgame/Client.cpp:95-120 | a null name and an out-of-range id are reported and change nothing; a config file that does not open leaves the table alone; otherwise exactly anims[id] receives the animations of the derived config file |

## Findings

| source | as written | input that shows it | evidently intended | confidence | as-written member | corrected member |
|---|---|---|---|---|---|---|
| code/game/Entities/BasePlayer.cpp:157-186 | the do-while stops only at a followable client or when `clientnum` is back at `original` | `level.maxclients == 2`, `spectatorClient == 2` (a stale target), nobody followable: the caller's slot holds a connected spectator and the other slot is disconnected; every step lands on 0 or 1, never 2, so the loop never ends | one lap of the ring and then "leave it where it was", as for a target inside the ring | low, not executed | Player.StaleTargetNeverExits | Player.ScanLap |

## Left out

- Player.ScanRing: requires a target below `level.maxclients`. From a larger target the first step lands inside the ring, so every read of `level.clients` is in range. The loop then stops at the first followable client, but when nobody is followable it never ends (`Player.StaleTargetNeverExits`, "## Findings"). FollowCycle uses the corrected `Player.ScanLap`, which gives up after one lap.
- Player.BasePlayer.FollowCycle: requires a client, because the source dereferences `client` without a check (BasePlayer.cpp line 123). It also requires `1 <= level.maxclients <= |level.clients|` and that the player's own entry of `level.clients` is their client record, which the source guarantees by aliasing.
- Player.BasePlayer.FollowCycle: `SetTeam` is not part of this model. It appears as a function parameter applied to the client record. On the path that calls it, the model promises nothing about the player's own entity fields (`svFlags`, `s.angles`, `s.event`, `s.eventParm`, the event time), which SetTeam may change; what it does to them is not modelled, and neither are its effects on other entities. `level` is an input value: the scan sees the player's updated own entry, but the updated level is not returned. `G_Error` is modelled as the `BadDirection` outcome; the halt of the game itself is not modelled.
- Player.BasePlayer.StopFollowing: requires a client, because the source dereferences `client` without a check. Of `SetClientViewAngle` only the angle copies are modelled. The `delta_angles` update, which converts floats with `ANGLE2SHORT`, is left out.
- Player.BasePlayer.AddEvent: the `G_Printf` warning is the `warned` result. Event words are 32-bit words (bv32), as the C `int` bit operations act on them.
- World.GameWorld.CreateEntityAt: requires `index < MAX_GENTITIES`. The source takes any `uint16_t` and indexes the table without a bounds check.
- World.GameWorld.CreateEntity: constructing the entity (`new entityType()`) is an input value here. `engine->Error` is modelled as the `CapacityExceeded` result. Releasing entities and `Shutdown` are not in the modelled source.
- World.KeyValueLibrary.Subscript: returns the value, not a reference into the map, so a later write through the reference is not modelled.
- CGame.ExecuteWeaponEvent: requires the entity's weapon number in `[0, MAX_WEAPONS)`, because the source indexes `gWeapons` without a check. The handler bodies are not part of this model: weapons are identities and calls are returned as values. The `EV_WEAPON_*` ids are a parameter that must be pairwise distinct, as case labels of one switch are.
- CGame.Update: the `Interaction_*` button masks are a parameter. The handler bodies are not modelled.
- CGame.ReplaceExtensionDropsFour: counts characters, where `std::string::size()` at Client.cpp lines 110 and 215 counts bytes. The model covers names whose characters are one byte each (ASCII). For a name with multi-byte UTF-8 characters the source drops four bytes, so it can keep or drop a different part of the name than the model, or split a character. `CGame.ReplaceExtension`, `CGame.ConfigName`, `CGame.MusicName` and `CGame.ConfigNameOfModel` share this restriction.
- CGame.Client.RegisterModelConfigData: `Util::FileOpen` and `Assets::ModelConfigData::GetAnimations` are function parameters. `Util::PrintError` is the returned error. The file handle that is opened is not modelled.
- `InitDynamicMusic` is modelled only by its file-name rule (`CGame.MusicName`). The call into the music system (`trap_DM_Init`) is engine I/O.
- `GetAnimationsForModel`, `Time`, `GetUsercmd`, `IsPaused`, `GetView`, `GetEventHandler`, `ParseComplexEvent`, `PreReload`, `PostReload` and `UpdateDynamicMusic` are accessors or engine calls outside the modelled core. The same holds for `BasePlayer::Spawn` and `CopyToBodyQue`, the client accessors, the declared-only members of `GameWorld` and `KeyValueLibrary`, and `Events/Explosion.cpp`.
- The constant values `MAX_CLIENTS`, `MAX_GENTITIES`, `MAX_WEAPONS`, `MAX_MODELS`, `ET_PLAYER`, `EV_EVENT_BIT1`, `EV_EVENT_BITS`, `PMF_FOLLOW`, `SVF_BOT` and `GT_TOURNAMENT` are the ioquake3 values. Their headers are not part of this model.
