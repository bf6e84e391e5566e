/** The player-side state machine of BasePlayer (BasePlayer.cpp): event
    emission with a cyclic sequence counter, leaving follow mode, and cycling
    the followed client. */
module Player {
  import opened Wrappers

  /** The lowest bit of the 2-bit event sequence counter (ioquake3 values). */
  const EV_EVENT_BIT1: bv32 := 0x100
  /** Both bits of the event sequence counter. */
  const EV_EVENT_BITS: bv32 := 0x300
  /** pm_flags bit set while following another client. */
  const PMF_FOLLOW: bv32 := 0x1000
  /** svFlags bit marking a bot. */
  const SVF_BOT: bv32 := 0x8
  /** g_gametype value of a tournament. */
  const GT_TOURNAMENT: int := 1

  datatype Team = TeamFree | TeamRed | TeamBlue | TeamSpectator
  datatype SpectatorState = SpectatorNot | SpectatorFree | SpectatorFollow | SpectatorScoreboard
  datatype Connection = Disconnected | Connecting | Connected

  /** View angles; the model copies them and never computes on them. */
  datatype Angles = Angles(pitch: real, yaw: real, roll: real)

  /** The fields of playerState_t the player code touches. `persistantTeam`
      is persistant[PERS_TEAM] and `health` is stats[STAT_HEALTH]. */
  datatype PlayerState = PlayerState(
    externalEvent: bv32,
    externalEventParm: int,
    externalEventTime: int,
    persistantTeam: Team,
    pmFlags: bv32,
    clientNum: int,
    health: int,
    viewAngles: Angles)

  datatype ClientPersistant = ClientPersistant(connected: Connection)

  datatype ClientSession = ClientSession(
    sessionTeam: Team,
    spectatorState: SpectatorState,
    spectatorClient: int,
    losses: int)

  /** gclient_t, as far as the player code reads and writes it. */
  datatype GClient = GClient(ps: PlayerState, pers: ClientPersistant, sess: ClientSession)

  /** The part of level_locals_t the player code reads. */
  datatype Level = Level(time: int, maxclients: int, clients: seq<GClient>)

  /** What FollowCycle ends with: normally, or at G_Error for a bad direction. */
  datatype CycleOutcome = Cycled | BadDirection(dir: int)

  // ---------------------------------------------------------------------------
  // Event sequence counter

  /** The 2-bit sequence counter packed in an event word, as a number 0..3. */
  function EventSequence(word: bv32): (n: nat)
    ensures n < 4
  {
    ((word & EV_EVENT_BITS) >> 8) as nat
  }

  /** The sequence bits AddEvent stores beside a new event code: the old
      counter advanced by one, modulo four, and no other bit. */
  function NextEventBits(word: bv32): (bits: bv32)
    ensures bits & !EV_EVENT_BITS == 0
    ensures EventSequence(bits) == (EventSequence(word) + 1) % 4
  {
    ((word & EV_EVENT_BITS) + EV_EVENT_BIT1) & EV_EVENT_BITS
  }

  /** `flags` with the bits of `mask` cleared and every other bit kept. */
  function ClearBits(flags: bv32, mask: bv32): (r: bv32)
    ensures r & mask == 0
    ensures r | mask == flags | mask
  {
    flags & !mask
  }

  /** The event word AddEvent stores: the event code with the advanced counter.
      Outside the counter bits it is exactly the event code. */
  function StampEvent(word: bv32, event: bv32): (w: bv32)
    ensures w & !EV_EVENT_BITS == event & !EV_EVENT_BITS
    ensures event & EV_EVENT_BITS == 0 ==> EventSequence(w) == (EventSequence(word) + 1) % 4
  {
    event | NextEventBits(word)
  }

  /** Event codes never use the counter bits. */
  predicate PlainEventCode(event: bv32)
  {
    event & EV_EVENT_BITS == 0
  }

  /** The event word after raising `events` in order on a word that was `word`. */
  function StampAll(word: bv32, events: seq<bv32>): bv32
  {
    if events == [] then word else StampEvent(StampAll(word, events[..|events| - 1]), events[|events| - 1])
  }

  /** Raising n events advances the counter by n modulo four, and only the
      latest event code survives in the word. */
  lemma {:induction false} StampAllCycles(word: bv32, events: seq<bv32>)
    requires forall i :: 0 <= i < |events| ==> PlainEventCode(events[i])
    ensures EventSequence(StampAll(word, events)) == (EventSequence(word) + |events|) % 4
    ensures events != [] ==> StampAll(word, events) & !EV_EVENT_BITS == events[|events| - 1]
  {
    if events != [] {
      var prefix := events[..|events| - 1];
      StampAllCycles(word, prefix);
    }
  }

  /** Four events bring the counter back to where it was. */
  lemma FourEventsRestoreSequence(word: bv32, a: bv32, b: bv32, c: bv32, d: bv32)
    requires PlainEventCode(a) && PlainEventCode(b) && PlainEventCode(c) && PlainEventCode(d)
    ensures EventSequence(StampAll(word, [a, b, c, d])) == EventSequence(word)
  {
    StampAllCycles(word, [a, b, c, d]);
  }

  // ---------------------------------------------------------------------------
  // Leaving follow mode

  /** The client record after StopFollowing on the player with entity index
      `ownIndex`. */
  function StopFollowingState(c: GClient, ownIndex: int): (r: GClient)
    ensures r.ps.persistantTeam == TeamSpectator && r.sess.sessionTeam == TeamSpectator
    ensures r.sess.spectatorState == SpectatorFree
    ensures r.ps.pmFlags == ClearBits(c.ps.pmFlags, PMF_FOLLOW)
    ensures r.ps.clientNum == ownIndex
    ensures r.ps.health >= 1
    ensures c.ps.health > 0 ==> r.ps.health == c.ps.health
    ensures c.ps.health <= 0 ==> r.ps.health == 1
    ensures r.pers == c.pers
    ensures r.sess.spectatorClient == c.sess.spectatorClient && r.sess.losses == c.sess.losses
    ensures r.ps.viewAngles == c.ps.viewAngles
    ensures r.ps.externalEvent == c.ps.externalEvent && r.ps.externalEventParm == c.ps.externalEventParm
    ensures r.ps.externalEventTime == c.ps.externalEventTime
  {
    var ps := c.ps.(persistantTeam := TeamSpectator, pmFlags := ClearBits(c.ps.pmFlags, PMF_FOLLOW), clientNum := ownIndex);
    var sess := c.sess.(sessionTeam := TeamSpectator, spectatorState := SpectatorFree);
    // a dead player is revived to health 1 on leaving the follow view
    var health := if ps.health <= 0 then 1 else ps.health;
    c.(ps := ps.(health := health), sess := sess)
  }

  // ---------------------------------------------------------------------------
  // Cycling the followed client

  /** A client that can be followed: connected and not itself a spectator. */
  predicate Followable(clients: seq<GClient>, c: int)
    requires 0 <= c < |clients|
  {
    clients[c].pers.connected == Connected && clients[c].sess.sessionTeam != TeamSpectator
  }

  /** One step of the follow scan: move by `dir`, wrapping around [0, maxclients). */
  function Step(c: int, dir: int, maxclients: int): (n: int)
    requires 0 <= c && 1 <= maxclients
    requires dir == 1 || dir == -1
    ensures 0 <= n < maxclients
  {
    var n := c + dir;
    var n := if n >= maxclients then 0 else n;
    if n < 0 then maxclients - 1 else n
  }

  /** From a slot of the ring a step is the neighbouring slot modulo
      maxclients; from a stale number at or above maxclients it lands on 0,
      or on maxclients - 1 when stepping back from maxclients itself. */
  lemma StepIsNeighbour(c: int, dir: int, maxclients: int)
    requires 0 <= c && 1 <= maxclients
    requires dir == 1 || dir == -1
    ensures c < maxclients ==> Step(c, dir, maxclients) == (c + dir) % maxclients
    ensures c >= maxclients ==>
              Step(c, dir, maxclients) == if dir == -1 && c == maxclients then maxclients - 1 else 0
  {
    if c < maxclients && c + dir == maxclients {
      assert (c + dir) % maxclients == 0;
    } else if c < maxclients && c + dir == -1 {
      assert (c + dir) % maxclients == maxclients - 1;
    }
  }

  /** The client number the scan reaches after `k` steps from `start`. */
  function Walk(start: int, dir: int, maxclients: int, k: nat): (c: int)
    requires 0 <= start && 1 <= maxclients
    requires dir == 1 || dir == -1
    ensures 0 <= c
    ensures (k >= 1 || start < maxclients) ==> c < maxclients
  {
    if k == 0 then start else Step(Walk(start, dir, maxclients, k - 1), dir, maxclients)
  }

  /** Within one lap the walk is a plain offset from `start`, with wraparound. */
  lemma {:induction false} WalkOffset(start: int, dir: int, maxclients: int, k: nat)
    requires 0 <= start < maxclients
    requires dir == 1 || dir == -1
    requires k <= maxclients
    ensures dir == 1 ==>
      Walk(start, dir, maxclients, k) == if start + k < maxclients then start + k else start + k - maxclients
    ensures dir == -1 ==>
      Walk(start, dir, maxclients, k) == if start - k >= 0 then start - k else start - k + maxclients
  {
    if k > 0 {
      WalkOffset(start, dir, maxclients, k - 1);
    }
  }

  /** The walk is back at `start` after exactly one full lap and not before. */
  lemma WalkReturnsAfterLap(start: int, dir: int, maxclients: int, k: nat)
    requires 0 <= start < maxclients
    requires dir == 1 || dir == -1
    requires 1 <= k <= maxclients
    ensures Walk(start, dir, maxclients, k) == start <==> k == maxclients
  {
    WalkOffset(start, dir, maxclients, k);
  }

  /** One lap visits every client number. */
  lemma WalkCovers(start: int, dir: int, maxclients: int, t: int) returns (k: nat)
    requires 0 <= start < maxclients
    requires dir == 1 || dir == -1
    requires 0 <= t < maxclients
    ensures 1 <= k <= maxclients && Walk(start, dir, maxclients, k) == t
  {
    if dir == 1 {
      k := if t > start then t - start else t - start + maxclients;
    } else {
      k := if t < start then start - t else start - t + maxclients;
    }
    WalkOffset(start, dir, maxclients, k);
  }

  /** A walk of k + 1 steps is its first step followed by a walk of k steps. */
  lemma {:induction false} WalkShift(start: int, dir: int, maxclients: int, k: nat)
    requires 0 <= start && 1 <= maxclients
    requires dir == 1 || dir == -1
    ensures Walk(start, dir, maxclients, k + 1) == Walk(Step(start, dir, maxclients), dir, maxclients, k)
  {
    if k > 0 {
      WalkShift(start, dir, maxclients, k - 1);
    }
  }

  /** Steps 1 to maxclients visit every client number, whatever the start,
      stale numbers at or above maxclients included. */
  lemma WalkCoversFromAny(start: int, dir: int, maxclients: int, t: int) returns (k: nat)
    requires 0 <= start && 1 <= maxclients
    requires dir == 1 || dir == -1
    requires 0 <= t < maxclients
    ensures 1 <= k <= maxclients && Walk(start, dir, maxclients, k) == t
  {
    var first := Step(start, dir, maxclients);
    var k' := WalkCovers(first, dir, maxclients, t);
    if k' == maxclients {
      WalkReturnsAfterLap(first, dir, maxclients, k');
      k := 1;
    } else {
      WalkShift(start, dir, maxclients, k');
      k := k' + 1;
    }
  }

  /** The first followable client met from step k to step maxclients of the walk. */
  function ScanFrom(clients: seq<GClient>, maxclients: int, dir: int, start: int, k: nat): (r: Option<nat>)
    requires 0 <= start && 1 <= maxclients <= |clients|
    requires dir == 1 || dir == -1
    requires 1 <= k <= maxclients
    decreases maxclients - k
    ensures r.Some? ==> r.value < maxclients && Followable(clients, r.value)
    ensures r.Some? ==> exists n :: k <= n <= maxclients && Walk(start, dir, maxclients, n) == r.value &&
                          forall j :: k <= j < n ==> !Followable(clients, Walk(start, dir, maxclients, j))
    ensures r.None? ==> forall j :: k <= j <= maxclients ==> !Followable(clients, Walk(start, dir, maxclients, j))
  {
    var c := Walk(start, dir, maxclients, k);
    if Followable(clients, c) then Some(c)
    else if k == maxclients then None
    else ScanFrom(clients, maxclients, dir, start, k + 1)
  }

  /** The client FollowCycle moves to from `start`, if any: the first
      followable client met in one lap stepping by `dir`, `start` itself
      tried last. */
  function FollowScan(clients: seq<GClient>, maxclients: int, dir: int, start: int): (r: Option<nat>)
    requires 0 <= start && 1 <= maxclients <= |clients|
    requires dir == 1 || dir == -1
    ensures r.Some? ==> r.value < maxclients && Followable(clients, r.value)
    ensures r.None? ==> forall j :: 1 <= j <= maxclients ==> !Followable(clients, Walk(start, dir, maxclients, j))
  {
    ScanFrom(clients, maxclients, dir, start, 1)
  }

  /** The scan finds a client exactly when some client is followable. */
  lemma FollowScanNoneIff(clients: seq<GClient>, maxclients: int, dir: int, start: int)
    requires 0 <= start && 1 <= maxclients <= |clients|
    requires dir == 1 || dir == -1
    ensures FollowScan(clients, maxclients, dir, start).None? <==>
            forall t :: 0 <= t < maxclients ==> !Followable(clients, t)
  {
    if FollowScan(clients, maxclients, dir, start).None? {
      forall t | 0 <= t < maxclients
        ensures !Followable(clients, t)
      {
        var k := WalkCoversFromAny(start, dir, maxclients, t);
      }
    }
  }

  /** With exactly two followable clients a and b, cycling forward from a
      reaches b and cycling back from b returns to a. */
  lemma CycleForthAndBack(clients: seq<GClient>, maxclients: int, a: int, b: int)
    requires 0 <= a < maxclients <= |clients| && 0 <= b < maxclients && a != b
    requires forall t :: 0 <= t < maxclients ==> (Followable(clients, t) <==> t == a || t == b)
    ensures FollowScan(clients, maxclients, 1, a) == Some(b)
    ensures FollowScan(clients, maxclients, -1, b) == Some(a)
  {
    ScanReachesOther(clients, maxclients, 1, a, b);
    ScanReachesOther(clients, maxclients, -1, b, a);
  }

  /** When the only followable clients are `start` and `other`, the scan from
      `start` stops at `other`. */
  lemma ScanReachesOther(clients: seq<GClient>, maxclients: int, dir: int, start: int, other: int)
    requires 0 <= start < maxclients <= |clients| && 0 <= other < maxclients && start != other
    requires dir == 1 || dir == -1
    requires forall t :: 0 <= t < maxclients ==> (Followable(clients, t) <==> t == start || t == other)
    ensures FollowScan(clients, maxclients, dir, start) == Some(other)
  {
    FollowScanNoneIff(clients, maxclients, dir, start);
    assert Followable(clients, other);
    var r := FollowScan(clients, maxclients, dir, start);
    var n :| 1 <= n <= maxclients && Walk(start, dir, maxclients, n) == r.value &&
             forall j :: 1 <= j < n ==> !Followable(clients, Walk(start, dir, maxclients, j));
    if r.value == start {
      WalkReturnsAfterLap(start, dir, maxclients, n);
      var m := WalkCovers(start, dir, maxclients, other);
      WalkReturnsAfterLap(start, dir, maxclients, m);
      assert false;
    }
  }

  /** The loss FollowCycle records: one more exactly when a tournament player
      on the free team starts following. */
  function CountLoss(c: GClient, gametype: int): (r: GClient)
    ensures r.sess.losses == c.sess.losses + (if gametype == GT_TOURNAMENT && c.sess.sessionTeam == TeamFree then 1 else 0)
    ensures r == c.(sess := c.sess.(losses := r.sess.losses))
  {
    if gametype == GT_TOURNAMENT && c.sess.sessionTeam == TeamFree
    then c.(sess := c.sess.(losses := c.sess.losses + 1))
    else c
  }

  /** The client after the first two steps of FollowCycle: the loss is
      counted, then a player not yet spectating is sent to SetTeam. Whether
      SetTeam runs depends on the spectator state before the loss count,
      which counting a loss does not touch. */
  function BeforeScan(c: GClient, gametype: int, setTeam: (GClient, string) -> GClient): (r: GClient)
    ensures c.sess.spectatorState == SpectatorNot ==> r == setTeam(CountLoss(c, gametype), "spectator")
    ensures c.sess.spectatorState != SpectatorNot ==>
              r == CountLoss(c, gametype) && r.sess.spectatorState == c.sess.spectatorState
  {
    var d := CountLoss(c, gametype);
    if d.sess.spectatorState == SpectatorNot then setTeam(d, "spectator") else d
  }

  /** The followed-client part of FollowCycle: toggling between the two
      automatic modes, or moving to the next followable client. */
  function Retarget(c: GClient, level: Level, dir: int): (r: GClient)
    requires dir == 1 || dir == -1
    requires c.sess.spectatorClient >= 0 ==> 1 <= level.maxclients <= |level.clients|
    ensures c.sess.spectatorClient == -1 ==> r == c.(sess := c.sess.(spectatorClient := -2))
    ensures c.sess.spectatorClient == -2 ==> r == c.(sess := c.sess.(spectatorClient := -1))
    ensures c.sess.spectatorClient < -2 ==> r == c
    ensures c.sess.spectatorClient >= 0 && (forall t :: 0 <= t < level.maxclients ==> !Followable(level.clients, t)) ==>
              r == c
    ensures c.sess.spectatorClient >= 0 && (exists t :: 0 <= t < level.maxclients && Followable(level.clients, t)) ==>
              && 0 <= r.sess.spectatorClient < level.maxclients
              && Followable(level.clients, r.sess.spectatorClient)
              && r.sess.spectatorState == SpectatorFollow
              && r == c.(sess := c.sess.(spectatorClient := r.sess.spectatorClient, spectatorState := SpectatorFollow))
    ensures c.sess.spectatorClient >= 0 ==>
              (FollowScan(level.clients, level.maxclients, dir, c.sess.spectatorClient).Some? ==>
                 r.sess.spectatorClient == FollowScan(level.clients, level.maxclients, dir, c.sess.spectatorClient).value)
  {
    var sc := c.sess.spectatorClient;
    if sc < 0 then
      if sc == -1 then c.(sess := c.sess.(spectatorClient := -2))
      else if sc == -2 then c.(sess := c.sess.(spectatorClient := -1))
      else c
    else
      FollowScanNoneIff(level.clients, level.maxclients, dir, sc);
      match FollowScan(level.clients, level.maxclients, dir, sc)
      case Some(t) => c.(sess := c.sess.(spectatorClient := t, spectatorState := SpectatorFollow))
      case None => c
  }

  /** A spectator whose own entry is in the scanned table never ends up
      following themselves: the scan only stops at non-spectators. */
  lemma SpectatorNeverFollowsSelf(c: GClient, level: Level, dir: int, own: int)
    requires dir == 1 || dir == -1
    requires c.sess.spectatorClient >= 0 && 1 <= level.maxclients <= |level.clients|
    requires 0 <= own < |level.clients| && level.clients[own] == c && c.sess.sessionTeam == TeamSpectator
    requires exists t :: 0 <= t < level.maxclients && Followable(level.clients, t)
    ensures Retarget(c, level, dir).sess.spectatorClient != own
  {
    var r := Retarget(c, level, dir);
    assert Followable(level.clients, r.sess.spectatorClient);
  }

  /** The scan result from step k0 is the first followable client at or after it. */
  lemma {:induction false} ScanFromFirst(clients: seq<GClient>, maxclients: int, dir: int, start: int, k0: nat, k: nat)
    requires 0 <= start && 1 <= maxclients <= |clients|
    requires dir == 1 || dir == -1
    requires 1 <= k0 <= k <= maxclients
    requires forall j :: k0 <= j < k ==> !Followable(clients, Walk(start, dir, maxclients, j))
    ensures Followable(clients, Walk(start, dir, maxclients, k)) ==>
              ScanFrom(clients, maxclients, dir, start, k0) == Some(Walk(start, dir, maxclients, k))
    ensures k == maxclients && !Followable(clients, Walk(start, dir, maxclients, k)) ==>
              ScanFrom(clients, maxclients, dir, start, k0) == None
    decreases k - k0
  {
    if k0 < k {
      ScanFromFirst(clients, maxclients, dir, start, k0 + 1, k);
    }
  }

  /** The do-while loop of FollowCycle as written: steps from `original` by
      `dir` with wraparound until it meets a followable client or is back at
      `original`. It ends only for a target inside the ring; see
      StaleTargetNeverExits for one outside it. */
  method ScanRing(level: Level, dir: int, original: int) returns (found: Option<nat>)
    requires 0 <= original < level.maxclients <= |level.clients|
    requires dir == 1 || dir == -1
    ensures found == FollowScan(level.clients, level.maxclients, dir, original)
  {
    var clientnum := original;
    ghost var k: nat := 0;
    while true
      invariant 0 <= k < level.maxclients
      invariant 0 <= clientnum < level.maxclients
      invariant clientnum == Walk(original, dir, level.maxclients, k)
      invariant forall j :: 1 <= j <= k ==> !Followable(level.clients, Walk(original, dir, level.maxclients, j))
      decreases level.maxclients - k
    {
      clientnum := clientnum + dir;
      if clientnum >= level.maxclients {
        clientnum := 0;
      }
      if clientnum < 0 {
        clientnum := level.maxclients - 1;
      }
      k := k + 1;
      // only a connected client that is not a spectator can be followed
      if level.clients[clientnum].pers.connected == Connected
          && level.clients[clientnum].sess.sessionTeam != TeamSpectator {
        assert FollowScan(level.clients, level.maxclients, dir, original) == Some(clientnum) by {
          ScanFromFirst(level.clients, level.maxclients, dir, original, 1, k);
        }
        return Some(clientnum);
      }
      WalkReturnsAfterLap(original, dir, level.maxclients, k);
      if clientnum == original {
        // a full lap without a hit: report None, the target stays
        assert FollowScan(level.clients, level.maxclients, dir, original) == None by {
          ScanFromFirst(level.clients, level.maxclients, dir, original, 1, k);
        }
        return None;
      }
    }
  }

  /** The loop as written, from a stale target at or above maxclients: every
      step lands inside the ring, so the exit test `clientnum != original`
      never fails. With no followable client the loop therefore never ends. */
  lemma StaleTargetNeverExits(clients: seq<GClient>, maxclients: int, dir: int, original: int, k: nat)
    requires 1 <= maxclients <= |clients| && original >= maxclients
    requires dir == 1 || dir == -1
    requires forall t :: 0 <= t < maxclients ==> !Followable(clients, t)
    requires k >= 1
    ensures var c := Walk(original, dir, maxclients, k); c != original && !Followable(clients, c)
  {
  }

  /** The scan of FollowCycle as intended: at most one lap of maxclients
      steps, whatever the target, then keep the old target. For a target
      inside the ring it stops exactly where the loop as written stops. */
  method ScanLap(level: Level, dir: int, original: int) returns (found: Option<nat>)
    requires 0 <= original && 1 <= level.maxclients <= |level.clients|
    requires dir == 1 || dir == -1
    ensures found == FollowScan(level.clients, level.maxclients, dir, original)
  {
    var clientnum := original;
    var steps := 0;
    while steps < level.maxclients
      invariant 0 <= steps <= level.maxclients
      invariant clientnum == Walk(original, dir, level.maxclients, steps)
      invariant forall j :: 1 <= j <= steps ==> !Followable(level.clients, Walk(original, dir, level.maxclients, j))
    {
      clientnum := clientnum + dir;
      if clientnum >= level.maxclients {
        clientnum := 0;
      }
      if clientnum < 0 {
        clientnum := level.maxclients - 1;
      }
      steps := steps + 1;
      if level.clients[clientnum].pers.connected == Connected
          && level.clients[clientnum].sess.sessionTeam != TeamSpectator {
        ScanFromFirst(level.clients, level.maxclients, dir, original, 1, steps);
        return Some(clientnum);
      }
    }
    ScanFromFirst(level.clients, level.maxclients, dir, original, 1, level.maxclients);
    return None;
  }

  // ---------------------------------------------------------------------------
  // The player entity

  /** The level as the scan of player `own` reads it: the player's own entry
      is their client record `c`. */
  function SeenBy(level: Level, own: int, c: GClient): (l: Level)
    requires 0 <= own < |level.clients|
    ensures l.time == level.time && l.maxclients == level.maxclients
    ensures |l.clients| == |level.clients| && l.clients[own] == c
    ensures forall t :: 0 <= t < |level.clients| && t != own ==> l.clients[t] == level.clients[t]
  {
    level.(clients := level.clients[own := c])
  }

  class BasePlayer {
    /** The gclient_t of a connected player; None for a player entity without one. */
    var client: Option<GClient>
    /** GetEntityIndex(). */
    var entityIndex: int
    /** shared.s.event, shared.s.eventParm and shared.s.angles. */
    var sEvent: bv32
    var sEventParm: int
    var sAngles: Angles
    /** GetShared()->svFlags. */
    var svFlags: bv32
    /** The time of the latest event. */
    var eventTime: int

    constructor (client: Option<GClient>, entityIndex: int)
      ensures this.client == client && this.entityIndex == entityIndex
      ensures sEvent == 0 && sEventParm == 0 && svFlags == 0 && eventTime == 0
    {
      this.client := client;
      this.entityIndex := entityIndex;
      sEvent, sEventParm, sAngles, svFlags, eventTime := 0, 0, Angles(0.0, 0.0, 0.0), 0, 0;
    }

    /** AddEvent: a zero event code only produces a warning (`warned`); any
        other code overwrites the single pending event, in the client's
        player state when there is a client and in the entity state otherwise. */
    method AddEvent(event: bv32, eventParameter: int, level: Level) returns (warned: bool)
      modifies this
      ensures warned == (event == 0)
      ensures event == 0 ==> unchanged(this)
      ensures event != 0 ==> eventTime == level.time
      ensures event != 0 ==> entityIndex == old(entityIndex) && sAngles == old(sAngles) && svFlags == old(svFlags)
      ensures event != 0 && old(client).Some? ==>
        && client == Some(old(client).value.(ps := old(client).value.ps.(
             externalEvent := StampEvent(old(client).value.ps.externalEvent, event),
             externalEventParm := eventParameter,
             externalEventTime := level.time)))
        && sEvent == old(sEvent) && sEventParm == old(sEventParm)
      ensures event != 0 && old(client).None? ==>
        && client == None
        && sEvent == StampEvent(old(sEvent), event) && sEventParm == eventParameter
    {
      if event == 0 {
        // G_Printf: zero event added for this entity
        return true;
      }
      warned := false;
      // clients need to add the event in their player state
      if client.Some? {
        var c := client.value;
        var bits := c.ps.externalEvent & EV_EVENT_BITS;
        bits := (bits + EV_EVENT_BIT1) & EV_EVENT_BITS;
        client := Some(c.(ps := c.ps.(externalEvent := event | bits, externalEventParm := eventParameter,
                                      externalEventTime := level.time)));
      } else {
        var bits := sEvent & EV_EVENT_BITS;
        bits := (bits + EV_EVENT_BIT1) & EV_EVENT_BITS;
        sEvent := event | bits;
        sEventParm := eventParameter;
      }
      eventTime := level.time;
    }

    /** StopFollowing: back to free spectating on the player's own view, bot
        flag cleared, and never with non-positive health. */
    method StopFollowing()
      requires client.Some?
      modifies this
      ensures client == Some(StopFollowingState(old(client).value, entityIndex))
      ensures svFlags == ClearBits(old(svFlags), SVF_BOT)
      ensures sAngles == old(client).value.ps.viewAngles
      ensures entityIndex == old(entityIndex) && eventTime == old(eventTime)
      ensures sEvent == old(sEvent) && sEventParm == old(sEventParm)
    {
      var c := client.value;
      c := c.(ps := c.ps.(persistantTeam := TeamSpectator));
      c := c.(sess := c.sess.(sessionTeam := TeamSpectator));
      c := c.(sess := c.sess.(spectatorState := SpectatorFree));
      c := c.(ps := c.ps.(pmFlags := ClearBits(c.ps.pmFlags, PMF_FOLLOW)));
      svFlags := ClearBits(svFlags, SVF_BOT);
      c := c.(ps := c.ps.(clientNum := entityIndex));
      // SetClientViewAngle(ps.viewangles): the entity state takes the view angles
      sAngles := c.ps.viewAngles;
      // a dead player is revived to health 1 on leaving the follow view
      if c.ps.health <= 0 {
        c := c.(ps := c.ps.(health := 1));
      }
      client := Some(c);
    }

    /** FollowCycle: counts a tournament loss, sends a player who is not yet
        spectating to SetTeam, stops at G_Error on a bad direction, and
        otherwise toggles the automatic follow mode or scans the ring of
        clients for the next one to follow. The player's own entry of
        `level.clients` is the client record itself, so the scan sees it as
        updated by the first two steps. SetTeam is a member of the player and
        may also change the player's entity fields, so those are promised
        unchanged only when SetTeam is not called. */
    method FollowCycle(dir: int, level: Level, gametype: int, setTeam: (GClient, string) -> GClient)
      returns (outcome: CycleOutcome)
      requires client.Some?
      requires 1 <= level.maxclients <= |level.clients|
      requires 0 <= entityIndex < |level.clients| && level.clients[entityIndex] == client.value
      modifies this
      ensures outcome == if dir == 1 || dir == -1 then Cycled else BadDirection(dir)
      ensures var c := BeforeScan(old(client).value, gametype, setTeam);
              client == Some(if outcome.Cycled? then Retarget(c, SeenBy(level, old(entityIndex), c), dir) else c)
      ensures entityIndex == old(entityIndex)
      ensures old(client).value.sess.spectatorState != SpectatorNot ==>
                && svFlags == old(svFlags) && sAngles == old(sAngles)
                && sEvent == old(sEvent) && sEventParm == old(sEventParm) && eventTime == old(eventTime)
    {
      var c := client.value;
      // CountLoss: a free-team player in a tournament loses one more game
      if gametype == GT_TOURNAMENT && c.sess.sessionTeam == TeamFree {
        c := c.(sess := c.sess.(losses := c.sess.losses + 1));
      }
      // a player still in play goes to the spectator team
      if c.sess.spectatorState == SpectatorNot {
        c := setTeam(c, "spectator");
      }
      client := Some(c);
      if dir != 1 && dir != -1 {
        return BadDirection(dir);
      }
      // a dedicated follow client switches between the two automatic modes
      if c.sess.spectatorClient < 0 {
        if c.sess.spectatorClient == -1 {
          client := Some(c.(sess := c.sess.(spectatorClient := -2)));
        } else if c.sess.spectatorClient == -2 {
          client := Some(c.(sess := c.sess.(spectatorClient := -1)));
        }
        return Cycled;
      }
      var found := ScanLap(SeenBy(level, entityIndex, c), dir, c.sess.spectatorClient);
      if found.Some? {
        client := Some(c.(sess := c.sess.(spectatorClient := found.value, spectatorState := SpectatorFollow)));
      }
      // nobody followable: the target is kept
      return Cycled;
    }
  }
}
