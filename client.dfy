/** The client-game helper rules of Client (Client.cpp): current-weapon
    lookup, button and event dispatch to weapon handlers, the local-client
    test and the names of a model's config file and a map's music file. */
module CGame {
  import opened Wrappers

  /** Length of the gWeapons table (ioquake3 value). */
  const MAX_WEAPONS: int := 16
  /** Length of the anims table (ioquake3 value). */
  const MAX_MODELS: int := 256
  /** entityState_t.eType of a player (ioquake3 value). */
  const ET_PLAYER: int := 1
  /** 2^64: std::string::size_type arithmetic wraps modulo this. */
  const SIZE_T_MODULUS: int := 0x1_0000_0000_0000_0000

  /** A client weapon object in gWeapons, identified by `handle`. */
  datatype Weapon = Weapon(handle: nat)

  /** The weapon callbacks the client code invokes. */
  datatype Handler = OnPrimaryFire | OnSecondaryFire | OnTertiaryFire | OnDraw | OnHolster | OnReload

  /** The Interaction_* bits of usercmd_t.interactionButtons. */
  datatype ButtonMasks = ButtonMasks(primary: bv32, secondary: bv32, tertiary: bv32, reload: bv32)

  /** The EV_WEAPON_* event ids. They label cases of one switch, so they differ. */
  datatype WeaponEventIds = WeaponEventIds(primary: int, secondary: int, tertiary: int,
                                           draw: int, holster: int, reload: int)


  /** entityState_t, as far as the client rules read it. */
  datatype EntityState = EntityState(number: int, eType: int, clientNum: int, weapon: int)

  /** centity_t. */
  datatype CEntity = CEntity(currentState: EntityState)

  /** The button bit that drives a handler in Update, if any. */
  function ButtonFor(masks: ButtonMasks, h: Handler): Option<bv32>
  {
    match h
    case OnPrimaryFire => Some(masks.primary)
    case OnSecondaryFire => Some(masks.secondary)
    case OnTertiaryFire => Some(masks.tertiary)
    case OnReload => Some(masks.reload)
    case _ => None
  }

  /** uc.interactionButtons & mask is nonzero. */
  predicate Pressed(buttons: bv32, mask: bv32)
  {
    buttons & mask != 0
  }

  /** Update invokes `h` with this current weapon and these buttons. */
  predicate Fires(weapon: Option<Weapon>, buttons: bv32, masks: ButtonMasks, h: Handler)
  {
    weapon.Some? && ButtonFor(masks, h).Some? && Pressed(buttons, ButtonFor(masks, h).value)
  }

  /** The position of a handler in Update's fixed order. */
  function UpdateRank(h: Handler): nat
  {
    match h
    case OnPrimaryFire => 0
    case OnSecondaryFire => 1
    case OnTertiaryFire => 2
    case OnReload => 3
    case _ => 4
  }

  /** The event id that selects a handler in ExecuteWeaponEvent. */
  function EventIdFor(ids: WeaponEventIds, h: Handler): int
  {
    match h
    case OnPrimaryFire => ids.primary
    case OnSecondaryFire => ids.secondary
    case OnTertiaryFire => ids.tertiary
    case OnDraw => ids.draw
    case OnHolster => ids.holster
    case OnReload => ids.reload
  }

  /** No two handlers share an event id. */
  predicate DistinctIds(ids: WeaponEventIds)
  {
    forall h1, h2 :: EventIdFor(ids, h1) == EventIdFor(ids, h2) ==> h1 == h2
  }

  /** GetCurrentWeapon: the weapon object of the snapshot's weapon number,
      absent for a number outside [0, MAX_WEAPONS) or an empty entry. */
  function GetCurrentWeapon(weapons: seq<Option<Weapon>>, snapWeapon: int): (r: Option<Weapon>)
    requires |weapons| == MAX_WEAPONS
    ensures (snapWeapon < 0 || snapWeapon >= MAX_WEAPONS) ==> r.None?
    ensures 0 <= snapWeapon < MAX_WEAPONS ==> r == weapons[snapWeapon]
  {
    if snapWeapon < 0 || snapWeapon >= MAX_WEAPONS then None
    else
      var weapon := weapons[snapWeapon];
      if weapon.Some? then weapon else None
  }

  /** The handlers Update looks at, in its fixed order. */
  const UpdateOrder: seq<Handler> := [OnPrimaryFire, OnSecondaryFire, OnTertiaryFire, OnReload]

  /** The handlers invoked by going through the first `n` of UpdateOrder. */
  function FiredPrefix(target: Option<Weapon>, buttons: bv32, masks: ButtonMasks, n: nat): (fired: seq<Handler>)
    requires n <= |UpdateOrder|
    ensures |fired| <= n
    ensures target.None? ==> fired == []
  {
    if n == 0 then []
    else
      var h := UpdateOrder[n - 1];
      FiredPrefix(target, buttons, masks, n - 1) + (if Fires(target, buttons, masks, h) then [h] else [])
  }

  /** Going through the first `n` handlers in order invokes exactly the
      pressed ones of rank below `n`. */
  lemma {:induction false} FiredPrefixMembers(target: Option<Weapon>, buttons: bv32, masks: ButtonMasks, n: nat)
    requires n <= |UpdateOrder|
    ensures forall h :: h in FiredPrefix(target, buttons, masks, n) <==> UpdateRank(h) < n && Fires(target, buttons, masks, h)
  {
    if n > 0 {
      FiredPrefixMembers(target, buttons, masks, n - 1);
      var h := UpdateOrder[n - 1];
      assert UpdateRank(h) == n - 1;
      var prev := FiredPrefix(target, buttons, masks, n - 1);
      var fired := FiredPrefix(target, buttons, masks, n);
      assert fired == prev + (if Fires(target, buttons, masks, h) then [h] else []);
      forall h' ensures h' in fired <==> UpdateRank(h') < n && Fires(target, buttons, masks, h') {
        assert h' in fired <==> h' in prev || (h' == h && Fires(target, buttons, masks, h));
        if UpdateRank(h') == n - 1 {
          assert h' == h;
        }
      }
    }
  }

  /** The handlers invoked so far have ranks below `n`, in strictly
      increasing order, so each is invoked once. */
  lemma {:induction false} FiredPrefixOrdered(target: Option<Weapon>, buttons: bv32, masks: ButtonMasks, n: nat)
    requires n <= |UpdateOrder|
    ensures forall i :: 0 <= i < |FiredPrefix(target, buttons, masks, n)| ==>
              UpdateRank(FiredPrefix(target, buttons, masks, n)[i]) < n
    ensures forall i, j :: 0 <= i < j < |FiredPrefix(target, buttons, masks, n)| ==>
              UpdateRank(FiredPrefix(target, buttons, masks, n)[i]) < UpdateRank(FiredPrefix(target, buttons, masks, n)[j])
  {
    if n > 0 {
      FiredPrefixOrdered(target, buttons, masks, n - 1);
      var h := UpdateOrder[n - 1];
      assert UpdateRank(h) == n - 1;
      var prev := FiredPrefix(target, buttons, masks, n - 1);
      var fired := FiredPrefix(target, buttons, masks, n);
      assert fired == prev + (if Fires(target, buttons, masks, h) then [h] else []);
      forall i | 0 <= i < |fired|
        ensures UpdateRank(fired[i]) < n
      {
        if i < |prev| {
          assert fired[i] == prev[i];
        } else {
          assert fired[i] == h;
        }
      }
      forall i, j | 0 <= i < j < |fired|
        ensures UpdateRank(fired[i]) < UpdateRank(fired[j])
      {
        assert fired[i] == prev[i];
        if j < |prev| {
          assert fired[j] == prev[j];
        } else {
          assert fired[j] == h;
        }
      }
    }
  }

  /** Going through all of UpdateOrder invokes exactly the firing handlers,
      in increasing rank. */
  lemma FiredPrefixComplete(target: Option<Weapon>, buttons: bv32, masks: ButtonMasks)
    ensures var fired := FiredPrefix(target, buttons, masks, |UpdateOrder|);
      && (forall h :: h in fired <==> Fires(target, buttons, masks, h))
      && (forall i, j :: 0 <= i < j < |fired| ==> UpdateRank(fired[i]) < UpdateRank(fired[j]))
  {
    FiredPrefixMembers(target, buttons, masks, |UpdateOrder|);
    FiredPrefixOrdered(target, buttons, masks, |UpdateOrder|);
    forall h | UpdateRank(h) >= |UpdateOrder|
      ensures !Fires(target, buttons, masks, h)
    {
    }
  }

  /** On a present weapon, going through all of UpdateOrder is the four
      guarded appends of Update, in their order. */
  lemma FiredPrefixUnrolled(weapon: Weapon, buttons: bv32, masks: ButtonMasks)
    ensures FiredPrefix(Some(weapon), buttons, masks, |UpdateOrder|)
         == [] + (if Pressed(buttons, masks.primary) then [OnPrimaryFire] else [])
               + (if Pressed(buttons, masks.secondary) then [OnSecondaryFire] else [])
               + (if Pressed(buttons, masks.tertiary) then [OnTertiaryFire] else [])
               + (if Pressed(buttons, masks.reload) then [OnReload] else [])
  {
    var t := Some(weapon);
    var p1 := if Pressed(buttons, masks.primary) then [OnPrimaryFire] else [];
    var p2 := if Pressed(buttons, masks.secondary) then [OnSecondaryFire] else [];
    var p3 := if Pressed(buttons, masks.tertiary) then [OnTertiaryFire] else [];
    var p4 := if Pressed(buttons, masks.reload) then [OnReload] else [];
    assert FiredPrefix(t, buttons, masks, 1) == [] + p1;
    assert FiredPrefix(t, buttons, masks, 2) == [] + p1 + p2;
    assert FiredPrefix(t, buttons, masks, 3) == [] + p1 + p2 + p3;
    assert FiredPrefix(t, buttons, masks, 4) == [] + p1 + p2 + p3 + p4;
  }

  /** The four guarded calls of Update on a present weapon. */
  method InvokePressed(weapon: Weapon, buttons: bv32, masks: ButtonMasks) returns (handlers: seq<Handler>)
    ensures handlers == FiredPrefix(Some(weapon), buttons, masks, |UpdateOrder|)
  {
    handlers := [];
    handlers := handlers + (if Pressed(buttons, masks.primary) then [OnPrimaryFire] else []);
    handlers := handlers + (if Pressed(buttons, masks.secondary) then [OnSecondaryFire] else []);
    handlers := handlers + (if Pressed(buttons, masks.tertiary) then [OnTertiaryFire] else []);
    handlers := handlers + (if Pressed(buttons, masks.reload) then [OnReload] else []);
    FiredPrefixUnrolled(weapon, buttons, masks);
  }

  /** Update: without a current weapon nothing is invoked; with one, each
      handler whose button bit is set is invoked on it once, in the order
      primary, secondary, tertiary, reload. `target` is the weapon the
      `handlers` are invoked on. */
  method Update(weapons: seq<Option<Weapon>>, snapWeapon: int, buttons: bv32, masks: ButtonMasks)
    returns (target: Option<Weapon>, handlers: seq<Handler>)
    requires |weapons| == MAX_WEAPONS
    ensures target == GetCurrentWeapon(weapons, snapWeapon)
    ensures target.None? ==> handlers == []
    ensures forall h :: h in handlers <==> Fires(target, buttons, masks, h)
    ensures forall i, j :: 0 <= i < j < |handlers| ==> UpdateRank(handlers[i]) < UpdateRank(handlers[j])
  {
    handlers := [];
    target := GetCurrentWeapon(weapons, snapWeapon);
    if target.Some? {
      handlers := InvokePressed(target.value, buttons, masks);
    }
    FiredPrefixComplete(target, buttons, masks);
  }

  /** ExecuteWeaponEvent: looks up the weapon object of the entity's weapon
      number without a range check. With none there, nothing happens. With
      one, the weapons' current player becomes the local client's entity and
      exactly the handler whose event id is `id` is invoked, none for an
      unknown id. */
  method ExecuteWeaponEvent(weapons: seq<Option<Weapon>>, ids: WeaponEventIds, id: int, cent: CEntity,
                            localClientNum: int)
    returns (target: Option<Weapon>, handler: Option<Handler>, currentPlayer: Option<int>)
    requires |weapons| == MAX_WEAPONS
    requires 0 <= cent.currentState.weapon < MAX_WEAPONS
    requires DistinctIds(ids)
    ensures target == weapons[cent.currentState.weapon]
    ensures target.None? ==> handler.None? && currentPlayer.None?
    ensures target.Some? ==> currentPlayer == Some(localClientNum)
    ensures handler.Some? ==> target.Some? && EventIdFor(ids, handler.value) == id
    ensures handler.Some? ==> forall h :: EventIdFor(ids, h) == id ==> h == handler.value
    ensures handler.None? && target.Some? ==> forall h :: EventIdFor(ids, h) != id
  {
    target := weapons[cent.currentState.weapon];
    if target.None? {
      return target, None, None;
    }
    currentPlayer := Some(localClientNum);
    if id == ids.primary {
      handler := Some(OnPrimaryFire);
    } else if id == ids.secondary {
      handler := Some(OnSecondaryFire);
    } else if id == ids.tertiary {
      handler := Some(OnTertiaryFire);
    } else if id == ids.draw {
      handler := Some(OnDraw);
    } else if id == ids.holster {
      handler := Some(OnHolster);
    } else if id == ids.reload {
      handler := Some(OnReload);
    } else {
      handler := None;
    }
  }

  /** IsLocalClient: a present player entity whose client number is the local one. */
  function IsLocalClient(cent: Option<CEntity>, localClientNum: int): (r: bool)
    ensures r <==> cent.Some? && cent.value.currentState.eType == ET_PLAYER &&
                   cent.value.currentState.clientNum == localClientNum
  {
    if cent.None? then false
    else if cent.value.currentState.eType != ET_PLAYER then false
    else localClientNum == cent.value.currentState.clientNum
  }

  // ---------------------------------------------------------------------------
  // File names

  /** `a - b` in std::string::size_type, which wraps below zero. */
  function SizeMinus(a: nat, b: nat): (r: nat)
    requires a < SIZE_T_MODULUS && b < SIZE_T_MODULUS
    ensures r < SIZE_T_MODULUS && (r + b) % SIZE_T_MODULUS == a
  {
    if a >= b then a - b else a - b + SIZE_T_MODULUS
  }

  /** std::string::substr(0, count): at most `count` leading characters. */
  function Prefix(s: string, count: nat): (r: string)
    ensures r <= s
    ensures |r| == if count < |s| then count else |s|
  {
    if count < |s| then s[..count] else s
  }

  /** `name.substr(0, name.size() - 4) + ext`, the rule that derives a
      config or music file name from the asset name. */
  function ReplaceExtension(name: string, ext: string): (r: string)
    requires |name| < SIZE_T_MODULUS
    ensures |r| >= |ext| && r[|r| - |ext|..] == ext
    ensures r[..|r| - |ext|] <= name
  {
    Prefix(name, SizeMinus(|name|, 4)) + ext
  }

  /** The model config file RegisterModelConfigData opens for a model. */
  function ConfigName(modelName: string): (r: string)
    requires |modelName| < SIZE_T_MODULUS
    ensures |r| >= 5 && r[|r| - 5..] == ".mcfg" && r[..|r| - 5] <= modelName
  {
    ReplaceExtension(modelName, ".mcfg")
  }

  /** The dynamic music file InitDynamicMusic hands to the music system. */
  function MusicName(mapName: string): (r: string)
    requires |mapName| < SIZE_T_MODULUS
    ensures |r| >= 4 && r[|r| - 4..] == ".mus" && r[..|r| - 4] <= mapName
  {
    ReplaceExtension(mapName, ".mus")
  }

  /** The derived name is the name without its last four characters, followed
      by the new extension; a name shorter than four characters is kept whole,
      because the unsigned length wraps to a huge count. */
  lemma ReplaceExtensionDropsFour(name: string, ext: string)
    requires |name| < SIZE_T_MODULUS
    ensures |name| >= 4 ==> ReplaceExtension(name, ext) == name[..|name| - 4] + ext
    ensures |name| < 4 ==> ReplaceExtension(name, ext) == name + ext
  {
  }

  /** A model named with a four-character extension gets the config file of
      the same base name. */
  lemma ConfigNameOfModel(base: string, ext: string)
    requires |ext| == 4 && |base| + 4 < SIZE_T_MODULUS
    ensures ConfigName(base + ext) == base + ".mcfg"
  {
    assert (base + ext)[..|base|] == base;
  }

  /** A map named `maps/x.bsp` plays the music file `maps/x.mus`. */
  lemma MusicNameOfMap(base: string)
    requires |base| + 4 < SIZE_T_MODULUS
    ensures MusicName(base + ".bsp") == base + ".mus"
  {
    assert (base + ".bsp")[..|base|] == base;
  }

  /** Why RegisterModelConfigData left the animation table alone. */
  datatype RegisterError = NullModelName | IdOutOfRange(id: int)

  /** The client game object, holding the per-model animation table; `Anim`
      stands for the animation records the asset loader produces. */
  class Client<Anim> {
    const anims: array<seq<Anim>>

    ghost predicate Valid()
      reads this
    {
      anims.Length == MAX_MODELS
    }

    constructor ()
      ensures Valid() && fresh(anims)
      ensures forall i :: 0 <= i < anims.Length ==> anims[i] == []
    {
      anims := new seq<Anim>[MAX_MODELS](_ => []);
    }

    /** RegisterModelConfigData: loads the animations of the config file
        derived from the model name into anims[id]. A null name or an id
        outside [0, MAX_MODELS) is reported; a config file that does not open
        is silently skipped. `fileOpens` and `animationsOf` stand for the
        engine's file system and the config parser. */
    method RegisterModelConfigData(id: int, modelName: Option<string>,
                                   fileOpens: string -> bool, animationsOf: string -> seq<Anim>)
      returns (error: Option<RegisterError>)
      requires Valid()
      requires modelName.Some? ==> |modelName.value| < SIZE_T_MODULUS
      modifies anims
      ensures modelName.None? ==> error == Some(NullModelName)
      ensures modelName.Some? && (id < 0 || id >= MAX_MODELS) ==> error == Some(IdOutOfRange(id))
      ensures modelName.Some? && 0 <= id < MAX_MODELS ==> error == None
      ensures error.None? && fileOpens(ConfigName(modelName.value)) ==>
                anims[..] == old(anims[..])[id := animationsOf(ConfigName(modelName.value))]
      ensures !(error.None? && fileOpens(ConfigName(modelName.value))) ==> anims[..] == old(anims[..])
    {
      if modelName.None? {
        return Some(NullModelName);
      }
      if id < 0 || id >= MAX_MODELS {
        return Some(IdOutOfRange(id));
      }
      var modelConfig := ConfigName(modelName.value);
      if !fileOpens(modelConfig) {
        // no config file for this model: nothing is loaded, no error
        return None;
      }
      anims[id] := animationsOf(modelConfig);
      return None;
    }
  }
}
