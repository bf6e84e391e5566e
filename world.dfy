/** The game-side entity table of GameWorld (GameWorld.hpp) and the key/value
    library that map entity definitions are parsed into. */
module World {
  import opened Wrappers

  /** MAX_CLIENTS: slots [0, MAX_CLIENTS) are reserved for player entities. */
  const MAX_CLIENTS: nat := 64
  /** MAX_GENTITIES, the value of GameWorld::MaxEntities. */
  const MAX_GENTITIES: nat := 1024

  /** An entity the table owns. `kind` names the class the allocator was
      instantiated with, `index` is what SetEntityIndex stored and `number`
      is GetState()->number. */
  datatype Entity = Entity(kind: string, index: int, number: int)

  /** engine->Error halts the level; engine->Print only logs. */
  datatype Severity = Fatal | Logged

  datatype AllocError =
    | CapacityExceeded
    | SlotTaken(slot: nat, severity: Severity)

  /** Slot i is free in both tables: no owned entity and not in use by the engine side. */
  predicate SlotFree(slots: seq<Option<Entity>>, inUse: seq<bool>, i: nat)
    requires i < |slots| == |inUse|
  {
    slots[i].None? && !inUse[i]
  }

  /** Every owned entity's stored index is the index of its slot. */
  ghost predicate IndicesMatch(slots: seq<Option<Entity>>)
  {
    forall i :: 0 <= i < |slots| && slots[i].Some? ==> slots[i].value.index == i
  }

  /** The lowest slot at or above `from` that is free in both tables. */
  function FirstFreeSlot(slots: seq<Option<Entity>>, inUse: seq<bool>, from: nat): (r: Option<nat>)
    requires |slots| == |inUse|
    requires from <= |slots|
    decreases |slots| - from
    ensures r.Some? ==> from <= r.value < |slots| && SlotFree(slots, inUse, r.value)
    ensures r.Some? ==> forall j :: from <= j < r.value ==> !SlotFree(slots, inUse, j)
    ensures r.None? ==> forall j :: from <= j < |slots| ==> !SlotFree(slots, inUse, j)
  {
    if from == |slots| then None
    else if SlotFree(slots, inUse, from) then Some(from)
    else FirstFreeSlot(slots, inUse, from + 1)
  }

  /** Filling the pool of an otherwise empty table hands out the slots in
      ascending order: after `k` allocations the next one gets `from + k`, and
      once the pool is full the next one fails. */
  lemma {:induction false} PoolFillsInOrder(slots: seq<Option<Entity>>, inUse: seq<bool>, from: nat, k: nat)
    requires |slots| == |inUse| && from + k <= |slots|
    requires forall j :: from <= j < from + k ==> slots[j].Some?
    requires forall j :: from + k <= j < |slots| ==> SlotFree(slots, inUse, j)
    ensures FirstFreeSlot(slots, inUse, from) == if from + k < |slots| then Some(from + k) else None
    decreases k
  {
    if k > 0 {
      assert !SlotFree(slots, inUse, from);
      PoolFillsInOrder(slots, inUse, from + 1, k - 1);
    }
  }

  class GameWorld {
    /** gEntities: the slot table, owning one entity per occupied slot. */
    const entities: array<Option<Entity>>
    /** g_entities[].inuse of the engine-side entity array; only read here. */
    const inUse: array<bool>

    ghost predicate Valid()
      reads this, entities
    {
      && entities.Length == MAX_GENTITIES
      && inUse.Length == MAX_GENTITIES
      && IndicesMatch(entities[..])
    }

    constructor (inUse: array<bool>)
      requires inUse.Length == MAX_GENTITIES
      ensures Valid() && fresh(entities) && this.inUse == inUse
      ensures forall i :: 0 <= i < entities.Length ==> entities[i].None?
    {
      entities := new Option<Entity>[MAX_GENTITIES](_ => None);
      this.inUse := inUse;
    }

    /** CreateEntity<T>(): installs `spawned` (the freshly constructed T) in
        the lowest pool slot free in both tables and stamps its index; with no
        such slot it reaches engine->Error and changes nothing. */
    method CreateEntity(spawned: Entity) returns (r: Result<nat, AllocError>)
      requires Valid()
      modifies entities
      ensures Valid()
      ensures match FirstFreeSlot(old(entities[..]), inUse[..], MAX_CLIENTS)
              case Some(i) => r == Ok(i) && entities[..] == old(entities[..])[i := Some(spawned.(index := i))]
              case None => r == Err(CapacityExceeded) && entities[..] == old(entities[..])
    {
      for i := MAX_CLIENTS to MAX_GENTITIES
        invariant entities[..] == old(entities[..])
        invariant FirstFreeSlot(entities[..], inUse[..], MAX_CLIENTS) == FirstFreeSlot(entities[..], inUse[..], i)
      {
        // the slot must be free in the engine-side table as well
        if entities[i] == None && !inUse[i] {
          entities[i] := Some(spawned.(index := i));
          return Ok(i);
        }
      }
      return Err(CapacityExceeded);
    }

    /** CreateEntity<T>(index): installs `spawned` at exactly `index` and sets
        both its index and its state number; an occupied slot is refused, as
        an engine->Error in debug builds and a Print otherwise. */
    method CreateEntityAt(spawned: Entity, index: nat, debug: bool) returns (r: Result<nat, AllocError>)
      requires Valid()
      requires index < MAX_GENTITIES
      modifies entities
      ensures Valid()
      ensures old(entities[index]).Some? ==>
        && r == Err(SlotTaken(index, if debug then Fatal else Logged))
        && entities[..] == old(entities[..])
      ensures old(entities[index]).None? ==>
        && r == Ok(index)
        && entities[..] == old(entities[..])[index := Some(spawned.(index := index, number := index))]
    {
      if entities[index] != None {
        return Err(SlotTaken(index, if debug then Fatal else Logged));
      }
      entities[index] := Some(spawned.(index := index, number := index));
      return Ok(index);
    }
  }

  /** KeyValueLibrary: the key/value pairs of one entity definition. */
  class KeyValueLibrary {
    var library: map<string, string>

    constructor ()
      ensures library == map[]
    {
      library := map[];
    }

    /** operator[]: the value stored for `key`, inserting an empty value
        first when the key is absent. */
    method Subscript(key: string) returns (value: string)
      modifies this
      ensures key in library && value == library[key]
      ensures key in old(library) ==> library == old(library)
      ensures key !in old(library) ==> library == old(library)[key := ""] && value == ""
    {
      if key !in library {
        library := library[key := ""];
      }
      value := library[key];
    }
  }
}
