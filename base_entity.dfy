/**
 * The entity base every diagram model derives from: identity, lock flag, name,
 * a destroy signal and cloning through a lookup table keyed by the original id.
 * Reactive cells are reduced to their current value.
 */
module Entity {
  import opened Wrappers

  type ID = string

  /** A value state (`createValueState`): only its current value is modelled. */
  class ValueState<T> {
    var value: T

    constructor (initial: T)
      ensures value == initial
    {
      value := initial;
    }

    /** `set(value).emit()`. */
    method Set(v: T)
      modifies this
      ensures value == v
    {
      value := v;
    }
  }

  /** The `destroyed$` subject: how many notifications it delivered and whether it completed. */
  class DestroySubject {
    var notifications: nat
    var completed: bool

    constructor ()
      ensures notifications == 0 && !completed
    {
      notifications := 0;
      completed := false;
    }

    /** `next()`: a completed subject delivers nothing further. */
    method Next()
      modifies this
      ensures notifications == old(notifications) + (if old(completed) then 0 else 1)
      ensures completed == old(completed)
    {
      if !completed {
        notifications := notifications + 1;
      }
    }

    /** `complete()`. */
    method Complete()
      modifies this
      ensures completed && notifications == old(notifications)
    {
      completed := true;
    }
  }

  /** The constructor's options; absent fields are `None`. */
  datatype BaseEntityOptions = BaseEntityOptions(
    id: Option<ID>,
    entityType: string,
    logPrefix: Option<string>,
    locked: Option<bool>,
    name: Option<string>,
    displayName: Option<string>)

  /** `options.id || UID()`: an absent or empty id is replaced by the fresh one. */
  function InitialId(options: BaseEntityOptions, uid: ID): (r: ID)
    ensures options.id.Some? && options.id.value != "" ==> r == options.id.value
    ensures options.id.None? || options.id.value == "" ==> r == uid
  {
    if options.id.Some? && options.id.value != "" then options.id.value else uid
  }

  /** `!!options.locked`: locked only when explicitly set to true. */
  function InitialLocked(options: BaseEntityOptions): (r: bool)
    ensures r <==> options.locked == Some(true)
  {
    options.locked.Some? && options.locked.value
  }

  /** `options.name ?? 'default'`: an empty name is kept, an absent one defaults. */
  function InitialName(options: BaseEntityOptions): (r: string)
    ensures options.name.Some? ==> r == options.name.value
    ensures options.name.None? ==> r == "default"
  {
    if options.name.Some? then options.name.value else "default"
  }

  /** `options.displayName ?? ''`. */
  function InitialDisplayName(options: BaseEntityOptions): (r: string)
    ensures options.displayName.Some? ==> r == options.displayName.value
    ensures options.displayName.None? ==> r == ""
  {
    if options.displayName.Some? then options.displayName.value else ""
  }

  /** The lookup table `clone` threads through recursive clones: original id to clone. */
  class LookupTable {
    var entries: map<ID, BaseEntity>

    constructor ()
      ensures entries == map[]
    {
      entries := map[];
    }
  }

  class BaseEntity {
    var id: ID
    const entityType: string
    const logPrefix: string
    var destroyed: DestroySubject
    var locked: ValueState<bool>
    var name: ValueState<string>
    var displayName: ValueState<string>

    /** The name and the display name are separate state cells. */
    ghost predicate Valid()
      reads this
    {
      name != displayName
    }

    /** The constructor; `uid` stands for the value `UID()` would produce. */
    constructor (options: BaseEntityOptions, uid: ID)
      ensures Valid()
      ensures id == InitialId(options, uid) && entityType == options.entityType
      ensures logPrefix == (if options.logPrefix.Some? then options.logPrefix.value else "")
      ensures fresh(destroyed) && destroyed.notifications == 0 && !destroyed.completed
      ensures fresh(locked) && locked.value == InitialLocked(options)
      ensures fresh(name) && name.value == InitialName(options)
      ensures fresh(displayName) && displayName.value == InitialDisplayName(options)
    {
      id := InitialId(options, uid);
      entityType := options.entityType;
      logPrefix := if options.logPrefix.Some? then options.logPrefix.value else "";
      destroyed := new DestroySubject();
      locked := new ValueState(InitialLocked(options));
      name := new ValueState(InitialName(options));
      displayName := new ValueState(InitialDisplayName(options));
    }

    /** The object spread `{ ...entity }`: a new object sharing every field's value. */
    constructor Spread(entity: BaseEntity)
      ensures id == entity.id && entityType == entity.entityType && logPrefix == entity.logPrefix
      ensures destroyed == entity.destroyed && locked == entity.locked
      ensures name == entity.name && displayName == entity.displayName
      ensures entity.Valid() ==> Valid()
    {
      id := entity.id;
      entityType := entity.entityType;
      logPrefix := entity.logPrefix;
      destroyed := entity.destroyed;
      locked := entity.locked;
      name := entity.name;
      displayName := entity.displayName;
    }

    /** The `id` setter. */
    method SetId(newId: ID)
      modifies this`id
      ensures id == newId
    {
      id := newId;
    }

    function GetLocked(): bool
      reads this, locked
    {
      locked.value
    }

    /** `setLocked(locked = true)`. */
    method SetLocked(l: bool := true)
      modifies locked
      ensures GetLocked() == l
      ensures name.value == old(name.value)
      ensures displayName.value == old(displayName.value)
    {
      locked.Set(l);
    }

    /** The `name` getter. */
    function Name(): string
      reads this, name
    {
      name.value
    }

    /** The `name` setter. */
    method SetName(value: string)
      requires Valid()
      modifies name
      ensures Valid() && Name() == value
      ensures GetLocked() == old(GetLocked())
      ensures displayName.value == old(displayName.value)
    {
      name.Set(value);
    }

    /**
     * `clone(lookupTable)`: a clone already in the table under this entity's id is
     * returned and the table is left alone; otherwise the fields are spread into a
     * new object, which gets the fresh id `uid` and is stored under the ORIGINAL id.
     * The clone shares this entity's state cells and destroy subject.
     */
    method Clone(lookupTable: LookupTable, uid: ID) returns (c: BaseEntity)
      modifies lookupTable
      ensures old(id in lookupTable.entries) ==>
        c == old(lookupTable.entries[id]) && lookupTable.entries == old(lookupTable.entries)
      ensures old(id !in lookupTable.entries) ==>
        && fresh(c) && c.id == uid && c.entityType == entityType && c.logPrefix == logPrefix
        && c.locked == locked && c.name == name && c.displayName == displayName
        && c.destroyed == destroyed
        && lookupTable.entries == old(lookupTable.entries)[id := c]
    {
      if id in lookupTable.entries {
        return lookupTable.entries[id];
      }
      c := new BaseEntity.Spread(this);
      c.SetId(uid);
      lookupTable.entries := lookupTable.entries[id := c];
      DoClone(lookupTable, c);
    }

    /** `doClone`: a hook for subclasses that does nothing here. */
    method DoClone(lookupTable: LookupTable, c: BaseEntity)
    {
    }

    /** `destroy()`: one notification on the destroy subject, then completion. */
    method Destroy()
      modifies destroyed
      ensures destroyed.completed
      ensures destroyed.notifications == old(destroyed.notifications) + (if old(destroyed.completed) then 0 else 1)
    {
      destroyed.Next();
      destroyed.Complete();
    }
  }

  /** Cloning twice through one table yields one clone and one new table entry. */
  method CloneIsMemoised(e: BaseEntity, lookupTable: LookupTable, uid1: ID, uid2: ID)
    returns (c1: BaseEntity, c2: BaseEntity)
    modifies lookupTable
    ensures c1 == c2
    ensures e.id in lookupTable.entries && lookupTable.entries[e.id] == c1
    ensures lookupTable.entries.Keys == old(lookupTable.entries.Keys) + {e.id}
  {
    c1 := e.Clone(lookupTable, uid1);
    c2 := e.Clone(lookupTable, uid2);
  }

  /** A second `destroy()` delivers no further notification. */
  method DestroyNotifiesOnce(e: BaseEntity)
    modifies e.destroyed
    ensures e.destroyed.completed
    ensures e.destroyed.notifications == old(e.destroyed.notifications) + (if old(e.destroyed.completed) then 0 else 1)
  {
    e.Destroy();
    e.Destroy();
  }
}
