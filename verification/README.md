# Inventory Lock — a Dafny model

Inventory Lock is an Oxide plugin for Rust. It locks a player's inventory
containers (wear, belt and main) when the player joins the server or
enters certain zones. An admin console command, `inv.lock`, locks or
unlocks them by hand. This project models the plugin's lock state machine
and proves properties of it:

- `wrappers.dfy` (`Wrappers`): the `Option` type, which stands for null
  and for "not found".
- `container_types.dfy` (`ContainerTypes`):
  - the `ContainerType` enum and the three containers it selects;
  - the `IsLocked` flags as a value (`LockFlags`);
  - what one lock/unlock call, or a list of them, does to those flags,
    and how many `SetFlag` writes it makes;
  - the case-insensitive parse of a container-type name.
- `config.dfy` (`Config`):
  - the configuration: "Lock On Connect", which may be null, and the
    ordered "Locked Zones" list;
  - the lookup of the first zone with a given id;
  - the default configuration.
- `player.dfy` (`Inventory`): the engine side, a `Player` class. It holds
  the three `IsLocked` flags and counts the engine calls made on them:
  `SetFlag` writes and `SendSnapshot` pushes.
- `inventory_lock.dfy` (`InventoryLock`):
  - `LockOrUnlockContainerSlots`;
  - the connect, disconnect, unload, zone-enter and zone-exit hooks;
  - the `inv.lock` command.
  These are imperative methods on `Player` objects. Each is proved
  against the value functions of `ContainerTypes`.

The model follows the code's literal behaviour, which is plain flag
toggling:

- No hook keeps per-source lock state. A manual unlock clears the flags.
  Leaving any configured zone unlocks all three containers, including a
  lock set at connect time or by another zone. `ConnectEnterExit` proves
  this for every configuration; `ExitClearsConnectLock` illustrates it
  under the default configuration.
- `conArgs.HasArgs(3)` accepts three or more arguments. The model accepts
  `|args| >= 3` and ignores the rest.

Engine and plugin calls that the model takes as inputs:

- Permission lookups use a `Permissions` value, a set of
  (user id, permission name) grants.
- `conArgs.GetPlayer(0)` and `conArgs.GetBool(2)` are function parameters
  of the command.
- The active-player list is a parameter of `Unload`.

## Model

| member | source | states |
|---|---|---|
| ContainerTypes.TypeOf | InventoryLock.cs:214-224 | the enum member naming one container alone is never `All` |
| ContainerTypes.Selected | InventoryLock.cs:212-230 | `All` selects every container; any other member selects exactly the container it names; no container is selected twice |
| ContainerTypes.LockFlags.Set | InventoryLock.cs:237-241 | `SetFlag(IsLocked, b)` on one container gives it `b` and leaves the other two as they were |
| ContainerTypes.SetEach | InventoryLock.cs:232-243 | setting a list of containers gives `b` to exactly the containers in the list and keeps every other flag |
| ContainerTypes.Differing | InventoryLock.cs:234-242 | the count of differing flags is at most the list length, and zero exactly when every listed flag already equals `b` |
| ContainerTypes.DifferingChanged | InventoryLock.cs:234-242 | over a list without repeats, the writes made by the compare-then-set loop equal the number of flags that change |
| ContainerTypes.LockOrUnlock | InventoryLock.cs:210-246 | after the primitive, every container the type selects has flag `b`, and every container it does not select keeps its flag |
| ContainerTypes.Writes | InventoryLock.cs:234-242 | the primitive writes a flag exactly when that flag changes |
| ContainerTypes.AllSetsEverything | InventoryLock.cs:225-229 | with `All`, all three flags end at `b` whatever they were |
| ContainerTypes.LockOrUnlockIdempotent | InventoryLock.cs:234-242 | a second identical call leaves every flag as the first left it and makes no `SetFlag` write |
| ContainerTypes.LockEach | InventoryLock.cs:161-164 | locking a list of types in turn gives `b` to exactly the containers some listed type selects and keeps every other flag |
| ContainerTypes.WritesEach | InventoryLock.cs:161-164 | however the listed types overlap, the loop writes each container at most once and only when its flag changes |
| ContainerTypes.LockEachOnlyLocks | InventoryLock.cs:159-164 | locking a list never unlocks: a container ends locked iff it was locked or a listed type selects it |
| ContainerTypes.LockEachIdempotent | InventoryLock.cs:187-188 | locking the same list twice in a row changes nothing the second time |
| ContainerTypes.ParseContainerType | InventoryLock.cs:321-325 | a parsed member's name is spelled by the argument in some letter case; the parse fails iff the argument spells no member name |
| ContainerTypes.ParseNameRoundTrip | InventoryLock.cs:321 | every spelling of a member's name, in any letter case, parses back to that member and to no other |
| Config.ConnectTypes | InventoryLock.cs:159-161 | the types the connect hook iterates: the "Lock On Connect" list, or none when it is null |
| Config.DefaultConfiguration | InventoryLock.cs:98-128 | the configuration `GetDefaultConfig` builds: Clothing locked on connect, zone 42626527 locking Clothing and Belt, zone 89401263 locking All (the version string is not kept) |
| Config.FirstZone | InventoryLock.cs:182-191 | gives the least index whose zone id matches, and no index iff no configured zone has that id |
| Config.FirstZoneIgnoresLater | InventoryLock.cs:182-191 | once a zone id matches, zones appended after it, duplicates included, do not change which entry is used |
| Inventory.Player.HasFlag | InventoryLock.cs:234 | `container.HasFlag(IsLocked)`: the current flag of one container |
| Inventory.Player.SetFlag | InventoryLock.cs:237-241 | one container's flag takes the new value, the others keep theirs, and the write count grows by one |
| Inventory.Player.SendSnapshot | InventoryLock.cs:245 | the snapshot count grows by one and no flag changes |
| InventoryLock.HasPermission | InventoryLock.cs:272-275 | `VerifyHasPermission`: whether the permission store grants the named permission to the player's user id |
| InventoryLock.LockOrUnlockContainerSlots | InventoryLock.cs:210-246 | the new flags are `LockOrUnlock` of the old ones; writes grow by exactly the number of changed flags; exactly one snapshot is pushed, even when nothing changed |
| InventoryLock.LockEachType | InventoryLock.cs:161-164 | after locking each listed type in turn, the flags are `LockEach` of the old ones, with one snapshot per listed type |
| InventoryLock.OnPlayerConnected | InventoryLock.cs:154-166 | a bypass player is untouched; a null or empty "Lock On Connect" changes nothing; otherwise every listed type ends locked, with one snapshot per entry |
| InventoryLock.OnPlayerDisconnected | InventoryLock.cs:168-171 | all three containers end unlocked, with or without bypass, and one snapshot is pushed |
| InventoryLock.Unload | InventoryLock.cs:140-152 | every non-null active player ends fully unlocked; each gets one snapshot per listing, and only the first listing writes flags |
| InventoryLock.OnEnterZone | InventoryLock.cs:177-192 | a bypass player or an unconfigured id changes nothing, not even the snapshot count; otherwise exactly the types of the first matching zone are locked |
| InventoryLock.OnExitZone | InventoryLock.cs:194-204 | any configured id unlocks all three containers, with no bypass check and whatever locked them; an unknown id changes nothing |
| InventoryLock.CmdLockInventory | InventoryLock.cs:287-336 | checks run in this order: admin permission, at least three arguments, target found, target lacks bypass, type parses. The first failure decides the reply and changes no state; on success the primitive is applied and the reply is `LockSuccess` iff the bool is true |
| InventoryLock.Target | InventoryLock.cs:299-305 | the player `conArgs.GetPlayer(0)` resolves once `HasArgs(3)` holds, and none before |
| InventoryLock.ConnectEnterExit | InventoryLock.cs:154-204 | for every configuration, permission store, player and configured zone id: connect, enter and exit leave all three containers unlocked, although the containers the connect list locked stayed locked inside the zone |
| InventoryLock.ExitClearsConnectLock | InventoryLock.cs:98-204 | an illustration under the default configuration: connect, enter zone 42626527 and leave it give wear locked, then wear and belt locked, then everything unlocked |

## Left out

- Loading, saving and version migration of the JSON configuration
  (InventoryLock.cs:64-96): this is serialization I/O. The culture-sensitive
  `string.Compare` on versions cannot be stated faithfully. Only the
  defaults of `GetDefaultConfig` are kept, as `Config.DefaultConfiguration`,
  without the version string.
- Permission registration (`Init`, `RegisterPermissions`): these are
  foreign Oxide calls. Permission lookup is modelled as membership in a
  `Permissions` value.
- Localization and message formatting (`Lang`, `LoadDefaultMessages`,
  `SendReplyToPlayer`): this is UI text. The command returns the message
  key as a `Reply` and leaves out the display-name arguments.
- Player lookup by name or id (`conArgs.GetPlayer`) and bool parsing
  (`conArgs.GetBool`): these are engine code. They are function parameters
  of the command.
- Container objects: `ItemContainer` objects, their other flags and their
  identity are engine state. Each is reduced to its `IsLocked` flag, and
  the three flags are fields of `Player`.
- `ParseContainerType`: models `Enum.TryParse` only as a case-insensitive
  match of the four member names, with ASCII upper-casing. It does not
  model `TryParse`'s acceptance of numeric strings, comma-separated lists
  or surrounding whitespace, nor non-ASCII case folding.
- The `ZoneManager` reference and `VerifyPluginBeingLoaded`: they are
  unused by the hooks.
- `Unload` clearing the static `_config` and `_plugin` references
  (InventoryLock.cs:150-151): these are plugin teardown. The hooks take the
  configuration as a parameter instead of reading a static field.
- A null "Locked Zones" list, or a null "Container Types" list inside a
  zone: the code would throw there. The model's lists are never null.
- Threading: none. Oxide calls hooks one at a time.
