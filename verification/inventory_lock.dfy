/** The plugin: the lock/unlock primitive, the Oxide and zone hooks that call
    it, and the `inv.lock` console command. */
module InventoryLock {

  import opened Wrappers
  import opened ContainerTypes
  import opened Config
  import opened Inventory

  const ADMIN := "inventorylock.admin"
  const BYPASS := "inventorylock.bypass"

  /** The permission store, as the set of (user id, permission name) grants. */
  datatype Permissions = Permissions(granted: set<(string, string)>)

  /** `PermissionUtil.VerifyHasPermission(player, name)`. */
  predicate HasPermission(perms: Permissions, player: Player, name: string) {
    (player.userId, name) in perms.granted
  }

  /** Sets the `IsLocked` flag of every container `containerType` selects to
      `lockSlots`, writing a flag only when it differs, then pushes one
      snapshot whether or not anything changed. */
  method LockOrUnlockContainerSlots(player: Player, containerType: ContainerType, lockSlots: bool)
    modifies player
    ensures player.Flags() == LockOrUnlock(old(player.Flags()), containerType, lockSlots)
    ensures player.flagWrites == old(player.flagWrites) + Writes(old(player.Flags()), containerType, lockSlots)
    ensures player.snapshots == old(player.snapshots) + 1
  {
    var containers := Selected(containerType);
    ghost var before := player.Flags();
    var i := 0;
    while i < |containers|
      invariant 0 <= i <= |containers|
      invariant player.Flags() == SetEach(before, containers[..i], lockSlots)
      invariant player.flagWrites == old(player.flagWrites) + Differing(before, containers[..i], lockSlots)
      invariant player.snapshots == old(player.snapshots)
    {
      var container := containers[i];
      assert container !in containers[..i];
      var isCurrentlyLocked := player.HasFlag(container);
      if lockSlots && !isCurrentlyLocked {
        player.SetFlag(container, true);
      } else if !lockSlots && isCurrentlyLocked {
        player.SetFlag(container, false);
      }
      assert containers[..i + 1][..i] == containers[..i];
      FlagsExt(player.Flags(), SetEach(before, containers[..i + 1], lockSlots));
      i := i + 1;
    }
    assert containers[..i] == containers;
    player.SendSnapshot();
  }

  /** The `foreach` over a list of container types that the connect and
      zone-enter hooks run, locking each type in turn. */
  method LockEachType(player: Player, types: seq<ContainerType>)
    modifies player
    ensures player.Flags() == LockEach(old(player.Flags()), types, true)
    ensures player.flagWrites == old(player.flagWrites) + WritesEach(old(player.Flags()), types, true)
    ensures player.snapshots == old(player.snapshots) + |types|
  {
    ghost var before := player.Flags();
    var i := 0;
    while i < |types|
      invariant 0 <= i <= |types|
      invariant player.Flags() == LockEach(before, types[..i], true)
      invariant player.flagWrites == old(player.flagWrites) + WritesEach(before, types[..i], true)
      invariant player.snapshots == old(player.snapshots) + i
    {
      LockOrUnlockContainerSlots(player, types[i], true);
      assert types[..i + 1][..i] == types[..i];
      i := i + 1;
    }
    assert types[..i] == types;
  }

  /** OnPlayerConnected: a player without bypass gets every type of
      "Lock On Connect" locked; a bypass player, or a null or empty list,
      changes nothing. */
  method OnPlayerConnected(config: Configuration, perms: Permissions, player: Player)
    modifies player
    ensures HasPermission(perms, player, BYPASS) ==> unchanged(player)
    ensures !HasPermission(perms, player, BYPASS) ==>
      && player.Flags() == LockEach(old(player.Flags()), ConnectTypes(config), true)
      && player.flagWrites == old(player.flagWrites) + WritesEach(old(player.Flags()), ConnectTypes(config), true)
      && player.snapshots == old(player.snapshots) + |ConnectTypes(config)|
  {
    if HasPermission(perms, player, BYPASS) {
      return;
    }
    if config.lockOnConnect.Some? && |config.lockOnConnect.value| > 0 {
      LockEachType(player, config.lockOnConnect.value);
    }
  }

  /** OnPlayerDisconnected: unlocks all three containers, bypass or not. */
  method OnPlayerDisconnected(player: Player)
    modifies player
    ensures player.Flags() == Unlocked
    ensures player.flagWrites == old(player.flagWrites) + Writes(old(player.Flags()), All, false)
    ensures player.snapshots == old(player.snapshots) + 1
  {
    LockOrUnlockContainerSlots(player, All, false);
    AllSetsEverything(old(player.Flags()), false);
  }

  /** Unload: unlocks all three containers of every non-null active player;
      a player listed twice gets a second, write-free call. */
  method Unload(activePlayers: seq<Player?>)
    modifies set p | p in activePlayers && p != null
    ensures forall p :: p in activePlayers && p != null ==>
      && p.Flags() == Unlocked
      && p.flagWrites == old(p.flagWrites) + Writes(old(p.Flags()), All, false)
      && p.snapshots == old(p.snapshots) + multiset(activePlayers)[p]
  {
    var i := 0;
    while i < |activePlayers|
      invariant 0 <= i <= |activePlayers|
      invariant forall p :: p in activePlayers[..i] && p != null ==>
        && p.Flags() == Unlocked
        && p.flagWrites == old(p.flagWrites) + Writes(old(p.Flags()), All, false)
      invariant forall p :: p in activePlayers && p != null && p !in activePlayers[..i] ==>
        p.Flags() == old(p.Flags()) && p.flagWrites == old(p.flagWrites)
      invariant forall p :: p in activePlayers && p != null ==>
        p.snapshots == old(p.snapshots) + multiset(activePlayers[..i])[p]
    {
      var player := activePlayers[i];
      if player != null {
        ghost var was := player.Flags();
        LockOrUnlockContainerSlots(player, All, false);
        AllSetsEverything(was, false);
      }
      assert activePlayers[..i + 1] == activePlayers[..i] + [activePlayers[i]];
      i := i + 1;
    }
    assert activePlayers[..i] == activePlayers;
  }

  /** OnEnterZone: a player without bypass gets the types of the first zone
      whose id matches locked; a bypass player or an unconfigured id changes
      nothing, not even the snapshot count. */
  method OnEnterZone(config: Configuration, perms: Permissions, zoneId: string, player: Player)
    modifies player
    ensures HasPermission(perms, player, BYPASS) || !IsConfigured(config.lockedZones, zoneId) ==> unchanged(player)
    ensures !HasPermission(perms, player, BYPASS) && IsConfigured(config.lockedZones, zoneId) ==>
      var types := config.lockedZones[FirstZone(config.lockedZones, zoneId).value].containerTypes;
      && player.Flags() == LockEach(old(player.Flags()), types, true)
      && player.flagWrites == old(player.flagWrites) + WritesEach(old(player.Flags()), types, true)
      && player.snapshots == old(player.snapshots) + |types|
  {
    if HasPermission(perms, player, BYPASS) {
      return;
    }
    var zones := config.lockedZones;
    var i := 0;
    while i < |zones|
      invariant 0 <= i <= |zones|
      invariant forall j :: 0 <= j < i ==> zones[j].zoneId != zoneId
      invariant unchanged(player)
    {
      if zones[i].zoneId == zoneId {
        assert FirstZone(zones, zoneId) == Some(i);
        LockEachType(player, zones[i].containerTypes);
        return;
      }
      i := i + 1;
    }
  }

  /** OnExitZone: leaving any configured zone unlocks all three containers,
      with no bypass check and whatever locked them; an unconfigured id
      changes nothing. */
  method OnExitZone(config: Configuration, zoneId: string, player: Player)
    modifies player
    ensures !IsConfigured(config.lockedZones, zoneId) ==> unchanged(player)
    ensures IsConfigured(config.lockedZones, zoneId) ==>
      && player.Flags() == Unlocked
      && player.flagWrites == old(player.flagWrites) + Writes(old(player.Flags()), All, false)
      && player.snapshots == old(player.snapshots) + 1
  {
    var zones := config.lockedZones;
    var i := 0;
    while i < |zones|
      invariant 0 <= i <= |zones|
      invariant forall j :: 0 <= j < i ==> zones[j].zoneId != zoneId
      invariant unchanged(player)
    {
      if zones[i].zoneId == zoneId {
        LockOrUnlockContainerSlots(player, All, false);
        AllSetsEverything(old(player.Flags()), false);
        return;
      }
      i := i + 1;
    }
  }

  /** The replies of `inv.lock`, by their message key. */
  datatype Reply =
    | AdminPermissionRequired
    | InvalidArguments
    | PlayerNotFound
    | PlayerHasBypass
    | InvalidContainerType
    | LockSuccess
    | UnlockSuccess

  /** The player `conArgs.GetPlayer(0)` resolves, once three arguments are present. */
  function Target(args: seq<string>, getPlayer: string -> Player?): Player? {
    if |args| >= 3 then getPlayer(args[0]) else null
  }

  /** What `inv.lock` may change: the target player, when there is one. */
  function TargetFrame(args: seq<string>, getPlayer: string -> Player?): set<Player?> {
    if Target(args, getPlayer) == null then {} else {Target(args, getPlayer)}
  }

  /** `inv.lock <player> <type> <bool>`: the checks run in a fixed order and
      the first that fails decides the reply and changes nothing; when all
      pass, the primitive is applied with the parsed bool and the reply is
      LockSuccess exactly when that bool is true. A command with no sending
      player gets no reply. */
  method CmdLockInventory(
    perms: Permissions, sender: Player?, args: seq<string>,
    getPlayer: string -> Player?, getBool: string -> bool)
    returns (reply: Option<Reply>)
    modifies TargetFrame(args, getPlayer)
    ensures sender == null ==> reply == None
    ensures sender != null && !HasPermission(perms, sender, ADMIN) ==>
      reply == Some(AdminPermissionRequired)
    ensures sender != null && HasPermission(perms, sender, ADMIN) && |args| < 3 ==>
      reply == Some(InvalidArguments)
    ensures sender != null && HasPermission(perms, sender, ADMIN) && |args| >= 3 && getPlayer(args[0]) == null ==>
      reply == Some(PlayerNotFound)
    ensures sender != null && HasPermission(perms, sender, ADMIN) && |args| >= 3 && getPlayer(args[0]) != null ==>
      var target := getPlayer(args[0]);
      && (HasPermission(perms, target, BYPASS) ==> reply == Some(PlayerHasBypass))
      && (!HasPermission(perms, target, BYPASS) && ParseContainerType(args[1]).None? ==>
            reply == Some(InvalidContainerType))
      && (!HasPermission(perms, target, BYPASS) && ParseContainerType(args[1]).Some? ==>
            var containerType := ParseContainerType(args[1]).value;
            var lockSlots := getBool(args[2]);
            && reply == Some(if lockSlots then LockSuccess else UnlockSuccess)
            && target.Flags() == LockOrUnlock(old(target.Flags()), containerType, lockSlots)
            && target.flagWrites == old(target.flagWrites) + Writes(old(target.Flags()), containerType, lockSlots)
            && target.snapshots == old(target.snapshots) + 1)
    ensures reply != Some(LockSuccess) && reply != Some(UnlockSuccess) ==>
      unchanged(TargetFrame(args, getPlayer))
  {
    if sender == null {
      return None;
    }
    if !HasPermission(perms, sender, ADMIN) {
      return Some(AdminPermissionRequired);
    }
    if |args| < 3 {
      return Some(InvalidArguments);
    }
    var targetPlayer := getPlayer(args[0]);
    var containerTypeArg := args[1];
    var lockSlotsArg := getBool(args[2]);
    if targetPlayer == null {
      return Some(PlayerNotFound);
    }
    if HasPermission(perms, targetPlayer, BYPASS) {
      return Some(PlayerHasBypass);
    }
    var parsed := ParseContainerType(containerTypeArg);
    if parsed.None? {
      return Some(InvalidContainerType);
    }
    LockOrUnlockContainerSlots(targetPlayer, parsed.value, lockSlotsArg);
    if lockSlotsArg {
      reply := Some(LockSuccess);
    } else {
      reply := Some(UnlockSuccess);
    }
  }

  /** For any configuration and any configured zone id, a player connects,
      enters the zone and leaves it: every container the connect list locked
      stays locked inside the zone, and leaving the zone unlocks all three
      containers anyway, although the player is still connected. */
  method ConnectEnterExit(config: Configuration, perms: Permissions, zoneId: string, player: Player)
    returns (afterConnect: LockFlags, afterEnter: LockFlags)
    requires IsConfigured(config.lockedZones, zoneId)
    modifies player
    ensures !HasPermission(perms, player, BYPASS) ==>
      forall c: Container :: Covers(ConnectTypes(config), c) ==> afterConnect.Get(c) && afterEnter.Get(c)
    ensures player.Flags() == Unlocked
  {
    OnPlayerConnected(config, perms, player);
    afterConnect := player.Flags();
    OnEnterZone(config, perms, zoneId, player);
    afterEnter := player.Flags();
    if !HasPermission(perms, player, BYPASS) {
      var types := config.lockedZones[FirstZone(config.lockedZones, zoneId).value].containerTypes;
      forall c: Container ensures afterConnect.Get(c) ==> afterEnter.Get(c) {
        LockEachOnlyLocks(afterConnect, types, c);
      }
    }
    OnExitZone(config, zoneId, player);
  }

  /** An illustration under the default configuration: a player connects (wear locked),
      enters zone 42626527 (belt locked too) and leaves it: all three
      containers end unlocked, the wear lock from connecting included,
      although the player is still connected. */
  method ExitClearsConnectLock() returns (afterConnect: LockFlags, afterEnter: LockFlags, afterExit: LockFlags)
    ensures afterConnect == LockFlags(true, false, false)
    ensures afterEnter == LockFlags(true, true, false)
    ensures afterExit == Unlocked
  {
    var perms := Permissions({});
    var player := new Player("76561198000000001", Unlocked);
    OnPlayerConnected(DefaultConfiguration(), perms, player);
    afterConnect := player.Flags();
    assert DefaultConfiguration().lockedZones[0].zoneId == "42626527";
    OnEnterZone(DefaultConfiguration(), perms, "42626527", player);
    afterEnter := player.Flags();
    assert [Clothing, Belt][1] == Belt && !Covers([Clothing, Belt], ContainerMain);
    OnExitZone(DefaultConfiguration(), "42626527", player);
    afterExit := player.Flags();
  }
}
