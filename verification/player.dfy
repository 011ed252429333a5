/** The engine state the plugin acts on: one player's inventory, reduced to
    the `IsLocked` flag of its three containers and the engine calls made on it. */
module Inventory {

  import opened ContainerTypes

  class Player {
    /** `player.UserIDString`, the key of permission lookups. */
    const userId: string
    /** `IsLocked` of `inventory.containerWear`, `containerBelt` and `containerMain`. */
    var wearLocked: bool
    var beltLocked: bool
    var mainLocked: bool
    /** How many `SetFlag(ItemContainer.Flag.IsLocked, …)` calls were made. */
    var flagWrites: nat
    /** How many `inventory.SendSnapshot()` calls were made. */
    var snapshots: nat

    constructor (userId: string, flags: LockFlags)
      ensures this.userId == userId && Flags() == flags
      ensures flagWrites == 0 && snapshots == 0
    {
      this.userId := userId;
      wearLocked, beltLocked, mainLocked := flags.wear, flags.belt, flags.main;
      flagWrites, snapshots := 0, 0;
    }

    function Flags(): LockFlags
      reads this
    {
      LockFlags(wearLocked, beltLocked, mainLocked)
    }

    /** `container.HasFlag(ItemContainer.Flag.IsLocked)`. */
    function HasFlag(c: Container): bool
      reads this
    {
      Flags().Get(c)
    }

    /** `container.SetFlag(ItemContainer.Flag.IsLocked, b)`. */
    method SetFlag(c: Container, b: bool)
      modifies this
      ensures Flags() == old(Flags()).Set(c, b)
      ensures flagWrites == old(flagWrites) + 1 && snapshots == old(snapshots)
    {
      match c {
        case ContainerWear => wearLocked := b;
        case ContainerBelt => beltLocked := b;
        case ContainerMain => mainLocked := b;
      }
      flagWrites := flagWrites + 1;
    }

    /** `inventory.SendSnapshot()`: pushes the inventory to the client. */
    method SendSnapshot()
      modifies this
      ensures Flags() == old(Flags()) && flagWrites == old(flagWrites)
      ensures snapshots == old(snapshots) + 1
    {
      snapshots := snapshots + 1;
    }
  }
}
