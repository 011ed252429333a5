/** The plugin's configuration as the hooks read it: the container types to
    lock on connect and the ordered list of locked zones. */
module Config {

  import opened Wrappers
  import opened ContainerTypes

  /** One entry of "Locked Zones": a zone id and the container types to lock in it. */
  datatype LockedZone = LockedZone(zoneId: string, containerTypes: seq<ContainerType>)

  /** "Lock On Connect" may be absent (null); "Locked Zones" is read in order.
      The "Version" entry is read only by configuration loading, which is not
      part of this model, so it is not kept. */
  datatype Configuration = Configuration(
    lockOnConnect: Option<seq<ContainerType>>,
    lockedZones: seq<LockedZone>)

  /** The types the connect hook locks: none when the list is null. */
  function ConnectTypes(config: Configuration): seq<ContainerType> {
    match config.lockOnConnect
    case None => []
    case Some(ts) => ts
  }

  /** Whether some configured zone has id `zoneId`. */
  predicate IsConfigured(zones: seq<LockedZone>, zoneId: string) {
    exists j :: 0 <= j < |zones| && zones[j].zoneId == zoneId
  }

  /** The index of the first zone whose id is `zoneId`, the one the zone
      hooks act on before they `break`. */
  function FirstZone(zones: seq<LockedZone>, zoneId: string): (r: Option<nat>)
    ensures r.Some? ==> r.value < |zones| && zones[r.value].zoneId == zoneId
    ensures r.Some? ==> forall j :: 0 <= j < r.value ==> zones[j].zoneId != zoneId
    ensures r.None? <==> !IsConfigured(zones, zoneId)
  {
    if zones == [] then None
    else if zones[0].zoneId == zoneId then Some(0)
    else
      match FirstZone(zones[1..], zoneId)
      case None =>
        assert forall j :: 0 < j < |zones| ==> zones[j] == zones[1..][j - 1];
        None
      case Some(k) =>
        assert forall j :: 0 < j <= k + 1 ==> zones[j] == zones[1..][j - 1];
        Some(k + 1)
  }

  /** Zones configured after the first match are never consulted, so
      appending entries, duplicates of the id included, changes nothing. */
  lemma {:induction false} FirstZoneIgnoresLater(zones: seq<LockedZone>, more: seq<LockedZone>, zoneId: string)
    requires IsConfigured(zones, zoneId)
    ensures FirstZone(zones + more, zoneId) == FirstZone(zones, zoneId)
  {
    if zones[0].zoneId != zoneId {
      assert (zones + more)[1..] == zones[1..] + more;
      var j :| 0 <= j < |zones| && zones[j].zoneId == zoneId;
      assert zones[1..][j - 1] == zones[j];
      FirstZoneIgnoresLater(zones[1..], more, zoneId);
    }
  }

  /** The configuration GetDefaultConfig builds, its version left aside. */
  function DefaultConfiguration(): Configuration {
    Configuration(
      Some([Clothing]),
      [ LockedZone("42626527", [Clothing, Belt]),
        LockedZone("89401263", [All]) ])
  }
}
