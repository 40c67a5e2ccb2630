/**
 * Set-AzPrivateDnsZone and Remove-AzPrivateDnsZone. A zone is named by name
 * and resource group, by a resource id, or by a zone object. The zone the
 * service returns for a lookup is a parameter (`fetched`), standing for the
 * service's answer to the lookup the outcome records.
 */
module ZoneCmdlets {
  import opened Results
  import opened Text
  import opened PrivateDnsModels
  import opened Preflight
  import opened PrivateDnsClient

  /** The three parameter sets. */
  datatype ZoneSelector =
    | ZoneByName(name: string, resourceGroupName: string)
    | ZoneById(resourceId: string)
    | ZoneByObject(zone: Zone)

  /**
   * Whether the parameters bind: `-Name`, `-ResourceGroupName` and
   * `-ResourceId` refuse the empty string before the cmdlet runs.
   */
  predicate SelectorBound(selector: ZoneSelector) {
    match selector
    case ZoneByName(name, resourceGroupName) => name != "" && resourceGroupName != ""
    case ZoneById(resourceId) => resourceId != ""
    case ZoneByObject(_) => true
  }

  /** The name and resource group a zone is looked up by. */
  datatype ZoneKey = ZoneKey(resourceGroupName: string, name: string)

  /**
   * The key of a lookup for the `Fields` and `ResourceId` sets: the resource
   * id's parts replace the name and resource group, and the name loses its
   * trailing dots. A malformed id fails as the parser does.
   */
  function LookupKey(selector: ZoneSelector, parseId: string -> Result<ResourceIdentifier>): (r: Result<ZoneKey>)
    requires !selector.ZoneByObject?
    ensures selector.ZoneByName? ==>
      r == Success(ZoneKey(selector.resourceGroupName, TrimZoneName(Some(selector.name)).value))
    ensures selector.ZoneById? ==> (r.Failure? <==> parseId(selector.resourceId).Failure?)
    ensures selector.ZoneById? && r.Success? ==>
      var id := parseId(selector.resourceId).value;
      r.value == ZoneKey(id.resourceGroupName, TrimZoneName(Some(id.resourceName)).value)
    ensures r.Success? ==> !EndsWithDot(r.value.name)
  {
    match selector
    case ZoneByName(name, resourceGroupName) => Success(ZoneKey(resourceGroupName, TrimZoneName(Some(name)).value))
    case ZoneById(resourceId) =>
      match parseId(resourceId)
      case Failure(e) => Failure(e)
      case Success(id) => Success(ZoneKey(id.resourceGroupName, TrimZoneName(Some(id.resourceName)).value))
  }

  /**
   * The zone name as the cmdlet was given it, before its trailing dots are
   * removed: `-Name`, or the resource name of the id (none for a malformed id).
   */
  function GivenName(selector: ZoneSelector, parseId: string -> Result<ResourceIdentifier>): (r: Option<string>)
    requires !selector.ZoneByObject?
    ensures r.Some? <==> LookupKey(selector, parseId).Success?
    ensures r.Some? ==> TrimZoneName(r) == Some(LookupKey(selector, parseId).value.name)
    ensures selector.ZoneByName? ==> r == Some(selector.name)
  {
    match selector
    case ZoneByName(name, _) => Some(name)
    case ZoneById(resourceId) =>
      match parseId(resourceId)
      case Failure(_) => None
      case Success(id) => Some(id.resourceName)
  }

  /** The zone object a cmdlet may change: the caller's, or else the one the service returned. */
  function ZoneFrame(selector: ZoneSelector, fetched: CloudResponse<Zone>): set<object> {
    if selector.ZoneByObject? then {selector.zone} else if fetched.Found? then {fetched.item} else {}
  }

  /** What Set sends: the zone looked up (if any) and the update. */
  datatype ZoneUpdate = ZoneUpdate(lookup: Option<ZoneKey>, request: Request)

  /**
   * `Set-AzPrivateDnsZone`. By name or id, the zone is read from the service
   * (a missing zone fails with the service's error), its Etag is replaced by
   * `*` and its tags by `-Tags` (absent tags are sent as none), and the update
   * is unconditional. By object, the Etag rule applies and the update is
   * guarded by the object's Etag unless `-Overwrite`. Either way the updated
   * zone object's name loses its trailing dots in place. Each trim writes a
   * warning: the given name's first, then the updated object's.
   */
  method SetZone(
    selector: ZoneSelector, tags: Option<Tags>, overwriteSwitch: bool,
    parseId: string -> Result<ResourceIdentifier>, fetched: CloudResponse<Zone>)
    returns (r: Result<ZoneUpdate>, warnings: seq<Warning>)
    modifies ZoneFrame(selector, fetched)
    ensures !SelectorBound(selector) ==>
      && r == Failure(ParameterValidationException) && warnings == []
      && (fetched.Found? ==> unchanged(fetched.item))
    ensures selector.ZoneByObject? && EtagCheck(old(selector.zone.etag), overwriteSwitch).Failure? ==>
      r == Failure(PSArgumentException) && warnings == [] && unchanged(selector.zone)
    ensures selector.ZoneByObject? && EtagCheck(old(selector.zone.etag), overwriteSwitch).Success? ==>
      var zone := selector.zone;
      && warnings == TrimWarning(old(zone.name), ZoneNameTrimmed)
      && r.Success? && r.value.lookup.None?
      && zone.name == TrimZoneName(old(zone.name))
      && zone.etag == old(zone.etag) && zone.tags == old(zone.tags) && zone.resourceGroupName == old(zone.resourceGroupName)
      && r.value.request == PutZone(zone.resourceGroupName, zone.name, DnsResourceLocation, zone.tags,
                                    if overwriteSwitch then None else zone.etag, None)
    ensures SelectorBound(selector) && !selector.ZoneByObject? && LookupKey(selector, parseId).Failure? ==>
      && r == Failure(LookupKey(selector, parseId).error) && warnings == []
      && (fetched.Found? ==> unchanged(fetched.item))
    ensures SelectorBound(selector) && !selector.ZoneByObject? && LookupKey(selector, parseId).Success? ==>
      (r.Success? <==> fetched.Found?) &&
      (fetched.CloudError? ==>
        r == Failure(CloudException(fetched.code)) && warnings == TrimWarning(GivenName(selector, parseId), ZoneNameTrimmed))
    ensures !selector.ZoneByObject? && r.Success? ==>
      var zone := fetched.item;
      && warnings == TrimWarning(GivenName(selector, parseId), ZoneNameTrimmed) + TrimWarning(old(zone.name), ZoneNameTrimmed)
      && r.value.lookup == Some(LookupKey(selector, parseId).value)
      && zone.etag == Some("*") && zone.tags == tags
      && zone.name == TrimZoneName(old(zone.name)) && zone.resourceGroupName == old(zone.resourceGroupName)
      && r.value.request == PutZone(zone.resourceGroupName, zone.name, DnsResourceLocation, tags, None, None)
  {
    warnings := [];
    if !SelectorBound(selector) {
      return Failure(ParameterValidationException), warnings;
    }
    var zoneToUpdate: Zone;
    var lookup: Option<ZoneKey> := None;
    if !selector.ZoneByObject? {
      var key := LookupKey(selector, parseId);
      if key.Failure? {
        return Failure(key.error), warnings;
      }
      lookup := Some(key.value);
      warnings := warnings + TrimWarning(GivenName(selector, parseId), ZoneNameTrimmed);
      if fetched.CloudError? {
        return Failure(CloudException(fetched.code)), warnings;
      }
      zoneToUpdate := fetched.item;
      zoneToUpdate.etag := Some("*");
      zoneToUpdate.tags := tags;
    } else {
      if EtagCheck(selector.zone.etag, overwriteSwitch).Failure? {
        return Failure(PSArgumentException), warnings;
      }
      zoneToUpdate := selector.zone;
    }
    if zoneToUpdate.name.Some? && EndsWithDot(zoneToUpdate.name.value) {
      zoneToUpdate.name := Some(TrimEndDots(zoneToUpdate.name.value));
      warnings := warnings + [ZoneNameTrimmed];
    }
    var overwrite := EffectiveOverwrite(overwriteSwitch, selector.ZoneByObject?);
    r := Success(ZoneUpdate(lookup, UpdateZoneRequest(zoneToUpdate, overwrite)));
  }

  /** What Remove does: the lookup (if any), the delete (if any), and its output. */
  datatype ZoneRemoval = ZoneRemoval(lookup: Option<ZoneKey>, request: Option<Request>, output: seq<bool>)

  /**
   * `Remove-AzPrivateDnsZone`. By name or id, the zone is looked up and a
   * zone that does not exist is not an error: the cmdlet warns and stops.
   * Other service errors fail. By object, the Etag rule applies. The delete
   * is guarded by the object's Etag only for an object without `-Overwrite`;
   * the deleted zone object's name loses its trailing dots in place.
   * `-PassThru` writes `true`. Each trim writes a warning: the given name's
   * first, then the deleted object's.
   */
  method RemoveZone(
    selector: ZoneSelector, overwriteSwitch: bool, passThru: bool,
    parseId: string -> Result<ResourceIdentifier>, fetched: CloudResponse<Zone>)
    returns (r: Result<ZoneRemoval>, warnings: seq<Warning>)
    modifies ZoneFrame(selector, fetched)
    ensures !SelectorBound(selector) ==>
      && r == Failure(ParameterValidationException) && warnings == []
      && (fetched.Found? ==> unchanged(fetched.item))
    ensures selector.ZoneByObject? && EtagCheck(old(selector.zone.etag), overwriteSwitch).Failure? ==>
      r == Failure(PSArgumentException) && warnings == [] && unchanged(selector.zone)
    ensures selector.ZoneByObject? && EtagCheck(old(selector.zone.etag), overwriteSwitch).Success? ==>
      var zone := selector.zone;
      && warnings == TrimWarning(old(zone.name), ZoneNameTrimmed)
      && zone.name == TrimZoneName(old(zone.name))
      && zone.etag == old(zone.etag) && zone.resourceGroupName == old(zone.resourceGroupName) && zone.tags == old(zone.tags)
      && r == Success(ZoneRemoval(None, Some(DeleteZone(zone.resourceGroupName, zone.name,
                                                         GuardedIfMatch(zone.etag, overwriteSwitch))),
                                  if passThru then [true] else []))
    ensures SelectorBound(selector) && !selector.ZoneByObject? && LookupKey(selector, parseId).Failure? ==>
      && r == Failure(LookupKey(selector, parseId).error) && warnings == []
      && (fetched.Found? ==> unchanged(fetched.item))
    ensures SelectorBound(selector) && !selector.ZoneByObject? && LookupKey(selector, parseId).Success? ==>
      var given := TrimWarning(GivenName(selector, parseId), ZoneNameTrimmed);
      match HandleNonExistent(fetched)
      case Failure(e) => r == Failure(e) && warnings == given
      case Success(None) =>
        && r == Success(ZoneRemoval(Some(LookupKey(selector, parseId).value), None, []))
        && warnings == given + [InvalidZoneDetails]
      case Success(Some(zone)) =>
        && warnings == given + TrimWarning(old(zone.name), ZoneNameTrimmed)
        && zone.name == TrimZoneName(old(zone.name)) && zone.tags == old(zone.tags)
        && zone.etag == old(zone.etag) && zone.resourceGroupName == old(zone.resourceGroupName)
        && r == Success(ZoneRemoval(Some(LookupKey(selector, parseId).value),
                                    Some(DeleteZone(zone.resourceGroupName, zone.name, Some("*"))),
                                    if passThru then [true] else []))
  {
    warnings := [];
    if !SelectorBound(selector) {
      return Failure(ParameterValidationException), warnings;
    }
    var deleted := true;
    var overwrite := EffectiveOverwrite(overwriteSwitch, selector.ZoneByObject?);
    var zoneToDelete: Zone;
    var lookup: Option<ZoneKey> := None;
    if !selector.ZoneByObject? {
      var key := LookupKey(selector, parseId);
      if key.Failure? {
        return Failure(key.error), warnings;
      }
      lookup := Some(key.value);
      warnings := warnings + TrimWarning(GivenName(selector, parseId), ZoneNameTrimmed);
      var found := HandleNonExistent(fetched);
      if found.Failure? {
        return Failure(found.error), warnings;
      }
      if found.value.None? {
        warnings := warnings + [InvalidZoneDetails];
        return Success(ZoneRemoval(lookup, None, [])), warnings;
      }
      zoneToDelete := found.value.value;
    } else {
      zoneToDelete := selector.zone;
    }
    if EtagCheck(zoneToDelete.etag, overwrite).Failure? {
      return Failure(PSArgumentException), warnings;
    }
    if zoneToDelete.name.Some? && EndsWithDot(zoneToDelete.name.value) {
      zoneToDelete.name := Some(TrimEndDots(zoneToDelete.name.value));
      warnings := warnings + [ZoneNameTrimmed];
    }
    var request := DeleteZoneRequest(zoneToDelete, overwrite);
    r := Success(ZoneRemoval(lookup, Some(request), if passThru then [deleted] else []));
  }
}
