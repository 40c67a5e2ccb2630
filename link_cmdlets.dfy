/**
 * Set-AzPrivateDnsVirtualNetworkLink and Remove-AzPrivateDnsVirtualNetworkLink.
 * A link is named by resource group, zone name and link name, by a resource
 * id, or by a link object. The client's link operations are not part of this
 * model: a call is recorded as the link value and `overwrite` flag the
 * cmdlet hands to the client, and the link the service returns for a lookup
 * is a parameter.
 */
module LinkCmdlets {
  import opened Results
  import opened Text
  import opened PrivateDnsModels
  import opened Preflight
  import opened PrivateDnsClient

  /** The three parameter sets. */
  datatype LinkSelector =
    | LinkByName(resourceGroupName: string, zoneName: string, name: string)
    | LinkById(resourceId: string)
    | LinkByObject(link: Link)

  /**
   * Whether the parameters bind: `-ResourceGroupName`, `-ZoneName`, `-Name`
   * and `-ResourceId` refuse the empty string before the cmdlet runs.
   */
  predicate SelectorBound(selector: LinkSelector) {
    match selector
    case LinkByName(resourceGroupName, zoneName, name) => resourceGroupName != "" && zoneName != "" && name != ""
    case LinkById(resourceId) => resourceId != ""
    case LinkByObject(_) => true
  }

  /** The resource group, zone name and link name a link is looked up by. */
  datatype LinkKey = LinkKey(resourceGroupName: string, zoneName: string, name: string)

  /** `s.Split('/').Last()`: what follows the last `/`, or all of `s` when it has none. */
  function LastSegment(s: string): (r: string)
    ensures '/' !in r
    ensures '/' !in s ==> r == s
  {
    var parts := Split(s, '/');
    SplitPiecesHaveNoSeparator(s, '/');
    assert parts[|parts| - 1] in parts;
    assert '/' !in s ==> parts == [s] by {
      if '/' !in s { SplitWithoutSeparator(s, '/'); }
    }
    parts[|parts| - 1]
  }

  /** The link id's last segment is the link's zone: `.../privateDnsZones/<zone>`. */
  lemma {:induction false} LastSegmentOfParent(prefix: string, zone: string)
    requires '/' !in zone
    ensures LastSegment(prefix + "/" + zone) == zone
  {
    SplitAround(prefix, zone, '/');
    SplitWithoutSeparator(zone, '/');
  }

  /**
   * The key of a lookup for the `Fields` and `ResourceId` sets. An id gives
   * the resource group, the link name (the resource name) and the zone name
   * (the last segment of the parent resource); the zone name then loses its
   * trailing dots, the link name does not.
   */
  function LinkLookupKey(selector: LinkSelector, parseId: string -> Result<ResourceIdentifier>): (r: Result<LinkKey>)
    requires !selector.LinkByObject?
    ensures selector.LinkByName? ==>
      r == Success(LinkKey(selector.resourceGroupName, TrimZoneName(Some(selector.zoneName)).value, selector.name))
    ensures selector.LinkById? ==> (r.Failure? <==> parseId(selector.resourceId).Failure?)
    ensures selector.LinkById? && r.Success? ==>
      var id := parseId(selector.resourceId).value;
      r.value == LinkKey(id.resourceGroupName, TrimZoneName(Some(LastSegment(id.parentResource))).value, id.resourceName)
    ensures r.Success? ==> !EndsWithDot(r.value.zoneName)
  {
    match selector
    case LinkByName(resourceGroupName, zoneName, name) =>
      Success(LinkKey(resourceGroupName, TrimZoneName(Some(zoneName)).value, name))
    case LinkById(resourceId) =>
      match parseId(resourceId)
      case Failure(e) => Failure(e)
      case Success(id) =>
        Success(LinkKey(id.resourceGroupName, TrimZoneName(Some(LastSegment(id.parentResource))).value, id.resourceName))
  }

  /**
   * A link id `.../privateDnsZones/<zone>/virtualNetworkLinks/<name>` is
   * looked up in the zone its parent resource ends with, without trailing dots.
   */
  lemma {:induction false} LinkIdLookupNamesParentZone(
    resourceId: string, parseId: string -> Result<ResourceIdentifier>,
    resourceGroupName: string, prefix: string, zone: string, name: string)
    requires parseId(resourceId) == Success(ResourceIdentifier(resourceGroupName, name, prefix + "/" + zone))
    requires '/' !in zone
    ensures LinkLookupKey(LinkById(resourceId), parseId) == Success(LinkKey(resourceGroupName, TrimEndDots(zone), name))
  {
    LastSegmentOfParent(prefix, zone);
    TrimZoneNameIsTrimEnd(zone);
  }

  /** Trailing dots on `-ZoneName` do not change which link is looked up. */
  lemma {:induction false} LinkLookupIgnoresTrailingDots(
    resourceGroupName: string, zone: string, name: string, dots: nat, parseId: string -> Result<ResourceIdentifier>)
    requires !EndsWithDot(zone)
    ensures LinkLookupKey(LinkByName(resourceGroupName, zone + seq(dots, _ => '.'), name), parseId)
         == Success(LinkKey(resourceGroupName, zone, name))
  {
    TrimZoneNameIsTrimEnd(zone + seq(dots, _ => '.'));
    TrimEndDotsOfDotted(zone, dots);
  }

  /** A call of the client's `UpdatePrivateDnsLink` or `DeletePrivateDnsLink`. */
  datatype LinkCall =
    | UpdateLink(link: LinkData, overwrite: bool)
    | DeleteLink(link: LinkData, overwrite: bool)

  /**
   * The zone name as the cmdlet was given it, before its trailing dots are
   * removed: `-ZoneName`, or the last segment of the id's parent resource
   * (none for a malformed id).
   */
  function GivenZoneName(selector: LinkSelector, parseId: string -> Result<ResourceIdentifier>): (r: Option<string>)
    requires !selector.LinkByObject?
    ensures r.Some? <==> LinkLookupKey(selector, parseId).Success?
    ensures r.Some? ==> TrimZoneName(r) == Some(LinkLookupKey(selector, parseId).value.zoneName)
    ensures selector.LinkByName? ==> r == Some(selector.zoneName)
  {
    match selector
    case LinkByName(_, zoneName, _) => Some(zoneName)
    case LinkById(resourceId) =>
      match parseId(resourceId)
      case Failure(_) => None
      case Success(id) => Some(LastSegment(id.parentResource))
  }

  /** The link object Set may change: the caller's, or else the one the service returned. */
  function SetFrame(selector: LinkSelector, fetched: CloudResponse<Link>): set<object> {
    if selector.LinkByObject? then {selector.link} else if fetched.Found? then {fetched.item} else {}
  }

  /** The link object Remove may change: the caller's, or else the one the lookup found. */
  function RemoveFrame(selector: LinkSelector, fetched: Result<Option<Link>>): set<object> {
    if selector.LinkByObject? then {selector.link}
    else if fetched.Success? && fetched.value.Some? then {fetched.value.value}
    else {}
  }

  /** What Set does: the lookup (if any) and the update call. */
  datatype LinkUpdate = LinkUpdate(lookup: Option<LinkKey>, call: LinkCall)

  /**
   * `Set-AzPrivateDnsVirtualNetworkLink`. By name or id, the link is read
   * from the service (a missing link fails with the service's error), its Etag becomes `*`, its tags become
   * `-Tags`, its zone name the trimmed one, and its registration flag
   * `-IsRegistrationEnabled` (false when not given); the update overwrites.
   * By object, the Etag rule applies and the object is sent as it is, with
   * `overwrite` only if `-Overwrite`. Trimming the given zone name writes a
   * warning; the object path writes none.
   */
  method SetLink(
    selector: LinkSelector, tags: Option<Tags>, isRegistrationEnabled: bool, overwriteSwitch: bool,
    parseId: string -> Result<ResourceIdentifier>, fetched: CloudResponse<Link>)
    returns (r: Result<LinkUpdate>, warnings: seq<Warning>)
    modifies SetFrame(selector, fetched)
    ensures !SelectorBound(selector) ==>
      && r == Failure(ParameterValidationException) && warnings == []
      && (fetched.Found? ==> unchanged(fetched.item))
    ensures selector.LinkByObject? ==> unchanged(selector.link) && warnings == []
    ensures selector.LinkByObject? && EtagCheck(selector.link.etag, overwriteSwitch).Failure? ==>
      r == Failure(PSArgumentException)
    ensures selector.LinkByObject? && EtagCheck(selector.link.etag, overwriteSwitch).Success? ==>
      r == Success(LinkUpdate(None, UpdateLink(selector.link.Data(), overwriteSwitch)))
    ensures SelectorBound(selector) && !selector.LinkByObject? && LinkLookupKey(selector, parseId).Failure? ==>
      && r == Failure(LinkLookupKey(selector, parseId).error) && warnings == []
      && (fetched.Found? ==> unchanged(fetched.item))
    ensures SelectorBound(selector) && !selector.LinkByObject? && LinkLookupKey(selector, parseId).Success? ==>
      warnings == TrimWarning(GivenZoneName(selector, parseId), ZoneNameTrimmed)
    ensures SelectorBound(selector) && !selector.LinkByObject? && LinkLookupKey(selector, parseId).Success? ==>
      match fetched
      case CloudError(code) => r == Failure(CloudException(code))
      case Found(link) =>
        var key := LinkLookupKey(selector, parseId).value;
        && link.Data() == old(link.Data()).(etag := Some("*"), tags := tags, zoneName := Some(key.zoneName),
                                           registrationEnabled := isRegistrationEnabled)
        && r == Success(LinkUpdate(Some(key), UpdateLink(link.Data(), true)))
  {
    warnings := [];
    if !SelectorBound(selector) {
      return Failure(ParameterValidationException), warnings;
    }
    var linkToUpdate: Link;
    var lookup: Option<LinkKey> := None;
    if !selector.LinkByObject? {
      var key := LinkLookupKey(selector, parseId);
      if key.Failure? {
        return Failure(key.error), warnings;
      }
      lookup := Some(key.value);
      warnings := warnings + TrimWarning(GivenZoneName(selector, parseId), ZoneNameTrimmed);
      if fetched.CloudError? {
        return Failure(CloudException(fetched.code)), warnings;
      }
      linkToUpdate := fetched.item;
      linkToUpdate.etag := Some("*");
      linkToUpdate.tags := tags;
      linkToUpdate.zoneName := Some(key.value.zoneName);
      linkToUpdate.registrationEnabled := isRegistrationEnabled;
    } else {
      if EtagCheck(selector.link.etag, overwriteSwitch).Failure? {
        return Failure(PSArgumentException), warnings;
      }
      linkToUpdate := selector.link;
    }
    var overwrite := EffectiveOverwrite(overwriteSwitch, selector.LinkByObject?);
    r := Success(LinkUpdate(lookup, UpdateLink(linkToUpdate.Data(), overwrite)));
  }

  /** What Remove does: the lookup (if any), the delete call (if any), and its output. */
  datatype LinkRemoval = LinkRemoval(lookup: Option<LinkKey>, call: Option<LinkCall>, output: seq<bool>)

  /**
   * `Remove-AzPrivateDnsVirtualNetworkLink`. By name or id, a link (or zone)
   * that does not exist is not an error (`fetched` is `Success(None)`): the
   * cmdlet warns and stops. By object, the Etag rule applies. The deleted
   * link object's zone name loses its trailing dots in place. `-PassThru`
   * writes `true`. Each trim writes a warning: the given zone name's first,
   * then the deleted object's.
   */
  method RemoveLink(
    selector: LinkSelector, overwriteSwitch: bool, passThru: bool,
    parseId: string -> Result<ResourceIdentifier>, fetched: Result<Option<Link>>)
    returns (r: Result<LinkRemoval>, warnings: seq<Warning>)
    modifies RemoveFrame(selector, fetched)
    ensures !SelectorBound(selector) ==>
      && r == Failure(ParameterValidationException) && warnings == []
      && (fetched.Success? && fetched.value.Some? ==> unchanged(fetched.value.value))
    ensures selector.LinkByObject? && EtagCheck(old(selector.link.etag), overwriteSwitch).Failure? ==>
      r == Failure(PSArgumentException) && warnings == [] && unchanged(selector.link)
    ensures selector.LinkByObject? && EtagCheck(old(selector.link.etag), overwriteSwitch).Success? ==>
      var link := selector.link;
      && warnings == TrimWarning(old(link.zoneName), ZoneNameTrimmed)
      && link.Data() == old(link.Data()).(zoneName := TrimZoneName(old(link.zoneName)))
      && r == Success(LinkRemoval(None, Some(DeleteLink(link.Data(), overwriteSwitch)), if passThru then [true] else []))
    ensures SelectorBound(selector) && !selector.LinkByObject? && LinkLookupKey(selector, parseId).Failure? ==>
      && r == Failure(LinkLookupKey(selector, parseId).error) && warnings == []
      && (fetched.Success? && fetched.value.Some? ==> unchanged(fetched.value.value))
    ensures SelectorBound(selector) && !selector.LinkByObject? && LinkLookupKey(selector, parseId).Success? ==>
      var key := LinkLookupKey(selector, parseId).value;
      var given := TrimWarning(GivenZoneName(selector, parseId), ZoneNameTrimmed);
      match fetched
      case Failure(e) => r == Failure(e) && warnings == given
      case Success(None) =>
        r == Success(LinkRemoval(Some(key), None, [])) && warnings == given + [InvalidLinkDetails]
      case Success(Some(link)) =>
        && warnings == given + TrimWarning(old(link.zoneName), ZoneNameTrimmed)
        && link.Data() == old(link.Data()).(zoneName := TrimZoneName(old(link.zoneName)))
        && r == Success(LinkRemoval(Some(key), Some(DeleteLink(link.Data(), true)), if passThru then [true] else []))
  {
    warnings := [];
    if !SelectorBound(selector) {
      return Failure(ParameterValidationException), warnings;
    }
    var deleted := true;
    var overwrite := EffectiveOverwrite(overwriteSwitch, selector.LinkByObject?);
    var linkToDelete: Link;
    var lookup: Option<LinkKey> := None;
    if !selector.LinkByObject? {
      var key := LinkLookupKey(selector, parseId);
      if key.Failure? {
        return Failure(key.error), warnings;
      }
      lookup := Some(key.value);
      warnings := warnings + TrimWarning(GivenZoneName(selector, parseId), ZoneNameTrimmed);
      if fetched.Failure? {
        return Failure(fetched.error), warnings;
      }
      if fetched.value.None? {
        warnings := warnings + [InvalidLinkDetails];
        return Success(LinkRemoval(lookup, None, [])), warnings;
      }
      linkToDelete := fetched.value.value;
    } else {
      linkToDelete := selector.link;
    }
    if EtagCheck(linkToDelete.etag, overwrite).Failure? {
      return Failure(PSArgumentException), warnings;
    }
    if linkToDelete.zoneName.Some? && EndsWithDot(linkToDelete.zoneName.value) {
      linkToDelete.zoneName := Some(TrimEndDots(linkToDelete.zoneName.value));
      warnings := warnings + [ZoneNameTrimmed];
    }
    r := Success(LinkRemoval(lookup, Some(DeleteLink(linkToDelete.Data(), overwrite)), if passThru then [deleted] else []));
  }
}
