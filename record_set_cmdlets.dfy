/**
 * The record-set cmdlets: New-, Get-, Set- and Remove-AzPrivateDnsRecordSet.
 * Each picks the zone and resource group from its parameter set, removes
 * trailing dots from the names it is given, applies the Etag rule, and ends
 * in one client call, modelled here as the request the client would send.
 * Confirmation prompts are taken as confirmed.
 */
module RecordSetCmdlets {
  import opened Results
  import opened Text
  import opened PrivateDnsModels
  import opened Preflight
  import opened PrivateDnsClient

  /**
   * How a cmdlet is told the zone: by name and resource group (the
   * `Fields`/`AliasFields` sets), or by a zone object (`Object`/`AliasObject`).
   * The alias sets differ only in whether `-Ttl` is mandatory.
   */
  datatype ZoneTarget =
    | ZoneFields(zoneName: string, resourceGroupName: string)
    | ZoneObject(zone: Zone)

  /** Whether `-ZoneName` and `-ResourceGroupName` bind: they refuse the empty string. */
  predicate TargetBound(target: ZoneTarget) {
    target.ZoneFields? ==> target.zoneName != "" && target.resourceGroupName != ""
  }

  function TargetFrame(target: ZoneTarget): set<object> {
    if target.ZoneObject? then {target.zone} else {}
  }

  function TargetZoneName(target: ZoneTarget): Option<string>
    reads TargetFrame(target)
  {
    match target
    case ZoneFields(zoneName, _) => Some(zoneName)
    case ZoneObject(zone) => zone.name
  }

  function TargetResourceGroup(target: ZoneTarget): Option<string>
    reads TargetFrame(target)
  {
    match target
    case ZoneFields(_, resourceGroupName) => Some(resourceGroupName)
    case ZoneObject(zone) => zone.resourceGroupName
  }

  /** The `-Ttl` property of New: the bound value, or 0 when it was not given. */
  function TtlProperty(ttlValue: Option<UInt32>): (ttl: UInt32)
    ensures ttlValue.None? ==> ttl == 0
    ensures ttlValue.Some? ==> ttl == ttlValue.value
  {
    ttlValue.GetOr(0)
  }

  /**
   * The name-ends-with-zone-name warning of New as written: the record-set
   * name is compared with the zone name before its trailing dots are removed.
   */
  predicate NameEndsWithZoneAsWritten(name: string, zoneName: Option<string>) {
    zoneName.Some? && EndsWith(name, zoneName.value)
  }

  /** The warning compared with the zone name the record set is created in. */
  predicate NameEndsWithZone(name: string, zoneName: Option<string>) {
    var zone := TrimZoneName(zoneName);
    zone.Some? && EndsWith(name, zone.value)
  }

  /**
   * As written, a zone name given with a terminating dot hides the warning
   * for a name that repeats the zone: `www.contoso.com` in `contoso.com.`.
   */
  lemma NameEndsWithZoneMissedWithDot()
    ensures !NameEndsWithZoneAsWritten("www.contoso.com", Some("contoso.com."))
    ensures NameEndsWithZone("www.contoso.com", Some("contoso.com."))
  {
    var name := "www.contoso.com";
    assert name[|name| - |"contoso.com."|..] != "contoso.com." by {
      assert name[|name| - |"contoso.com."|..][11] == 'm';
    }
    var zone := "contoso.com";
    TrimEndDotsOfDotted(zone, 1);
    assert zone + seq(1, _ => '.') == "contoso.com.";
    assert name[|name| - |zone|..] == zone;
  }

  /**
   * Corrected, the warning does not depend on terminating dots of the zone
   * name: it is the same for `z` and for `z` followed by dots.
   */
  lemma {:induction false} NameEndsWithZoneIgnoresDots(name: string, zone: string, n: nat)
    requires !EndsWithDot(zone)
    ensures NameEndsWithZone(name, Some(zone + seq(n, _ => '.'))) == NameEndsWithZone(name, Some(zone))
  {
    TrimEndDotsOfDotted(zone, n);
    TrimZoneNameIsTrimEnd(zone + seq(n, _ => '.'));
    TrimZoneNameIsTrimEnd(zone);
    TrimEndDotsKeepsUndotted(zone);
  }

  /**
   * The warnings of New as written, in order: the name-ends-with-zone test
   * on the zone name as given, the trim, and missing records.
   */
  function NewRecordSetWarnings(name: string, zoneName: Option<string>, records: Option<seq<Record>>): seq<Warning> {
    (if NameEndsWithZoneAsWritten(name, zoneName) then [NameEndsWithZoneName] else []) +
    TrimWarning(zoneName, ZoneNameTrimmed) +
    (if records.None? then [RecordsNotSpecified] else [])
  }

  /** The warnings of New with the name test made on the zone actually used. */
  function NewRecordSetWarningsIntended(name: string, zoneName: Option<string>, records: Option<seq<Record>>): seq<Warning> {
    (if NameEndsWithZone(name, zoneName) then [NameEndsWithZoneName] else []) +
    TrimWarning(zoneName, ZoneNameTrimmed) +
    (if records.None? then [RecordsNotSpecified] else [])
  }

  /**
   * The written and the intended warnings differ only for a zone name given
   * with terminating dots: otherwise the zone used is the zone given.
   */
  lemma {:induction false} NewRecordSetWarningsAgreeUndotted(name: string, zoneName: Option<string>, records: Option<seq<Record>>)
    requires zoneName.Some? ==> !EndsWithDot(zoneName.value)
    ensures NewRecordSetWarnings(name, zoneName, records) == NewRecordSetWarningsIntended(name, zoneName, records)
  {
    assert TrimZoneName(zoneName) == zoneName;
  }

  /** Whether New's parameters bind: `-Name` refuses the empty string too. */
  predicate NewBound(name: string, target: ZoneTarget) {
    name != "" && TargetBound(target)
  }

  /**
   * `New-AzPrivateDnsRecordSet`: refuses SOA (`ArgumentException`), takes the
   * zone from the parameter set with its trailing dots removed, and creates
   * the record set from the given records (create-only unless `-Overwrite`).
   * The TTL sent is the bound `-Ttl`, or none when it was not given.
   */
  method NewRecordSet(
    name: string, target: ZoneTarget, ttlValue: Option<UInt32>, recordType: RecordType,
    metadata: Option<Tags>, records: Option<seq<Record>>, overwrite: bool)
    returns (r: Result<Request>, warnings: seq<Warning>)
    ensures !NewBound(name, target) ==> r == Failure(ParameterValidationException) && warnings == []
    ensures NewBound(name, target) && recordType == SOA ==> r == Failure(ArgumentException) && warnings == []
    ensures NewBound(name, target) && recordType != SOA ==> warnings == NewRecordSetWarnings(name, TargetZoneName(target), records)
    ensures NewBound(name, target) && recordType != SOA ==> (r.Failure? <==> RejectedRecords(recordType, records))
    ensures NewBound(name, target) && r.Failure? ==> r.error == ArgumentException
    ensures r.Success? ==> r.value.PutRecordSet? && fresh(r.value.body)
    ensures r.Success? ==> r.value.zoneName == TrimZoneName(TargetZoneName(target))
    ensures r.Success? ==> r.value.resourceGroupName == TargetResourceGroup(target)
    ensures r.Success? ==> r.value.relativeName == Some(name) && r.value.recordType == recordType
    ensures r.Success? ==> r.value.ifMatch.None? && r.value.ifNoneMatch == (if overwrite then None else Some("*"))
    ensures r.Success? ==> IsCreateBody(r.value.body, recordType, ttlValue, metadata, records)
  {
    warnings := [];
    if !NewBound(name, target) {
      return Failure(ParameterValidationException), warnings;
    }
    if recordType == SOA {
      return Failure(ArgumentException), warnings;
    }
    var zoneName := TargetZoneName(target);
    var resourceGroupName := TargetResourceGroup(target);
    if NameEndsWithZoneAsWritten(name, zoneName) {
      warnings := warnings + [NameEndsWithZoneName];
    }
    if zoneName.Some? && EndsWithDot(zoneName.value) {
      zoneName := Some(TrimEndDots(zoneName.value));
      warnings := warnings + [ZoneNameTrimmed];
    }
    if records.None? {
      warnings := warnings + [RecordsNotSpecified];
    }
    r := CreatePrivateDnsRecordSet(zoneName, resourceGroupName, name, ttlValue, recordType, metadata, overwrite, records);
  }

  /** The service call Get ends in. */
  datatype RecordSetQuery =
    | GetOne(resourceGroupName: Option<string>, zoneName: Option<string>, recordType: RecordType, relativeName: string)
    | ListByType(resourceGroupName: Option<string>, zoneName: Option<string>, recordType: RecordType)
    | ListAll(resourceGroupName: Option<string>, zoneName: Option<string>)

  /** What Get does: its query (or the error it throws) and the warnings written before. */
  datatype GetOutcome = GetOutcome(query: Result<RecordSetQuery>, warnings: seq<Warning>)

  /** Whether Get's parameters bind: a given `-Name` refuses the empty string too. */
  predicate GetBound(name: Option<string>, target: ZoneTarget) {
    (name.Some? ==> name.value != "") && TargetBound(target)
  }

  /**
   * `Get-AzPrivateDnsRecordSet`: with `-Name` it reads one record set and then
   * needs `-RecordType` (`PSArgumentException` otherwise); without it lists
   * the zone's record sets, of one type if given. The zone name loses its
   * trailing dots; the record-set name is used as given.
   */
  function GetRecordSet(name: Option<string>, target: ZoneTarget, recordType: Option<RecordType>): (r: GetOutcome)
    reads TargetFrame(target)
    ensures !GetBound(name, target) ==> r == GetOutcome(Failure(ParameterValidationException), [])
    ensures GetBound(name, target) ==> r.warnings == TrimWarning(TargetZoneName(target), ZoneNameTrimmed)
    ensures GetBound(name, target) ==> (r.query.Failure? <==> name.Some? && recordType.None?)
    ensures GetBound(name, target) && r.query.Failure? ==> r.query.error == PSArgumentException
    ensures r.query.Success? ==> r.query.value.zoneName == TrimZoneName(TargetZoneName(target))
    ensures r.query.Success? ==> r.query.value.resourceGroupName == TargetResourceGroup(target)
    ensures r.query.Success? ==>
      (r.query.value.GetOne? <==> name.Some?) && (r.query.value.ListAll? <==> name.None? && recordType.None?)
    ensures r.query.Success? && !r.query.value.ListAll? ==> r.query.value.recordType == recordType.value
    ensures r.query.Success? && r.query.value.GetOne? ==> r.query.value.relativeName == name.value
  {
    var zoneName := TrimZoneName(TargetZoneName(target));
    var resourceGroupName := TargetResourceGroup(target);
    var warnings := TrimWarning(TargetZoneName(target), ZoneNameTrimmed);
    if !GetBound(name, target) then GetOutcome(Failure(ParameterValidationException), [])
    else if name.Some? then
      if recordType.None? then GetOutcome(Failure(PSArgumentException), warnings)
      else GetOutcome(Success(GetOne(resourceGroupName, zoneName, recordType.value, name.value)), warnings)
    else if recordType.None? then GetOutcome(Success(ListAll(resourceGroupName, zoneName)), warnings)
    else GetOutcome(Success(ListByType(resourceGroupName, zoneName, recordType.value)), warnings)
  }

  /**
   * `Set-AzPrivateDnsRecordSet`: applies the Etag rule, then updates a clone
   * of the record set whose zone name has lost its trailing dots. The caller's
   * object is left as it is.
   */
  method SetRecordSet(recordSet: RecordSet, overwrite: bool) returns (r: Result<Request>, warnings: seq<Warning>)
    ensures EtagCheck(recordSet.etag, overwrite).Failure? ==> r == Failure(PSArgumentException) && warnings == []
    ensures EtagCheck(recordSet.etag, overwrite).Success? ==>
      warnings == (if recordSet.zoneName.Some? && EndsWithDot(recordSet.zoneName.value) then [ZoneNameTrimmed] else [])
    ensures EtagCheck(recordSet.etag, overwrite).Success? && recordSet.records.None? ==> r == Failure(ArgumentNullException)
    ensures EtagCheck(recordSet.etag, overwrite).Success? && recordSet.records.Some? ==>
      (r.Failure? <==> recordSet.recordType in {CNAME, SOA} && |OfType(recordSet.records.value, recordSet.recordType)| > 1)
    ensures r.Success? ==> r.value.PutRecordSet? && fresh(r.value.body)
    ensures r.Success? ==> r.value.zoneName == TrimZoneName(recordSet.zoneName)
    ensures r.Success? ==> r.value.resourceGroupName == recordSet.resourceGroupName
    ensures r.Success? ==> r.value.relativeName == recordSet.name && r.value.recordType == recordSet.recordType
    ensures r.Success? ==> r.value.ifMatch == GuardedIfMatch(recordSet.etag, overwrite) && r.value.ifNoneMatch.None?
    ensures r.Success? ==> r.value.body.OnlyField(recordSet.recordType)
    ensures r.Success? ==> r.value.body.FieldRecords(recordSet.recordType) == OfType(recordSet.records.value, recordSet.recordType)
    ensures r.Success? && recordSet.recordType !in {CNAME, SOA} ==>
      r.value.body.Field(recordSet.recordType) == Some(OfType(recordSet.records.value, recordSet.recordType))
    ensures r.Success? ==> r.value.body.ttl == Some(recordSet.ttl) && r.value.body.metadata == recordSet.metadata
  {
    warnings := [];
    if EtagCheck(recordSet.etag, overwrite).Failure? {
      return Failure(PSArgumentException), warnings;
    }
    var recordSetToUpdate := recordSet.Clone();
    if recordSetToUpdate.zoneName.Some? && EndsWithDot(recordSetToUpdate.zoneName.value) {
      recordSetToUpdate.zoneName := Some(TrimEndDots(recordSetToUpdate.zoneName.value));
      warnings := warnings + [ZoneNameTrimmed];
    }
    r := UpdatePrivateDnsRecordSet(recordSetToUpdate, overwrite);
  }

  /**
   * What Remove is told to delete: a name, type, zone name and resource group
   * (`Fields`); a name and type in a zone object (`Mixed`); or a record set
   * object (`Object`).
   */
  datatype RemoveTarget =
    | RemoveFields(name: string, recordType: RecordType, zoneName: string, resourceGroupName: string)
    | RemoveMixed(name: string, recordType: RecordType, zone: Zone)
    | RemoveObject(recordSet: RecordSet)

  /**
   * Whether Remove's parameters bind: `-Name`, `-ZoneName` and
   * `-ResourceGroupName` refuse the empty string.
   */
  predicate RemoveBound(target: RemoveTarget) {
    match target
    case RemoveFields(name, _, zoneName, resourceGroupName) => name != "" && zoneName != "" && resourceGroupName != ""
    case RemoveMixed(name, _, _) => name != ""
    case RemoveObject(_) => true
  }

  function RemoveFrame(target: RemoveTarget): set<object> {
    match target
    case RemoveFields(_, _, _, _) => {}
    case RemoveMixed(_, _, zone) => {zone}
    case RemoveObject(recordSet) => {recordSet}
  }

  /**
   * `Remove-AzPrivateDnsRecordSet`. By name, the record-set name and the zone
   * name lose their trailing dots and the delete is unconditional (If-Match
   * `*`). By object, the Etag rule applies, the delete is guarded by the
   * object's Etag unless `-Overwrite`, and the zone name of the caller's own
   * object is trimmed in place. `-PassThru` writes `true`. Each trim writes
   * a warning: the record-set name's first, then the zone name's.
   */
  method RemoveRecordSet(target: RemoveTarget, overwriteSwitch: bool, passThru: bool)
    returns (r: Result<Request>, output: seq<bool>, warnings: seq<Warning>)
    modifies if target.RemoveObject? then {target.recordSet} else {}
    ensures target.RemoveObject? && EtagCheck(old(target.recordSet.etag), overwriteSwitch).Failure? ==>
      r == Failure(PSArgumentException) && output == [] && warnings == [] && unchanged(target.recordSet)
    ensures !RemoveBound(target) ==> r == Failure(ParameterValidationException) && output == [] && warnings == []
    ensures RemoveBound(target) && target.RemoveFields? ==>
      warnings == TrimWarning(Some(target.name), RecordSetNameTrimmed) + TrimWarning(Some(target.zoneName), ZoneNameTrimmed)
    ensures RemoveBound(target) && target.RemoveMixed? ==>
      warnings == TrimWarning(Some(target.name), RecordSetNameTrimmed) + TrimWarning(target.zone.name, ZoneNameTrimmed)
    ensures target.RemoveObject? && r.Success? ==> warnings == TrimWarning(old(target.recordSet.zoneName), ZoneNameTrimmed)
    ensures RemoveBound(target) && !target.RemoveObject? ==> r.Success?
    ensures r.Success? ==> output == (if passThru then [true] else [])
    ensures r.Success? ==> r.value.DeleteRecordSet?
    ensures r.Success? && target.RemoveFields? ==>
      r.value == DeleteRecordSet(Some(target.resourceGroupName), TrimZoneName(Some(target.zoneName)),
                                 target.recordType, TrimZoneName(Some(target.name)), Some("*"))
    ensures r.Success? && target.RemoveMixed? ==>
      r.value == DeleteRecordSet(target.zone.resourceGroupName, TrimZoneName(target.zone.name),
                                 target.recordType, TrimZoneName(Some(target.name)), Some("*"))
    ensures target.RemoveObject? ==>
      var rs := target.recordSet;
      && rs.zoneName == (if r.Success? then TrimZoneName(old(rs.zoneName)) else old(rs.zoneName))
      && rs.id == old(rs.id) && rs.name == old(rs.name) && rs.resourceGroupName == old(rs.resourceGroupName)
      && rs.recordType == old(rs.recordType) && rs.etag == old(rs.etag) && rs.ttl == old(rs.ttl)
      && rs.records == old(rs.records) && rs.metadata == old(rs.metadata)
    ensures r.Success? && target.RemoveObject? ==>
      var rs := target.recordSet;
      r.value == DeleteRecordSet(rs.resourceGroupName, TrimZoneName(old(rs.zoneName)), rs.recordType, rs.name,
                                 GuardedIfMatch(rs.etag, overwriteSwitch))
  {
    output := [];
    warnings := [];
    if !RemoveBound(target) {
      return Failure(ParameterValidationException), output, warnings;
    }
    var recordSetToDelete: RecordSet;
    match target {
      case RemoveFields(name, recordType, zoneName, resourceGroupName) =>
        var trimmed := TrimZoneName(Some(name));
        if EndsWithDot(name) {
          warnings := warnings + [RecordSetNameTrimmed];
        }
        recordSetToDelete := new RecordSet(None, trimmed, Some(zoneName), Some(resourceGroupName), recordType, None, 0, None, None);
      case RemoveMixed(name, recordType, zone) =>
        var trimmed := TrimZoneName(Some(name));
        if EndsWithDot(name) {
          warnings := warnings + [RecordSetNameTrimmed];
        }
        recordSetToDelete := new RecordSet(None, trimmed, zone.name, zone.resourceGroupName, recordType, None, 0, None, None);
      case RemoveObject(recordSet) =>
        if EtagCheck(recordSet.etag, overwriteSwitch).Failure? {
          return Failure(PSArgumentException), output, warnings;
        }
        recordSetToDelete := recordSet;
    }
    if recordSetToDelete.zoneName.Some? && EndsWithDot(recordSetToDelete.zoneName.value) {
      recordSetToDelete.zoneName := Some(TrimEndDots(recordSetToDelete.zoneName.value));
      warnings := warnings + [ZoneNameTrimmed];
    }
    var overwrite := EffectiveOverwrite(overwriteSwitch, target.RemoveObject?);
    var request := DeleteRecordSetRequest(recordSetToDelete, overwrite);
    var deleted := true;
    if passThru {
      output := output + [deleted];
    }
    r := Success(request);
  }

  /**
   * A removal by name is never guarded: whatever version is stored is
   * deleted. Only a removal by object without `-Overwrite` sends an Etag.
   */
  lemma {:induction false} RemoveGuardedOnlyByObject(overwriteSwitch: bool, objectSet: bool, etag: Option<string>)
    ensures GuardedIfMatch(etag, EffectiveOverwrite(overwriteSwitch, objectSet)) != Some("*") ==>
      objectSet && !overwriteSwitch && GuardedIfMatch(etag, EffectiveOverwrite(overwriteSwitch, objectSet)) == etag
  {
  }
}
