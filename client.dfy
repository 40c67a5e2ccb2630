/**
 * `PrivateDnsClient`: how the module shapes requests to the remote Private
 * DNS management service and reads its responses. The service itself is not
 * modelled: a request is a value describing the call (target, body and
 * concurrency headers), and a response is an object or page handed in by
 * the caller.
 */
module PrivateDnsClient {
  import opened Results
  import opened Text
  import opened PrivateDnsModels
  import opened Preflight

  const DnsResourceLocation: string := "global"
  const TxtRecordMaxLength: nat := 1024
  const TxtRecordMinLength: nat := 0

  /** The order in which a response's typed record fields are flattened. */
  const FlattenOrder: seq<RecordType> := [AAAA, A, MX, SRV, TXT, PTR, CNAME, SOA]

  /** A value that is a list of records when present. */
  function AsList(field: Option<seq<Record>>): seq<Record> {
    field.GetOr([])
  }

  /**
   * The SDK's `RecordSet`: the body of a record-set write and the payload of
   * a record-set read. Each record type has its own field; CNAME and SOA
   * hold a single record, the others a list.
   */
  class SdkRecordSet {
    var id: Option<string>
    var name: Option<string>
    var etag: Option<string>
    var ttl: Option<int>
    var metadata: Option<Tags>
    var aRecords: Option<seq<Record>>
    var aaaaRecords: Option<seq<Record>>
    var mxRecords: Option<seq<Record>>
    var ptrRecords: Option<seq<Record>>
    var srvRecords: Option<seq<Record>>
    var txtRecords: Option<seq<Record>>
    var cnameRecord: Option<Record>
    var soaRecord: Option<Record>

    /** `new RecordSet { Metadata = ..., Ttl = ... }`: every other field is null. */
    constructor (metadata: Option<Tags>, ttl: Option<int>)
      ensures this.metadata == metadata && this.ttl == ttl
      ensures id.None? && name.None? && etag.None?
      ensures forall t: RecordType :: Field(t).None?
      ensures aRecords.None? && aaaaRecords.None? && mxRecords.None? && ptrRecords.None?
      ensures srvRecords.None? && txtRecords.None? && cnameRecord.None? && soaRecord.None?
    {
      this.metadata := metadata;
      this.ttl := ttl;
      id, name, etag := None, None, None;
      aRecords, aaaaRecords, mxRecords, ptrRecords, srvRecords, txtRecords := None, None, None, None, None, None;
      cnameRecord, soaRecord := None, None;
    }

    /** The field for type `t`, with a single-record field seen as a one-element list. */
    function Field(t: RecordType): Option<seq<Record>>
      reads this
    {
      match t
      case A => aRecords
      case AAAA => aaaaRecords
      case MX => mxRecords
      case PTR => ptrRecords
      case SRV => srvRecords
      case TXT => txtRecords
      case CNAME => if cnameRecord.Some? then Some([cnameRecord.value]) else None
      case SOA => if soaRecord.Some? then Some([soaRecord.value]) else None
    }

    /** The records held for type `t`; a null field holds none. */
    function FieldRecords(t: RecordType): seq<Record>
      reads this
    {
      AsList(Field(t))
    }

    /** Only the field for `t` may be non-null. */
    predicate OnlyField(t: RecordType)
      reads this
    {
      forall u: RecordType :: u != t ==> Field(u).None?
    }

    /** The SDK's record classes are typed: each field holds records of its own type. */
    predicate WellTyped()
      reads this
    {
      forall t: RecordType, r: Record :: r in FieldRecords(t) ==> TypeOf(r) == t
    }

    /** The record fields other than `t`'s, and the non-record fields, are those of `before`. */
    twostate predicate OthersUnchanged(t: RecordType)
      reads this
    {
      && id == old(id) && name == old(name) && etag == old(etag)
      && ttl == old(ttl) && metadata == old(metadata)
      && forall u: RecordType :: u != t ==> Field(u) == old(Field(u))
    }

    /** Concatenates the fields named by `order`, in that order. */
    function Gather(order: seq<RecordType>): seq<Record>
      reads this
    {
      if order == [] then [] else FieldRecords(order[0]) + Gather(order[1..])
    }

    /** `GetPowerShellRecords`: all records of the set, in the fixed type order. */
    function PowerShellRecords(): seq<Record>
      reads this
    {
      Gather(FlattenOrder)
    }

    /** Assigns the list field of a list-valued type. */
    method SetList(t: RecordType, records: seq<Record>)
      requires t != CNAME && t != SOA
      modifies this
      ensures Field(t) == Some(records)
      ensures OthersUnchanged(t)
    {
      match t {
        case A => aRecords := Some(records);
        case AAAA => aaaaRecords := Some(records);
        case MX => mxRecords := Some(records);
        case PTR => ptrRecords := Some(records);
        case SRV => srvRecords := Some(records);
        case TXT => txtRecords := Some(records);
      }
    }
  }

  // ---------------------------------------------------------------------
  // Requests

  /** A call to the remote service: its target, body and concurrency headers. */
  datatype Request =
    | PutZone(resourceGroupName: Option<string>, zoneName: Option<string>, location: string,
              tags: Option<Tags>, ifMatch: Option<string>, ifNoneMatch: Option<string>)
    | DeleteZone(resourceGroupName: Option<string>, zoneName: Option<string>, ifMatch: Option<string>)
    | PutRecordSet(resourceGroupName: Option<string>, zoneName: Option<string>, recordType: RecordType,
                   relativeName: Option<string>, body: SdkRecordSet,
                   ifMatch: Option<string>, ifNoneMatch: Option<string>)
    | DeleteRecordSet(resourceGroupName: Option<string>, zoneName: Option<string>, recordType: RecordType,
                      relativeName: Option<string>, ifMatch: Option<string>)

  /**
   * If-Match of a guarded write (zone delete, record-set update and delete):
   * the wildcard when overwriting, otherwise the object's Etag.
   */
  function GuardedIfMatch(etag: Option<string>, overwrite: bool): Option<string> {
    if overwrite then Some("*") else etag
  }

  /**
   * When the cmdlets' Etag check passes and the write is not an overwrite,
   * the If-Match header carries a real Etag, so the service compares versions.
   */
  lemma {:induction false} GuardedWriteSendsRealEtag(etag: Option<string>, overwrite: bool)
    requires EtagCheck(etag, overwrite).Success?
    ensures GuardedIfMatch(etag, overwrite) == Some("*") ||
            (etag.Some? && GuardedIfMatch(etag, overwrite) == etag &&
             !IsNullOrWhiteSpace(etag) && etag.value != "*")
  {
    if !overwrite {
      assert !EtagUnusable(etag);
    }
  }

  /** `CreatePrivateDnsZone`: a create-only put (If-None-Match `*`) in the `global` location. */
  function CreateZoneRequest(name: string, resourceGroupName: string, tags: Option<Tags>): (r: Request)
    ensures r.PutZone? && r.ifMatch.None? && r.ifNoneMatch == Some("*")
    ensures r.zoneName == Some(name) && r.resourceGroupName == Some(resourceGroupName)
    ensures r.location == DnsResourceLocation && r.tags == tags
  {
    PutZone(Some(resourceGroupName), Some(name), DnsResourceLocation, tags, None, Some("*"))
  }

  /** `UpdatePrivateDnsZone`: If-Match is null when overwriting, else the zone's Etag. */
  function UpdateZoneRequest(zone: Zone, overwrite: bool): (r: Request)
    reads zone
    ensures r.PutZone? && r.ifNoneMatch.None? && r.location == DnsResourceLocation
    ensures r.zoneName == zone.name && r.resourceGroupName == zone.resourceGroupName && r.tags == zone.tags
    ensures r.ifMatch == if overwrite then None else zone.etag
  {
    PutZone(zone.resourceGroupName, zone.name, DnsResourceLocation, zone.tags,
            if overwrite then None else zone.etag, None)
  }

  /** `DeletePrivateDnsZone`. */
  function DeleteZoneRequest(zone: Zone, overwrite: bool): (r: Request)
    reads zone
    ensures r.DeleteZone? && r.zoneName == zone.name && r.resourceGroupName == zone.resourceGroupName
    ensures r.ifMatch == GuardedIfMatch(zone.etag, overwrite)
  {
    DeleteZone(zone.resourceGroupName, zone.name, GuardedIfMatch(zone.etag, overwrite))
  }

  /** `DeletePrivateDnsRecordSet` (which then reports `true`). */
  function DeleteRecordSetRequest(recordSet: RecordSet, overwrite: bool): (r: Request)
    reads recordSet
    ensures r.DeleteRecordSet? && r.recordType == recordSet.recordType && r.relativeName == recordSet.name
    ensures r.zoneName == recordSet.zoneName && r.resourceGroupName == recordSet.resourceGroupName
    ensures r.ifMatch == GuardedIfMatch(recordSet.etag, overwrite)
  {
    DeleteRecordSet(recordSet.resourceGroupName, recordSet.zoneName, recordSet.recordType,
                    recordSet.name, GuardedIfMatch(recordSet.etag, overwrite))
  }

  // ---------------------------------------------------------------------
  // Record-set bodies

  /** `GetMamlRecords<T>`: the records of type `t`, in their original order. */
  function OfType(records: seq<Record>, t: RecordType): (r: seq<Record>)
    ensures forall x | x in r :: x in records && TypeOf(x) == t
    ensures forall x | x in records && TypeOf(x) == t :: x in r
    ensures |r| <= |records|
  {
    if records == [] then []
    else (if TypeOf(records[0]) == t then [records[0]] else []) + OfType(records[1..], t)
  }

  lemma {:induction false} OfTypeAppend(x: seq<Record>, y: seq<Record>, t: RecordType)
    ensures OfType(x + y, t) == OfType(x, t) + OfType(y, t)
    decreases |x|
  {
    if x != [] {
      assert (x + y)[1..] == x[1..] + y;
      OfTypeAppend(x[1..], y, t);
    } else {
      assert x + y == y;
    }
  }

  lemma {:induction false} OfTypeAllOfType(x: seq<Record>, t: RecordType)
    requires forall r | r in x :: TypeOf(r) == t
    ensures OfType(x, t) == x
    decreases |x|
  {
    if x != [] {
      assert TypeOf(x[0]) == t;
      assert forall r | r in x[1..] :: r in x;
      OfTypeAllOfType(x[1..], t);
      assert OfType(x, t) == [x[0]] + OfType(x[1..], t);
      assert [x[0]] + x[1..] == x;
    }
  }

  lemma {:induction false} OfTypeNoneOfType(x: seq<Record>, t: RecordType)
    requires forall r | r in x :: TypeOf(r) != t
    ensures OfType(x, t) == []
    decreases |x|
  {
    if x != [] {
      OfTypeNoneOfType(x[1..], t);
    }
  }

  /** LINQ `SingleOrDefault()`: none, the only element, or an error for two or more. */
  function SingleOrDefault(s: seq<Record>): (r: Result<Option<Record>>)
    ensures r.Success? <==> |s| <= 1
    ensures r.Success? ==> r.value == if |s| == 1 then Some(s[0]) else None
    ensures r.Failure? ==> r.error == InvalidOperationException
  {
    if |s| == 0 then Success(None)
    else if |s| == 1 then Success(Some(s[0]))
    else Failure(InvalidOperationException)
  }

  /** Some record in the list is not of the record set's type. */
  predicate HasMismatchedRecord(records: seq<Record>, recordType: RecordType) {
    exists x | x in records :: TypeOf(x) != recordType
  }

  /**
   * `FillRecordsForType`: sets the field of `recordType` from the records
   * (all of that type) and leaves every other field as it was. A CNAME set
   * takes one record at most; an SOA set keeps only the first record.
   */
  method FillRecordsForType(properties: SdkRecordSet, recordType: RecordType, records: seq<Record>)
    returns (r: Result<()>)
    requires |records| > 0
    requires !HasMismatchedRecord(records, recordType)
    modifies properties
    ensures r.Failure? <==> recordType == CNAME && |records| > 1
    ensures r.Failure? ==> r.error == ArgumentException && unchanged(properties)
    ensures r.Success? ==> properties.Field(recordType) == Some(if recordType == SOA then [records[0]] else records)
    ensures r.Success? ==> properties.OthersUnchanged(recordType)
  {
    match recordType {
      case CNAME =>
        if |records| > 1 {
          return Failure(ArgumentException);
        }
        properties.cnameRecord := Some(records[0]);
        assert [records[0]] == records;
      case SOA =>
        properties.soaRecord := Some(records[0]);
      case _ =>
        properties.SetList(recordType, records);
    }
    r := Success(());
  }

  /**
   * `FillEmptyRecordsForType`: the field of `recordType` becomes an empty
   * list (for CNAME: one record with an empty name); every other field, and
   * the SOA field always, becomes null.
   */
  method FillEmptyRecordsForType(properties: SdkRecordSet, recordType: RecordType)
    modifies properties
    ensures properties.OnlyField(recordType)
    ensures recordType == CNAME ==> properties.cnameRecord == Some(CnameRecord(""))
    ensures recordType != CNAME && recordType != SOA ==> properties.Field(recordType) == Some([])
    ensures properties.soaRecord.None?
    ensures properties.id == old(properties.id) && properties.name == old(properties.name)
    ensures properties.etag == old(properties.etag)
    ensures properties.ttl == old(properties.ttl) && properties.metadata == old(properties.metadata)
  {
    properties.aaaaRecords := if recordType == AAAA then Some([]) else None;
    properties.aRecords := if recordType == A then Some([]) else None;
    properties.cnameRecord := if recordType == CNAME then Some(CnameRecord("")) else None;
    properties.mxRecords := if recordType == MX then Some([]) else None;
    properties.ptrRecords := if recordType == PTR then Some([]) else None;
    properties.soaRecord := None;
    properties.srvRecords := if recordType == SRV then Some([]) else None;
    properties.txtRecords := if recordType == TXT then Some([]) else None;
  }

  /**
   * The records a create refuses (`ArgumentException`): some record of
   * another type than the set, or more than one record for a CNAME set.
   */
  predicate RejectedRecords(recordType: RecordType, records: Option<seq<Record>>) {
    records.Some? && |records.value| > 0 &&
    (HasMismatchedRecord(records.value, recordType) || (recordType == CNAME && |records.value| > 1))
  }

  /**
   * The field a create body holds for its type: the given records (for SOA
   * only the first), or when none are given an empty list, a CNAME with an
   * empty name, or for SOA nothing.
   */
  function CreateField(recordType: RecordType, records: Option<seq<Record>>): Option<seq<Record>> {
    if records.Some? && |records.value| > 0 then
      Some(if recordType == SOA then [records.value[0]] else records.value)
    else if recordType == SOA then None
    else if recordType == CNAME then Some([CnameRecord("")])
    else Some([])
  }

  /** `b` is the body a create sends for these arguments. */
  predicate IsCreateBody(
    b: SdkRecordSet, recordType: RecordType, ttl: Option<UInt32>, tags: Option<Tags>, records: Option<seq<Record>>)
    reads b
  {
    && b.OnlyField(recordType) && b.WellTyped()
    && b.Field(recordType) == CreateField(recordType, records)
    && b.metadata == tags && b.id.None? && b.name.None? && b.etag.None?
    && b.ttl == if ttl.Some? then Some(ttl.value as int) else None
  }

  /**
   * Reading back a created body gives the records it was created with (the
   * response echoes the body), except that an SOA set keeps only the first.
   */
  lemma {:induction false} CreatedRecordsReadBack(
    b: SdkRecordSet, recordType: RecordType, ttl: Option<UInt32>, tags: Option<Tags>, records: seq<Record>)
    requires IsCreateBody(b, recordType, ttl, tags, Some(records))
    requires |records| > 0
    ensures b.PowerShellRecords() == if recordType == SOA then [records[0]] else records
  {
    PowerShellRecordsOfOnlyField(b, recordType);
  }

  /**
   * Reading back an update body gives the record set's records of its own
   * type; when every record has the set's type, exactly the records sent.
   */
  lemma {:induction false} UpdatedRecordsReadBack(b: SdkRecordSet, recordType: RecordType, records: seq<Record>)
    requires b.OnlyField(recordType) && b.FieldRecords(recordType) == OfType(records, recordType)
    ensures b.PowerShellRecords() == OfType(records, recordType)
    ensures (forall x | x in records :: TypeOf(x) == recordType) ==> b.PowerShellRecords() == records
  {
    PowerShellRecordsOfOnlyField(b, recordType);
    if forall x | x in records :: TypeOf(x) == recordType {
      OfTypeAllOfType(records, recordType);
    }
  }

  /**
   * `ConstructRecordSetProperties`: the body of a record-set create. Fails
   * with `ArgumentException` when a supplied record has another type than
   * the set, or when a CNAME set is given more than one record.
   */
  method ConstructRecordSetProperties(
    recordType: RecordType, ttl: Option<UInt32>, tags: Option<Tags>, resourceRecords: Option<seq<Record>>)
    returns (r: Result<SdkRecordSet>)
    ensures r.Failure? <==> RejectedRecords(recordType, resourceRecords)
    ensures r.Failure? ==> r.error == ArgumentException
    ensures r.Success? ==> fresh(r.value) && IsCreateBody(r.value, recordType, ttl, tags, resourceRecords)
  {
    var properties := new SdkRecordSet(tags, if ttl.Some? then Some(ttl.value as int) else None);
    if resourceRecords.Some? && |resourceRecords.value| != 0 {
      var records := resourceRecords.value;
      if HasMismatchedRecord(records, recordType) {
        return Failure(ArgumentException);
      }
      var filled := FillRecordsForType(properties, recordType, records);
      if filled.Failure? {
        return Failure(filled.error);
      }
    } else {
      FillEmptyRecordsForType(properties, recordType);
    }
    r := Success(properties);
  }

  /**
   * `CreatePrivateDnsRecordSet`: puts the constructed body; the put is
   * create-only (If-None-Match `*`) unless overwriting, and never sends If-Match.
   */
  method CreatePrivateDnsRecordSet(
    zoneName: Option<string>, resourceGroupName: Option<string>, relativeRecordSetName: string,
    ttl: Option<UInt32>, recordType: RecordType, tags: Option<Tags>, overwrite: bool,
    resourceRecords: Option<seq<Record>>)
    returns (r: Result<Request>)
    ensures r.Failure? <==> RejectedRecords(recordType, resourceRecords)
    ensures r.Failure? ==> r.error == ArgumentException
    ensures r.Success? ==> r.value.PutRecordSet? && fresh(r.value.body)
    ensures r.Success? ==> r.value.zoneName == zoneName && r.value.resourceGroupName == resourceGroupName
    ensures r.Success? ==> r.value.relativeName == Some(relativeRecordSetName) && r.value.recordType == recordType
    ensures r.Success? ==> r.value.ifMatch.None? && r.value.ifNoneMatch == (if overwrite then None else Some("*"))
    ensures r.Success? ==> IsCreateBody(r.value.body, recordType, ttl, tags, resourceRecords)
  {
    var body := ConstructRecordSetProperties(recordType, ttl, tags, resourceRecords);
    if body.Failure? {
      return Failure(body.error);
    }
    r := Success(PutRecordSet(resourceGroupName, zoneName, recordType, Some(relativeRecordSetName),
                              body.value, None, if overwrite then None else Some("*")));
  }

  /**
   * `UpdatePrivateDnsRecordSet`: puts a body whose only non-null record field
   * is the one of the set's type, holding the set's records of that type in
   * their order (records of other types are dropped). A null record list
   * fails (`ArgumentNullException`), and so do two or more CNAME or SOA
   * records (`InvalidOperationException`).
   */
  method UpdatePrivateDnsRecordSet(recordSet: RecordSet, overwrite: bool) returns (r: Result<Request>)
    ensures recordSet.records.None? ==> r == Failure(ArgumentNullException)
    ensures recordSet.records.Some? ==>
      (r.Failure? <==> (recordSet.recordType in {CNAME, SOA} &&
                        |OfType(recordSet.records.value, recordSet.recordType)| > 1))
    ensures r.Failure? && recordSet.records.Some? ==> r.error == InvalidOperationException
    ensures r.Success? ==> r.value.PutRecordSet? && fresh(r.value.body)
    ensures r.Success? ==> r.value.zoneName == recordSet.zoneName && r.value.resourceGroupName == recordSet.resourceGroupName
    ensures r.Success? ==> r.value.relativeName == recordSet.name && r.value.recordType == recordSet.recordType
    ensures r.Success? ==> r.value.ifMatch == GuardedIfMatch(recordSet.etag, overwrite) && r.value.ifNoneMatch.None?
    ensures r.Success? ==> r.value.body.OnlyField(recordSet.recordType)
    ensures r.Success? ==> r.value.body.FieldRecords(recordSet.recordType) == OfType(recordSet.records.value, recordSet.recordType)
    ensures r.Success? && recordSet.recordType !in {CNAME, SOA} ==>
      r.value.body.Field(recordSet.recordType) == Some(OfType(recordSet.records.value, recordSet.recordType))
    ensures r.Success? && recordSet.recordType in {CNAME, SOA} ==>
      var selected := OfType(recordSet.records.value, recordSet.recordType);
      r.value.body.Field(recordSet.recordType) == if selected == [] then None else Some(selected)
    ensures r.Success? ==> r.value.body.ttl == Some(recordSet.ttl) && r.value.body.metadata == recordSet.metadata
  {
    if recordSet.records.None? {
      return Failure(ArgumentNullException);
    }
    var recordType := recordSet.recordType;
    var selected := OfType(recordSet.records.value, recordType);
    var body := new SdkRecordSet(recordSet.metadata, Some(recordSet.ttl));
    if recordType == CNAME || recordType == SOA {
      var single := SingleOrDefault(selected);
      if single.Failure? {
        return Failure(single.error);
      }
      if recordType == CNAME {
        body.cnameRecord := single.value;
      } else {
        body.soaRecord := single.value;
      }
    } else {
      body.SetList(recordType, selected);
    }
    r := Success(PutRecordSet(recordSet.resourceGroupName, recordSet.zoneName, recordType, recordSet.name,
                              body, GuardedIfMatch(recordSet.etag, overwrite), None));
  }

  // ---------------------------------------------------------------------
  // Responses

  /** The field order has every record type exactly once. */
  lemma FlattenOrderCoversTypes()
    ensures forall t: RecordType :: t in FlattenOrder
    ensures forall i, j | 0 <= i < j < |FlattenOrder| :: FlattenOrder[i] != FlattenOrder[j]
  {
    forall t: RecordType ensures t in FlattenOrder {
      match t {
        case AAAA => assert FlattenOrder[0] == t;
        case A => assert FlattenOrder[1] == t;
        case MX => assert FlattenOrder[2] == t;
        case SRV => assert FlattenOrder[3] == t;
        case TXT => assert FlattenOrder[4] == t;
        case PTR => assert FlattenOrder[5] == t;
        case CNAME => assert FlattenOrder[6] == t;
        case SOA => assert FlattenOrder[7] == t;
      }
    }
  }

  /** `PowerShellRecords` written out field by field. */
  lemma PowerShellRecordsUnfolded(s: SdkRecordSet)
    ensures s.PowerShellRecords() ==
      s.FieldRecords(AAAA) + s.FieldRecords(A) + s.FieldRecords(MX) + s.FieldRecords(SRV) +
      s.FieldRecords(TXT) + s.FieldRecords(PTR) + s.FieldRecords(CNAME) + s.FieldRecords(SOA)
  {
    assert s.Gather([SOA]) == s.FieldRecords(SOA) + s.Gather([]);
    assert s.Gather([CNAME, SOA]) == s.FieldRecords(CNAME) + s.Gather([SOA]);
    assert s.Gather([PTR, CNAME, SOA]) == s.FieldRecords(PTR) + s.Gather([CNAME, SOA]);
    assert s.Gather([TXT, PTR, CNAME, SOA]) == s.FieldRecords(TXT) + s.Gather([PTR, CNAME, SOA]);
    assert s.Gather([SRV, TXT, PTR, CNAME, SOA]) == s.FieldRecords(SRV) + s.Gather([TXT, PTR, CNAME, SOA]);
    assert s.Gather([MX, SRV, TXT, PTR, CNAME, SOA]) == s.FieldRecords(MX) + s.Gather([SRV, TXT, PTR, CNAME, SOA]);
    assert s.Gather([A, MX, SRV, TXT, PTR, CNAME, SOA]) == s.FieldRecords(A) + s.Gather([MX, SRV, TXT, PTR, CNAME, SOA]);
    assert s.Gather(FlattenOrder) == s.FieldRecords(AAAA) + s.Gather([A, MX, SRV, TXT, PTR, CNAME, SOA]);
  }

  /** Selecting type `t` from the gathered fields finds exactly `t`'s field. */
  lemma {:induction false} OfTypeGather(s: SdkRecordSet, order: seq<RecordType>, t: RecordType)
    requires s.WellTyped()
    requires forall i, j | 0 <= i < j < |order| :: order[i] != order[j]
    ensures OfType(s.Gather(order), t) == if t in order then s.FieldRecords(t) else []
    decreases |order|
  {
    if order != [] {
      var head := s.FieldRecords(order[0]);
      OfTypeAppend(head, s.Gather(order[1..]), t);
      OfTypeGather(s, order[1..], t);
      if order[0] == t {
        OfTypeAllOfType(head, t);
        assert t !in order[1..] by {
          forall k | 0 <= k < |order[1..]| ensures order[1..][k] != t {
            assert order[1..][k] == order[k + 1];
          }
        }
      } else {
        OfTypeNoneOfType(head, t);
      }
    }
  }

  /**
   * Reading a response and selecting one type gives back exactly that
   * type's field: flattening loses and reorders nothing within a type.
   */
  lemma {:induction false} PowerShellRecordsOfType(s: SdkRecordSet, t: RecordType)
    requires s.WellTyped()
    ensures OfType(s.PowerShellRecords(), t) == s.FieldRecords(t)
  {
    FlattenOrderCoversTypes();
    OfTypeGather(s, FlattenOrder, t);
  }

  /**
   * The flattened records come grouped by type in the order AAAA, A, MX,
   * SRV, TXT, PTR, CNAME, SOA.
   */
  lemma {:induction false} PowerShellRecordsGrouped(s: SdkRecordSet)
    requires s.WellTyped()
    ensures var rs := s.PowerShellRecords();
      rs == OfType(rs, AAAA) + OfType(rs, A) + OfType(rs, MX) + OfType(rs, SRV) +
            OfType(rs, TXT) + OfType(rs, PTR) + OfType(rs, CNAME) + OfType(rs, SOA)
  {
    PowerShellRecordsUnfolded(s);
    PowerShellRecordsOfType(s, AAAA);
    PowerShellRecordsOfType(s, A);
    PowerShellRecordsOfType(s, MX);
    PowerShellRecordsOfType(s, SRV);
    PowerShellRecordsOfType(s, TXT);
    PowerShellRecordsOfType(s, PTR);
    PowerShellRecordsOfType(s, CNAME);
    PowerShellRecordsOfType(s, SOA);
  }

  /** When only the field of `t` may be set, gathering yields that field or nothing. */
  lemma {:induction false} GatherOnlyField(s: SdkRecordSet, order: seq<RecordType>, t: RecordType)
    requires s.OnlyField(t)
    requires forall i, j | 0 <= i < j < |order| :: order[i] != order[j]
    ensures s.Gather(order) == if t in order then s.FieldRecords(t) else []
    decreases |order|
  {
    if order != [] {
      GatherOnlyField(s, order[1..], t);
      if order[0] == t {
        assert t !in order[1..] by {
          forall k | 0 <= k < |order[1..]| ensures order[1..][k] != t {
            assert order[1..][k] == order[k + 1];
          }
        }
        assert s.Gather(order) == s.FieldRecords(t) + [];
      } else {
        assert s.Gather(order) == [] + s.Gather(order[1..]);
      }
    }
  }

  /** A response holding one type's field reads back as exactly that field's records. */
  lemma {:induction false} PowerShellRecordsOfOnlyField(s: SdkRecordSet, t: RecordType)
    requires s.OnlyField(t)
    ensures s.PowerShellRecords() == s.FieldRecords(t)
  {
    FlattenOrderCoversTypes();
    GatherOnlyField(s, FlattenOrder, t);
  }

  /** Truncating cast `(uint)` of a `long`: the low 32 bits. */
  function ToUInt32(x: int): (r: UInt32)
    ensures 0 <= x < 0x1_0000_0000 ==> r == x
  {
    x % 0x1_0000_0000
  }

  /**
   * The record type of a record-set id: `Id.Split('/').Reverse().Skip(1).First()`
   * is the second-to-last piece (none: `InvalidOperationException`), parsed
   * ignoring case (not a type name: `ArgumentException`).
   */
  function RecordTypeFromId(id: string): (r: Result<RecordType>)
    ensures |Split(id, '/')| < 2 ==> r == Failure(InvalidOperationException)
    ensures r.Success? ==>
      var parts := Split(id, '/');
      |parts| >= 2 && EqualsIgnoreCase(parts[|parts| - 2], TypeName(r.value))
    ensures r.Failure? && |Split(id, '/')| >= 2 ==> r.error == ArgumentException
  {
    var parts := Split(id, '/');
    if |parts| < 2 then Failure(InvalidOperationException)
    else
      match ParseRecordType(parts[|parts| - 2])
      case Some(t) => Success(t)
      case None => Failure(ArgumentException)
  }

  /** An id `.../<type>/<name>` yields `<type>` back. */
  lemma {:induction false} RecordTypeFromRecordSetId(prefix: string, t: RecordType, name: string)
    requires '/' !in name
    ensures RecordTypeFromId(prefix + "/" + TypeName(t) + "/" + name) == Success(t)
  {
    var tn := TypeName(t);
    assert '/' !in tn;
    var id := prefix + "/" + tn + "/" + name;
    assert id == prefix + ['/'] + (tn + ['/'] + name);
    SplitAround(prefix, tn + ['/'] + name, '/');
    SplitAround(tn, name, '/');
    SplitWithoutSeparator(tn, '/');
    SplitWithoutSeparator(name, '/');
    var parts := Split(id, '/');
    assert parts == Split(prefix, '/') + [tn] + [name];
    assert parts[|parts| - 2] == tn;
    ParseTypeName(t);
  }

  /**
   * `GetPowerShellRecordSet`: the PowerShell record set for a response. Its
   * type comes from the id, its records are the flattened typed fields, and
   * a null TTL reads as 0.
   */
  method GetPowerShellRecordSet(zoneName: Option<string>, resourceGroupName: Option<string>, response: SdkRecordSet)
    returns (r: Result<RecordSet>)
    ensures response.id.None? ==> r == Failure(NullReferenceException)
    ensures response.id.Some? ==>
      (r.Success? <==> RecordTypeFromId(response.id.value).Success?)
    ensures r.Failure? && response.id.Some? ==> r.error == RecordTypeFromId(response.id.value).error
    ensures r.Success? ==> fresh(r.value)
    ensures r.Success? ==>
      && r.value.recordType == RecordTypeFromId(response.id.value).value
      && r.value.records == Some(response.PowerShellRecords())
      && r.value.id == response.id && r.value.name == response.name && r.value.etag == response.etag
      && r.value.zoneName == zoneName && r.value.resourceGroupName == resourceGroupName
      && r.value.metadata == response.metadata
      && r.value.ttl == ToUInt32(response.ttl.GetOr(0))
  {
    if response.id.None? {
      return Failure(NullReferenceException);
    }
    var recordType := RecordTypeFromId(response.id.value);
    if recordType.Failure? {
      return Failure(recordType.error);
    }
    var recordSet := new RecordSet(
      response.id, response.name, zoneName, resourceGroupName, recordType.value, response.etag,
      ToUInt32(response.ttl.GetOr(0)), Some(response.PowerShellRecords()), response.metadata);
    r := Success(recordSet);
  }

  // ---------------------------------------------------------------------
  // Resource ids

  predicate IsResourceGroupsSegment(s: string) {
    EqualsIgnoreCase(s, "resourceGroups")
  }

  /** The piece after the first `resourceGroups` piece, if there is one. */
  function ResourceGroupAfter(parts: seq<string>): (r: Result<string>)
    ensures r.Failure? ==> r.error == FormatException
  {
    if |parts| == 0 then Failure(FormatException)
    else if IsResourceGroupsSegment(parts[0]) then
      (if |parts| >= 2 then Success(parts[1]) else Failure(FormatException))
    else ResourceGroupAfter(parts[1..])
  }

  /** The resource group an ARM resource id names. */
  function ResourceGroupOf(id: string): Result<string> {
    ResourceGroupAfter(SplitNonEmpty(id, '/'))
  }

  /**
   * `ResourceGroupAfter` finds the piece right after the first
   * `resourceGroups` piece, and fails exactly when no `resourceGroups` piece
   * comes before the last one.
   */
  lemma {:induction false} ResourceGroupAfterSpec(parts: seq<string>)
    ensures ResourceGroupAfter(parts).Success? <==>
      exists i | 0 <= i < |parts| - 1 :: IsResourceGroupsSegment(parts[i])
    ensures ResourceGroupAfter(parts).Success? ==>
      exists i | 0 <= i < |parts| - 1 ::
        IsResourceGroupsSegment(parts[i]) &&
        (forall j | 0 <= j < i :: !IsResourceGroupsSegment(parts[j])) &&
        ResourceGroupAfter(parts).value == parts[i + 1]
    decreases |parts|
  {
    if |parts| > 0 && !IsResourceGroupsSegment(parts[0]) {
      var rest := parts[1..];
      ResourceGroupAfterSpec(rest);
      if ResourceGroupAfter(rest).Success? {
        var i :| 0 <= i < |rest| - 1 && IsResourceGroupsSegment(rest[i]) &&
          (forall j | 0 <= j < i :: !IsResourceGroupsSegment(rest[j])) &&
          ResourceGroupAfter(rest).value == rest[i + 1];
        assert parts[i + 1] == rest[i];
        forall j | 0 <= j < i + 1 ensures !IsResourceGroupsSegment(parts[j]) {
          if j > 0 {
            assert parts[j] == rest[j - 1];
          }
        }
        assert parts[i + 2] == rest[i + 1];
      } else {
        forall i | 0 <= i < |parts| - 1 ensures !IsResourceGroupsSegment(parts[i]) {
          if i > 0 {
            assert parts[i] == rest[i - 1];
          }
        }
      }
    }
  }

  /**
   * `ExtractResourceGroupNameFromId`: scans the non-empty `/`-pieces of the id
   * for the first `resourceGroups` (any case) and returns the next piece;
   * `FormatException` if there is none or it is the last piece.
   */
  method ExtractResourceGroupNameFromId(id: string) returns (r: Result<string>)
    ensures r == ResourceGroupOf(id)
  {
    var parts := SplitNonEmpty(id, '/');
    var rgIndex := -1;
    var i := 0;
    while i < |parts|
      invariant 0 <= i <= |parts|
      invariant rgIndex == -1
      invariant ResourceGroupAfter(parts) == ResourceGroupAfter(parts[i..])
    {
      if EqualsIgnoreCase(parts[i], "resourceGroups") {
        rgIndex := i;
        break;
      }
      assert parts[i..][1..] == parts[i + 1..];
      i := i + 1;
    }
    if rgIndex != -1 && rgIndex + 1 < |parts| {
      return Success(parts[rgIndex + 1]);
    }
    return Failure(FormatException);
  }

  /** `/p0/p1/.../pn`: a resource path made of the given pieces. */
  function Path(pieces: seq<string>): string {
    if |pieces| == 0 then "" else ['/'] + pieces[0] + Path(pieces[1..])
  }

  /** A path of pieces without `/` splits into an empty piece and the pieces. */
  lemma {:induction false} SplitPath(pieces: seq<string>)
    requires |pieces| > 0
    requires forall i | 0 <= i < |pieces| :: '/' !in pieces[i]
    ensures Split(Path(pieces), '/') == [""] + pieces
    decreases |pieces|
  {
    var tail := Path(pieces[1..]);
    assert Path(pieces) == "" + ['/'] + (pieces[0] + tail);
    SplitHead("", pieces[0] + tail, '/');
    if |pieces| == 1 {
      assert pieces[0] + tail == pieces[0];
      SplitWithoutSeparator(pieces[0], '/');
    } else {
      SplitPath(pieces[1..]);
      var t := pieces[1] + Path(pieces[2..]);
      assert tail == "" + ['/'] + t;
      SplitHead("", t, '/');
      assert Split(t, '/') == ([""] + Split(t, '/'))[1..] == ([""] + pieces[1..])[1..] == pieces[1..];
      assert pieces[0] + tail == pieces[0] + ['/'] + t;
      SplitHead(pieces[0], t, '/');
      assert Split(pieces[0] + tail, '/') == [pieces[0]] + pieces[1..] == pieces;
    }
  }

  /**
   * An id of the usual form `/subscriptions/<sub>/resourceGroups/<rg>/<rest>`
   * names resource group `<rg>`.
   */
  lemma {:induction false} ResourceGroupOfArmId(sub: string, rg: string, rest: string)
    requires sub != "" && rg != "" && '/' !in sub && '/' !in rg
    requires !IsResourceGroupsSegment(sub)
    ensures ResourceGroupOf(Path(["subscriptions", sub, "resourceGroups", rg]) + "/" + rest) == Success(rg)
  {
    var pieces := ["subscriptions", sub, "resourceGroups", rg];
    var id := Path(pieces) + "/" + rest;
    assert '/' !in "subscriptions" && '/' !in "resourceGroups";
    SplitPath(pieces);
    assert id == Path(pieces) + ['/'] + rest;
    SplitAround(Path(pieces), rest, '/');
    RemoveEmptyAppend([""] + pieces, Split(rest, '/'));
    assert RemoveEmpty([""] + pieces) == pieces by {
      assert ([""] + pieces)[1..] == pieces;
      RemoveEmptyOfNonEmpty(pieces);
    }
    var parts := SplitNonEmpty(id, '/');
    assert parts == pieces + RemoveEmpty(Split(rest, '/'));
    assert !IsResourceGroupsSegment("subscriptions") by {
      assert FoldCase("subscriptions"[0]) != FoldCase("resourceGroups"[0]);
    }
    assert IsResourceGroupsSegment("resourceGroups");
    assert parts[0] == "subscriptions" && parts[1] == sub && parts[2] == "resourceGroups" && parts[3] == rg;
    assert ResourceGroupAfter(parts) == ResourceGroupAfter(parts[1..]);
    assert parts[1..][0] == sub && parts[1..][1..] == parts[2..];
    assert ResourceGroupAfter(parts[1..]) == ResourceGroupAfter(parts[2..]);
    assert parts[2..][0] == "resourceGroups" && parts[2..][1] == rg;
  }

  /** Pieces that are all non-empty are kept as they are. */
  lemma {:induction false} RemoveEmptyOfNonEmpty(parts: seq<string>)
    requires forall i | 0 <= i < |parts| :: parts[i] != ""
    ensures RemoveEmpty(parts) == parts
    decreases |parts|
  {
    if parts != [] {
      RemoveEmptyOfNonEmpty(parts[1..]);
      assert [parts[0]] + parts[1..] == parts;
    }
  }

  /** A first piece without the separator splits off as it is. */
  lemma {:induction false} SplitHead(x: string, y: string, sep: char)
    requires sep !in x
    ensures Split(x + [sep] + y, sep) == [x] + Split(y, sep)
  {
    SplitAround(x, y, sep);
    SplitWithoutSeparator(x, sep);
  }

  /** The SDK's `PrivateZone` as the service returns it. */
  datatype SdkZone = SdkZone(id: string, name: Option<string>, etag: Option<string>, tags: Option<Tags>)

  /** `ToPrivateDnsZone`: the resource group is read from the id. */
  method ToPrivateDnsZone(zone: SdkZone) returns (r: Result<Zone>)
    ensures r.Failure? <==> ResourceGroupOf(zone.id).Failure?
    ensures r.Failure? ==> r.error == FormatException
    ensures r.Success? ==> fresh(r.value) && r.value.name == zone.name && r.value.etag == zone.etag
    ensures r.Success? ==> r.value.tags == zone.tags && r.value.resourceGroupName == Some(ResourceGroupOf(zone.id).value)
  {
    var rg := ExtractResourceGroupNameFromId(zone.id);
    if rg.Failure? {
      return Failure(rg.error);
    }
    var z := new Zone(zone.name, Some(rg.value), zone.etag, zone.tags);
    r := Success(z);
  }

  // ---------------------------------------------------------------------
  // Lookups and listings

  /** What a remote `Get` gives: the resource, or a service error code. */
  datatype CloudResponse<T> = Found(item: T) | CloudError(code: string)

  /**
   * `GetDnsZoneHandleNonExistentZone`: a `ResourceNotFound` error becomes a
   * null result; any other service error is rethrown.
   */
  function HandleNonExistent<T>(response: CloudResponse<T>): (r: Result<Option<T>>)
    ensures response.Found? ==> r == Success(Some(response.item))
    ensures response.CloudError? ==>
      r == if response.code == "ResourceNotFound" then Success(None) else Failure(CloudException(response.code))
  {
    match response
    case Found(item) => Success(Some(item))
    case CloudError(code) => if code == "ResourceNotFound" then Success(None) else Failure(CloudException(code))
  }

  /** One page of a listing, and the link to the next page (null on the last). */
  datatype Page<S> = Page(items: seq<S>, nextLink: Option<string>)

  /** LINQ `Select`. */
  function MapSeq<S, T>(f: S -> T, s: seq<S>): (r: seq<T>)
    ensures |r| == |s| && forall i | 0 <= i < |s| :: r[i] == f(s[i])
  {
    seq(|s|, i requires 0 <= i < |s| => f(s[i]))
  }

  /** Following next links from `p` reaches a last page within `fuel` steps. */
  ghost predicate Ends<S>(p: Page<S>, next: string -> Page<S>, fuel: nat)
    decreases fuel
  {
    p.nextLink.None? || (fuel > 0 && Ends(next(p.nextLink.value), next, fuel - 1))
  }

  /** The converted items of `p` and of the pages after it, in page order. */
  ghost function Collect<S, T>(p: Page<S>, next: string -> Page<S>, convert: S -> T, fuel: nat): seq<T>
    decreases fuel, 1
  {
    MapSeq(convert, p.items) + After(p, next, convert, fuel)
  }

  /** The converted items of the pages after `p`. */
  ghost function After<S, T>(p: Page<S>, next: string -> Page<S>, convert: S -> T, fuel: nat): seq<T>
    decreases fuel, 0
  {
    if p.nextLink.None? || fuel == 0 then [] else Collect(next(p.nextLink.value), next, convert, fuel - 1)
  }

  /** Once the chain has ended, a larger bound collects the same items. */
  lemma {:induction false} CollectIgnoresSpareFuel<S, T>(
    p: Page<S>, next: string -> Page<S>, convert: S -> T, fuel: nat, more: nat)
    requires Ends(p, next, fuel) && fuel <= more
    ensures Collect(p, next, convert, fuel) == Collect(p, next, convert, more)
    decreases fuel
  {
    if p.nextLink.Some? {
      CollectIgnoresSpareFuel(next(p.nextLink.value), next, convert, fuel - 1, more - 1);
    }
  }

  /**
   * The `List*` loops: request the first page, then keep requesting the next
   * page while the last one has a next link, appending every page's
   * converted items. The result is all pages' items in page order.
   */
  method CollectPages<S, T>(first: Page<S>, next: string -> Page<S>, convert: S -> T, ghost fuel: nat)
    returns (results: seq<T>)
    requires Ends(first, next, fuel)
    ensures results == Collect(first, next, convert, fuel)
  {
    results := [];
    var response: Option<Page<S>> := None;
    ghost var left: nat := fuel;
    var more := true;
    while more
      invariant response.None? ==> more && results == [] && left == fuel
      invariant response.Some? ==> Ends(response.value, next, left)
      invariant response.Some? ==> results + After(response.value, next, convert, left) == Collect(first, next, convert, fuel)
      invariant response.Some? ==> (more <==> response.value.nextLink.Some?)
      decreases if response.None? then fuel + 1 else left
    {
      if response.None? {
        response := Some(first);
        results := MapSeq(convert, first.items);
      } else {
        var current := response.value;
        assert left > 0 && Ends(next(current.nextLink.value), next, left - 1);
        ghost var before := results;
        assert After(current, next, convert, left) == Collect(next(current.nextLink.value), next, convert, left - 1);
        response := Some(next(current.nextLink.value));
        left := left - 1;
        results := results + MapSeq(convert, response.value.items);
        assert results + After(response.value, next, convert, left) ==
               before + Collect(response.value, next, convert, left);
      }
      more := response.value.nextLink.Some?;
    }
  }
}
