/**
 * The record-config cmdlets: `New-AzPrivateDnsRecordConfig` builds one record,
 * `Add-AzPrivateDnsRecordConfig` appends one to a local record set object, and
 * `Remove-AzPrivateDnsRecordConfig` removes the matching ones from it. Add and
 * Remove change the record set object they are given (and then write that same
 * object); nothing is sent to the service.
 */
module RecordConfig {
  import opened Results
  import opened Text
  import opened PrivateDnsModels
  import PrivateDnsClient

  /**
   * The parameters of one parameter set, as PowerShell binds them: the set
   * decides which record type the parameters describe.
   */
  datatype RecordParams =
    | AParams(ipv4Address: string)
    | AaaaParams(ipv6Address: string)
    | MxParams(preference: UInt16, exchange: string)
    | SrvParams(priority: UInt16, port: UInt16, target: string, weight: UInt16)
    | TxtParams(value: string)
    | PtrParams(ptrdname: string)
    | CnameParams(cname: string)

  /** The record type a parameter set describes (never SOA: no cmdlet has an SOA set). */
  function ParamsType(p: RecordParams): (t: RecordType)
    ensures t != SOA
  {
    match p
    case AParams(_) => A
    case AaaaParams(_) => AAAA
    case MxParams(_, _) => MX
    case SrvParams(_, _, _, _) => SRV
    case TxtParams(_) => TXT
    case PtrParams(_) => PTR
    case CnameParams(_) => CNAME
  }

  /** The parameter-set names of the Add and Remove cmdlets: the type names. */
  function SetName(p: RecordParams): string {
    TypeName(ParamsType(p))
  }

  /**
   * PowerShell's `[ValidateNotNullOrEmpty]` on every string parameter, and
   * (where `limitTxt`) `[ValidateLength(0, 1024)]` on a TXT value.
   */
  predicate Bindable(p: RecordParams, limitTxt: bool) {
    match p
    case AParams(a) => a != ""
    case AaaaParams(a) => a != ""
    case MxParams(_, exchange) => exchange != ""
    case SrvParams(_, _, target, _) => target != ""
    case TxtParams(v) =>
      v != "" && (limitTxt ==> PrivateDnsClient.TxtRecordMinLength <= |v| <= PrivateDnsClient.TxtRecordMaxLength)
    case PtrParams(d) => d != ""
    case CnameParams(c) => c != ""
  }

  /** Two type names are equal ignoring case only when the types are equal. */
  lemma TypeNamesDistinct(u: RecordType, t: RecordType)
    requires EqualsIgnoreCase(TypeName(u), TypeName(t))
    ensures u == t
  {
    ParseTypeName(u);
    ParseTypeName(t);
    EqualsIgnoreCaseSymmetric(TypeName(u), TypeName(t));
    EqualsIgnoreCaseTransitive(TypeName(t), TypeName(u), TypeName(u));
  }

  /**
   * The Add and Remove type check, `ParameterSetName` against
   * `RecordSet.RecordType.ToString()` ignoring case, accepts exactly the
   * parameters of the record set's own type.
   */
  lemma {:induction false} SetNameMatchesType(p: RecordParams, t: RecordType)
    ensures EqualsIgnoreCase(SetName(p), TypeName(t)) <==> ParamsType(p) == t
  {
    if EqualsIgnoreCase(SetName(p), TypeName(t)) {
      TypeNamesDistinct(ParamsType(p), t);
    }
  }

  /**
   * The parameters that describe a record: its values under the parameter
   * set of its type. No parameter set describes an SOA record.
   */
  function ParamsOf(r: Record): (p: Option<RecordParams>)
    ensures p.None? <==> r.SoaRecord?
    ensures p.Some? ==> ParamsType(p.value) == TypeOf(r)
  {
    match r
    case ARecord(a) => Some(AParams(a))
    case AaaaRecord(a) => Some(AaaaParams(a))
    case CnameRecord(c) => Some(CnameParams(c))
    case MxRecord(preference, exchange) => Some(MxParams(preference, exchange))
    case PtrRecord(d) => Some(PtrParams(d))
    case SoaRecord(_, _) => None
    case SrvRecord(priority, port, target, weight) => Some(SrvParams(priority, port, target, weight))
    case TxtRecord(v) => Some(TxtParams(v))
  }

  /**
   * The record `New-AzPrivateDnsRecordConfig` writes for the parameters
   * (the record the Add cmdlet appends, too): of the parameters' type, and
   * carrying exactly their values, so that the parameters can be read back.
   */
  function NewRecordConfig(p: RecordParams): (r: Record)
    ensures TypeOf(r) == ParamsType(p)
    ensures !r.SoaRecord?
    ensures ParamsOf(r) == Some(p)
  {
    match p
    case AParams(a) => ARecord(a)
    case AaaaParams(a) => AaaaRecord(a)
    case MxParams(preference, exchange) => MxRecord(preference, exchange)
    case SrvParams(priority, port, target, weight) => SrvRecord(priority, port, target, weight)
    case TxtParams(v) => TxtRecord(v)
    case PtrParams(d) => PtrRecord(d)
    case CnameParams(c) => CnameRecord(c)
  }

  /** Every record but SOA is the record New builds from its own parameters. */
  lemma {:induction false} NewRecordConfigOfParams(r: Record)
    requires !r.SoaRecord?
    ensures NewRecordConfig(ParamsOf(r).value) == r
  {
    match r {
      case ARecord(_) =>
      case AaaaRecord(_) =>
      case CnameRecord(_) =>
      case MxRecord(_, _) =>
      case PtrRecord(_) =>
      case SrvRecord(_, _, _, _) =>
      case TxtRecord(_) =>
    }
  }

  /** The whole New cmdlet: parameter validation, then the record. */
  function NewRecordConfigCmdlet(p: RecordParams): (r: Result<Record>)
    ensures r.Failure? <==> !Bindable(p, true)
    ensures r.Failure? ==> r.error == ParameterValidationException
    ensures r.Success? ==> r.value == NewRecordConfig(p) && TypeOf(r.value) == ParamsType(p)
  {
    if !Bindable(p, true) then Failure(ParameterValidationException) else Success(NewRecordConfig(p))
  }

  /**
   * Which records Remove takes out: records of the parameters' type whose
   * values equal the parameters. Addresses, TXT values and PTR names are
   * compared exactly; MX exchanges, SRV targets and CNAMEs ignoring case.
   */
  predicate Matches(r: Record, p: RecordParams) {
    match p
    case AParams(a) => r.ARecord? && r.ipv4Address == a
    case AaaaParams(a) => r.AaaaRecord? && r.ipv6Address == a
    case MxParams(preference, exchange) =>
      r.MxRecord? && EqualsIgnoreCase(r.exchange, exchange) && r.preference == preference
    case SrvParams(priority, port, target, weight) =>
      r.SrvRecord? && r.priority == priority && r.port == port &&
      EqualsIgnoreCase(r.target, target) && r.weight == weight
    case TxtParams(v) => r.TxtRecord? && r.value == v
    case PtrParams(d) => r.PtrRecord? && r.ptrdname == d
    case CnameParams(c) => r.CnameRecord? && EqualsIgnoreCase(r.cname, c)
  }

  /** Remove would take out the record New builds from the same parameters. */
  lemma {:induction false} MatchesOwnRecord(p: RecordParams)
    ensures Matches(NewRecordConfig(p), p)
  {
    match p {
      case MxParams(_, exchange) => assert EqualsIgnoreCase(exchange, exchange);
      case SrvParams(_, _, target, _) => assert EqualsIgnoreCase(target, target);
      case CnameParams(c) => assert EqualsIgnoreCase(c, c);
      case _ =>
    }
  }

  /**
   * `List.RemoveAll(Matches)`: the records that do not match, in their order.
   * A record survives exactly when it was there and does not match.
   */
  function Remaining(records: seq<Record>, p: RecordParams): (r: seq<Record>)
    ensures forall x | x in r :: x in records && !Matches(x, p)
    ensures forall x | x in records && !Matches(x, p) :: x in r
    ensures |r| <= |records|
  {
    if records == [] then []
    else (if Matches(records[0], p) then [] else [records[0]]) + Remaining(records[1..], p)
  }

  lemma {:induction false} RemainingAppend(x: seq<Record>, y: seq<Record>, p: RecordParams)
    ensures Remaining(x + y, p) == Remaining(x, p) + Remaining(y, p)
    decreases |x|
  {
    if x != [] {
      var head := if Matches(x[0], p) then [] else [x[0]];
      assert (x + y)[0] == x[0] && (x + y)[1..] == x[1..] + y;
      assert Remaining(x + y, p) == head + Remaining(x[1..] + y, p);
      RemainingAppend(x[1..], y, p);
      assert Remaining(x, p) == head + Remaining(x[1..], p);
    } else {
      assert x + y == y;
    }
  }

  /** Removing from a list with no matching record leaves it as it is. */
  lemma {:induction false} RemainingWithoutMatch(records: seq<Record>, p: RecordParams)
    requires forall x | x in records :: !Matches(x, p)
    ensures Remaining(records, p) == records
    decreases |records|
  {
    if records != [] {
      assert records[0] in records;
      assert forall x | x in records[1..] :: x in records;
      RemainingWithoutMatch(records[1..], p);
      assert [records[0]] + records[1..] == records;
    }
  }

  /** Removing the same record twice removes nothing more. */
  lemma {:induction false} RemainingIdempotent(records: seq<Record>, p: RecordParams)
    ensures Remaining(Remaining(records, p), p) == Remaining(records, p)
  {
    RemainingWithoutMatch(Remaining(records, p), p);
  }

  /**
   * The record list after `Add-AzPrivateDnsRecordConfig` (a null list counts
   * as empty). The new record is appended, except to a CNAME set: that holds
   * one record, so a placeholder CNAME with an empty name is replaced, and a
   * set whose first record is a real CNAME (or not a CNAME) is refused with
   * `ArgumentException`.
   */
  function AddedRecords(records: Option<seq<Record>>, p: RecordParams): (r: Result<seq<Record>>)
    ensures !p.CnameParams? ==> r == Success(AsList(records) + [NewRecordConfig(p)])
    ensures p.CnameParams? ==>
      (r.Success? <==> (AsList(records) == [] ||
                         (AsList(records)[0].CnameRecord? && AsList(records)[0].cname == "")))
    ensures p.CnameParams? && r.Success? ==> r.value == [NewRecordConfig(p)]
    ensures r.Failure? ==> r.error == ArgumentException
  {
    var list := AsList(records);
    if p.CnameParams? && |list| != 0 then
      if !list[0].CnameRecord? then Failure(ArgumentException)
      else if !IsNullOrEmpty(Some(list[0].cname)) then Failure(ArgumentException)
      else Success([NewRecordConfig(p)])
    else Success(list + [NewRecordConfig(p)])
  }

  function AsList(records: Option<seq<Record>>): seq<Record> {
    records.GetOr([])
  }

  /**
   * Add keeps a record set well typed: if every record had the set's type
   * and the parameters are of that type, so has every record afterwards,
   * and the new record is among them.
   */
  lemma {:induction false} AddKeepsSetTyped(records: Option<seq<Record>>, p: RecordParams, t: RecordType)
    requires ParamsType(p) == t
    requires forall x | x in AsList(records) :: TypeOf(x) == t
    ensures AddedRecords(records, p).Success? ==>
      var added := AddedRecords(records, p).value;
      NewRecordConfig(p) in added && forall x | x in added :: TypeOf(x) == t
  {
  }

  /** After a successful Add, a CNAME set holds exactly one record. */
  lemma {:induction false} AddCnameSingle(records: Option<seq<Record>>, c: string)
    requires AddedRecords(records, CnameParams(c)).Success?
    ensures AddedRecords(records, CnameParams(c)).value == [CnameRecord(c)]
  {
  }

  /**
   * Adding a record and removing it again with the same parameters gives
   * back the original list, when no record of that list matched them.
   */
  lemma {:induction false} AddThenRemove(records: seq<Record>, p: RecordParams)
    requires !p.CnameParams?
    requires forall x | x in records :: !Matches(x, p)
    ensures AddedRecords(Some(records), p).Success?
    ensures Remaining(AddedRecords(Some(records), p).value, p) == records
  {
    var rec := NewRecordConfig(p);
    RemainingAppend(records, [rec], p);
    RemainingWithoutMatch(records, p);
    MatchesOwnRecord(p);
    assert Remaining([rec], p) == [];
  }

  /**
   * `Add-AzPrivateDnsRecordConfig`: validates the parameters, checks the
   * parameter set against the record set's type (`ArgumentException`), then
   * changes the given record set's records in place and returns that object.
   */
  method AddRecordConfig(recordSet: RecordSet, p: RecordParams) returns (r: Result<RecordSet>)
    modifies recordSet
    ensures !Bindable(p, true) ==> r == Failure(ParameterValidationException)
    ensures Bindable(p, true) && ParamsType(p) != old(recordSet.recordType) ==> r == Failure(ArgumentException)
    ensures Bindable(p, true) && ParamsType(p) == old(recordSet.recordType) ==>
      (r.Success? <==> AddedRecords(old(recordSet.records), p).Success?)
    ensures Bindable(p, true) && r.Failure? ==> r.error == ArgumentException
    ensures r.Failure? ==> unchanged(recordSet)
    ensures r.Success? ==> r.value == recordSet && recordSet.records == Some(AddedRecords(old(recordSet.records), p).value)
    ensures r.Success? ==>
      recordSet.id == old(recordSet.id) && recordSet.name == old(recordSet.name) &&
      recordSet.zoneName == old(recordSet.zoneName) && recordSet.resourceGroupName == old(recordSet.resourceGroupName) &&
      recordSet.recordType == old(recordSet.recordType) && recordSet.etag == old(recordSet.etag) &&
      recordSet.ttl == old(recordSet.ttl) && recordSet.metadata == old(recordSet.metadata)
  {
    if !Bindable(p, true) {
      return Failure(ParameterValidationException);
    }
    SetNameMatchesType(p, recordSet.recordType);
    if !EqualsIgnoreCase(SetName(p), TypeName(recordSet.recordType)) {
      return Failure(ArgumentException);
    }
    var added := AddedRecords(recordSet.records, p);
    if added.Failure? {
      return Failure(added.error);
    }
    recordSet.records := Some(added.value);
    r := Success(recordSet);
  }

  /**
   * `Remove-AzPrivateDnsRecordConfig`: validates the parameters, checks the
   * parameter set against the record set's type (`ArgumentException`), then
   * takes every matching record out of the given record set in place and
   * returns that object. A null or empty list is left as it is.
   */
  method RemoveRecordConfig(recordSet: RecordSet, p: RecordParams) returns (r: Result<RecordSet>)
    modifies recordSet
    ensures !Bindable(p, false) ==> r == Failure(ParameterValidationException)
    ensures Bindable(p, false) ==> (r.Failure? <==> ParamsType(p) != old(recordSet.recordType))
    ensures Bindable(p, false) && r.Failure? ==> r.error == ArgumentException
    ensures r.Failure? ==> r.error in {ParameterValidationException, ArgumentException} && unchanged(recordSet)
    ensures r.Success? ==> r.value == recordSet
    ensures r.Success? && old(recordSet.records).Some? ==>
      recordSet.records == Some(Remaining(old(recordSet.records).value, p))
    ensures old(recordSet.records).None? ==> unchanged(recordSet)
    ensures recordSet.id == old(recordSet.id) && recordSet.name == old(recordSet.name)
    ensures recordSet.zoneName == old(recordSet.zoneName) && recordSet.resourceGroupName == old(recordSet.resourceGroupName)
    ensures recordSet.recordType == old(recordSet.recordType) && recordSet.etag == old(recordSet.etag)
    ensures recordSet.ttl == old(recordSet.ttl) && recordSet.metadata == old(recordSet.metadata)
  {
    if !Bindable(p, false) {
      return Failure(ParameterValidationException);
    }
    SetNameMatchesType(p, recordSet.recordType);
    if !EqualsIgnoreCase(SetName(p), TypeName(recordSet.recordType)) {
      return Failure(ArgumentException);
    }
    // The type check has made the parameters' type the set's type, so the
    // source's switch on the record type selects `Matches(_, p)`; its SOA
    // branch cannot be reached because no parameter set is named SOA.
    if recordSet.records.Some? && |recordSet.records.value| > 0 {
      recordSet.records := Some(Remaining(recordSet.records.value, p));
    }
    r := Success(recordSet);
  }
}
