/**
 * The PowerShell-side objects of the Private DNS module: record types,
 * the typed record values, and the zone, virtual-network-link and
 * record-set objects that the cmdlets receive, mutate and return.
 */
module PrivateDnsModels {
  import opened Results
  import opened Text

  /** A resource's tags (a `Hashtable` in the module). */
  type Tags = map<string, string>

  /** An unsigned 16-bit value (`ushort`). */
  type UInt16 = x: int | 0 <= x < 0x1_0000

  /** An unsigned 32-bit value (`uint`). */
  type UInt32 = x: int | 0 <= x < 0x1_0000_0000

  /** The record types of a private DNS zone, in the SDK's `RecordType` enumeration. */
  datatype RecordType = A | AAAA | CNAME | MX | PTR | SOA | SRV | TXT

  /** `RecordType.ToString()`. */
  function TypeName(t: RecordType): string {
    match t
    case A => "A"
    case AAAA => "AAAA"
    case CNAME => "CNAME"
    case MX => "MX"
    case PTR => "PTR"
    case SOA => "SOA"
    case SRV => "SRV"
    case TXT => "TXT"
  }

  /**
   * `Enum.Parse(typeof(RecordType), s, ignoreCase: true)` restricted to
   * member names: the member whose name equals `s` up to case, if any.
   */
  function ParseRecordType(s: string): (r: Option<RecordType>)
    ensures r.Some? ==> EqualsIgnoreCase(s, TypeName(r.value))
    ensures r.None? ==> forall t: RecordType :: !EqualsIgnoreCase(s, TypeName(t))
  {
    if EqualsIgnoreCase(s, "A") then Some(A)
    else if EqualsIgnoreCase(s, "AAAA") then Some(AAAA)
    else if EqualsIgnoreCase(s, "CNAME") then Some(CNAME)
    else if EqualsIgnoreCase(s, "MX") then Some(MX)
    else if EqualsIgnoreCase(s, "PTR") then Some(PTR)
    else if EqualsIgnoreCase(s, "SOA") then Some(SOA)
    else if EqualsIgnoreCase(s, "SRV") then Some(SRV)
    else if EqualsIgnoreCase(s, "TXT") then Some(TXT)
    else None
  }

  /** Parsing a type's own name gives the type back. */
  lemma {:induction false} ParseTypeName(t: RecordType)
    ensures ParseRecordType(TypeName(t)) == Some(t)
  {
    var n := TypeName(t);
    assert EqualsIgnoreCase(n, n);
    match t {
      case A =>
      case AAAA =>
      case CNAME =>
      case MX =>
      case PTR =>
        assert FoldCase(n[0]) != FoldCase("SOA"[0]);
      case SOA =>
        assert FoldCase(n[0]) != FoldCase("PTR"[0]);
      case SRV =>
        assert FoldCase(n[0]) != FoldCase("PTR"[0]);
        assert FoldCase(n[1]) != FoldCase("SOA"[1]);
      case TXT =>
        assert FoldCase(n[0]) != FoldCase("PTR"[0]);
        assert FoldCase(n[0]) != FoldCase("SOA"[0]);
        assert FoldCase(n[0]) != FoldCase("SRV"[0]);
    }
  }

  /**
   * One DNS record. The PowerShell record classes and the SDK record classes
   * carry the same fields, so one datatype stands for both.
   */
  datatype Record =
    | ARecord(ipv4Address: string)
    | AaaaRecord(ipv6Address: string)
    | CnameRecord(cname: string)
    | MxRecord(preference: UInt16, exchange: string)
    | PtrRecord(ptrdname: string)
    | SoaRecord(host: string, email: string)
    | SrvRecord(priority: UInt16, port: UInt16, target: string, weight: UInt16)
    | TxtRecord(value: string)

  /** The record type a record's class stands for (`GetType()` against the type table). */
  function TypeOf(r: Record): RecordType {
    match r
    case ARecord(_) => A
    case AaaaRecord(_) => AAAA
    case CnameRecord(_) => CNAME
    case MxRecord(_, _) => MX
    case PtrRecord(_) => PTR
    case SoaRecord(_, _) => SOA
    case SrvRecord(_, _, _, _) => SRV
    case TxtRecord(_) => TXT
  }

  /** `PrivateDnsZone`: the fields the cmdlets read and write. */
  class Zone {
    var name: Option<string>
    var resourceGroupName: Option<string>
    var etag: Option<string>
    var tags: Option<Tags>

    constructor (name: Option<string>, resourceGroupName: Option<string>, etag: Option<string>, tags: Option<Tags>)
      ensures this.name == name && this.resourceGroupName == resourceGroupName
      ensures this.etag == etag && this.tags == tags
    {
      this.name := name;
      this.resourceGroupName := resourceGroupName;
      this.etag := etag;
      this.tags := tags;
    }
  }

  /** The value of a virtual network link as it is handed to the client. */
  datatype LinkData = LinkData(
    name: Option<string>,
    resourceGroupName: Option<string>,
    zoneName: Option<string>,
    etag: Option<string>,
    tags: Option<Tags>,
    registrationEnabled: bool)

  /** `PrivateDnsLink`: the fields the cmdlets read and write. */
  class Link {
    var name: Option<string>
    var resourceGroupName: Option<string>
    var zoneName: Option<string>
    var etag: Option<string>
    var tags: Option<Tags>
    var registrationEnabled: bool

    function Data(): LinkData
      reads this
    {
      LinkData(name, resourceGroupName, zoneName, etag, tags, registrationEnabled)
    }
  }

  /** `PrivateDnsRecordSet`: a record set as the cmdlets see it. */
  class RecordSet {
    var id: Option<string>
    var name: Option<string>
    var zoneName: Option<string>
    var resourceGroupName: Option<string>
    var recordType: RecordType
    var etag: Option<string>
    var ttl: UInt32
    var records: Option<seq<Record>>
    var metadata: Option<Tags>

    constructor (
      id: Option<string>, name: Option<string>, zoneName: Option<string>, resourceGroupName: Option<string>,
      recordType: RecordType, etag: Option<string>, ttl: UInt32, records: Option<seq<Record>>, metadata: Option<Tags>)
      ensures this.id == id && this.name == name && this.zoneName == zoneName
      ensures this.resourceGroupName == resourceGroupName && this.recordType == recordType
      ensures this.etag == etag && this.ttl == ttl && this.records == records && this.metadata == metadata
    {
      this.id := id;
      this.name := name;
      this.zoneName := zoneName;
      this.resourceGroupName := resourceGroupName;
      this.recordType := recordType;
      this.etag := etag;
      this.ttl := ttl;
      this.records := records;
      this.metadata := metadata;
    }

    /** Every field of `this` equals the same field of `other`. */
    predicate SameFieldsAs(other: RecordSet)
      reads this, other
    {
      id == other.id && name == other.name && zoneName == other.zoneName &&
      resourceGroupName == other.resourceGroupName && recordType == other.recordType &&
      etag == other.etag && ttl == other.ttl && records == other.records && metadata == other.metadata
    }

    /** `Clone()`: a new record set with the same field values. */
    method Clone() returns (c: RecordSet)
      ensures fresh(c) && c.SameFieldsAs(this)
    {
      c := new RecordSet(id, name, zoneName, resourceGroupName, recordType, etag, ttl, records, metadata);
    }
  }
}
