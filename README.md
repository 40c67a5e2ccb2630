# Azure PowerShell Private DNS cmdlets — a Dafny model

This project models the local logic of the Azure PowerShell Private DNS
module: the `PrivateDnsClient` that turns cmdlet arguments into management-plane
requests and turns responses back into PowerShell objects, and the cmdlets
that build, edit and delete record sets, zones and virtual-network links. It
also models `Set-AzureRmNetworkSecurityRuleConfig` from the Network module,
which edits one rule of a network security group in place.

The management service is not modelled. A write is described by the request
the client sends (`PrivateDnsClient.Request`: verb, resource path, body,
`If-Match` and `If-None-Match`). A read is described by the service's answer,
which the caller passes in: a fetched zone, link or record set, a
`CloudResponse` (found, or a cloud error code), or a chain of result pages.

How the source's kinds of code are modelled:

- **Objects updated in place** are Dafny classes, and the methods that change
  them state the object's whole new state. These are `PrivateDnsZone`,
  `PrivateDnsLink`, `PrivateDnsRecordSet`, the SDK `RecordSet` body,
  `PSSecurityRule` and `PSNetworkSecurityGroup`.
- **Pure decisions** are functions. They cover the Etag rule, the
  `overwrite` derivation, the trailing-dot trim, header choice, record
  selection and parameter-set dispatch.
- **Loops** are methods with loop invariants: the pagination loops and the
  resource-group extraction.

Modules, one per file:

| file | module | models |
|---|---|---|
| results.dfy | `Results` | `Option`, `Result`, and the exception kinds the code raises |
| text.dfy | `Text` | the .NET string operations used: ignore-case equality, `EndsWith`, `TrimEnd('.')`, `IsNullOrWhiteSpace`, `Split` |
| models.dfy | `PrivateDnsModels` | record types and records; the zone, link and record-set objects |
| preflight.dfy | `Preflight` | the Etag rule, the `overwrite` derivation and the zone-name trim the cmdlets share |
| client.dfy | `PrivateDnsClient` | `PrivateDnsClient.cs` |
| record_config.dfy | `RecordConfig` | `New-`, `Add-` and `Remove-AzPrivateDnsRecordConfig` |
| record_set_cmdlets.dfy | `RecordSetCmdlets` | `New-`, `Get-`, `Set-` and `Remove-AzPrivateDnsRecordSet` |
| zone_cmdlets.dfy | `ZoneCmdlets` | `Set-` and `Remove-AzPrivateDnsZone` |
| link_cmdlets.dfy | `LinkCmdlets` | `Set-` and `Remove-AzPrivateDnsVirtualNetworkLink` |
| security_rule_config.dfy | `SecurityRuleConfig` | `Set-AzureRmNetworkSecurityRuleConfig` |

## Model

| member | source | states |
|---|---|---|
| Text.TrimEndDots | src/PrivateDns/PrivateDns/Records/NewAzurePrivateDnsRecordSet.cs:95-99 | `TrimEnd('.')` returns a prefix of the name that does not end with a dot, and everything cut off was a dot |
| Text.TrimEndDotsIdempotent | src/PrivateDns/PrivateDns/Records/NewAzurePrivateDnsRecordSet.cs:95-99 | trimming an already trimmed name changes nothing |
| Text.TrimEndDotsOfDotted | src/PrivateDns/PrivateDns/Records/NewAzurePrivateDnsRecordSet.cs:95-99 | any number of trailing dots added to an undotted name are removed exactly, giving the name back |
| Text.RemoveEmpty | src/PrivateDns/PrivateDns/Models/PrivateDnsClient.cs:464 | `RemoveEmptyEntries` keeps exactly the non-empty pieces |
| Text.RemoveEmptyAppend | src/PrivateDns/PrivateDns/Models/PrivateDnsClient.cs:464 | dropping empty pieces distributes over concatenation, so order is kept |
| Text.SplitAround | src/PrivateDns/PrivateDns/Models/PrivateDnsClient.cs:387 | splitting `x/y` gives the pieces of `x` followed by the pieces of `y` |
| PrivateDnsModels.ParseRecordType | src/PrivateDns/PrivateDns/Models/PrivateDnsClient.cs:389 | `Enum.Parse(..., ignoreCase: true)` returns a type whose name equals the text up to case, and returns none only when no type name matches |
| PrivateDnsModels.ParseTypeName | src/PrivateDns/PrivateDns/Models/PrivateDnsClient.cs:389 | parsing a type's own name gives that type back |
| PrivateDnsModels.RecordSet.Clone | src/PrivateDns/PrivateDns/Records/SetAzurePrivateDnsRecordSet.cs:33 | the clone is a new object with every field equal to the original's |
| Preflight.EtagCheck | src/PrivateDns/PrivateDns/Records/SetAzurePrivateDnsRecordSet.cs:28-31 | fails with PSArgumentException exactly when the Etag is null, blank or `*` and `-Overwrite` is absent |
| Preflight.EffectiveOverwrite | src/PrivateDns/PrivateDns/Zones/SetAzurePrivateDnsZone.cs:96 | `overwrite` is false exactly in the Object set without `-Overwrite` |
| Preflight.TrimZoneName | src/PrivateDns/PrivateDns/Zones/RemoveAzurePrivateDnsZone.cs:78-82 | a null name stays null; otherwise the result does not end with a dot, is a prefix of the name, and only dots were removed |
| Preflight.TrimZoneNameIsTrimEnd | src/PrivateDns/PrivateDns/Zones/RemoveAzurePrivateDnsZone.cs:78-82 | the guarded trim (`EndsWith(".")` first) equals an unconditional `TrimEnd('.')` |
| Preflight.TrimZoneNameIdempotent | src/PrivateDns/PrivateDns/Zones/RemoveAzurePrivateDnsZone.cs:78-82 | trimming twice is trimming once |
| Preflight.TrimWarning | src/PrivateDns/PrivateDns/Zones/RemoveAzurePrivateDnsZone.cs:57-61 | a trim writes exactly one warning when it changes the name, and none otherwise |
| PrivateDnsClient.SdkRecordSet.constructor | src/PrivateDns/PrivateDns/Models/PrivateDnsClient.cs:176-180 | a new body holds the metadata and TTL, and every record field is null |
| PrivateDnsClient.SdkRecordSet.SetList | src/PrivateDns/PrivateDns/Models/PrivateDnsClient.cs:205-230 | sets one list field and leaves every other field unchanged |
| PrivateDnsClient.GuardedWriteSendsRealEtag | src/PrivateDns/PrivateDns/Models/PrivateDnsClient.cs:95 | once the Etag rule has passed, a guarded delete or update sends either `*` (overwrite) or a real, non-blank Etag |
| PrivateDnsClient.CreateZoneRequest | src/PrivateDns/PrivateDns/Models/PrivateDnsClient.cs:52-70 | zone create is a PUT to location `global` with the tags, no If-Match and If-None-Match `*` |
| PrivateDnsClient.UpdateZoneRequest | src/PrivateDns/PrivateDns/Models/PrivateDnsClient.cs:72-86 | zone update sends If-Match null when overwriting and the zone's Etag otherwise, and no If-None-Match |
| PrivateDnsClient.DeleteZoneRequest | src/PrivateDns/PrivateDns/Models/PrivateDnsClient.cs:88-96 | zone delete sends If-Match `*` when overwriting and the zone's Etag otherwise |
| PrivateDnsClient.DeleteRecordSetRequest | src/PrivateDns/PrivateDns/Models/PrivateDnsClient.cs:299-308 | record-set delete addresses the set's group, zone, type and name, with If-Match `*` when overwriting and the Etag otherwise |
| PrivateDnsClient.OfType | src/PrivateDns/PrivateDns/Models/PrivateDnsClient.cs:438-447 | `GetMamlRecords` keeps exactly the records of the requested type |
| PrivateDnsClient.OfTypeAppend | src/PrivateDns/PrivateDns/Models/PrivateDnsClient.cs:438-447 | the filter distributes over concatenation, so records keep their original order |
| PrivateDnsClient.OfTypeAllOfType | src/PrivateDns/PrivateDns/Models/PrivateDnsClient.cs:438-447 | a list whose records are all of the type passes through unchanged |
| PrivateDnsClient.OfTypeNoneOfType | src/PrivateDns/PrivateDns/Models/PrivateDnsClient.cs:438-447 | a list with no record of the type filters to empty |
| PrivateDnsClient.SingleOrDefault | src/PrivateDns/PrivateDns/Models/PrivateDnsClient.cs:284-291 | succeeds exactly for at most one record: that record or null. More records fail with InvalidOperationException |
| PrivateDnsClient.FillRecordsForType | src/PrivateDns/PrivateDns/Models/PrivateDnsClient.cs:201-235 | fails with ArgumentException exactly for several CNAME records; otherwise it sets the type's field to the records (SOA: only the first) and leaves the other fields unchanged |
| PrivateDnsClient.FillEmptyRecordsForType | src/PrivateDns/PrivateDns/Models/PrivateDnsClient.cs:237-247 | only the type's field is set: an empty list, or for CNAME a record with an empty name. SOA and every other field are null |
| PrivateDnsClient.ConstructRecordSetProperties | src/PrivateDns/PrivateDns/Models/PrivateDnsClient.cs:169-199 | fails with ArgumentException exactly when some given record has another type or a CNAME set gets several records; otherwise the body holds TTL, tags and the type's field only |
| PrivateDnsClient.CreatedRecordsReadBack | src/PrivateDns/PrivateDns/Models/PrivateDnsClient.cs:169-199 | reading back a create body gives the given records (SOA: the first) |
| PrivateDnsClient.CreatePrivateDnsRecordSet | src/PrivateDns/PrivateDns/Models/PrivateDnsClient.cs:145-167 | record-set create sends the constructed body, no If-Match, and If-None-Match `*` unless overwriting; record errors fail before any request |
| PrivateDnsClient.UpdatePrivateDnsRecordSet | src/PrivateDns/PrivateDns/Models/PrivateDnsClient.cs:249-297 | only the set type's field is sent, holding that type's records in order: for a list type always a list (empty when there are none), for CNAME and SOA the one record or null. A null list fails; several CNAME or SOA records fail with InvalidOperationException; If-Match is `*` when overwriting, else the Etag |
| PrivateDnsClient.UpdatedRecordsReadBack | src/PrivateDns/PrivateDns/Models/PrivateDnsClient.cs:249-297 | reading back an update body gives the set's records of its type, and all of them when the set is well typed |
| PrivateDnsClient.FlattenOrderCoversTypes | src/PrivateDns/PrivateDns/Models/PrivateDnsClient.cs:406-425 | the flattening order names every record type exactly once |
| PrivateDnsClient.PowerShellRecordsUnfolded | src/PrivateDns/PrivateDns/Models/PrivateDnsClient.cs:406-436 | flattened records are AAAA, A, MX, SRV, TXT, PTR, CNAME, SOA in that order; null fields contribute nothing |
| PrivateDnsClient.OfTypeGather | src/PrivateDns/PrivateDns/Models/PrivateDnsClient.cs:406-436 | filtering gathered records by a type gives that type's field when the order names it, and nothing otherwise |
| PrivateDnsClient.PowerShellRecordsOfType | src/PrivateDns/PrivateDns/Models/PrivateDnsClient.cs:406-436 | for a well-typed response, the flattened records of each type are exactly that type's field |
| PrivateDnsClient.PowerShellRecordsGrouped | src/PrivateDns/PrivateDns/Models/PrivateDnsClient.cs:406-425 | flattened records are grouped by type in the fixed order |
| PrivateDnsClient.GatherOnlyField | src/PrivateDns/PrivateDns/Models/PrivateDnsClient.cs:406-436 | when only one field is set, gathering gives that field's records or nothing |
| PrivateDnsClient.PowerShellRecordsOfOnlyField | src/PrivateDns/PrivateDns/Models/PrivateDnsClient.cs:406-425 | when only one field is set, the flattened records are that field's records |
| PrivateDnsClient.ToUInt32 | src/PrivateDns/PrivateDns/Models/PrivateDnsClient.cs:400 | the `(uint)` cast lands in 32 bits (the record set's TTL is a 32-bit unsigned value) and keeps values that already fit |
| PrivateDnsClient.RecordTypeFromId | src/PrivateDns/PrivateDns/Models/PrivateDnsClient.cs:386-389 | the type is the next-to-last `/` piece of the id, parsed ignoring case; a shorter id fails with InvalidOperationException and an unknown name with ArgumentException |
| PrivateDnsClient.RecordTypeFromRecordSetId | src/PrivateDns/PrivateDns/Models/PrivateDnsClient.cs:386-389 | an id `.../<type>/<name>` yields that type |
| PrivateDnsClient.GetPowerShellRecordSet | src/PrivateDns/PrivateDns/Models/PrivateDnsClient.cs:384-403 | the PowerShell record set carries the id's type, the flattened records, the response's id, name, Etag and metadata, the caller's zone and group, and the TTL cast to 32 bits (null as 0) |
| PrivateDnsClient.ResourceGroupAfter | src/PrivateDns/PrivateDns/Models/PrivateDnsClient.cs:470-480 | the only failure is FormatException |
| PrivateDnsClient.ResourceGroupAfterSpec | src/PrivateDns/PrivateDns/Models/PrivateDnsClient.cs:462-481 | succeeds exactly when a `resourceGroups` piece (any case) comes before the last piece, and returns the piece right after the first such piece |
| PrivateDnsClient.ExtractResourceGroupNameFromId | src/PrivateDns/PrivateDns/Models/PrivateDnsClient.cs:462-481 | the loop with `break` computes the specified extraction |
| PrivateDnsClient.ResourceGroupOfArmId | src/PrivateDns/PrivateDns/Models/PrivateDnsClient.cs:462-481 | an id `/subscriptions/<s>/resourceGroups/<g>/<rest>` (with `<s>` and `<g>` non-empty, without `/`, and `<s>` not itself `resourceGroups`) yields `<g>` |
| PrivateDnsClient.ToPrivateDnsZone | src/PrivateDns/PrivateDns/Models/PrivateDnsClient.cs:449-460 | the zone carries the response's name, Etag and tags and the group extracted from its id; a bad id fails with FormatException |
| PrivateDnsClient.HandleNonExistent | src/PrivateDns/PrivateDns/Models/PrivateDnsClient.cs:366-382 | a `ResourceNotFound` error becomes null; any other error propagates; a found item is returned |
| PrivateDnsClient.MapSeq | src/PrivateDns/PrivateDns/Models/PrivateDnsClient.cs:118 | `Select` converts each item in place and keeps the length |
| PrivateDnsClient.CollectIgnoresSpareFuel | src/PrivateDns/PrivateDns/Models/PrivateDnsClient.cs:103-122 | the pages collected from a chain that ends do not depend on how large the bound on pages is |
| PrivateDnsClient.CollectPages | src/PrivateDns/PrivateDns/Models/PrivateDnsClient.cs:103-122 | the do-while loop returns all pages' items in order, following next links until one is null |
| RecordConfig.ParamsType | src/PrivateDns/PrivateDns/Records/NewAzureRmPrivateDnsRecordConfig.cs:20-26 | no parameter set describes an SOA record |
| RecordConfig.SetNameMatchesType | src/PrivateDns/PrivateDns/Records/AddAzurePrivateDnsRecordConfig.cs:78-81 | the parameter-set name equals the record set's type name ignoring case exactly when the parameters are of that type |
| RecordConfig.NewRecordConfig | src/PrivateDns/PrivateDns/Records/NewAzureRmPrivateDnsRecordConfig.cs:76-115 | each parameter set yields one record of its own type, never SOA, whose fields are exactly the parameters: `ParamsOf` reads them back unchanged |
| RecordConfig.ParamsOf | src/PrivateDns/PrivateDns/Records/NewAzureRmPrivateDnsRecordConfig.cs:76-115 | every record but SOA has the parameters of its own type's set, SOA has none |
| RecordConfig.NewRecordConfigOfParams | src/PrivateDns/PrivateDns/Records/NewAzureRmPrivateDnsRecordConfig.cs:76-115 | every record but SOA is the record New builds from its own parameters, so New and `ParamsOf` are inverse |
| RecordConfig.NewRecordConfigCmdlet | src/PrivateDns/PrivateDns/Records/NewAzureRmPrivateDnsRecordConfig.cs:73-124 | binding fails exactly for empty strings or over-long TXT values; otherwise the result is the record of the parameters' type |
| RecordConfig.MatchesOwnRecord | src/PrivateDns/PrivateDns/Records/RemoveAzurePrivateDnsRecordConfig.cs:81-135 | a record built from parameters is matched by the same parameters |
| RecordConfig.Remaining | src/PrivateDns/PrivateDns/Records/RemoveAzurePrivateDnsRecordConfig.cs:83-135 | `RemoveAll` keeps exactly the records that do not match |
| RecordConfig.RemainingAppend | src/PrivateDns/PrivateDns/Records/RemoveAzurePrivateDnsRecordConfig.cs:83-135 | removal distributes over concatenation, so survivors keep their order |
| RecordConfig.RemainingWithoutMatch | src/PrivateDns/PrivateDns/Records/RemoveAzurePrivateDnsRecordConfig.cs:83-135 | removing a record that is not present leaves the list unchanged |
| RecordConfig.RemainingIdempotent | src/PrivateDns/PrivateDns/Records/RemoveAzurePrivateDnsRecordConfig.cs:83-135 | removing twice is removing once |
| RecordConfig.AddedRecords | src/PrivateDns/PrivateDns/Records/AddAzurePrivateDnsRecordConfig.cs:83-142 | non-CNAME types append the new record after the existing ones. CNAME succeeds exactly when the list is empty or starts with an empty-name CNAME, leaving just the new CNAME; otherwise it fails with ArgumentException |
| RecordConfig.AddKeepsSetTyped | src/PrivateDns/PrivateDns/Records/AddAzurePrivateDnsRecordConfig.cs:88-142 | adding to a well-typed set keeps it well typed and contains the new record |
| RecordConfig.AddCnameSingle | src/PrivateDns/PrivateDns/Records/AddAzurePrivateDnsRecordConfig.cs:123-142 | a successful CNAME add leaves exactly one record |
| RecordConfig.AddThenRemove | src/PrivateDns/PrivateDns/Records/AddAzurePrivateDnsRecordConfig.cs:88-122 | adding a record that matches nothing present and then removing it gives the original list back |
| RecordConfig.AddRecordConfig | src/PrivateDns/PrivateDns/Records/AddAzurePrivateDnsRecordConfig.cs:75-148 | empty strings fail binding (ParameterValidationException); once bound, every failure (a type mismatch, or a CNAME added to a set that already holds a named CNAME) is ArgumentException and changes nothing; success replaces only the records (a null list counts as empty) and returns the same object |
| RecordConfig.RemoveRecordConfig | src/PrivateDns/PrivateDns/Records/RemoveAzurePrivateDnsRecordConfig.cs:69-147 | empty strings fail binding (ParameterValidationException); once bound, it fails exactly on a type mismatch, with ArgumentException, changing nothing; a null list is left alone; otherwise the records become those that do not match, and the same object is returned |
| RecordSetCmdlets.TtlProperty | src/PrivateDns/PrivateDns/Records/NewAzurePrivateDnsRecordSet.cs:49-53 | the `Ttl` getter reports 0 when unset and the bound value otherwise |
| RecordSetCmdlets.NameEndsWithZoneMissedWithDot | src/PrivateDns/PrivateDns/Records/NewAzurePrivateDnsRecordSet.cs:90-93 | as written, `www.contoso.com` in `contoso.com.` gets no warning; on the trimmed zone name it does |
| RecordSetCmdlets.NameEndsWithZoneIgnoresDots | src/PrivateDns/PrivateDns/Records/NewAzurePrivateDnsRecordSet.cs:90-99 | the corrected warning does not depend on trailing dots on the zone name |
| RecordSetCmdlets.NewRecordSetWarningsAgreeUndotted | src/PrivateDns/PrivateDns/Records/NewAzurePrivateDnsRecordSet.cs:90-104 | the warnings as written and with the corrected name test agree whenever the zone name has no trailing dot |
| RecordSetCmdlets.NewRecordSet | src/PrivateDns/PrivateDns/Records/NewAzurePrivateDnsRecordSet.cs:24-130 | an empty `-Name`, `-ZoneName` or `-ResourceGroupName` fails binding (ParameterValidationException, no warning) before anything else. Then SOA fails, with no warning. The zone comes from the fields or the zone object, trimmed. The warnings are, in order: the name ends with the zone name as given (before the trim), the zone name was trimmed, no records were given. The create request follows `CreatePrivateDnsRecordSet` with the unset TTL as null |
| RecordSetCmdlets.GetRecordSet | src/PrivateDns/PrivateDns/Records/GetAzurePrivateDnsRecordSet.cs:21-93 | an empty given `-Name`, `-ZoneName` or `-ResourceGroupName` fails binding (ParameterValidationException, no warning). Otherwise the zone-name trim warning is written first, whatever follows. Name without RecordType fails with PSArgumentException. Otherwise: a name means get one, no type means list all, and a type means list by type; always in the trimmed zone |
| RecordSetCmdlets.SetRecordSet | src/PrivateDns/PrivateDns/Records/SetAzurePrivateDnsRecordSet.cs:26-49 | the Etag rule applies; the update is sent for a clone with the zone name trimmed (with its warning), with `overwrite` equal to the switch and a list field that is always a list for list types; the caller's object is not modified |
| RecordSetCmdlets.RemoveRecordSet | src/PrivateDns/PrivateDns/Records/RemoveAzurePrivateDnsRecordSet.cs:21-131 | an empty `-Name`, `-ZoneName` or `-ResourceGroupName` fails binding (ParameterValidationException, no output, no warning). Fields and Mixed trim the name and delete unconditionally (Mixed takes zone and group from the zone object). Object applies the Etag rule, trims the caller's zone name in place and guards by the Etag unless `-Overwrite`. Each trim writes its warning, the record-set name's before the zone name's. PassThru writes `true` |
| RecordSetCmdlets.RemoveGuardedOnlyByObject | src/PrivateDns/PrivateDns/Records/RemoveAzurePrivateDnsRecordSet.cs:112 | a delete carries an If-Match other than `*` only in the Object set without `-Overwrite` |
| ZoneCmdlets.LookupKey | src/PrivateDns/PrivateDns/Zones/SetAzurePrivateDnsZone.cs:59-70 | by name, the lookup uses the trimmed name; by id, the id's group and trimmed resource name; a malformed id fails |
| ZoneCmdlets.GivenName | src/PrivateDns/PrivateDns/Zones/RemoveAzurePrivateDnsZone.cs:50-61 | the name before the trim: `-Name`, or the id's resource name; present exactly when the lookup key is, and trimming it gives the key's name |
| ZoneCmdlets.SetZone | src/PrivateDns/PrivateDns/Zones/SetAzurePrivateDnsZone.cs:26-101 | an empty `-Name`, `-ResourceGroupName` or `-ResourceId` fails binding (ParameterValidationException, no warning, nothing changed). Otherwise, by name or id, the fetched zone gets Etag `*` and the given tags (even null) and is updated unconditionally; a malformed id changes nothing. By object, the Etag rule applies and the update is guarded unless `-Overwrite`. The name is trimmed on every path; the warnings are the given name's trim, then the updated object's |
| ZoneCmdlets.RemoveZone | src/PrivateDns/PrivateDns/Zones/RemoveAzurePrivateDnsZone.cs:21-98 | an empty `-Name`, `-ResourceGroupName` or `-ResourceId` fails binding (ParameterValidationException, no warning, nothing changed). Otherwise the given name's trim warning comes first; a zone that is not found then gives the invalid-details warning and no delete. The Etag rule is checked with the derived `overwrite`. The zone's name is trimmed in place (with its warning) and its other fields, tags included, are kept. PassThru writes `true` |
| LinkCmdlets.LastSegment | src/PrivateDns/PrivateDns/Utilities/PrivateDnsUtils.cs:39 | `Split('/').Last()` contains no `/`, and is the whole string when it has none |
| LinkCmdlets.LastSegmentOfParent | src/PrivateDns/PrivateDns/Utilities/PrivateDnsUtils.cs:39 | the last segment of `<prefix>/<zone>` is `<zone>` |
| LinkCmdlets.LinkLookupKey | src/PrivateDns/PrivateDns/VirtualNetworkLinks/SetAzurePrivateDnsVirtualNetworkLink.cs:65-79 | by name, the trimmed zone name; by id, the id's group, the last segment of its parent (trimmed) and its resource name; a malformed id fails |
| LinkCmdlets.GivenZoneName | src/PrivateDns/PrivateDns/VirtualNetworkLinks/RemoveAzurePrivateDnsVirtualNetworkLink.cs:63-75 | the zone name before the trim: `-ZoneName`, or the last segment of the id's parent; present exactly when the lookup key is, and trimming it gives the key's zone name |
| LinkCmdlets.LinkIdLookupNamesParentZone | src/PrivateDns/PrivateDns/VirtualNetworkLinks/RemoveAzurePrivateDnsVirtualNetworkLink.cs:63-75 | a link id looks the link up in the zone its parent resource ends with, without trailing dots |
| LinkCmdlets.LinkLookupIgnoresTrailingDots | src/PrivateDns/PrivateDns/VirtualNetworkLinks/RemoveAzurePrivateDnsVirtualNetworkLink.cs:71-75 | trailing dots on `-ZoneName` do not change the link that is looked up |
| LinkCmdlets.SetLink | src/PrivateDns/PrivateDns/VirtualNetworkLinks/SetAzurePrivateDnsVirtualNetworkLink.cs:26-107 | an empty `-ResourceGroupName`, `-ZoneName`, `-Name` or `-ResourceId` fails binding (ParameterValidationException, no warning, nothing changed). Otherwise, by name or id, the given zone name's trim warning is written, and the fetched link gets Etag `*`, the tags, the trimmed zone name and the registration flag, and is updated with overwrite; a malformed id changes nothing. By object, the Etag rule applies and the object is sent unchanged, with no warning, with overwrite equal to the switch |
| LinkCmdlets.RemoveLink | src/PrivateDns/PrivateDns/VirtualNetworkLinks/RemoveAzurePrivateDnsVirtualNetworkLink.cs:27-112 | an empty `-ResourceGroupName`, `-ZoneName`, `-Name` or `-ResourceId` fails binding (ParameterValidationException, no warning, nothing changed). Otherwise the given zone name's trim warning comes first; a link that is not found then gives the invalid-details warning and no delete. The Etag rule is checked with the derived `overwrite`. The link's zone name is trimmed in place, with its warning. PassThru writes `true` |
| SecurityRuleConfig.CheckExclusions | src/ResourceManager/Network/Commands.Network/NetworkSecurityGroup/NetworkSecurityRule/SetAzureNetworkSecurityRuleConfigCommand.cs:41-59 | accepts exactly the parameters where neither side combines a non-blank address prefix with an application security group or its id; rejects with ArgumentException |
| SecurityRuleConfig.SingleMatch | src/ResourceManager/Network/Commands.Network/NetworkSecurityGroup/NetworkSecurityRule/SetAzureNetworkSecurityRuleConfigCommand.cs:62 | no match exactly when no rule name matches ignoring case; several exactly when two rules match; otherwise the position of the only match |
| SecurityRuleConfig.SingleMatchIgnoresCase | src/ResourceManager/Network/Commands.Network/NetworkSecurityGroup/NetworkSecurityRule/SetAzureNetworkSecurityRuleConfigCommand.cs:62 | names that are equal ignoring case find the same rule |
| SecurityRuleConfig.DistinctNamesNeverAmbiguous | src/ResourceManager/Network/Commands.Network/NetworkSecurityGroup/NetworkSecurityRule/SetAzureNetworkSecurityRuleConfigCommand.cs:62 | when rule names differ ignoring case, the lookup never finds several rules |
| SecurityRuleConfig.RuleNames | src/ResourceManager/Network/Commands.Network/NetworkSecurityGroup/NetworkSecurityRule/SetAzureNetworkSecurityRuleConfigCommand.cs:62 | the names of the rules, position by position |
| SecurityRuleConfig.SecurityRule.Overwrite | src/ResourceManager/Network/Commands.Network/NetworkSecurityGroup/NetworkSecurityRule/SetAzureNetworkSecurityRuleConfigCommand.cs:69-77 | every setting becomes the parameter value; the name stays |
| SecurityRuleConfig.SetRuleConfig | src/ResourceManager/Network/Commands.Network/NetworkSecurityGroup/NetworkSecurityRule/SetAzureNetworkSecurityRuleConfigCommand.cs:37-83 | conflicting parameters fail with ArgumentException, a missing rule with ArgumentException and several matches with InvalidOperationException, all changing nothing. Otherwise only the matched rule's settings change and the output is the same group object |

## Left out

- Calls to the management service: requests are values, and responses are parameters. Network errors, retries and the service's own Etag comparison are not modelled.
- PowerShell host plumbing is left out: `ConfirmAction`/`ShouldProcess` (treated as confirmed), `WriteVerbose`, the text of `WriteWarning` (warnings are tags), and the lazy client in `PrivateDnsBaseCmdlet`.
- `TagsConversionHelper` is not part of this model. Tags pass through unchanged, so tag validation errors are not modelled.
- `ToMamlRecord`/`FromMamlRecord` on `PrivateDnsRecordBase` are not part of this model. The PowerShell and SDK records are one `Record` datatype, and a conversion is the identity.
- `ResourceIdentifier` is not part of this model. Its parsing of a resource id is a function parameter, so its failures are whatever that function returns.
- The client's link methods (`GetPrivateDnsLink`, `UpdatePrivateDnsLink`, `DeletePrivateDnsLink`, `GetLinkHandleNonExistentLink`) are not part of this model. Set takes the fetched link as a `CloudResponse`; Remove takes the handled lookup result (`null` for a missing link or zone, as the link tests expect), and both record the call they make as a `LinkCall`.
- `base.Execute` and `Set{Source,Destination}ApplicationSecurityGroupInRule` of the network rule cmdlet are not part of this model. Application security groups count only by whether they were given, and the rule fields those helpers set are not modelled.
- The fields of `PSSecurityRule` are modelled as nullable strings (priority as a nullable integer), since the base class that declares the parameters is not part of this model.
- PrivateDnsClient.CollectPages: the page chain is bounded by a ghost fuel that the caller shows suffices; a service that returns next links forever is not modelled, and the conversion of each item is total (a failing `ToPrivateDnsZone` in a listing is not modelled).
- `NumberOfRecordSets` and `MaxNumberOfRecordSets` on zones are not modelled. `CreatePrivateDnsZone`, `GetPrivateDnsZone` and `GetPrivateDnsRecordSet` forward to the service and are modelled only as the requests and conversions above.
- The `default` branch of `New-AzPrivateDnsRecordConfig` and the `SOA` case of `Remove-AzPrivateDnsRecordConfig` cannot be reached. The binder only yields the seven declared parameter sets, none of them SOA, so `RecordParams` has no variant for another set.
- Text.EqualsIgnoreCase: `OrdinalIgnoreCase` and `CurrentCultureIgnoreCase` are both modelled as ASCII case folding; non-ASCII case pairs and culture rules are not.
- Text.IsNullOrWhiteSpace: only ASCII white space counts as blank.
- Text.EndsWith: `string.EndsWith(string)` compares with the current culture in .NET; the model compares ordinally, character by character, so culture-specific equivalences (ignorable characters, combined forms) are not modelled. `EndsWith(".")` in the trim guards is the same test in both readings for ordinary names.
- PrivateDnsClient.ToPrivateDnsZone: the response's `Id` is a non-null string here; a null id, which makes the source throw `NullReferenceException` while splitting it, is not modelled.
- SecurityRuleConfig.SetRuleConfig: the group and its rule list are non-null here. A null `-NetworkSecurityGroup` is refused by the binder (the parameter is mandatory and does not allow null), and a null `SecurityRules` makes `SingleOrDefault` throw `ArgumentNullException`; neither is modelled.
- LinkCmdlets.LastSegment: the parent resource of a parsed link id is a non-null string; a null one, which makes the source throw while splitting it, is not modelled.
- The `Caa` parameter-set constant and record types beyond the eight in `RecordType` are not modelled.

## Findings

| source | as written | input that shows it | evidently intended | confidence | as-written member | corrected member |
|---|---|---|---|---|---|---|
| src/PrivateDns/PrivateDns/Records/NewAzurePrivateDnsRecordSet.cs:90-99 | the warning that the record-set name ends with the zone name compares against the zone name before its trailing dots are trimmed | name `www.contoso.com`, zone `contoso.com.`: no warning, although the set is created in zone `contoso.com` | compare against the trimmed zone name the set is created in (`NewRecordSetWarningsIntended`); `NewRecordSet` keeps the test as written | not executed; low (a warning only) | RecordSetCmdlets.NameEndsWithZoneMissedWithDot | RecordSetCmdlets.NameEndsWithZoneIgnoresDots |
