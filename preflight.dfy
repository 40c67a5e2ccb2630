/**
 * The checks every Set-/Remove- cmdlet makes before it calls the client:
 * the optimistic-concurrency Etag rule, the derived `overwrite` flag, and
 * the removal of trailing dots from DNS names.
 */
module Preflight {
  import opened Results
  import opened Text

  /** The warnings the cmdlets write. */
  datatype Warning =
    | NameEndsWithZoneName
    | ZoneNameTrimmed
    | RecordSetNameTrimmed
    | RecordsNotSpecified
    | InvalidZoneDetails
    | InvalidLinkDetails

  /**
   * The parts of an Azure resource id as `ResourceIdentifier` reports them.
   * Parsing is not part of this model: the cmdlets receive the parser as a
   * parameter, and a malformed id is its `Failure`.
   */
  datatype ResourceIdentifier = ResourceIdentifier(
    resourceGroupName: string, resourceName: string, parentResource: string)

  /** An Etag that cannot guard a write: null, blank, or the wildcard `*`. */
  predicate EtagUnusable(etag: Option<string>) {
    IsNullOrWhiteSpace(etag) || etag == Some("*")
  }

  /**
   * The cmdlets raise `PSArgumentException` exactly when the object's Etag
   * is unusable and `-Overwrite` was not given.
   */
  function EtagCheck(etag: Option<string>, overwrite: bool): (r: Result<()>)
    ensures r.Failure? <==> EtagUnusable(etag) && !overwrite
    ensures r.Failure? ==> r.error == PSArgumentException
  {
    if EtagUnusable(etag) && !overwrite then Failure(PSArgumentException) else Success(())
  }

  /**
   * `Overwrite.IsPresent || ParameterSetName != "Object"`: only a caller who
   * passed an object (and so holds its Etag) gets an Etag-guarded write.
   */
  function EffectiveOverwrite(overwriteSwitch: bool, objectSet: bool): (r: bool)
    ensures !r <==> objectSet && !overwriteSwitch
  {
    overwriteSwitch || !objectSet
  }

  /**
   * `if (name != null && name.EndsWith(".")) name = name.TrimEnd('.')`:
   * a null name stays null; a present name never ends with a dot afterwards,
   * and only trailing dots were removed.
   */
  function TrimZoneName(name: Option<string>): (r: Option<string>)
    ensures r.None? <==> name.None?
    ensures r.Some? ==> !EndsWithDot(r.value) && r.value <= name.value
    ensures r.Some? ==> forall i | |r.value| <= i < |name.value| :: name.value[i] == '.'
  {
    if name.Some? && EndsWithDot(name.value) then Some(TrimEndDots(name.value)) else name
  }

  /**
   * The warning a cmdlet writes when it trims a name: exactly one warning
   * when trimming changes the name, none otherwise.
   */
  function TrimWarning(name: Option<string>, warning: Warning): (w: seq<Warning>)
    ensures w != [] <==> TrimZoneName(name) != name
    ensures w != [] ==> w == [warning]
  {
    if name.Some? && EndsWithDot(name.value) then [warning] else []
  }

  /** The guarded form is the same as always trimming. */
  lemma {:induction false} TrimZoneNameIsTrimEnd(name: string)
    ensures TrimZoneName(Some(name)) == Some(TrimEndDots(name))
  {
    if !EndsWithDot(name) {
      TrimEndDotsKeepsUndotted(name);
    }
  }

  /** Normalising a name twice changes nothing more. */
  lemma {:induction false} TrimZoneNameIdempotent(name: Option<string>)
    ensures TrimZoneName(TrimZoneName(name)) == TrimZoneName(name)
  {
    if name.Some? {
      TrimZoneNameIsTrimEnd(name.value);
      TrimEndDotsIdempotent(name.value);
      TrimZoneNameIsTrimEnd(TrimEndDots(name.value));
    }
  }
}
