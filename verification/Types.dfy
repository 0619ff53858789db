/** The records every stage of the scan passes on: resources read from the inventory, lifecycles
    read from the end-of-life catalogue, and the findings that classification makes of the two. */
module Types {

  datatype Option<+T> = None | Some(value: T)

  datatype Result<+T> = Ok(value: T) | Err(message: string)

  /** An instant, in nanoseconds on one fixed time line. */
  type Time = int

  const DAY: int := 86_400_000_000_000

  /** The first moment of the year 1, which stands for a time that was never set. */
  const ZERO_TIME: Time := -62_135_596_800_000_000_000

  const PRODUCT_NOT_FOUND := "product_not_found"
  const CYCLE_NOT_FOUND := "cycle_not_found"
  const SOURCE_ERROR := "source_error"
  const MALFORMED_CYCLE := "malformed_cycle"
  const EMPTY_INVENTORY_VERSION := "empty_inventory_version"
  const LIFECYCLE_MISMATCH := "lifecycle_mismatch"
  const INDETERMINATE := "indeterminate_lifecycle"
  const UNATTRIBUTED := "unattributed"

  const KNOWN_CAUSES: seq<string> := [
    PRODUCT_NOT_FOUND, CYCLE_NOT_FOUND, SOURCE_ERROR, MALFORMED_CYCLE,
    EMPTY_INVENTORY_VERSION, LIFECYCLE_MISMATCH, INDETERMINATE, UNATTRIBUTED]

  const ENDOFLIFE_DATE := "endoflife_date"
  const LOCAL_OVERRIDE := "local_override"
  const SOURCE_UNKNOWN := "unknown"

  const KNOWN_SOURCES: seq<string> := [ENDOFLIFE_DATE, LOCAL_OVERRIDE, SOURCE_UNKNOWN]

  /** A status is a string in the program; everything but the four known values is `Other`. */
  datatype Status = Red | Yellow | Green | Unknown | Other(name: string) {

    function Severity(): int {
      match this
      case Red => 3
      case Yellow => 2
      case Green => 1
      case Unknown => 0
      case Other(_) => -1
    }
  }

  datatype Resource = Resource(
    id: string,
    kind: string,
    service: string,
    cloudProvider: string,
    currentVersion: string,
    engine: string)

  /** The support boundaries of a version, then the flags that hold at the moment it was adapted.
      An empty `version` means that no lifecycle was found. */
  datatype VersionLifecycle = VersionLifecycle(
    version: string,
    engine: string,
    fetchedAt: Time,
    dataSource: string,
    unknownCause: string,
    deprecationDate: Option<Time>,
    deprecatedSupportEnd: Option<Time>,
    extendedSupportEnd: Option<Time>,
    eolDate: Option<Time>,
    isEOL: bool,
    isDeprecated: bool,
    isExtendedSupport: bool,
    isDeprecatedSupport: bool,
    isSupported: bool)

  /** A lifecycle with neither boundaries nor flags. */
  function BlankLifecycle(version: string, engine: string, fetchedAt: Time, dataSource: string, unknownCause: string)
    : VersionLifecycle
  {
    VersionLifecycle(version, engine, fetchedAt, dataSource, unknownCause,
                     None, None, None, None, false, false, false, false, false)
  }

  /** The lifecycle block carried by a finding. */
  datatype LifecycleDetails = LifecycleDetails(
    standardSupportEnd: Option<Time>,
    deprecatedSupportEnd: Option<Time>,
    eolDate: Option<Time>,
    extendedSupportEnd: Option<Time>,
    actionableDate: Option<Time>,
    fetchedAt: Time,
    version: string,
    engine: string,
    dataSource: string,
    unknownCause: string,
    isSupported: bool,
    isDeprecated: bool,
    isExtendedSupport: bool,
    isEOL: bool)

  datatype ScanSummary = ScanSummary(
    totalResources: nat,
    redCount: nat,
    yellowCount: nat,
    greenCount: nat,
    unknownCount: nat,
    compliancePercentage: real)

  datatype Finding = Finding(
    resourceID: string,
    kind: string,
    service: string,
    cloudProvider: string,
    currentVersion: string,
    engine: string,
    status: Status,
    eol: LifecycleDetails)
}
