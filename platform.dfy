/**
 * The collaborators the theme loader relies on without owning them: the
 * filesystem as a directory listing, the Version class, and the conversion of
 * a path to a URI. Each is reduced to what the loader observes of it.
 */
module Platform {

  datatype Option<+T> = None | Some(value: T) {
    /** The value, or `default` when absent (a lookup with a fallback). */
    function GetOr(default: T): T {
      match this
      case Some(v) => v
      case None => default
    }
  }

  datatype Result<+T, +E> = Success(value: T) | Failure(error: E)

  datatype Outcome<+E> = Pass | Fail(error: E)

  /** A version as the Version class parses it; its structure is not modelled. */
  type Version(==)

  /** The operations the loader borrows from code outside this model. */
  datatype Host = Host(
    parseVersion: string -> Option<Version>,  // `new Version(text)`; None where it throws
    isBiggerThan: (Version, Version) -> bool,  // `a.isBiggerThan(b)`
    toUri: string -> string,                   // `Paths.get(p).toUri().toString()`
    separator: string)                         // `File.separator`

  /** What a folder's `theme.xml` is: no regular file, a file the parser rejects, or a parsed document. */
  datatype DescriptorFile<+D> = Absent | Malformed | Wellformed(document: D)

  /** One entry of a directory listing: a file or a folder, with its `theme.xml`. */
  datatype Entry<+D> = Entry(name: string, absolutePath: string, isDirectory: bool, descriptor: DescriptorFile<D>)

  /** A theme root folder: its path, whether it is a directory, and its listing (None when `listFiles` gives null). */
  datatype Root<+D> = Root(path: string, isDirectory: bool, listing: Option<seq<Entry<D>>>)

  /** Why one theme folder failed to load (a MinorException). */
  datatype Reason =
    | NotAFolder
    | NoThemeXml
    | ParseFailed
    | InvalidPlatformVersion
    | InvalidVersion
    | NoStylesheets
    | UnsupportedPlatformVersion

  /** One entry of a registry's error list: the folder and why it failed. */
  datatype ThemeError = ThemeError(folder: string, reason: Reason)

  /** Why a whole scan was aborted (a SevereException). */
  datatype ScanError = RootNotADirectory(path: string) | ListingUnavailable(path: string)

  /**
   * The entries of a theme root, or the scan error that aborts the whole
   * scan: the root is not a directory, or its listing is null.
   */
  function Listing<D>(root: Root<D>): (r: Result<seq<Entry<D>>, ScanError>)
    ensures !root.isDirectory ==> r == Failure(RootNotADirectory(root.path))
    ensures root.isDirectory && root.listing.None? ==> r == Failure(ListingUnavailable(root.path))
    ensures root.isDirectory && root.listing.Some? ==> r == Success(root.listing.value)
  {
    if !root.isDirectory then Failure(RootNotADirectory(root.path))
    else match root.listing
      case None => Failure(ListingUnavailable(root.path))
      case Some(es) => Success(es)
  }

  /** `new Version(text)` on a text that may be missing; a missing text fails like an unparsable one. */
  function ParsedVersion(text: Option<string>, host: Host): Option<Version>
  {
    match text
    case None => None
    case Some(t) => host.parseVersion(t)
  }

  /** A registry attempts a listing entry only when it is a folder holding a regular file `theme.xml`. */
  predicate IsCandidate<D>(e: Entry<D>) {
    e.isDirectory && !e.descriptor.Absent?
  }
}
