/**
 * The older theme record (`com.StreamPi.ThemeAPI.Theme`), read through a
 * key-value configuration rather than a DOM tree. It has separate server and
 * client stylesheet and font lists; loading fails only when both stylesheet
 * lists are missing, and every list that is present is resolved against the
 * folder with a `/` separator.
 */
module LegacyDescriptor {
  import opened Platform
  import opened AssetPaths

  /**
   * What the XML configuration answers for the keys the reader asks for;
   * None stands for the null a missing key reads as.
   */
  datatype Config = Config(
    platformVersion: Option<string>,          // theme-platform-version
    shortName: Option<string>,                // info.short-name
    author: Option<string>,                   // info.author
    website: Option<string>,                  // info.website
    version: Option<string>,                  // info.version
    serverStylesheets: Option<seq<string>>,   // theme.server.stylesheets.stylesheet
    serverFonts: Option<seq<string>>,         // theme.server.fonts.font
    clientStylesheets: Option<seq<string>>,   // theme.client.stylesheets.stylesheet
    clientFonts: Option<seq<string>>)         // theme.client.fonts.font

  /** The default of all three metadata fields. */
  const Unknown := "Unknown"

  datatype Theme = Theme(
    path: string,
    fullName: string,
    shortName: string,
    author: string,
    website: string,
    version: Version,
    themePlatformVersion: Version,
    serverStylesheets: Option<seq<string>>,
    serverFonts: Option<seq<string>>,
    clientStylesheets: Option<seq<string>>,
    clientFonts: Option<seq<string>>)
  {
    /** `getClientStylesheets()`, which hands out the server list. */
    function ClientStylesheets(): Option<seq<string>> {
      serverStylesheets
    }

    /** `getClientFonts()`, which hands out the server list. */
    function ClientFonts(): Option<seq<string>> {
      serverFonts
    }
  }

  /** A list resolved element-wise when present; a null list stays null. */
  function ResolvedList(prefix: string, list: Option<seq<string>>, toUri: string -> string): Option<seq<string>>
  {
    match list
    case None => None
    case Some(entries) => Some(Resolved(prefix, entries, toUri))
  }

  /** The prefix every asset entry is appended to. */
  function FolderPrefix(folder: Entry<Config>): string {
    folder.absolutePath + "/"
  }

  /** What loading `folder` yields: the theme, or the reason of the first failing check. */
  function Descriptor(folder: Entry<Config>, host: Host): (r: Result<Theme, Reason>)
    // each check fails exactly when the earlier ones pass and it does not
    ensures r == Failure(NotAFolder) <==> !folder.isDirectory
    ensures r == Failure(NoThemeXml) <==> folder.isDirectory && folder.descriptor.Absent?
    ensures r == Failure(ParseFailed) <==> folder.isDirectory && folder.descriptor.Malformed?
    ensures r == Failure(InvalidPlatformVersion) <==>
            folder.isDirectory && folder.descriptor.Wellformed? &&
            ParsedVersion(folder.descriptor.document.platformVersion, host).None?
    ensures r == Failure(InvalidVersion) <==>
            folder.isDirectory && folder.descriptor.Wellformed? &&
            ParsedVersion(folder.descriptor.document.platformVersion, host).Some? &&
            ParsedVersion(folder.descriptor.document.version, host).None?
    // only the two stylesheet lists matter, and either one suffices
    ensures r == Failure(NoStylesheets) <==>
            folder.isDirectory && folder.descriptor.Wellformed? &&
            ParsedVersion(folder.descriptor.document.platformVersion, host).Some? &&
            ParsedVersion(folder.descriptor.document.version, host).Some? &&
            folder.descriptor.document.serverStylesheets.None? &&
            folder.descriptor.document.clientStylesheets.None?
    // a folder that passes every check loads
    ensures r.Success? <==>
            folder.isDirectory && folder.descriptor.Wellformed? &&
            ParsedVersion(folder.descriptor.document.platformVersion, host).Some? &&
            ParsedVersion(folder.descriptor.document.version, host).Some? &&
            (folder.descriptor.document.serverStylesheets.Some? || folder.descriptor.document.clientStylesheets.Some?)
    ensures r.Failure? ==> r.error != UnsupportedPlatformVersion
    ensures r.Success? ==> folder.isDirectory && folder.descriptor.Wellformed?
    ensures r.Success? ==>
              var config := folder.descriptor.document;
              var prefix := FolderPrefix(folder);
              && r.value.path == folder.absolutePath
              && r.value.fullName == folder.name
              && Some(r.value.themePlatformVersion) == ParsedVersion(config.platformVersion, host)
              && Some(r.value.version) == ParsedVersion(config.version, host)
              && r.value.shortName == config.shortName.GetOr(Unknown)
              && r.value.author == config.author.GetOr(Unknown)
              && r.value.website == config.website.GetOr(Unknown)
              && (r.value.serverStylesheets.Some? || r.value.clientStylesheets.Some?)
              && r.value.serverStylesheets == ResolvedList(prefix, config.serverStylesheets, host.toUri)
              && r.value.serverFonts == ResolvedList(prefix, config.serverFonts, host.toUri)
              && r.value.clientStylesheets == ResolvedList(prefix, config.clientStylesheets, host.toUri)
              && r.value.clientFonts == ResolvedList(prefix, config.clientFonts, host.toUri)
  {
    if !folder.isDirectory then Failure(NotAFolder)
    else match folder.descriptor
      case Absent => Failure(NoThemeXml)
      case Malformed => Failure(ParseFailed)
      case Wellformed(config) =>
        match ParsedVersion(config.platformVersion, host)
        case None => Failure(InvalidPlatformVersion)
        case Some(platformVersion) =>
          match ParsedVersion(config.version, host)
          case None => Failure(InvalidVersion)
          case Some(version) =>
            if config.serverStylesheets.None? && config.clientStylesheets.None? then Failure(NoStylesheets)
            else
              var prefix := FolderPrefix(folder);
              Success(Theme(
                folder.absolutePath,
                folder.name,
                config.shortName.GetOr(Unknown),
                config.author.GetOr(Unknown),
                config.website.GetOr(Unknown),
                version,
                platformVersion,
                ResolvedList(prefix, config.serverStylesheets, host.toUri),
                ResolvedList(prefix, config.serverFonts, host.toUri),
                ResolvedList(prefix, config.clientStylesheets, host.toUri),
                ResolvedList(prefix, config.clientFonts, host.toUri)))
  }

  /** One of the four `if (list != null) for (…) list.set(i, …)` blocks. */
  method ResolveIfPresent(prefix: string, list: Option<seq<string>>, toUri: string -> string)
    returns (out: Option<seq<string>>)
    ensures out.None? <==> list.None?
    ensures out.Some? ==> |out.value| == |list.value|
    ensures out.Some? ==> forall i :: 0 <= i < |list.value| ==> out.value[i] == toUri(prefix + list.value[i])
    ensures out == ResolvedList(prefix, list, toUri)
  {
    out := list;
    if list.Some? {
      var resolved := ResolveAll(prefix, list.value, toUri);
      out := Some(resolved);
    }
  }

  /** `new Theme(folderPath)`: the checks in order, the fields, then the four resolutions. */
  method Load(folder: Entry<Config>, host: Host) returns (r: Result<Theme, Reason>)
    ensures r == Descriptor(folder, host)
  {
    if !folder.isDirectory {
      return Failure(NotAFolder);
    }
    if folder.descriptor.Absent? {
      return Failure(NoThemeXml);
    }
    if folder.descriptor.Malformed? {
      return Failure(ParseFailed);
    }
    var config := folder.descriptor.document;

    var fullName := folder.name;
    var themePlatformVersion := ParsedVersion(config.platformVersion, host);
    if themePlatformVersion.None? {
      return Failure(InvalidPlatformVersion);
    }
    var shortName := config.shortName.GetOr(Unknown);
    var author := config.author.GetOr(Unknown);
    var website := config.website.GetOr(Unknown);
    var version := ParsedVersion(config.version, host);
    if version.None? {
      return Failure(InvalidVersion);
    }

    var serverStylesheets := config.serverStylesheets;
    var serverFonts := config.serverFonts;
    var clientStylesheets := config.clientStylesheets;
    var clientFonts := config.clientFonts;
    if serverStylesheets.None? && clientStylesheets.None? {
      return Failure(NoStylesheets);
    }

    var prefix := folder.absolutePath + "/";
    serverStylesheets := ResolveIfPresent(prefix, serverStylesheets, host.toUri);
    serverFonts := ResolveIfPresent(prefix, serverFonts, host.toUri);
    clientStylesheets := ResolveIfPresent(prefix, clientStylesheets, host.toUri);
    clientFonts := ResolveIfPresent(prefix, clientFonts, host.toUri);
    r := Success(Theme(folder.absolutePath, fullName, shortName, author, website,
                       version.value, themePlatformVersion.value,
                       serverStylesheets, serverFonts, clientStylesheets, clientFonts));
  }

  /** The same folder with other font lists: whether and why loading fails does not change. */
  lemma FontsDoNotDecideLoading(folder: Entry<Config>, host: Host, serverFonts: Option<seq<string>>, clientFonts: Option<seq<string>>)
    requires folder.descriptor.Wellformed?
    ensures var other := folder.(descriptor := Wellformed(folder.descriptor.document.(serverFonts := serverFonts, clientFonts := clientFonts)));
            && (Descriptor(folder, host).Failure? <==> Descriptor(other, host).Failure?)
            && (Descriptor(folder, host).Failure? ==> Descriptor(folder, host) == Descriptor(other, host))
  {
  }

  /**
   * The client getters hand out the server lists: a theme that declares only
   * client stylesheets loads, yet its client stylesheet getter answers null.
   */
  lemma ClientGettersReturnServerLists(folder: Entry<Config>, host: Host)
    requires Descriptor(folder, host).Success?
    ensures var t := Descriptor(folder, host).value;
            var config := folder.descriptor.document;
            && t.ClientStylesheets() == ResolvedList(FolderPrefix(folder), config.serverStylesheets, host.toUri)
            && t.ClientFonts() == ResolvedList(FolderPrefix(folder), config.serverFonts, host.toUri)
            && (config.serverStylesheets.None? ==> t.ClientStylesheets().None? && t.clientStylesheets.Some?)
  {
  }
}
