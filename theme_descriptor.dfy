/**
 * One theme folder turned into a validated theme record (the current
 * `com.stream_pi.theme_api.Theme`). Loading runs a fixed chain of checks and
 * stops at the first one that fails:
 *   folder is a directory, `theme.xml` is a regular file, the XML parses,
 *   `theme-platform-version` parses, `info/version` parses, stylesheets exist.
 * The record is never changed once built.
 */
module ThemeDescriptor {
  import opened Platform
  import opened Xml
  import opened AssetPaths

  /** The default of the `short-name` and `author` metadata. */
  const Unknown := "Unknown"

  datatype Theme = Theme(
    path: string,
    fullName: string,
    shortName: string,
    author: string,
    website: Option<string>,   // None stands for the Java null default
    version: Version,
    themePlatformVersion: Version,
    stylesheets: seq<string>)

  // ---------------------------------------------------------------------------
  // Reading the descriptor document

  /** The text of the first `theme-platform-version` element anywhere in the document. */
  function PlatformVersionText(document: Node): Option<string>
  {
    match FirstElement([document], "theme-platform-version")
    case None => None
    case Some(e) => Some(TextContent(e))
  }

  /** The first `info` element anywhere in the document (`item(0)`, possibly null). */
  function InfoElement(document: Node): Option<Node>
  {
    FirstElement([document], "info")
  }

  /**
   * A metadata property of `info`: the text of its first descendant element
   * of that name; absent when `info` or the element is missing.
   */
  function InfoProperty(info: Option<Node>, name: string): Option<string>
  {
    match info
    case Some(Element(_, cs)) =>
      (match FirstElement(cs, name)
       case None => None
       case Some(e) => Some(TextContent(e)))
    case _ => None
  }

  predicate IsStylesheet(n: Node) {
    n.Element? && n.tag == "stylesheet"
  }

  /** The text of each element child named `stylesheet`, in document order; every other child is skipped. */
  function StylesheetTexts(children: seq<Node>): seq<string>
  {
    if children == [] then []
    else (if IsStylesheet(children[0]) then [TextContent(children[0])] else []) + StylesheetTexts(children[1..])
  }

  /**
   * The stylesheet list before resolution: None (the list stays null) when
   * the document has no `theme` element, the first `theme` has no
   * `stylesheets` element, or that element has no child nodes at all.
   */
  function DeclaredStylesheets(document: Node): Option<seq<string>>
  {
    match FirstElement([document], "theme")
    case None => None
    case Some(theme) =>
      match FirstElement(theme.children, "stylesheets")
      case None => None
      case Some(sheets) =>
        if sheets.children == [] then None else Some(StylesheetTexts(sheets.children))
  }

  // ---------------------------------------------------------------------------
  // The validation chain

  /** What loading `folder` yields: the theme, or the reason of the first failing check. */
  function Descriptor(folder: Entry<Node>, host: Host): (r: Result<Theme, Reason>)
    // each check fails exactly when the earlier ones pass and it does not
    ensures r == Failure(NotAFolder) <==> !folder.isDirectory
    ensures r == Failure(NoThemeXml) <==> folder.isDirectory && folder.descriptor.Absent?
    ensures r == Failure(ParseFailed) <==> folder.isDirectory && folder.descriptor.Malformed?
    // the version checks: the platform version is examined first
    ensures r == Failure(InvalidPlatformVersion) <==>
            folder.isDirectory && folder.descriptor.Wellformed? &&
            ParsedVersion(PlatformVersionText(folder.descriptor.document), host).None?
    ensures r == Failure(InvalidVersion) <==>
            folder.isDirectory && folder.descriptor.Wellformed? &&
            ParsedVersion(PlatformVersionText(folder.descriptor.document), host).Some? &&
            ParsedVersion(InfoProperty(InfoElement(folder.descriptor.document), "version"), host).None?
    // the stylesheet check comes last
    ensures r == Failure(NoStylesheets) <==>
            folder.isDirectory && folder.descriptor.Wellformed? &&
            ParsedVersion(PlatformVersionText(folder.descriptor.document), host).Some? &&
            ParsedVersion(InfoProperty(InfoElement(folder.descriptor.document), "version"), host).Some? &&
            DeclaredStylesheets(folder.descriptor.document).None?
    // a folder that passes every check loads
    ensures r.Success? <==>
            folder.isDirectory && folder.descriptor.Wellformed? &&
            ParsedVersion(PlatformVersionText(folder.descriptor.document), host).Some? &&
            ParsedVersion(InfoProperty(InfoElement(folder.descriptor.document), "version"), host).Some? &&
            DeclaredStylesheets(folder.descriptor.document).Some?
    ensures r.Failure? ==> r.error != UnsupportedPlatformVersion
    // what a loaded theme holds
    ensures r.Success? ==> folder.isDirectory && folder.descriptor.Wellformed?
    ensures r.Success? ==>
              var document := folder.descriptor.document;
              var info := InfoElement(document);
              && r.value.path == folder.absolutePath
              && r.value.fullName == folder.name
              && Some(r.value.themePlatformVersion) == ParsedVersion(PlatformVersionText(document), host)
              && Some(r.value.version) == ParsedVersion(InfoProperty(info, "version"), host)
              && r.value.shortName == InfoProperty(info, "short-name").GetOr(Unknown)
              && r.value.author == InfoProperty(info, "author").GetOr(Unknown)
              && r.value.website == InfoProperty(info, "website")
              && DeclaredStylesheets(document).Some?
              && r.value.stylesheets == Resolved(folder.absolutePath + host.separator, DeclaredStylesheets(document).value, host.toUri)
  {
    if !folder.isDirectory then Failure(NotAFolder)
    else match folder.descriptor
      case Absent => Failure(NoThemeXml)
      case Malformed => Failure(ParseFailed)
      case Wellformed(document) =>
        match ParsedVersion(PlatformVersionText(document), host)
        case None => Failure(InvalidPlatformVersion)
        case Some(platformVersion) =>
          var info := InfoElement(document);
          match ParsedVersion(InfoProperty(info, "version"), host)
          case None => Failure(InvalidVersion)
          case Some(version) =>
            match DeclaredStylesheets(document)
            case None => Failure(NoStylesheets)
            case Some(entries) =>
              Success(Theme(
                folder.absolutePath,
                folder.name,
                InfoProperty(info, "short-name").GetOr(Unknown),
                InfoProperty(info, "author").GetOr(Unknown),
                InfoProperty(info, "website"),
                version,
                platformVersion,
                Resolved(folder.absolutePath + host.separator, entries, host.toUri)))
  }

  // ---------------------------------------------------------------------------
  // The constructor, step by step

  /** The loop that adds the text of every `stylesheet` element child to a fresh list. */
  method CollectStylesheets(children: seq<Node>) returns (list: seq<string>)
    ensures list == StylesheetTexts(children)
  {
    list := [];
    for i := 0 to |children|
      invariant list == StylesheetTexts(children[..i])
    {
      StylesheetTextsAppend(children[..i], [children[i]]);
      assert children[..i + 1] == children[..i] + [children[i]];
      var n := children[i];
      if !n.Element? {
        continue;
      }
      if n.tag != "stylesheet" {
        continue;
      }
      list := list + [TextContent(n)];
    }
    assert children[..|children|] == children;
  }

  /** `new Theme(path)`: the checks in order, then the fields, then the stylesheet list, then its resolution. */
  method Load(folder: Entry<Node>, host: Host) returns (r: Result<Theme, Reason>)
    ensures r == Descriptor(folder, host)
  {
    if !folder.isDirectory {
      return Failure(NotAFolder);
    }
    if folder.descriptor.Absent? {
      return Failure(NoThemeXml);
    }
    if folder.descriptor.Malformed? {
      return Failure(ParseFailed);
    }
    var document := folder.descriptor.document;

    var fullName := folder.name;
    var themePlatformVersion := ParsedVersion(PlatformVersionText(document), host);
    if themePlatformVersion.None? {
      return Failure(InvalidPlatformVersion);
    }

    var info := InfoElement(document);
    var shortName := InfoProperty(info, "short-name").GetOr(Unknown);
    var author := InfoProperty(info, "author").GetOr(Unknown);
    var website := InfoProperty(info, "website");
    var version := ParsedVersion(InfoProperty(info, "version"), host);
    if version.None? {
      return Failure(InvalidVersion);
    }

    var stylesheets: Option<seq<string>> := None;
    var themeElement := FirstElement([document], "theme");
    if themeElement.Some? {
      var stylesheetsElement := FirstElement(themeElement.value.children, "stylesheets");
      if stylesheetsElement.Some? {
        var ss := stylesheetsElement.value.children;
        if |ss| > 0 {
          var list := CollectStylesheets(ss);
          stylesheets := Some(list);
        }
      }
    }
    if stylesheets.None? {
      return Failure(NoStylesheets);
    }

    var resolved := ResolveAll(folder.absolutePath + host.separator, stylesheets.value, host.toUri);
    r := Success(Theme(folder.absolutePath, fullName, shortName, author, website,
                       version.value, themePlatformVersion.value, resolved));
  }

  // ---------------------------------------------------------------------------
  // Properties of the stylesheet list

  /** Collecting distributes over concatenation: the list follows document order. */
  lemma {:induction false} StylesheetTextsAppend(a: seq<Node>, b: seq<Node>)
    ensures StylesheetTexts(a + b) == StylesheetTexts(a) + StylesheetTexts(b)
  {
    if a == [] {
      assert a + b == b;
    } else {
      assert (a + b)[0] == a[0];
      assert (a + b)[1..] == a[1..] + b;
      StylesheetTextsAppend(a[1..], b);
    }
  }

  /** The collected texts are exactly those of the `stylesheet` element children. */
  lemma {:induction false} StylesheetTextsMembers(children: seq<Node>, s: string)
    ensures s in StylesheetTexts(children) <==>
            exists i :: 0 <= i < |children| && IsStylesheet(children[i]) && TextContent(children[i]) == s
  {
    if children != [] {
      StylesheetTextsMembers(children[1..], s);
      if exists i :: 0 <= i < |children| && IsStylesheet(children[i]) && TextContent(children[i]) == s {
        var i :| 0 <= i < |children| && IsStylesheet(children[i]) && TextContent(children[i]) == s;
        if i > 0 {
          assert children[1..][i - 1] == children[i];
        }
      }
      if exists j :: 0 <= j < |children[1..]| && IsStylesheet(children[1..][j]) && TextContent(children[1..][j]) == s {
        var j :| 0 <= j < |children[1..]| && IsStylesheet(children[1..][j]) && TextContent(children[1..][j]) == s;
        assert children[j + 1] == children[1..][j];
      }
    }
  }

  /** Children that are not `stylesheet` elements (whitespace text, comments, other elements) yield nothing. */
  lemma {:induction false} NoStylesheetChildrenYieldEmpty(children: seq<Node>)
    requires forall i :: 0 <= i < |children| ==> !IsStylesheet(children[i])
    ensures StylesheetTexts(children) == []
  {
    if children != [] {
      assert forall i :: 0 <= i < |children[1..]| ==> children[1..][i] == children[i + 1];
      NoStylesheetChildrenYieldEmpty(children[1..]);
    }
  }

  /**
   * A `stylesheets` element holding only whitespace passes the stylesheet
   * check: the theme loads with an empty stylesheet list.
   */
  lemma WhitespaceOnlyStylesheetsLoad(folder: Entry<Node>, host: Host, theme: Node, sheets: Node)
    requires folder.isDirectory && folder.descriptor.Wellformed?
    requires ParsedVersion(PlatformVersionText(folder.descriptor.document), host).Some?
    requires ParsedVersion(InfoProperty(InfoElement(folder.descriptor.document), "version"), host).Some?
    requires FirstElement([folder.descriptor.document], "theme") == Some(theme)
    requires FirstElement(theme.children, "stylesheets") == Some(sheets)
    requires sheets.children != []
    requires forall i :: 0 <= i < |sheets.children| ==> sheets.children[i].Text?
    ensures Descriptor(folder, host).Success?
    ensures Descriptor(folder, host).value.stylesheets == []
  {
    NoStylesheetChildrenYieldEmpty(sheets.children);
  }
}
