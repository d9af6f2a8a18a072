# Stream-Pi theme loading, modelled in Dafny

Stream-Pi themes are folders. Each holds a `theme.xml` descriptor and the
stylesheets (and, in older packages, fonts) it names. The theme API turns one
folder into a validated `Theme` record. It also builds a `Themes` registry over
one or two theme roots. The repository keeps two revisions of both classes side
by side, and this project models both:

- `com.stream_pi.theme_api`, the current revision. It reads the descriptor as a
  DOM tree and has a single stylesheet list. Its registry scans a default root
  and a user root, keeps only the first theme of each name, and keeps a
  "default theme present" flag and a "default theme broken" flag.
- `com.StreamPi.ThemeAPI`, the older revision. It reads the descriptor through
  a key-value configuration and has separate server and client stylesheet and
  font lists. Its registry scans one root, does not suppress duplicates, and
  can be refreshed.

Modules, one per source file plus the shared collaborators:

| module | models |
|---|---|
| `Platform` | what the loader sees of its collaborators. The filesystem becomes folder entries and roots with listings. The `Version` class becomes an opaque `Version` type with a partial `parseVersion` and an uninterpreted `isBiggerThan`. URI conversion becomes an opaque `toUri`, and `File.separator` a plain string. These are bundled in a `Host` record. Failures are reason tags plus the folder name. |
| `Xml` | the DOM as the current reader uses it: element, text and comment nodes, `getTextContent` and `getElementsByTagName` (all descendants, in document order) |
| `AssetPaths` | the index loop shared by both revisions that rewrites each asset entry into `toUri(prefix + entry)` |
| `ThemeDescriptor` | `com/stream_pi/theme_api/Theme.java` |
| `ThemeRegistry` | `com/stream_pi/theme_api/Themes.java` |
| `LegacyDescriptor` | `com/StreamPi/ThemeAPI/Theme.java` |
| `LegacyRegistry` | `com/StreamPi/ThemeAPI/Themes.java` |

A theme never changes after construction, so it is a datatype. Its constructor
becomes the method `Load`. `Load` runs the checks and assigns the fields step
by step. The `add` loop collects the stylesheets, and the index loop rewrites
them. `Load` is proved equal to the pure function `Descriptor`, and the
properties are stated about `Descriptor`. A registry is a class with the
source's fields; its lists are `seq` fields. The Java constructor throws
`SevereException` and then no object exists, so the registry constructor
becomes a static `Create` that returns a `Result`. Each registry method is
proved against the pure scan functions (`Step`, `StepAll`, `ScanRoot`), and
the lemmas are about those functions.

Where the code departs from what the loader evidently means to do, the model
follows the code:

- A `<stylesheets>` element whose only children are whitespace passes the
  check, and the theme loads with no stylesheets (`WhitespaceOnlyStylesheetsLoad`).
- Both default-theme flags can be true at once (`BothFlagsCanHold`).
- A rescan does not clear the broken flag. The older `refreshThemeList`
  appends one more pass to the existing lists (`RescanDoublesLists`,
  `BrokenFlagSurvivesRescan`). The current revision has no usable rescan: see
  `ThemeRegistry.Themes.LoadThemes` under "## Left out".
- The older revision defaults `website` to `"Unknown"`, not to an absent value.
- The current revision reads no fonts at all.

The current loop updates the present flag before its duplicate test. That has
no effect: a theme is skipped only when a theme of the same name was added
earlier, and adding it already set the flag (`DuplicateSkipChangesNothing`).

## Model

| member | source | states |
|---|---|---|
| `Xml.ElementsByTag` | src/main/java/com/stream_pi/theme_api/Theme.java:121-128 | every element it returns has the requested tag; every top-level element with that tag is included; an element with that tag at the front comes first (the descendant-level and ordering facts are the lemmas below) |
| `Xml.FirstElement` | src/main/java/com/stream_pi/theme_api/Theme.java:104 | `item(0)`: a result is an element with the tag and is the first entry of `getElementsByTagName`; None exactly when that list is empty |
| `Xml.ElementsByTagSound` | src/main/java/com/stream_pi/theme_api/Theme.java:121-128 | every element returned is a node of the document, at some depth |
| `Xml.ElementsByTagComplete` | src/main/java/com/stream_pi/theme_api/Theme.java:121-128 | every element with the tag, at any depth, is returned |
| `Xml.ElementsByTagAppend` | src/main/java/com/stream_pi/theme_api/Theme.java:121-128 | document order across siblings: the matches of an earlier subtree all precede those of a later one |
| `Xml.ElementsByTagNested` | src/main/java/com/stream_pi/theme_api/Theme.java:97-128 | document order inside one element: the element precedes its descendants, so under an element of another name `item(0)` is the first match among its children |
| `Xml.FirstElementNoneIff` | src/main/java/com/stream_pi/theme_api/Theme.java:104 | `item(0)` is null exactly when no element at any depth has the tag |
| `Xml.FirstElementPrefersEarlier` | src/main/java/com/stream_pi/theme_api/Theme.java:97-128 | `item(0)` is the earliest match: a match in an earlier part of the document wins over everything after it |
| `AssetPaths.Resolved` | src/main/java/com/stream_pi/theme_api/Theme.java:160-163 | resolution keeps the length and order: `output[i] == toUri(prefix + input[i])` for every index |
| `AssetPaths.ResolveAll` | src/main/java/com/stream_pi/theme_api/Theme.java:160-163 | the in-place `set` loop yields exactly the resolved list |
| `ThemeDescriptor.PlatformVersionText` | src/main/java/com/stream_pi/theme_api/Theme.java:97 | defines the platform version text as the text content of the first `theme-platform-version` element at any depth, absent when there is none |
| `ThemeDescriptor.InfoElement` | src/main/java/com/stream_pi/theme_api/Theme.java:104 | defines `info` as the first `info` element at any depth, possibly absent |
| `ThemeDescriptor.InfoProperty` | src/main/java/com/stream_pi/theme_api/Theme.java:106-112 | defines a metadata value as the text of the first descendant of `info` with that name, absent when `info` or the element is missing (the assumed reading of `XMLConfigHelper.getStringProperty`) |
| `ThemeDescriptor.StylesheetTexts` | src/main/java/com/stream_pi/theme_api/Theme.java:136-148 | defines the collected list: the text of each `stylesheet` element child, in order |
| `ThemeDescriptor.DeclaredStylesheets` | src/main/java/com/stream_pi/theme_api/Theme.java:121-158 | defines the stylesheet decision: absent when there is no `theme`, no `stylesheets` under it, or it has no child nodes; otherwise the collected texts |
| `ThemeDescriptor.Descriptor` | src/main/java/com/stream_pi/theme_api/Theme.java:52-164 | the checks run in a fixed order and each failure reason holds iff the earlier checks pass and that check fails: not a folder, then no `theme.xml`, then a parse failure, then the platform version (which wins over the version), then `info/version`, then stylesheets. `NoStylesheets` holds iff there is no `theme` element, no `stylesheets` element, or it has zero child nodes. A folder that passes every check loads. A loaded theme has `fullName` equal to the folder name; `shortName` and `author` default to "Unknown" and `website` to null; its versions are the parsed texts; its stylesheets are the declared entries resolved against `path + separator`. It never fails as unsupported. |
| `ThemeDescriptor.Load` | src/main/java/com/stream_pi/theme_api/Theme.java:52-164 | the step-by-step constructor returns exactly `Descriptor` |
| `ThemeDescriptor.CollectStylesheets` | src/main/java/com/stream_pi/theme_api/Theme.java:131-148 | the `add` loop that skips non-element and non-`stylesheet` children yields exactly `StylesheetTexts` of the children |
| `ThemeDescriptor.StylesheetTextsAppend` | src/main/java/com/stream_pi/theme_api/Theme.java:136-148 | collecting distributes over concatenation, so the list follows document order |
| `ThemeDescriptor.StylesheetTextsMembers` | src/main/java/com/stream_pi/theme_api/Theme.java:136-148 | a text is collected iff some child is a `stylesheet` element with that text content |
| `ThemeDescriptor.NoStylesheetChildrenYieldEmpty` | src/main/java/com/stream_pi/theme_api/Theme.java:136-148 | children none of which is a `stylesheet` element yield the empty list |
| `ThemeDescriptor.WhitespaceOnlyStylesheetsLoad` | src/main/java/com/stream_pi/theme_api/Theme.java:121-158 | a `stylesheets` element with only text children passes validation, and the theme loads with an empty stylesheet list |
| `ThemeRegistry.Attempt` | src/main/java/com/stream_pi/theme_api/Themes.java:91-96 | a loaded theme with `min.isBiggerThan(platformVersion)` fails as unsupported, and only such a theme does; a loaded theme that meets the minimum is accepted unchanged; an accepted theme is named after its folder; descriptor failures pass through unchanged |
| `ThemeRegistry.FateOf` | src/main/java/com/stream_pi/theme_api/Themes.java:84-130 | defines what the loop body does with one entry: ignored, rejected with a reason, skipped as a duplicate name, or added |
| `ThemeRegistry.Step` | src/main/java/com/stream_pi/theme_api/Themes.java:84-131 | defines one loop iteration: the fields after the entry's fate is applied |
| `ThemeRegistry.StepAll` | src/main/java/com/stream_pi/theme_api/Themes.java:82-133 | defines the loop over a listing: `Step` applied to each entry in listing order |
| `Platform.IsCandidate` | src/main/java/com/stream_pi/theme_api/Themes.java:84-87 | defines which listing entries the loop attempts: a folder holding a regular file `theme.xml` (the same test in both revisions) |
| `Platform.ParsedVersion` | src/main/java/com/stream_pi/theme_api/Theme.java:95-117 | defines `new Version(text)` inside its `try`: a missing text or one the parser rejects gives no version |
| `Platform.Listing` | src/main/java/com/stream_pi/theme_api/Themes.java:67-80 | a root that is not a directory aborts with `RootNotADirectory`, a null listing with `ListingUnavailable`, both naming the root; a directory with a listing yields that listing |
| `ThemeRegistry.ScanRoot` | src/main/java/com/stream_pi/theme_api/Themes.java:67-80 | a root that is not a directory, or whose listing is null, aborts with its own scan error; otherwise the result is the loop over the listing started from the given state |
| `ThemeRegistry.Construct` | src/main/java/com/stream_pi/theme_api/Themes.java:42-56 | the constructor fails iff the default root aborts, or the user root has a different path string and aborts; a default-root failure is the one reported; with equal path strings only the default root is scanned; with different ones the user root is scanned on top of the default root's state, sharing `shortDir` |
| `ThemeRegistry.StepKeepsInvariants` | src/main/java/com/stream_pi/theme_api/Themes.java:107-118 | one folder keeps `shortDir` equal to the list's names with no name twice, and keeps every listed theme supported |
| `ThemeRegistry.StepOnLoad` | src/main/java/com/stream_pi/theme_api/Themes.java:107-118 | a folder that loads and is supported is appended to the list and to `shortDir` when its name is new, and skipped otherwise; the error list is not touched |
| `ThemeRegistry.StepAllKeepsInvariants` | src/main/java/com/stream_pi/theme_api/Themes.java:82-133 | over any listing, names in `themeList` stay pairwise distinct and match `shortDir`, and no unsupported theme enters the list |
| `ThemeRegistry.StepAllExtends` | src/main/java/com/stream_pi/theme_api/Themes.java:82-133 | the theme list, the error list and `shortDir` only grow at the end, and neither flag is ever reset |
| `ThemeRegistry.Accounting` | src/main/java/com/stream_pi/theme_api/Themes.java:82-133 | each listing entry has exactly one fate. It is ignored iff it is not a folder with a regular `theme.xml`. Otherwise it is added to the list, added to the errors, or skipped as a duplicate. The list grows by the number added and the errors by the number rejected. |
| `ThemeRegistry.StepFlags` | src/main/java/com/stream_pi/theme_api/Themes.java:98-130 | one folder sets the present flag iff it loads under the default name, and sets the broken flag iff it is attempted under the default name and fails; neither flag is cleared |
| `ThemeRegistry.StepAllKeepsPresentTracked` | src/main/java/com/stream_pi/theme_api/Themes.java:98-111 | over any listing, whenever a theme named like the default is in `shortDir`, the present flag is set |
| `ThemeRegistry.DuplicateSkipChangesNothing` | src/main/java/com/stream_pi/theme_api/Themes.java:98-118 | while that holds, a folder skipped as a duplicate leaves every field unchanged, the present flag included |
| `ThemeRegistry.DefaultPresentIff` | src/main/java/com/stream_pi/theme_api/Themes.java:98-104 | after a listing the present flag is set iff it was set before or some folder loads as a supported theme named like the default, even one skipped as a duplicate |
| `ThemeRegistry.DefaultBrokenIff` | src/main/java/com/stream_pi/theme_api/Themes.java:120-130 | after a listing the broken flag is set iff it was set before or some attempted folder named like the default fails, for any reason |
| `ThemeRegistry.FirstRootWins` | src/main/java/com/stream_pi/theme_api/Themes.java:42-58 | the default root's themes are a prefix of the final list. No later theme shares a name with one of them, all names are distinct, and all themes are supported. |
| `ThemeRegistry.DuplicateAcrossRootsKeepsFirst` | src/main/java/com/stream_pi/theme_api/Themes.java:107-118 | for any listings: when a name loads from a folder of each root, the final list holds exactly one theme of that name, the one loaded from the default root's folder |
| `ThemeRegistry.LoadedNameSeen` | src/main/java/com/stream_pi/theme_api/Themes.java:107-118 | after a pass, the name of every folder of the listing that loads is in `shortDir`, whether it was added or skipped |
| `ThemeRegistry.ThemesFromListing` | src/main/java/com/stream_pi/theme_api/Themes.java:84-118 | every theme a pass adds is the theme loaded from some attempted folder of its listing |
| `ThemeRegistry.BothFlagsCanHold` | src/main/java/com/stream_pi/theme_api/Themes.java:98-130 | for any listings: a folder in the default root that loads as the default theme and a folder of the same name in the user root that fails leave both flags set |
| `ThemeRegistry.BothFlagsWitness` | src/main/java/com/stream_pi/theme_api/Themes.java:98-130 | for any version, a concrete default root with a loadable `Dark` and a user root with an unparsable `Dark` leave both flags set, so the preconditions of `BothFlagsCanHold` can be met |
| `ThemeRegistry.Themes.Init` | src/main/java/com/stream_pi/theme_api/Themes.java:29-51 | a new registry has empty lists, both flags false, and an empty `shortDir` |
| `ThemeRegistry.Themes.Create` | src/main/java/com/stream_pi/theme_api/Themes.java:42-58 | the constructor scans the default root first and the user root only if its path string differs. It fails exactly when that scan fails, and then with the same error. On success the fields equal the combined scan and `shortDir` is null. |
| `ThemeRegistry.Themes.Visit` | src/main/java/com/stream_pi/theme_api/Themes.java:84-131 | one loop iteration changes the fields exactly as `Step` does |
| `ThemeRegistry.Themes.LoadThemes` | src/main/java/com/stream_pi/theme_api/Themes.java:67-134 | with `shortDir` present, the method either aborts with the root's scan error and leaves the fields unchanged, or leaves them equal to `ScanRoot` of the old fields |
| `LegacyDescriptor.ResolvedList` | src/main/java/com/StreamPi/ThemeAPI/Theme.java:121-154 | defines one of the four `if (list != null)` blocks: a null list stays null, a present one is resolved element-wise |
| `LegacyDescriptor.Theme.ClientStylesheets` | src/main/java/com/StreamPi/ThemeAPI/Theme.java:167-170 | defines `getClientStylesheets`, which returns the server stylesheet list |
| `LegacyDescriptor.Theme.ClientFonts` | src/main/java/com/StreamPi/ThemeAPI/Theme.java:172-175 | defines `getClientFonts`, which returns the server font list |
| `LegacyDescriptor.Descriptor` | src/main/java/com/StreamPi/ThemeAPI/Theme.java:34-155 | the checks run in order and each failure reason holds iff the earlier checks pass and that check fails: not a folder, then no `theme.xml`, then configuration failure, then platform version (which wins over the version), then version, then stylesheets. `NoStylesheets` holds iff both the server and the client stylesheet lists are null. A folder that passes every check loads. `shortName`, `author` and `website` default to "Unknown". Each of the four lists is resolved against `path + "/"` when present and stays null otherwise. |
| `LegacyDescriptor.Load` | src/main/java/com/StreamPi/ThemeAPI/Theme.java:34-155 | the step-by-step constructor returns exactly `Descriptor` |
| `LegacyDescriptor.ResolveIfPresent` | src/main/java/com/StreamPi/ThemeAPI/Theme.java:121-154 | a null list stays null. A present list keeps its length and gets `toUri(prefix + entry)` at every index. |
| `LegacyDescriptor.FontsDoNotDecideLoading` | src/main/java/com/StreamPi/ThemeAPI/Theme.java:104-119 | changing the font lists changes neither whether loading fails nor why |
| `LegacyDescriptor.ClientGettersReturnServerLists` | src/main/java/com/StreamPi/ThemeAPI/Theme.java:167-175 | `getClientStylesheets` and `getClientFonts` return the resolved server lists. A theme with only client stylesheets loads, yet its client stylesheet getter returns null. |
| `LegacyRegistry.Attempt` | src/main/java/com/StreamPi/ThemeAPI/Themes.java:58-64 | a loaded theme below `minThemeSupportPlatform` fails as unsupported, and only such a theme does; a loaded theme that meets the minimum is accepted unchanged; an accepted theme is named after its folder; descriptor failures pass through unchanged |
| `LegacyRegistry.Step` | src/main/java/com/StreamPi/ThemeAPI/Themes.java:52-79 | defines one loop iteration: a loaded theme is appended, a failure appended to the errors and the broken flag set for the default name |
| `LegacyRegistry.StepAll` | src/main/java/com/StreamPi/ThemeAPI/Themes.java:50-80 | defines the loop over a listing: `Step` applied to each entry in listing order |
| `LegacyRegistry.AddedBy` | src/main/java/com/StreamPi/ThemeAPI/Themes.java:52-66 | defines the theme one entry adds: the loaded theme of an attempted folder that is supported, otherwise nothing |
| `LegacyRegistry.CountCandidates` | src/main/java/com/StreamPi/ThemeAPI/Themes.java:52-55 | defines how many entries of a listing the loop attempts |
| `LegacyRegistry.ReportedBy` | src/main/java/com/StreamPi/ThemeAPI/Themes.java:52-77 | an attempted folder adds exactly one entry, its theme or its error; any other entry adds none |
| `LegacyRegistry.PassThemes` | src/main/java/com/StreamPi/ThemeAPI/Themes.java:50-66 | one pass adds at most one theme per listing entry, and only supported themes |
| `LegacyRegistry.PassErrors` | src/main/java/com/StreamPi/ThemeAPI/Themes.java:50-80 | one pass adds exactly one theme or error per attempted folder: errors plus themes equal the number of attempted entries |
| `LegacyRegistry.ScanRoot` | src/main/java/com/StreamPi/ThemeAPI/Themes.java:36-48 | a root that is not a directory, or whose listing is null, aborts with its own scan error; otherwise the result is the loop over the listing started from the given state |
| `LegacyRegistry.StepAppends` | src/main/java/com/StreamPi/ThemeAPI/Themes.java:52-77 | one folder appends its theme or its error and sets the broken flag iff it fails under the default name |
| `LegacyRegistry.StepAllAppendsPass` | src/main/java/com/StreamPi/ThemeAPI/Themes.java:50-80 | a pass appends its loaded themes in listing order with no duplicate suppression, and appends its errors. The broken flag ends up set iff it was set or some attempted folder named like the default fails. |
| `LegacyRegistry.StepAllBrokenIff` | src/main/java/com/StreamPi/ThemeAPI/Themes.java:68-77 | after a pass the broken flag is set iff it was set before or some attempted folder named like the default fails |
| `LegacyRegistry.NoDuplicateSuppression` | src/main/java/com/StreamPi/ThemeAPI/Themes.java:66 | two loadable folders are both listed, in order, whatever their names |
| `LegacyRegistry.RescanDoublesLists` | src/main/java/com/StreamPi/ThemeAPI/Themes.java:98-102 | scanning a root again without clearing lists every theme and every error twice |
| `LegacyRegistry.BrokenFlagSurvivesRescan` | src/main/java/com/StreamPi/ThemeAPI/Themes.java:88-91 | once set, the broken flag stays set through any later pass, even when the folder has been fixed |
| `LegacyRegistry.Themes.Init` | src/main/java/com/StreamPi/ThemeAPI/Themes.java:25-33 | a new registry has empty lists and the broken flag false |
| `LegacyRegistry.Themes.Create` | src/main/java/com/StreamPi/ThemeAPI/Themes.java:25-34 | the constructor fails exactly when the scan of its root fails, and then with the same error; otherwise the fields equal one pass over the root |
| `LegacyRegistry.Themes.Visit` | src/main/java/com/StreamPi/ThemeAPI/Themes.java:52-79 | one loop iteration changes the fields exactly as `Step` does |
| `LegacyRegistry.Themes.LoadThemes` | src/main/java/com/StreamPi/ThemeAPI/Themes.java:36-81 | the method either aborts with the root's scan error and leaves the fields unchanged, or leaves them equal to `ScanRoot` of the old fields |
| `LegacyRegistry.Themes.RefreshThemeList` | src/main/java/com/StreamPi/ThemeAPI/Themes.java:98-102 | a refresh is one more pass: it fails iff the root is not a listable directory, and then changes nothing; otherwise it appends the pass's themes and errors to the existing lists, and the broken flag is set iff it was set before or some attempted folder named like the default fails |

## Left out

- Filesystem access (`isDirectory`, `isFile`, `exists`, `listFiles`, `getAbsolutePath`, `getName`): each folder is an entry that already records these facts. A registry and the theme it constructs therefore see the same folder. The race in which a folder changes between the registry's check and the theme's own check is not modelled.
- XML parsing (`DocumentBuilder`, the configuration builder): a descriptor is either missing, rejected by the parser, or a parsed document. In the older revision the document is the set of answers the configuration gives for the keys it is asked for.
- `XMLConfigHelper` is not part of this model. `getStringProperty(info, name, default)` is taken to be the text of the first element `name` under `info`, with the default when `info` or the element is missing. The two-argument form with no default is taken to fail in that case. `doesElementExist` is taken to mean "`getElementsByTagName` is non-empty".
- The `Version` class and `ThemeAPI.MIN_VERSION_SUPPORTED` are not part of this model. Parsing is a partial function and `isBiggerThan` is uninterpreted, both supplied by the caller, and the minimum is a setting. In the older revision a missing key reaches `new Version(null)`; that is taken to fail like an unparsable string.
- `Paths.get(…).toUri().toString()` is an opaque function of the concatenated string, and `File.separator` is a parameter.
- Message texts (I18N and literal strings), logging and `printStackTrace`: an error is the folder name plus a reason tag.
- Plain getters are not modelled. The exceptions are the older client getters, which return the server lists.
- `ThemeRegistry.Themes.LoadThemes`: its contract requires `shortDir` to be present. The public `loadThemes` called after construction finds `shortDir` null. It then throws a `NullPointerException` once a supported theme loads, after it may already have set the present flag. That path is not modelled.
- Unchecked exceptions from collaborators are not modelled; such an exception would abort the scan. In the older revision this covers a `Version` constructor throwing something other than `MinorException`. The current revision catches `Exception` around both `Version` calls (`src/main/java/com/stream_pi/theme_api/Theme.java:97-117`), so there it covers `Paths.get` rejecting a path (`src/main/java/com/stream_pi/theme_api/Theme.java:162`).
- Concurrency: the source is single-threaded and the model is sequential.
