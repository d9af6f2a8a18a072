/**
 * The current theme registry (`com.stream_pi.theme_api.Themes`): it scans the
 * default theme root and then, if it is a different path, the user's theme
 * root; it loads every folder that holds a `theme.xml`, rejects themes older
 * than the minimum supported platform version, keeps the first theme of each
 * name, collects per-folder failures, and keeps two sticky flags about the
 * configured default theme.
 */
module ThemeRegistry {
  import opened Platform
  import opened Xml
  import opened ThemeDescriptor

  /** What the registry is configured with; `minVersion` is `ThemeAPI.MIN_VERSION_SUPPORTED`. */
  datatype Settings = Settings(host: Host, defaultThemeName: string, minVersion: Version)

  /** The registry's fields, with `seen` for the list of names added so far (`shortDir`). */
  datatype Registry = Registry(
    themes: seq<Theme>,
    errors: seq<ThemeError>,
    seen: seq<string>,
    defaultPresent: bool,
    defaultBroken: bool)

  const Empty := Registry([], [], [], false, false)

  /** What becomes of one listing entry. */
  datatype Fate = Ignored | Rejected(reason: Reason) | DuplicateSkipped | Added(theme: Theme)

  // ---------------------------------------------------------------------------
  // One folder

  /** Loading an attempted folder: the theme, or why it goes to the error list. */
  function Attempt(e: Entry<Node>, cfg: Settings): (r: Result<Theme, Reason>)
    ensures r.Success? ==> r.value.fullName == e.name
    ensures r.Success? ==> !cfg.host.isBiggerThan(cfg.minVersion, r.value.themePlatformVersion)
    ensures r == Failure(UnsupportedPlatformVersion) <==>
            Descriptor(e, cfg.host).Success? &&
            cfg.host.isBiggerThan(cfg.minVersion, Descriptor(e, cfg.host).value.themePlatformVersion)
    ensures Descriptor(e, cfg.host).Failure? ==> r == Descriptor(e, cfg.host)
    ensures Descriptor(e, cfg.host).Success? &&
            !cfg.host.isBiggerThan(cfg.minVersion, Descriptor(e, cfg.host).value.themePlatformVersion)
            ==> r == Descriptor(e, cfg.host)
  {
    match Descriptor(e, cfg.host)
    case Failure(reason) => Failure(reason)
    case Success(t) =>
      if cfg.host.isBiggerThan(cfg.minVersion, t.themePlatformVersion) then Failure(UnsupportedPlatformVersion)
      else Success(t)
  }

  function FateOf(s: Registry, e: Entry<Node>, cfg: Settings): Fate
  {
    if !IsCandidate(e) then Ignored
    else match Attempt(e, cfg)
      case Failure(reason) => Rejected(reason)
      case Success(t) => if t.fullName in s.seen then DuplicateSkipped else Added(t)
  }

  /** One iteration of the scan loop. */
  function Step(s: Registry, e: Entry<Node>, cfg: Settings): Registry
  {
    match FateOf(s, e, cfg)
    case Ignored => s
    case Rejected(reason) =>
      s.(errors := s.errors + [ThemeError(e.name, reason)],
         defaultBroken := s.defaultBroken || e.name == cfg.defaultThemeName)
    case DuplicateSkipped =>
      s.(defaultPresent := s.defaultPresent || e.name == cfg.defaultThemeName)
    case Added(t) =>
      s.(themes := s.themes + [t], seen := s.seen + [t.fullName],
         defaultPresent := s.defaultPresent || t.fullName == cfg.defaultThemeName)
  }

  // ---------------------------------------------------------------------------
  // A listing, a root, both roots

  /** The loop over a listing, from state `s`. */
  function StepAll(s: Registry, es: seq<Entry<Node>>, cfg: Settings): Registry
    decreases |es|
  {
    if es == [] then s else Step(StepAll(s, es[..|es| - 1], cfg), es[|es| - 1], cfg)
  }

  /** The fate of each entry of the listing, in order. */
  function Fates(s: Registry, es: seq<Entry<Node>>, cfg: Settings): seq<Fate>
    decreases |es|
  {
    if es == [] then []
    else Fates(s, es[..|es| - 1], cfg) + [FateOf(StepAll(s, es[..|es| - 1], cfg), es[|es| - 1], cfg)]
  }

  function CountAdded(fs: seq<Fate>): nat
  {
    if fs == [] then 0 else CountAdded(fs[..|fs| - 1]) + (if fs[|fs| - 1].Added? then 1 else 0)
  }

  function CountRejected(fs: seq<Fate>): nat
  {
    if fs == [] then 0 else CountRejected(fs[..|fs| - 1]) + (if fs[|fs| - 1].Rejected? then 1 else 0)
  }

  /** `loadThemes(path)`: a root that is not a directory or cannot be listed aborts the scan. */
  function ScanRoot(s: Registry, root: Root<Node>, cfg: Settings): (r: Result<Registry, ScanError>)
    ensures r.Failure? <==> Listing(root).Failure?
    ensures r.Failure? ==> r.error == Listing(root).error
    ensures r.Success? ==> r.value == StepAll(s, root.listing.value, cfg)
  {
    match Listing(root)
    case Failure(e) => Failure(e)
    case Success(es) => Success(StepAll(s, es, cfg))
  }


  /** The constructor: the default root first, then the user root unless its path is the same string. */
  function Construct(defaultRoot: Root<Node>, userRoot: Root<Node>, cfg: Settings): (r: Result<Registry, ScanError>)
    ensures userRoot.path == defaultRoot.path ==> r == ScanRoot(Empty, defaultRoot, cfg)
    ensures r.Failure? <==>
            Listing(defaultRoot).Failure? || (userRoot.path != defaultRoot.path && Listing(userRoot).Failure?)
    ensures Listing(defaultRoot).Failure? ==> r.Failure? && r.error == Listing(defaultRoot).error
    ensures userRoot.path != defaultRoot.path && ScanRoot(Empty, defaultRoot, cfg).Success? ==>
            r == ScanRoot(ScanRoot(Empty, defaultRoot, cfg).value, userRoot, cfg)
  {
    match ScanRoot(Empty, defaultRoot, cfg)
    case Failure(e) => Failure(e)
    case Success(s) =>
      if userRoot.path == defaultRoot.path then Success(s) else ScanRoot(s, userRoot, cfg)
  }

  // ---------------------------------------------------------------------------
  // Invariants and properties

  function Names(ts: seq<Theme>): (r: seq<string>)
    ensures |r| == |ts|
    ensures forall i :: 0 <= i < |ts| ==> r[i] == ts[i].fullName
  {
    if ts == [] then [] else [ts[0].fullName] + Names(ts[1..])
  }

  predicate Distinct(xs: seq<string>) {
    forall i, j :: 0 <= i < j < |xs| ==> xs[i] != xs[j]
  }

  /** `shortDir` lists the names of the theme list, and no name twice. */
  predicate NamesTracked(s: Registry) {
    s.seen == Names(s.themes) && Distinct(s.seen)
  }

  /** Every theme in the list meets the minimum platform version. */
  predicate AllSupported(ts: seq<Theme>, cfg: Settings) {
    forall i :: 0 <= i < |ts| ==> !cfg.host.isBiggerThan(cfg.minVersion, ts[i].themePlatformVersion)
  }

  /** A folder that loads as the configured default theme. */
  predicate LoadsAsDefault(e: Entry<Node>, cfg: Settings) {
    IsCandidate(e) && Attempt(e, cfg).Success? && e.name == cfg.defaultThemeName
  }

  /** A folder named like the default theme that is attempted and fails. */
  predicate FailsAsDefault(e: Entry<Node>, cfg: Settings) {
    IsCandidate(e) && Attempt(e, cfg).Failure? && e.name == cfg.defaultThemeName
  }

  lemma StepKeepsInvariants(s: Registry, e: Entry<Node>, cfg: Settings)
    requires NamesTracked(s) && AllSupported(s.themes, cfg)
    ensures NamesTracked(Step(s, e, cfg)) && AllSupported(Step(s, e, cfg).themes, cfg)
  {
    var r := Step(s, e, cfg);
    if FateOf(s, e, cfg).Added? {
      var t := FateOf(s, e, cfg).theme;
      assert r.themes == s.themes + [t];
      assert Names(r.themes) == Names(s.themes) + [t.fullName];
    }
  }

  /** Across any listing the theme names stay pairwise distinct and every theme stays supported. */
  lemma {:induction false} StepAllKeepsInvariants(s: Registry, es: seq<Entry<Node>>, cfg: Settings)
    requires NamesTracked(s) && AllSupported(s.themes, cfg)
    ensures NamesTracked(StepAll(s, es, cfg)) && AllSupported(StepAll(s, es, cfg).themes, cfg)
    decreases |es|
  {
    if es != [] {
      StepAllKeepsInvariants(s, es[..|es| - 1], cfg);
      StepKeepsInvariants(StepAll(s, es[..|es| - 1], cfg), es[|es| - 1], cfg);
    }
  }

  /** The lists only grow at their end and neither flag is ever cleared. */
  lemma {:induction false} StepAllExtends(s: Registry, es: seq<Entry<Node>>, cfg: Settings)
    ensures var r := StepAll(s, es, cfg);
            && s.themes <= r.themes && s.errors <= r.errors && s.seen <= r.seen
            && (s.defaultPresent ==> r.defaultPresent)
            && (s.defaultBroken ==> r.defaultBroken)
    decreases |es|
  {
    if es != [] {
      StepAllExtends(s, es[..|es| - 1], cfg);
    }
  }

  /** What one iteration adds to each list, by the entry's fate. */
  lemma StepCounts(s: Registry, e: Entry<Node>, cfg: Settings)
    ensures FateOf(s, e, cfg) == Ignored <==> !IsCandidate(e)
    ensures |Step(s, e, cfg).themes| == |s.themes| + (if FateOf(s, e, cfg).Added? then 1 else 0)
    ensures |Step(s, e, cfg).errors| == |s.errors| + (if FateOf(s, e, cfg).Rejected? then 1 else 0)
  {
  }

  /**
   * Each entry has one fate: ignored exactly when it is not a folder with a
   * `theme.xml`; every added theme is one more list entry, every rejection
   * one more error, and a duplicate adds to neither.
   */
  lemma {:induction false} Accounting(s: Registry, es: seq<Entry<Node>>, cfg: Settings)
    ensures |Fates(s, es, cfg)| == |es|
    ensures forall i :: 0 <= i < |es| ==> (Fates(s, es, cfg)[i] == Ignored <==> !IsCandidate(es[i]))
    ensures |StepAll(s, es, cfg).themes| == |s.themes| + CountAdded(Fates(s, es, cfg))
    ensures |StepAll(s, es, cfg).errors| == |s.errors| + CountRejected(Fates(s, es, cfg))
    decreases |es|
  {
    if es != [] {
      var init, last := es[..|es| - 1], es[|es| - 1];
      var prev := StepAll(s, init, cfg);
      Accounting(s, init, cfg);
      StepCounts(prev, last, cfg);
      assert StepAll(s, es, cfg) == Step(prev, last, cfg);
      var fs := Fates(s, es, cfg);
      assert fs == Fates(s, init, cfg) + [FateOf(prev, last, cfg)];
      assert fs[..|fs| - 1] == Fates(s, init, cfg);
      forall i | 0 <= i < |es|
        ensures fs[i] == Ignored <==> !IsCandidate(es[i])
      {
        if i < |es| - 1 {
          assert fs[i] == Fates(s, init, cfg)[i] && es[i] == init[i];
        }
      }
    }
  }

  /** How one iteration moves the two flags. */
  lemma StepFlags(s: Registry, e: Entry<Node>, cfg: Settings)
    ensures Step(s, e, cfg).defaultPresent == (s.defaultPresent || LoadsAsDefault(e, cfg))
    ensures Step(s, e, cfg).defaultBroken == (s.defaultBroken || FailsAsDefault(e, cfg))
  {
    if IsCandidate(e) && Attempt(e, cfg).Success? {
      assert Attempt(e, cfg).value.fullName == e.name;
    }
  }

  /** A theme named like the default is only ever in `shortDir` once the present flag is set. */
  predicate PresentTracked(s: Registry, cfg: Settings) {
    cfg.defaultThemeName in s.seen ==> s.defaultPresent
  }

  lemma {:induction false} StepAllKeepsPresentTracked(s: Registry, es: seq<Entry<Node>>, cfg: Settings)
    requires PresentTracked(s, cfg)
    ensures PresentTracked(StepAll(s, es, cfg), cfg)
    decreases |es|
  {
    if es != [] {
      var init, last := es[..|es| - 1], es[|es| - 1];
      StepAllKeepsPresentTracked(s, init, cfg);
      StepFlags(StepAll(s, init, cfg), last, cfg);
    }
  }

  /**
   * Skipping a duplicate changes nothing: its name was added earlier, and
   * if that name is the default one the present flag was set then.
   */
  lemma DuplicateSkipChangesNothing(s: Registry, e: Entry<Node>, cfg: Settings)
    requires PresentTracked(s, cfg) && FateOf(s, e, cfg) == DuplicateSkipped
    ensures Step(s, e, cfg) == s
  {
    assert Attempt(e, cfg).value.fullName == e.name;
  }

  /**
   * The present flag ends up set exactly when it was set before or some
   * entry loads as the default theme, whether or not it is then added.
   */
  lemma {:induction false} DefaultPresentIff(s: Registry, es: seq<Entry<Node>>, cfg: Settings)
    ensures StepAll(s, es, cfg).defaultPresent <==>
            s.defaultPresent || exists e :: e in es && LoadsAsDefault(e, cfg)
    decreases |es|
  {
    if es != [] {
      var init, last := es[..|es| - 1], es[|es| - 1];
      var prev := StepAll(s, init, cfg);
      DefaultPresentIff(s, init, cfg);
      StepFlags(prev, last, cfg);
      assert StepAll(s, es, cfg) == Step(prev, last, cfg);
      assert es == init + [last];
      assert forall e :: e in es <==> e in init || e == last;
    }
  }

  /**
   * The broken flag ends up set exactly when it was set before or some
   * attempted entry named like the default theme fails.
   */
  lemma {:induction false} DefaultBrokenIff(s: Registry, es: seq<Entry<Node>>, cfg: Settings)
    ensures StepAll(s, es, cfg).defaultBroken <==>
            s.defaultBroken || exists e :: e in es && FailsAsDefault(e, cfg)
    decreases |es|
  {
    if es != [] {
      var init, last := es[..|es| - 1], es[|es| - 1];
      var prev := StepAll(s, init, cfg);
      DefaultBrokenIff(s, init, cfg);
      StepFlags(prev, last, cfg);
      assert StepAll(s, es, cfg) == Step(prev, last, cfg);
      assert es == init + [last];
      assert forall e :: e in es <==> e in init || e == last;
    }
  }

  /**
   * The default root's themes come first and stay; no later theme shares a
   * name with one of them, and all names in the final list are distinct.
   */
  lemma FirstRootWins(defaultRoot: Root<Node>, userRoot: Root<Node>, cfg: Settings)
    requires Construct(defaultRoot, userRoot, cfg).Success?
    ensures ScanRoot(Empty, defaultRoot, cfg).Success?
    ensures var first := ScanRoot(Empty, defaultRoot, cfg).value.themes;
            var all := Construct(defaultRoot, userRoot, cfg).value.themes;
            && first <= all
            && Distinct(Names(all))
            && (forall i, j :: 0 <= i < |first| <= j < |all| ==> all[j].fullName != first[i].fullName)
            && AllSupported(all, cfg)
  {
    var s := ScanRoot(Empty, defaultRoot, cfg).value;
    StepAllKeepsInvariants(Empty, defaultRoot.listing.value, cfg);
    var r := Construct(defaultRoot, userRoot, cfg).value;
    if userRoot.path != defaultRoot.path {
      StepAllExtends(s, userRoot.listing.value, cfg);
      StepAllKeepsInvariants(s, userRoot.listing.value, cfg);
    }
    forall i, j | 0 <= i < |s.themes| <= j < |r.themes|
      ensures r.themes[j].fullName != s.themes[i].fullName
    {
      assert r.themes[i] == s.themes[i];
      assert Names(r.themes)[i] != Names(r.themes)[j];
    }
  }

  /**
   * Both default-theme flags can be set at once: a default theme that loads
   * from the default root, and a broken folder of the same name in the user
   * root.
   */
  lemma BothFlagsCanHold(defaultRoot: Root<Node>, userRoot: Root<Node>, cfg: Settings, good: Entry<Node>, bad: Entry<Node>)
    requires defaultRoot.path != userRoot.path
    requires Construct(defaultRoot, userRoot, cfg).Success?
    requires defaultRoot.listing.Some? && good in defaultRoot.listing.value
    requires userRoot.listing.Some? && bad in userRoot.listing.value
    requires LoadsAsDefault(good, cfg) && FailsAsDefault(bad, cfg)
    ensures Construct(defaultRoot, userRoot, cfg).value.defaultPresent
    ensures Construct(defaultRoot, userRoot, cfg).value.defaultBroken
  {
    var s := ScanRoot(Empty, defaultRoot, cfg).value;
    assert s == StepAll(Empty, defaultRoot.listing.value, cfg);
    DefaultPresentIff(Empty, defaultRoot.listing.value, cfg);
    StepAllExtends(s, userRoot.listing.value, cfg);
    DefaultBrokenIff(s, userRoot.listing.value, cfg);
  }

  /**
   * The preconditions of BothFlagsCanHold are met: whatever the version, a
   * folder `Dark` whose descriptor declares one platform version, one theme
   * version and a whitespace-only `stylesheets` element loads as the default
   * theme, and a folder `Dark` whose descriptor does not parse fails as it.
   */
  lemma BothFlagsWitness(v: Version)
    ensures var cfg := Settings(Host(t => Some(v), (a, b) => false, p => p, "/"), "Dark", v);
            var document := Element("theme", [
              Element("theme-platform-version", [Text("1.0.0")]),
              Element("info", [Element("version", [Text("1.0.0")])]),
              Element("stylesheets", [Text(" ")])]);
            var good := Entry("Dark", "/defaults/Dark", true, Wellformed(document));
            var bad := Entry("Dark", "/home/Dark", true, Malformed);
            var r := Construct(Root("/defaults", true, Some([good])), Root("/home", true, Some([bad])), cfg);
            r.Success? && r.value.defaultPresent && r.value.defaultBroken
  {
    var cfg := Settings(Host(t => Some(v), (a, b) => false, p => p, "/"), "Dark", v);
    var document := Element("theme", [
      Element("theme-platform-version", [Text("1.0.0")]),
      Element("info", [Element("version", [Text("1.0.0")])]),
      Element("stylesheets", [Text(" ")])]);
    var good := Entry("Dark", "/defaults/Dark", true, Wellformed(document));
    var bad := Entry("Dark", "/home/Dark", true, Malformed);
    var defaultRoot, userRoot := Root("/defaults", true, Some([good])), Root("/home", true, Some([bad]));
    assert Descriptor(good, cfg.host).Success?;
    ScanSingle(Empty, defaultRoot, good, cfg);
    ScanSingle(Step(Empty, good, cfg), userRoot, bad, cfg);
    BothFlagsCanHold(defaultRoot, userRoot, cfg, good, bad);
  }

  /** A root listing one entry scans as one step. */
  lemma ScanSingle(s: Registry, root: Root<Node>, e: Entry<Node>, cfg: Settings)
    requires root.isDirectory && root.listing == Some([e])
    ensures ScanRoot(s, root, cfg) == Success(Step(s, e, cfg))
  {
    assert [e][..0] == [];
    assert StepAll(s, [e], cfg) == Step(StepAll(s, [], cfg), e, cfg);
    assert Listing(root) == Success([e]);
  }

  /** A loadable theme is added when its name is new and skipped otherwise; the error list is untouched either way. */
  lemma StepOnLoad(s: Registry, e: Entry<Node>, cfg: Settings)
    requires IsCandidate(e) && Attempt(e, cfg).Success?
    ensures var t := Attempt(e, cfg).value;
            && Step(s, e, cfg).errors == s.errors
            && Step(s, e, cfg).themes == (if e.name in s.seen then s.themes else s.themes + [t])
            && Step(s, e, cfg).seen == (if e.name in s.seen then s.seen else s.seen + [e.name])
  {
    var t := Attempt(e, cfg).value;
    assert t.fullName == e.name;
    assert FateOf(s, e, cfg) == (if e.name in s.seen then DuplicateSkipped else Added(t));
  }

  /** Once a folder that loads has been visited, its name is in `shortDir`, whether it was added or skipped. */
  lemma {:induction false} LoadedNameSeen(s: Registry, es: seq<Entry<Node>>, e: Entry<Node>, cfg: Settings)
    requires e in es && IsCandidate(e) && Attempt(e, cfg).Success?
    ensures e.name in StepAll(s, es, cfg).seen
    decreases |es|
  {
    var init, last := es[..|es| - 1], es[|es| - 1];
    var prev := StepAll(s, init, cfg);
    assert StepAll(s, es, cfg) == Step(prev, last, cfg);
    if e == last {
      StepOnLoad(prev, e, cfg);
    } else {
      assert es == init + [last];
      assert e in init;
      LoadedNameSeen(s, init, e, cfg);
      StepSeenGrows(prev, last, cfg);
    }
  }

  /** One iteration never removes a name from `shortDir`. */
  lemma StepSeenGrows(s: Registry, e: Entry<Node>, cfg: Settings)
    ensures s.seen <= Step(s, e, cfg).seen
  {
  }

  /** Every theme a pass adds is what `new Theme` gave for some loadable folder of the listing. */
  lemma {:induction false} ThemesFromListing(s: Registry, es: seq<Entry<Node>>, t: Theme, cfg: Settings)
    requires t in StepAll(s, es, cfg).themes
    ensures t in s.themes || exists e :: e in es && IsCandidate(e) && Attempt(e, cfg) == Success(t)
    decreases |es|
  {
    if es != [] {
      var init, last := es[..|es| - 1], es[|es| - 1];
      var prev := StepAll(s, init, cfg);
      assert StepAll(s, es, cfg) == Step(prev, last, cfg);
      assert es == init + [last];
      if t in prev.themes {
        ThemesFromListing(s, init, t, cfg);
        if !(t in s.themes) {
          var e :| e in init && IsCandidate(e) && Attempt(e, cfg) == Success(t);
          assert e in es;
        }
      } else {
        assert FateOf(prev, last, cfg) == Added(t);
        assert last in es;
      }
    }
  }

  /**
   * A theme name loadable in both roots: the final list holds exactly one
   * theme of that name, the one from the default root's folder (folder names
   * within one directory are distinct).
   */
  lemma DuplicateAcrossRootsKeepsFirst(defaultRoot: Root<Node>, userRoot: Root<Node>, cfg: Settings, a: Entry<Node>, b: Entry<Node>)
    requires defaultRoot.path != userRoot.path
    requires Construct(defaultRoot, userRoot, cfg).Success?
    requires defaultRoot.listing.Some? && a in defaultRoot.listing.value
    requires userRoot.listing.Some? && b in userRoot.listing.value
    requires IsCandidate(a) && Attempt(a, cfg).Success?
    requires IsCandidate(b) && Attempt(b, cfg).Success? && a.name == b.name
    requires forall e :: e in defaultRoot.listing.value && e.name == a.name ==> e == a
    ensures var all := Construct(defaultRoot, userRoot, cfg).value.themes;
            && Attempt(a, cfg).value in all
            && forall i :: 0 <= i < |all| && all[i].fullName == a.name ==> all[i] == Attempt(a, cfg).value
  {
    var ds := defaultRoot.listing.value;
    FirstRootWins(defaultRoot, userRoot, cfg);
    var first := ScanRoot(Empty, defaultRoot, cfg).value;
    var all := Construct(defaultRoot, userRoot, cfg).value.themes;
    var k := LoadedThemeListed(ds, a, cfg);
    assert first == StepAll(Empty, ds, cfg);
    assert all[k] == first.themes[k];
    forall i | 0 <= i < |all| && all[i].fullName == a.name
      ensures all[i] == Attempt(a, cfg).value
    {
      assert Names(all)[i] == Names(all)[k];
    }
  }

  /** A pass from the empty registry lists the theme of a loadable folder whose name no other folder of the listing has. */
  lemma LoadedThemeListed(es: seq<Entry<Node>>, a: Entry<Node>, cfg: Settings) returns (k: nat)
    requires a in es && IsCandidate(a) && Attempt(a, cfg).Success?
    requires forall e :: e in es && e.name == a.name ==> e == a
    ensures k < |StepAll(Empty, es, cfg).themes|
    ensures StepAll(Empty, es, cfg).themes[k] == Attempt(a, cfg).value
  {
    var first := StepAll(Empty, es, cfg);
    StepAllKeepsInvariants(Empty, es, cfg);
    LoadedNameSeen(Empty, es, a, cfg);
    k :| 0 <= k < |first.seen| && first.seen[k] == a.name;
    assert first.themes[k].fullName == a.name;
    ThemesFromListing(Empty, es, first.themes[k], cfg);
    var e :| e in es && IsCandidate(e) && Attempt(e, cfg) == Success(first.themes[k]);
    assert e == a;
  }


  // ---------------------------------------------------------------------------
  // The class

  class Themes {
    var themeList: seq<Theme>
    var errors: seq<ThemeError>
    var isBadThemeTheCurrentOne: bool
    var isDefaultThemePresent: bool
    /** The names added so far; exists only while the constructor runs (null afterwards). */
    var shortDir: Option<seq<string>>

    const defaultThemePath: string
    const themePath: string
    const settings: Settings

    function Snapshot(): Registry
      reads this
      requires shortDir.Some?
    {
      Registry(themeList, errors, shortDir.value, isDefaultThemePresent, isBadThemeTheCurrentOne)
    }

    /** The field initialisers and the first lines of the constructor. */
    constructor Init(defaultThemePath: string, themePath: string, settings: Settings)
      ensures this.defaultThemePath == defaultThemePath && this.themePath == themePath
      ensures this.settings == settings
      ensures shortDir == Some([]) && Snapshot() == Empty
    {
      this.defaultThemePath := defaultThemePath;
      this.themePath := themePath;
      this.settings := settings;
      themeList := [];
      errors := [];
      isBadThemeTheCurrentOne := false;
      isDefaultThemePresent := false;
      shortDir := Some([]);
    }

    /**
     * `new Themes(defaultThemePath, themePath, defaultThemeName)`: a scan
     * error means no registry at all.
     */
    static method Create(defaultRoot: Root<Node>, userRoot: Root<Node>, settings: Settings)
      returns (r: Result<Themes, ScanError>)
      ensures r.Failure? <==> Construct(defaultRoot, userRoot, settings).Failure?
      ensures r.Failure? ==> r.error == Construct(defaultRoot, userRoot, settings).error
      ensures r.Success? ==>
                var c := Construct(defaultRoot, userRoot, settings).value;
                && fresh(r.value)
                && r.value.shortDir.None?
                && r.value.defaultThemePath == defaultRoot.path
                && r.value.themePath == userRoot.path
                && r.value.settings == settings
                && r.value.themeList == c.themes
                && r.value.errors == c.errors
                && r.value.isDefaultThemePresent == c.defaultPresent
                && r.value.isBadThemeTheCurrentOne == c.defaultBroken
    {
      var t := new Themes.Init(defaultRoot.path, userRoot.path, settings);
      var outcome := t.LoadThemes(defaultRoot);
      if outcome.Fail? {
        return Failure(outcome.error);
      }
      if userRoot.path != defaultRoot.path {
        outcome := t.LoadThemes(userRoot);
        if outcome.Fail? {
          return Failure(outcome.error);
        }
      }
      t.shortDir := None;
      r := Success(t);
    }

    /** One pass of the `for (File eachFolder : themeFolders)` loop body. */
    method Visit(eachFolder: Entry<Node>)
      requires shortDir.Some?
      modifies this
      ensures shortDir.Some?
      ensures Snapshot() == Step(old(Snapshot()), eachFolder, settings)
    {
      ghost var before := Snapshot();
      if eachFolder.isDirectory && !eachFolder.descriptor.Absent? {
        var t := Load(eachFolder, settings.host);
        if t.Success? && settings.host.isBiggerThan(settings.minVersion, t.value.themePlatformVersion) {
          t := Failure(UnsupportedPlatformVersion);
        }
        assert t == Attempt(eachFolder, settings);
        match t
        case Success(theme) =>
          if !isDefaultThemePresent && theme.fullName == settings.defaultThemeName {
            isDefaultThemePresent := true;
          }
          if theme.fullName !in shortDir.value {
            assert FateOf(before, eachFolder, settings) == Added(theme);
            shortDir := Some(shortDir.value + [theme.fullName]);
            themeList := themeList + [theme];
          } else {
            assert FateOf(before, eachFolder, settings) == DuplicateSkipped;
          }
        case Failure(reason) =>
          assert FateOf(before, eachFolder, settings) == Rejected(reason);
          if eachFolder.name == settings.defaultThemeName {
            isBadThemeTheCurrentOne := true;
          }
          errors := errors + [ThemeError(eachFolder.name, reason)];
      }
    }

    /** `loadThemes(path)` over the listing of `root`, while `shortDir` exists. */
    method LoadThemes(root: Root<Node>) returns (outcome: Outcome<ScanError>)
      requires shortDir.Some?
      modifies this
      ensures shortDir.Some?
      ensures match ScanRoot(old(Snapshot()), root, settings)
              case Failure(e) => outcome == Fail(e) && Snapshot() == old(Snapshot())
              case Success(s) => outcome == Pass && Snapshot() == s
    {
      var listing := Listing(root);
      if listing.Failure? {
        return Fail(listing.error);
      }
      var themeFolders := listing.value;
      ghost var start := Snapshot();
      for i := 0 to |themeFolders|
        invariant shortDir.Some?
        invariant Snapshot() == StepAll(start, themeFolders[..i], settings)
      {
        assert themeFolders[..i + 1][..i] == themeFolders[..i];
        Visit(themeFolders[i]);
      }
      assert themeFolders[..|themeFolders|] == themeFolders;
      outcome := Pass;
    }
  }
}
