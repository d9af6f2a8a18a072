/**
 * The older theme registry (`com.StreamPi.ThemeAPI.Themes`): one root, no
 * duplicate suppression and no present flag. Refreshing re-runs the scan on
 * the same lists without clearing them.
 */
module LegacyRegistry {
  import opened Platform
  import opened LegacyDescriptor

  /** What the registry is configured with. */
  datatype Settings = Settings(host: Host, defaultThemeName: string, minThemeSupportPlatform: Version)

  datatype Registry = Registry(themes: seq<Theme>, errors: seq<ThemeError>, defaultBroken: bool)

  const Empty := Registry([], [], false)

  /** Loading an attempted folder, with the minimum platform check. */
  function Attempt(e: Entry<Config>, cfg: Settings): (r: Result<Theme, Reason>)
    ensures r.Success? ==> r.value.fullName == e.name
    ensures r.Success? ==> !cfg.host.isBiggerThan(cfg.minThemeSupportPlatform, r.value.themePlatformVersion)
    ensures r == Failure(UnsupportedPlatformVersion) <==>
            Descriptor(e, cfg.host).Success? &&
            cfg.host.isBiggerThan(cfg.minThemeSupportPlatform, Descriptor(e, cfg.host).value.themePlatformVersion)
    ensures Descriptor(e, cfg.host).Failure? ==> r == Descriptor(e, cfg.host)
    ensures Descriptor(e, cfg.host).Success? &&
            !cfg.host.isBiggerThan(cfg.minThemeSupportPlatform, Descriptor(e, cfg.host).value.themePlatformVersion)
            ==> r == Descriptor(e, cfg.host)
  {
    match Descriptor(e, cfg.host)
    case Failure(reason) => Failure(reason)
    case Success(t) =>
      if cfg.host.isBiggerThan(cfg.minThemeSupportPlatform, t.themePlatformVersion) then Failure(UnsupportedPlatformVersion)
      else Success(t)
  }

  /** One iteration of the scan loop. */
  function Step(s: Registry, e: Entry<Config>, cfg: Settings): Registry
  {
    if !IsCandidate(e) then s
    else match Attempt(e, cfg)
      case Success(t) => s.(themes := s.themes + [t])
      case Failure(reason) =>
        s.(errors := s.errors + [ThemeError(e.name, reason)],
           defaultBroken := s.defaultBroken || e.name == cfg.defaultThemeName)
  }

  function StepAll(s: Registry, es: seq<Entry<Config>>, cfg: Settings): Registry
    decreases |es|
  {
    if es == [] then s else Step(StepAll(s, es[..|es| - 1], cfg), es[|es| - 1], cfg)
  }

  /** The theme one listing entry adds, if any. */
  function AddedBy(e: Entry<Config>, cfg: Settings): seq<Theme>
  {
    if IsCandidate(e) && Attempt(e, cfg).Success? then [Attempt(e, cfg).value] else []
  }

  /** The error one listing entry adds, if any. */
  function ReportedBy(e: Entry<Config>, cfg: Settings): (r: seq<ThemeError>)
    ensures |r| + |AddedBy(e, cfg)| == (if IsCandidate(e) then 1 else 0)
  {
    if IsCandidate(e) && Attempt(e, cfg).Failure? then [ThemeError(e.name, Attempt(e, cfg).error)] else []
  }

  /** How many entries of a listing the loop attempts. */
  function CountCandidates(es: seq<Entry<Config>>): nat
    decreases |es|
  {
    if es == [] then 0 else CountCandidates(es[..|es| - 1]) + (if IsCandidate(es[|es| - 1]) then 1 else 0)
  }

  /** The themes one pass over a listing adds, whatever the lists held before: every loadable, supported theme, in listing order. */
  function PassThemes(es: seq<Entry<Config>>, cfg: Settings): (r: seq<Theme>)
    ensures |r| <= |es|
    ensures forall i :: 0 <= i < |r| ==> !cfg.host.isBiggerThan(cfg.minThemeSupportPlatform, r[i].themePlatformVersion)
    decreases |es|
  {
    if es == [] then []
    else
      PassThemes(es[..|es| - 1], cfg) + AddedBy(es[|es| - 1], cfg)
  }

  /** The errors one pass over a listing adds: one per attempted folder that fails, in listing order. */
  function PassErrors(es: seq<Entry<Config>>, cfg: Settings): (r: seq<ThemeError>)
    ensures |r| + |PassThemes(es, cfg)| == CountCandidates(es)
    decreases |es|
  {
    if es == [] then []
    else
      PassErrors(es[..|es| - 1], cfg) + ReportedBy(es[|es| - 1], cfg)
  }

  /** A folder named like the default theme that is attempted and fails. */
  predicate FailsAsDefault(e: Entry<Config>, cfg: Settings) {
    IsCandidate(e) && Attempt(e, cfg).Failure? && e.name == cfg.defaultThemeName
  }

  /** `loadThemes()`: a root that is not a directory or cannot be listed aborts the scan. */
  function ScanRoot(s: Registry, root: Root<Config>, cfg: Settings): (r: Result<Registry, ScanError>)
    ensures r.Failure? <==> Listing(root).Failure?
    ensures r.Failure? ==> r.error == Listing(root).error
    ensures r.Success? ==> r.value == StepAll(s, root.listing.value, cfg)
  {
    match Listing(root)
    case Failure(e) => Failure(e)
    case Success(es) => Success(StepAll(s, es, cfg))
  }


  lemma StepAppends(s: Registry, e: Entry<Config>, cfg: Settings)
    ensures Step(s, e, cfg).themes == s.themes + AddedBy(e, cfg)
    ensures Step(s, e, cfg).errors == s.errors + ReportedBy(e, cfg)
    ensures Step(s, e, cfg).defaultBroken == (s.defaultBroken || FailsAsDefault(e, cfg))
  {
  }

  /** The broken flag ends up set exactly when it was set or some attempted folder named like the default fails. */
  lemma {:induction false} StepAllBrokenIff(s: Registry, es: seq<Entry<Config>>, cfg: Settings)
    ensures StepAll(s, es, cfg).defaultBroken <==> s.defaultBroken || exists e :: e in es && FailsAsDefault(e, cfg)
    decreases |es|
  {
    if es != [] {
      var init, last := es[..|es| - 1], es[|es| - 1];
      var prev := StepAll(s, init, cfg);
      StepAllBrokenIff(s, init, cfg);
      StepAppends(prev, last, cfg);
      assert StepAll(s, es, cfg) == Step(prev, last, cfg);
      assert es == init + [last];
      assert forall e :: e in es <==> e in init || e == last;
    }
  }

  /**
   * A pass appends its own results to whatever the lists held: nothing is
   * deduplicated or cleared, and the broken flag is only ever set.
   */
  lemma {:induction false} StepAllAppendsPass(s: Registry, es: seq<Entry<Config>>, cfg: Settings)
    ensures StepAll(s, es, cfg).themes == s.themes + PassThemes(es, cfg)
    ensures StepAll(s, es, cfg).errors == s.errors + PassErrors(es, cfg)
    ensures StepAll(s, es, cfg).defaultBroken <==> s.defaultBroken || exists e :: e in es && FailsAsDefault(e, cfg)
    decreases |es|
  {
    StepAllBrokenIff(s, es, cfg);
    if es != [] {
      var init, last := es[..|es| - 1], es[|es| - 1];
      var prev := StepAll(s, init, cfg);
      StepAllAppendsPass(s, init, cfg);
      StepAppends(prev, last, cfg);
      assert StepAll(s, es, cfg) == Step(prev, last, cfg);
      assert PassThemes(es, cfg) == PassThemes(init, cfg) + AddedBy(last, cfg);
      assert PassErrors(es, cfg) == PassErrors(init, cfg) + ReportedBy(last, cfg);
    }
  }

  /** Two loadable folders that give the same theme name are both listed. */
  lemma NoDuplicateSuppression(a: Entry<Config>, b: Entry<Config>, cfg: Settings)
    requires IsCandidate(a) && Attempt(a, cfg).Success?
    requires IsCandidate(b) && Attempt(b, cfg).Success?
    ensures PassThemes([a, b], cfg) == [Attempt(a, cfg).value, Attempt(b, cfg).value]
  {
  }

  /** Scanning a root twice lists every theme of it twice and reports every failure twice. */
  lemma RescanDoublesLists(root: Root<Config>, cfg: Settings)
    requires ScanRoot(Empty, root, cfg).Success?
    ensures var once := ScanRoot(Empty, root, cfg).value;
            && ScanRoot(once, root, cfg).Success?
            && ScanRoot(once, root, cfg).value.themes == once.themes + once.themes
            && ScanRoot(once, root, cfg).value.errors == once.errors + once.errors
  {
    var es := root.listing.value;
    var once := StepAll(Empty, es, cfg);
    StepAllAppendsPass(Empty, es, cfg);
    assert once.themes == PassThemes(es, cfg) && once.errors == PassErrors(es, cfg);
    var twice := StepAll(once, es, cfg);
    StepAllAppendsPass(once, es, cfg);
    assert ScanRoot(once, root, cfg) == Success(twice);
  }

  /** Once a pass has flagged the default theme as broken, no later pass clears the flag, even after the folder is fixed. */
  lemma BrokenFlagSurvivesRescan(s: Registry, root: Root<Config>, cfg: Settings)
    requires s.defaultBroken
    requires ScanRoot(s, root, cfg).Success?
    ensures ScanRoot(s, root, cfg).value.defaultBroken
  {
    StepAllAppendsPass(s, root.listing.value, cfg);
  }

  class Themes {
    var themeList: seq<Theme>
    var errors: seq<ThemeError>
    var isBadThemeTheCurrentOne: bool

    const themePath: string
    const settings: Settings

    function Snapshot(): Registry
      reads this
    {
      Registry(themeList, errors, isBadThemeTheCurrentOne)
    }

    /** The field initialisers and the first lines of the constructor. */
    constructor Init(themePath: string, settings: Settings)
      ensures this.themePath == themePath && this.settings == settings
      ensures Snapshot() == Empty
    {
      this.themePath := themePath;
      this.settings := settings;
      themeList := [];
      errors := [];
      isBadThemeTheCurrentOne := false;
    }

    /** `new Themes(themePath, defaultThemeName, minThemeSupportPlatform)`; a scan error means no registry. */
    static method Create(root: Root<Config>, settings: Settings) returns (r: Result<Themes, ScanError>)
      ensures r.Failure? <==> ScanRoot(Empty, root, settings).Failure?
      ensures r.Failure? ==> r.error == ScanRoot(Empty, root, settings).error
      ensures r.Success? ==>
                && fresh(r.value)
                && r.value.themePath == root.path
                && r.value.settings == settings
                && r.value.Snapshot() == ScanRoot(Empty, root, settings).value
    {
      var t := new Themes.Init(root.path, settings);
      var outcome := t.LoadThemes(root);
      if outcome.Fail? {
        return Failure(outcome.error);
      }
      r := Success(t);
    }

    /** One pass of the `for (File eachFolder : themeFolders)` loop body. */
    method Visit(eachFolder: Entry<Config>)
      modifies this
      ensures Snapshot() == Step(old(Snapshot()), eachFolder, settings)
    {
      if eachFolder.isDirectory && !eachFolder.descriptor.Absent? {
        var t := Load(eachFolder, settings.host);
        if t.Success? && settings.host.isBiggerThan(settings.minThemeSupportPlatform, t.value.themePlatformVersion) {
          t := Failure(UnsupportedPlatformVersion);
        }
        assert t == Attempt(eachFolder, settings);
        match t
        case Success(theme) =>
          themeList := themeList + [theme];
        case Failure(reason) =>
          if eachFolder.name == settings.defaultThemeName {
            isBadThemeTheCurrentOne := true;
          }
          errors := errors + [ThemeError(eachFolder.name, reason)];
      }
    }

    /** `loadThemes()`, reading the root found at `themePath`. */
    method LoadThemes(root: Root<Config>) returns (outcome: Outcome<ScanError>)
      requires root.path == themePath
      modifies this
      ensures match ScanRoot(old(Snapshot()), root, settings)
              case Failure(e) => outcome == Fail(e) && Snapshot() == old(Snapshot())
              case Success(s) => outcome == Pass && Snapshot() == s
    {
      var listing := Listing(root);
      if listing.Failure? {
        return Fail(listing.error);
      }
      var themeFolders := listing.value;
      ghost var start := Snapshot();
      for i := 0 to |themeFolders|
        invariant Snapshot() == StepAll(start, themeFolders[..i], settings)
      {
        assert themeFolders[..i + 1][..i] == themeFolders[..i];
        Visit(themeFolders[i]);
      }
      assert themeFolders[..|themeFolders|] == themeFolders;
      outcome := Pass;
    }

    /** `refreshThemeList()`: one more pass appended to the existing lists. */
    method RefreshThemeList(root: Root<Config>) returns (outcome: Outcome<ScanError>)
      requires root.path == themePath
      modifies this
      ensures match ScanRoot(old(Snapshot()), root, settings)
              case Failure(e) => outcome == Fail(e) && Snapshot() == old(Snapshot())
              case Success(s) => outcome == Pass && Snapshot() == s
      ensures outcome.Fail? <==> Listing(root).Failure?
      ensures outcome.Pass? ==>
                && themeList == old(themeList) + PassThemes(root.listing.value, settings)
                && errors == old(errors) + PassErrors(root.listing.value, settings)
                && (isBadThemeTheCurrentOne <==>
                      old(isBadThemeTheCurrentOne) || exists e :: e in root.listing.value && FailsAsDefault(e, settings))
    {
      outcome := LoadThemes(root);
      if outcome.Pass? {
        StepAllAppendsPass(old(Snapshot()), root.listing.value, settings);
      }
    }
  }
}
