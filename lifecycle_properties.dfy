/**
 * What the charm's lifecycle controller guarantees, stated over the
 * functions of module Lifecycle (which the methods of Charm.DrupalCharm are
 * proved to follow).
 */
module LifecycleProperties {
  import opened Wrappers
  import opened PyStr
  import opened Lifecycle

  // ---------------------------------------------------------------- config validation

  /** With the one required option, site-name: absent raises, empty is rejected by name, anything else passes. */
  lemma CheckJujuConfigOutcomes(cfg: Config)
    ensures ValidateConfig(cfg, RequiredJujuConfig) ==
              if "site-name" !in cfg then Raised("site-name")
              else if cfg["site-name"] == "" then Rejected("Required Juju config item(s) not set : site-name")
              else Accepted
  {
    SingleKeyOutcomes(cfg, RequiredJujuConfig);
  }

  /** One required key: absent raises it, empty rejects it by name, anything else passes. */
  lemma SingleKeyOutcomes(cfg: Config, keys: seq<string>)
    requires |keys| == 1
    ensures ValidateConfig(cfg, keys) ==
              if keys[0] !in cfg then Raised(keys[0])
              else if cfg[keys[0]] == "" then Rejected(ConfigErrorPrefix + keys[0])
              else Accepted
  {
    var r := ValidateConfig(cfg, keys);
    if keys[0] !in cfg {
      assert r.Raised?;
      var i :| AbsentFirstAt(cfg, keys, i) && keys[i] == r.key;
      assert i == 0;
    } else if cfg[keys[0]] == "" {
      assert r.Rejected?;
      var errors := FalsyKeys(cfg, keys);
      assert keys[0] in errors;
      assert |errors| == 1;
      assert errors == [keys[0]];
      var sorted := SortStrings(errors);
      assert |multiset(sorted)| == 1;
      assert keys[0] in multiset(sorted);
      assert sorted == [keys[0]];
    } else {
      assert r.Accepted?;
    }
  }

  /** The rejection message lists the failing names in ascending order, whatever order they were found in. */
  lemma {:induction false} RejectionListsSortedNames(cfg: Config, keys: seq<string>, names: seq<string>)
    requires ValidateConfig(cfg, keys).Rejected?
    requires Sorted(names) && multiset(names) == multiset(FalsyKeys(cfg, keys))
    ensures ValidateConfig(cfg, keys).message == ConfigErrorPrefix + Join(names, ", ")
  {
    SortedUnique(SortStrings(FalsyKeys(cfg, keys)), names);
  }

  // ---------------------------------------------------------------- get_drupal_web_root

  /**
   * The web root always lies under the site root /srv/<site-name>: it is the
   * site root itself or a path below it, separated by a slash.
   */
  lemma WebRootUnderSiteRoot(site: string, dir: string)
    ensures var root, base := WebRoot(site, dir), SiteRoot(site);
            root == base || (|base| < |root| && root[..|base| + 1] == base + "/")
  {
    var prefix := RemoveAll(dir, SettingsPrefix);
    if prefix != "" {
      var tail := "/" + Strip(prefix, '/');
      assert WebRoot(site, dir) == SiteRoot(site) + tail;
      assert (SiteRoot(site) + tail)[..|SiteRoot(site)| + 1] == SiteRoot(site) + "/";
    }
  }

  /**
   * A settings directory that does not mention sites/default is used as it
   * is below the site root, with its surrounding slashes dropped.
   */
  lemma WebRootWithoutDefaultDirectory(site: string, dir: string)
    requires dir != "" && !Occurs(dir, SettingsPrefix)
    ensures WebRoot(site, dir) == SiteRoot(site) + "/" + Strip(dir, '/')
  {
    assert RemoveAll(dir, SettingsPrefix) == dir;
  }

  /**
   * A directory ending in sites/default, with no earlier occurrence of it,
   * gives the part before it below the site root, its slashes stripped:
   * "web/sites/default" gives "/srv/<site>/web".
   */
  lemma WebRootOfLeadingDirectory(site: string, x: string)
    requires x != "" && forall i :: 0 <= i < |x| ==> !OccursAt(x + SettingsPrefix, SettingsPrefix, i)
    ensures WebRoot(site, x + SettingsPrefix) == "/srv/" + site + "/" + Strip(x, '/')
  {
    assert x + SettingsPrefix + "" == x + SettingsPrefix;
    RemoveAllFirstOccurrence(x, SettingsPrefix, "");
    assert RemoveAll(x + SettingsPrefix, SettingsPrefix) == x;
  }

  /** The default settings directory makes the site root itself the web root. */
  lemma WebRootOfDefaultDirectory(site: string)
    ensures WebRoot(site, "sites/default") == "/srv/" + site
  {
    var dir := "sites/default";
    assert dir[..|SettingsPrefix|] == SettingsPrefix;
    assert dir[|SettingsPrefix|..] == "";
  }

  /**
   * A directory inside sites/default moves the web root down to it: with
   * `sub` = "custom", "sites/default/custom" gives "/srv/<site>/custom".
   */
  lemma WebRootOfNestedDirectory(site: string, sub: string)
    requires sub != "" && sub[0] != '/' && sub[|sub| - 1] != '/' && !Occurs("/" + sub, SettingsPrefix)
    ensures WebRoot(site, SettingsPrefix + "/" + sub) == "/srv/" + site + "/" + sub
  {
    var dir := SettingsPrefix + "/" + sub;
    var rest := "/" + sub;
    assert dir == SettingsPrefix + rest;
    assert dir[..|SettingsPrefix|] == SettingsPrefix && dir[|SettingsPrefix|..] == rest;
    assert RemoveAll(dir, SettingsPrefix) == rest;
    assert rest[1..] == sub;
    assert StripLeft(rest, '/') == sub;
    assert StripRight(sub, '/') == sub;
  }

  /** The nested directory "sites/default/custom" gives "/srv/<site>/custom". */
  lemma WebRootOfCustomDirectory(site: string, dir: string)
    requires dir == "sites/default/custom"
    ensures WebRoot(site, dir) == "/srv/" + site + "/custom"
  {
    var sub := dir[14..];
    assert sub == "custom";
    assert dir[..13] == SettingsPrefix && dir[13..14] == "/";
    assert dir == dir[..13] + dir[13..14] + sub;
    assert !Occurs("/" + sub, SettingsPrefix) by {
      assert |"/" + sub| < |SettingsPrefix|;
    }
    WebRootOfNestedDirectory(site, sub);
  }

  /**
   * sites/default is removed wherever it occurs, not only at the front: with
   * `h` = 'a', "a/sites/default" gives "/srv/<site>/a".
   */
  lemma WebRootRemovesEveryOccurrence(site: string, h: char)
    requires h != '/' && h != 's'
    ensures WebRoot(site, [h, '/'] + SettingsPrefix) == "/srv/" + site + "/" + [h]
  {
    var x := [h, '/'];
    forall i | 0 <= i < |x| ensures !OccursAt(x + SettingsPrefix, SettingsPrefix, i) {
      assert (x + SettingsPrefix)[i] == x[i] != SettingsPrefix[0];
    }
    WebRootOfLeadingDirectory(site, x);
    StripOneTrailing(x, '/');
    assert x[..1] == [h];
  }

  /** A string ending in one `c`, and neither starting nor ending with `c` before it, strips to the part before that `c`. */
  lemma StripOneTrailing(y: string, c: char)
    requires |y| >= 2 && y[0] != c && y[|y| - 2] != c && y[|y| - 1] == c
    ensures Strip(y, c) == y[..|y| - 1]
  {
    var x := y[..|y| - 1];
    StripLeftStops(y, c);
    StripRightDrops(y, c);
    StripRightStops(x, c);
  }

  lemma StripLeftStops(s: string, c: char)
    requires s != [] && s[0] != c
    ensures StripLeft(s, c) == s
  {
  }

  lemma StripRightDrops(s: string, c: char)
    requires s != [] && s[|s| - 1] == c
    ensures StripRight(s, c) == StripRight(s[..|s| - 1], c)
  {
  }

  lemma StripRightStops(s: string, c: char)
    requires s != [] && s[|s| - 1] != c
    ensures StripRight(s, c) == s
  {
  }

  /** A settings directory made only of slashes leaves a trailing slash on the site root. */
  lemma WebRootOfSlashOnly(site: string, dir: string)
    requires dir == "/"
    ensures WebRoot(site, dir) == "/srv/" + site + "/"
  {
    assert RemoveAll("/", SettingsPrefix) == "/";
    assert StripLeft("/", '/') == "" by {
      assert "/"[1..] == "";
    }
  }

  // ---------------------------------------------------------------- configure_charm

  /** A config that fails validation blocks the unit and does nothing else. */
  lemma InvalidConfigStopsConfigure(s: Stored, status: Status, cfg: Config, w: World)
    requires !ValidateConfig(cfg, RequiredJujuConfig).Accepted?
    ensures var r := Configure(s, status, cfg, w);
            r.stored == s && r.effects == []
            && (ValidateConfig(cfg, RequiredJujuConfig).Rejected? ==>
                  r.status == Blocked(ValidateConfig(cfg, RequiredJujuConfig).message) && r.crash == None)
            && (ValidateConfig(cfg, RequiredJujuConfig).Raised? ==>
                  r.status == status && r.crash == Some(KeyError(ValidateConfig(cfg, RequiredJujuConfig).key)))
  {
  }

  /** Whether the site root gets built: already built, or the archive is fetched and extracted. */
  predicate BuildOk(s: Stored, cfg: Config, w: World)
  {
    s.siteRootCreated || ("drupal-url" in cfg && w.downloadOk && w.extractOk)
  }

  /** Once the config is valid, the pass completes exactly when the build, the lookups and a2enmod succeed. */
  lemma ConfigureCompletesIff(s: Stored, status: Status, cfg: Config, w: World)
    requires ValidateConfig(cfg, RequiredJujuConfig).Accepted?
    ensures Configure(s, status, cfg, w).crash.None? <==>
              BuildOk(s, cfg, w) && "settings-directory" in cfg && w.enableModuleOk
  {
    CheckJujuConfigOutcomes(cfg);
  }

  /** The apache step and what follows it, when nothing fails. */
  lemma CompletedSiteTrace(s: Stored, cfg: Config, w: World)
    requires ConfigureSite(s, cfg, w).crash.None?
    ensures "site-name" in cfg && "settings-directory" in cfg && w.enableModuleOk
    ensures
      var r := ConfigureSite(s, cfg, w);
      var site, dir := cfg["site-name"], cfg["settings-directory"];
      && r.status == (if s.dbConnected then Active(UnitReady) else Blocked(WaitingForDb))
      && r.effects == ApacheEffects(site, dir) + (if s.dbConnected then SettingsEffects(site, dir, s.dbData, w) else [])
  {
    var a := ConfigureApache(s, cfg, w);
    assert a.crash.None?;
    var site, dir := cfg["site-name"], cfg["settings-directory"];
    assert a.effects == ApacheEffects(site, dir);
    if s.dbConnected {
      var d := RenderDrupalSettings(s, a.status, cfg, w);
      assert d.effects == SettingsEffects(site, dir, s.dbData, w);
      assert ConfigureSite(s, cfg, w) == Then(a, d).(status := Active(UnitReady));
    } else {
      assert ConfigureSite(s, cfg, w) == a.(status := Blocked(WaitingForDb));
      assert a.effects + [] == a.effects;
    }
  }

  /**
   * A completed pass: install if not installed, build if not built, then the
   * vhost, a2enmod and the reload, and then the settings only when the
   * database is connected; the status says which.
   */
  lemma CompletedConfigureTrace(s: Stored, status: Status, cfg: Config, w: World)
    requires ValidateConfig(cfg, RequiredJujuConfig).Accepted?
    requires Configure(s, status, cfg, w).crash.None?
    ensures "site-name" in cfg && "settings-directory" in cfg && (!s.siteRootCreated ==> "drupal-url" in cfg)
    ensures
      var r := Configure(s, status, cfg, w);
      var site, dir := cfg["site-name"], cfg["settings-directory"];
      && r.stored == s.(installed := true, siteRootCreated := true)
      && r.status == (if s.dbConnected then Active(UnitReady) else Blocked(WaitingForDb))
      && r.effects == (if s.installed then [] else InstallEffects())
                      + (if s.siteRootCreated then [] else BuildEffects(SiteRoot(site), cfg["drupal-url"]))
                      + ApacheEffects(site, dir)
                      + (if s.dbConnected then SettingsEffects(site, dir, s.dbData, w) else [])
  {
    var i := if s.installed then Skip(s, status) else InstallPackages(s);
    var b := if i.stored.siteRootCreated then i
             else Then(i, BuildSiteRoot(i.stored, Maintenance("Build site root"), cfg, w));
    assert Configure(s, status, cfg, w) == Provision(s, status, cfg, w);
    assert b.crash.None?;
    var c := ConfigureSite(b.stored, cfg, w);
    assert Configure(s, status, cfg, w) == Then(b, c);
    CompletedSiteTrace(b.stored, cfg, w);
    var site, dir := cfg["site-name"], cfg["settings-directory"];
    assert !s.siteRootCreated ==> "drupal-url" in cfg;
    var install := if s.installed then [] else InstallEffects();
    var build := if s.siteRootCreated then [] else BuildEffects(SiteRoot(site), cfg["drupal-url"]);
    var settings := if s.dbConnected then SettingsEffects(site, dir, s.dbData, w) else [];
    assert b.effects == install + build;
    assert c.effects == ApacheEffects(site, dir) + settings;
    ConcatAssoc(install + build, ApacheEffects(site, dir), settings);
  }

  /** Everything up to the apache reload is the same whether or not the database is connected. */
  lemma ApacheConfiguredEitherWay(s: Stored, status: Status, cfg: Config, w: World)
    requires ValidateConfig(cfg, RequiredJujuConfig).Accepted?
    requires BuildOk(s, cfg, w) && "settings-directory" in cfg && w.enableModuleOk
    ensures
      var waiting := Configure(s.(dbConnected := false), status, cfg, w);
      var ready := Configure(s.(dbConnected := true), status, cfg, w);
      && waiting.crash.None? && ready.crash.None?
      && waiting.status == Blocked(WaitingForDb) && ready.status == Active(UnitReady)
      && |waiting.effects| <= |ready.effects| && ready.effects[..|waiting.effects|] == waiting.effects
      && waiting.effects[|waiting.effects| - 3..] == ApacheEffects(cfg["site-name"], cfg["settings-directory"])
  {
    var s0, s1 := s.(dbConnected := false), s.(dbConnected := true);
    ConfigureCompletesIff(s0, status, cfg, w);
    ConfigureCompletesIff(s1, status, cfg, w);
    CompletedConfigureTrace(s0, status, cfg, w);
    CompletedConfigureTrace(s1, status, cfg, w);
    var site, dir := cfg["site-name"], cfg["settings-directory"];
    var install := if s.installed then [] else InstallEffects();
    var build := if s.siteRootCreated then [] else BuildEffects(SiteRoot(site), cfg["drupal-url"]);
    var pre := install + build + ApacheEffects(site, dir);
    var settings := SettingsEffects(site, dir, s.dbData, w);
    assert Configure(s0, status, cfg, w).effects == pre + [] == pre;
    assert Configure(s1, status, cfg, w).effects == pre + settings;
    assert (pre + settings)[..|pre|] == pre;
    assert pre[|pre| - 3..] == ApacheEffects(site, dir);
  }

  /** The actions only a first install or a first build performs. */
  predicate Provisions(e: Effect)
  {
    e.AddSource? || e.AptUpdate? || e.AptInstall? || e.Download? || e.Extract?
  }

  /** Installed and built: configure_charm adds no apt, download or extract action. */
  lemma ProvisionedUnitProvisionsNothing(s: Stored, status: Status, cfg: Config, w: World)
    requires s.installed && s.siteRootCreated
    ensures forall e :: e in Configure(s, status, cfg, w).effects ==> !Provisions(e)
  {
    if ValidateConfig(cfg, RequiredJujuConfig).Accepted? {
      assert Configure(s, status, cfg, w) == ConfigureSite(s, cfg, w);
      SiteStepProvisionsNothing(s, cfg, w);
    }
  }

  /** The actions of the apache and settings part of a pass. */
  predicate SiteAction(e: Effect)
  {
    e.Render? || e.EnableModule? || e.ReloadService? || e.Mkdir?
  }

  lemma ApacheActionsOnly(s: Stored, cfg: Config, w: World)
    ensures forall e :: e in ConfigureApache(s, cfg, w).effects ==> SiteAction(e)
  {
    var r := RenderApache2Config(s, Maintenance("Configuring apache2"), cfg);
    assert forall e :: e in r.effects ==> e.Render?;
  }

  lemma SettingsActionsOnly(s: Stored, status: Status, cfg: Config, w: World)
    ensures forall e :: e in RenderDrupalSettings(s, status, cfg, w).effects ==> SiteAction(e)
  {
  }

  /** The apache and settings part of a pass renders, enables, reloads and makes directories, nothing more. */
  lemma SiteStepProvisionsNothing(s: Stored, cfg: Config, w: World)
    ensures forall e :: e in ConfigureSite(s, cfg, w).effects ==> !Provisions(e)
  {
    var a := ConfigureApache(s, cfg, w);
    ApacheActionsOnly(s, cfg, w);
    if a.crash.None? && s.dbConnected {
      var d := RenderDrupalSettings(s, a.status, cfg, w);
      SettingsActionsOnly(s, a.status, cfg, w);
      var all := a.effects + d.effects;
      assert forall e :: e in all ==> e in a.effects || e in d.effects;
      assert ConfigureSite(s, cfg, w).effects == all;
    } else {
      assert ConfigureSite(s, cfg, w).effects == a.effects;
    }
  }

  /** After a completed pass, the next pass (under any config and world) installs and builds nothing. */
  lemma SecondConfigureProvisionsNothing(s: Stored, status: Status, cfg: Config, w: World, cfg': Config, w': World)
    requires ValidateConfig(cfg, RequiredJujuConfig).Accepted?
    requires Configure(s, status, cfg, w).crash.None?
    ensures var r := Configure(s, status, cfg, w);
            forall e :: e in Configure(r.stored, r.status, cfg', w').effects ==> !Provisions(e)
  {
    CompletedConfigureTrace(s, status, cfg, w);
    var r := Configure(s, status, cfg, w);
    ProvisionedUnitProvisionsNothing(r.stored, r.status, cfg', w');
  }

  /** A failed download or extraction ends the pass before apache, with the site-root flag still unset. */
  lemma FailedBuildLeavesFlagUnset(s: Stored, status: Status, cfg: Config, w: World)
    requires ValidateConfig(cfg, RequiredJujuConfig).Accepted?
    requires !s.siteRootCreated && "drupal-url" in cfg && !(w.downloadOk && w.extractOk)
    ensures var r := Configure(s, status, cfg, w);
            && r.crash == Some(if !w.downloadOk then DownloadFailed else ExtractFailed)
            && r.stored == s.(installed := true)
            && r.status == Maintenance("Build site root")
            && forall e :: e in r.effects ==> !e.Render? && !e.EnableModule? && !e.ReloadService?
  {
    CheckJujuConfigOutcomes(cfg);
    var i := if s.installed then Skip(s, status) else InstallPackages(s);
    var b := Then(i, BuildSiteRoot(i.stored, Maintenance("Build site root"), cfg, w));
    assert Configure(s, status, cfg, w) == b;
  }

  /** How many actions render the given template. */
  function RenderCount(effects: seq<Effect>, template: string): (n: nat)
    ensures n <= |effects|
  {
    if effects == [] then 0
    else RenderCount(effects[..|effects| - 1], template)
         + (if effects[|effects| - 1].Render? && effects[|effects| - 1].template == template then 1 else 0)
  }

  lemma {:induction false} RenderCountConcat(a: seq<Effect>, b: seq<Effect>, template: string)
    ensures RenderCount(a + b, template) == RenderCount(a, template) + RenderCount(b, template)
    decreases |b|
  {
    if b == [] {
      assert a + b == a;
    } else {
      var b' := b[..|b| - 1];
      RenderCountConcat(a, b', template);
      assert (a + b)[..|a + b| - 1] == a + b';
    }
  }

  /** render_drupal_settings renders settings.local.php once, and settings.php only when it is missing. */
  lemma SettingsRenderCounts(site: string, dir: string, d: DbData, w: World)
    ensures var e := SettingsEffects(site, dir, d, w);
            && RenderCount(e, "settings.local.php.j2") == 1
            && RenderCount(e, "settings.php.j2") == (if w.settingsFileExists then 0 else 1)
            && LocalSettingsRender(SettingsDir(site, dir), d) in e
  {
    var sdir := SettingsDir(site, dir);
    var local: seq<Effect> := [LocalSettingsRender(sdir, d)];
    var first: seq<Effect> := if w.settingsFileExists then [] else [Render("settings.php.j2", sdir + "/settings.php", NoContext)];
    var last: seq<Effect> := if w.filesDirExists then [] else [Mkdir(sdir + "/files")];
    assert SettingsEffects(site, dir, d, w) == first + local + last;
    assert local[0] in first + local + last by { assert (first + local + last)[|first|] == local[0]; }
    assert local[..0] == [];
    assert RenderCount(first + local + last, "settings.local.php.j2") == 1 by {
      RenderCountConcat(first, local, "settings.local.php.j2");
      RenderCountConcat(first + local, last, "settings.local.php.j2");
    }
    assert RenderCount(first + local + last, "settings.php.j2") == (if w.settingsFileExists then 0 else 1) by {
      RenderCountConcat(first, local, "settings.php.j2");
      RenderCountConcat(first + local, last, "settings.php.j2");
    }
  }

  /** Render counts of the effect trace of a completed configure pass, in terms of its parts. */
  lemma TraceRenderCounts(install: seq<Effect>, build: seq<Effect>, site: string, dir: string,
                          connected: bool, d: DbData, w: World)
    requires forall e :: e in install + build ==> !e.Render?
    ensures var settings := if connected then SettingsEffects(site, dir, d, w) else [];
            var all := install + build + ApacheEffects(site, dir) + settings;
            && RenderCount(all, "settings.local.php.j2") == (if connected then 1 else 0)
            && (connected ==> LocalSettingsRender(SettingsDir(site, dir), d) in all)
            && RenderCount(all, "settings.php.j2") == (if connected && !w.settingsFileExists then 1 else 0)
  {
    var apache := ApacheEffects(site, dir);
    var pre := install + build + apache;
    assert forall e :: e in pre ==> e in install + build || e in apache;
    NoSettingsRenderBeforeSettings(pre, "settings.local.php.j2");
    NoSettingsRenderBeforeSettings(pre, "settings.php.j2");
    var settings := if connected then SettingsEffects(site, dir, d, w) else [];
    RenderCountConcat(pre, settings, "settings.local.php.j2");
    RenderCountConcat(pre, settings, "settings.php.j2");
    SettingsRenderCounts(site, dir, d, w);
    assert forall e :: e in settings ==> e in pre + settings;
  }

  lemma NoSettingsRenderBeforeSettings(pre: seq<Effect>, t: string)
    requires forall e :: e in pre ==> e.Render? ==> e.template == "vhost.conf.j2"
    requires t != "vhost.conf.j2"
    ensures RenderCount(pre, t) == 0
  {
    RenderCountNone(pre, t);
  }

  lemma {:induction false} RenderCountNone(e: seq<Effect>, t: string)
    requires forall x :: x in e ==> !(x.Render? && x.template == t)
    ensures RenderCount(e, t) == 0
    decreases |e|
  {
    if e != [] {
      assert forall x :: x in e[..|e| - 1] ==> x in e;
      RenderCountNone(e[..|e| - 1], t);
    }
  }

  /**
   * In a completed pass settings.local.php is rendered once, with the stored
   * credentials, when the database is connected, and not at all otherwise;
   * settings.php only when the database is connected and the file is missing.
   */
  lemma LocalSettingsRenderedOnlyWhenConnected(s: Stored, status: Status, cfg: Config, w: World)
    requires ValidateConfig(cfg, RequiredJujuConfig).Accepted?
    requires Configure(s, status, cfg, w).crash.None?
    ensures "site-name" in cfg && "settings-directory" in cfg
    ensures var r := Configure(s, status, cfg, w);
            var dir := SettingsDir(cfg["site-name"], cfg["settings-directory"]);
            && RenderCount(r.effects, "settings.local.php.j2") == (if s.dbConnected then 1 else 0)
            && (s.dbConnected ==> LocalSettingsRender(dir, s.dbData) in r.effects)
            && RenderCount(r.effects, "settings.php.j2") == (if s.dbConnected && !w.settingsFileExists then 1 else 0)
  {
    CompletedConfigureTrace(s, status, cfg, w);
    var site, dir := cfg["site-name"], cfg["settings-directory"];
    var install: seq<Effect> := if s.installed then [] else InstallEffects();
    var build: seq<Effect> := if s.siteRootCreated then [] else BuildEffects(SiteRoot(site), cfg["drupal-url"]);
    assert forall e :: e in install + build ==> !e.Render?;
    TraceRenderCounts(install, build, site, dir, s.dbConnected, s.dbData, w);
  }
}
