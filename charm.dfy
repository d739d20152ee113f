/**
 * DrupalCharm (src/charm.py) as a class over its stored state.  Each method
 * changes its fields step by step, as the handler does, and its contract ties
 * the new stored state, the unit status, the effects appended to the log and
 * the escaping error to the matching function of module Lifecycle.
 */
module Charm {
  import opened Wrappers
  import opened Lifecycle

  class DrupalCharm {
    /** The application name, `self.app.name`. */
    const name: string

    // StoredState
    var installed: bool
    var siteRootCreated: bool
    var dbConnected: bool
    var dbData: DbData

    /** `self.unit.status` */
    var status: Status

    /** Every external action taken so far, oldest first. */
    ghost var log: seq<Effect>

    ghost function Snapshot(): Stored
      reads this
    {
      Stored(installed, siteRootCreated, dbConnected, dbData)
    }

    /** Since the log was `before`, the object did exactly what step `r` describes. */
    ghost predicate Performed(r: Step, before: seq<Effect>, crash: Option<Crash>)
      reads this
    {
      Snapshot() == r.stored && status == r.status && log == before + r.effects && crash == r.crash
    }

    /** `__init__`: the StoredState defaults. */
    constructor (appName: string)
      ensures name == appName && Snapshot() == InitialStored && status == Unknown && log == []
    {
      name := appName;
      installed, siteRootCreated, dbConnected := false, false, false;
      dbData := DbData(None, None, None, None);
      status := Unknown;
      log := [];
    }

    method InstallPackages()
      modifies this
      ensures Performed(Lifecycle.InstallPackages(old(Snapshot())), old(log), None)
    {
      status := Maintenance("Installing apt packages");
      log := log + [AddSource(PhpSource)];
      log := log + [AptUpdate];
      log := log + [AptInstall(Packages)];
      installed := true;
      status := Maintenance("Waiting for configuration");
    }

    /** check_juju_config: looks every required option up, collecting the empty ones. */
    method CheckJujuConfig(cfg: Config) returns (r: ConfigCheck)
      ensures r == ValidateConfig(cfg, RequiredJujuConfig)
    {
      var keys := RequiredJujuConfig;
      var errors: seq<string> := [];
      var i := 0;
      while i < |keys|
        invariant 0 <= i <= |keys|
        invariant FirstAbsent(cfg, keys[..i]).None?
        invariant errors == FalsyKeys(cfg, keys[..i])
      {
        var required := keys[i];
        assert keys[..i + 1][..i] == keys[..i];
        if required !in cfg {
          FirstAbsentStable(cfg, keys, i + 1, |keys|);
          assert keys[..|keys|] == keys;
          return Raised(required);
        }
        if cfg[required] == "" {
          errors := errors + [required];
        }
        i := i + 1;
      }
      assert keys[..i] == keys;
      if errors != [] {
        return Rejected(ConfigErrorPrefix + PyStr.Join(PyStr.SortStrings(errors), ", "));
      }
      return Accepted;
    }

    method RenderApache2Config(cfg: Config) returns (crash: Option<Crash>)
      modifies this
      ensures Performed(Lifecycle.RenderApache2Config(old(Snapshot()), old(status), cfg), old(log), crash)
    {
      if "site-name" !in cfg { return Some(KeyError("site-name")); }
      var siteName := cfg["site-name"];
      if "settings-directory" !in cfg { return Some(KeyError("settings-directory")); }
      var documentRoot := WebRoot(siteName, cfg["settings-directory"]);
      log := log + [Render("vhost.conf.j2", VhostFile(siteName), VhostContext(siteName, documentRoot))];
      crash := None;
    }

    method RenderDrupalSettings(cfg: Config, w: World) returns (crash: Option<Crash>)
      modifies this
      ensures Performed(Lifecycle.RenderDrupalSettings(old(Snapshot()), old(status), cfg, w), old(log), crash)
    {
      if "site-name" !in cfg { return Some(KeyError("site-name")); }
      if "settings-directory" !in cfg { return Some(KeyError("settings-directory")); }
      var dir := SettingsDir(cfg["site-name"], cfg["settings-directory"]);
      if !w.settingsFileExists {
        log := log + [Render("settings.php.j2", dir + "/settings.php", NoContext)];
      }
      log := log + [Render("settings.local.php.j2", dir + "/settings.local.php", DbContext(dbData.database, dbData.dbHost, dbData.username, dbData.password))];
      if !w.filesDirExists {
        log := log + [Mkdir(dir + "/files")];
      }
      crash := None;
    }

    /** build_site_root; `siteRootCreated` is set only after the archive is extracted. */
    method BuildSiteRoot(cfg: Config, w: World) returns (crash: Option<Crash>)
      modifies this
      ensures Performed(Lifecycle.BuildSiteRoot(old(Snapshot()), old(status), cfg, w), old(log), crash)
    {
      if "site-name" !in cfg { return Some(KeyError("site-name")); }
      var root := SiteRoot(cfg["site-name"]);
      log := log + [Mkdir(root)];
      if "drupal-url" !in cfg { return Some(KeyError("drupal-url")); }
      var url := cfg["drupal-url"];
      log := log + [Download(url)];
      if !w.downloadOk { return Some(DownloadFailed); }
      log := log + [Extract(url, root)];
      if !w.extractOk { return Some(ExtractFailed); }
      siteRootCreated := true;
      crash := None;
    }

    /** on_install: installs the packages, whatever `installed` says. */
    method OnInstall()
      modifies this
      ensures Performed(Lifecycle.InstallPackages(old(Snapshot())), old(log), None)
    {
      InstallPackages();
    }

    method ConfigureCharm(cfg: Config, w: World) returns (crash: Option<Crash>)
      modifies this
      ensures Performed(Configure(old(Snapshot()), old(status), cfg, w), old(log), crash)
    {
      crash := None;
      var check := CheckJujuConfig(cfg);
      match check {
        case Raised(k) =>
          crash := Some(KeyError(k));
          assert Performed(Configure(old(Snapshot()), old(status), cfg, w), old(log), crash);
          return;
        case Rejected(m) =>
          status := Blocked(m);
          assert Performed(Configure(old(Snapshot()), old(status), cfg, w), old(log), crash);
          return;
        case Accepted =>
      }
      ghost var s0, st0, log0 := Snapshot(), status, log;
      assert Configure(s0, st0, cfg, w) == Provision(s0, st0, cfg, w);
      if !installed {
        InstallPackages();
      }
      ghost var i := if s0.installed then Skip(s0, st0) else Lifecycle.InstallPackages(s0);
      ghost var b := if i.stored.siteRootCreated then i
                     else Then(i, Lifecycle.BuildSiteRoot(i.stored, Maintenance("Build site root"), cfg, w));
      assert Performed(i, log0, None);
      if !siteRootCreated {
        ghost var logI := log;
        status := Maintenance("Build site root");
        crash := BuildSiteRoot(cfg, w);
        ghost var built := Lifecycle.BuildSiteRoot(i.stored, Maintenance("Build site root"), cfg, w);
        assert b == Then(i, built);
        assert Performed(built, logI, crash);
        ConcatAssoc(log0, i.effects, built.effects);
        assert Performed(b, log0, crash);
        if crash.Some? {
          assert Provision(s0, st0, cfg, w) == b;
          return;
        }
      }
      assert Performed(b, log0, None);
      ghost var log1 := log;
      ghost var site := Lifecycle.ConfigureSite(b.stored, cfg, w);
      assert Provision(s0, st0, cfg, w) == Then(b, site);
      assert log1 == log0 + b.effects;
      crash := ConfigureSite(cfg, w);
      assert log == log1 + site.effects;
      ConcatAssoc(log0, b.effects, site.effects);
      assert Performed(Then(b, site), log0, crash);
    }

    /** configure_charm from line 198 on: apache, then either wait for the database or write the settings. */
    method ConfigureSite(cfg: Config, w: World) returns (crash: Option<Crash>)
      modifies this
      ensures Performed(Lifecycle.ConfigureSite(old(Snapshot()), cfg, w), old(log), crash)
    {
      ghost var s0, log0 := Snapshot(), log;
      ghost var site := Lifecycle.ConfigureSite(s0, cfg, w);
      ghost var apache := ConfigureApache(s0, cfg, w);
      status := Maintenance("Configuring apache2");
      crash := RenderApache2Config(cfg);
      if crash.Some? {
        assert site == apache;
        return;
      }
      log := log + [EnableModule("rewrite")];
      if !w.enableModuleOk {
        crash := Some(CommandFailed(["a2enmod", "rewrite"]));
        assert site == apache;
        return;
      }
      log := log + [ReloadService("apache2")];
      assert Snapshot() == s0 && log == log0 + apache.effects && apache.crash.None?;
      if !dbConnected {
        status := Blocked(WaitingForDb);
        assert site == apache.(status := Blocked(WaitingForDb));
        return;
      }
      ghost var log1 := log;
      ghost var settings := Lifecycle.RenderDrupalSettings(s0, status, cfg, w);
      crash := RenderDrupalSettings(cfg, w);
      ConcatAssoc(log0, apache.effects, settings.effects);
      if crash.None? {
        status := Active(UnitReady);
        assert site == Then(apache, settings).(status := Active(UnitReady));
      }
    }

    method OnSharedDbRelationJoined(bindAddress: string, relations: Relations)
      modifies this
      ensures Performed(OnJoined(old(Snapshot()), old(status), name, bindAddress, relations), old(log), None)
    {
      dbData := dbData.(database := Some(name));
      dbData := dbData.(username := Some(name));
      var i := 0;
      while i < |relations|
        invariant 0 <= i <= |relations|
        invariant Snapshot() == OnJoined(old(Snapshot()), old(status), name, bindAddress, relations).stored
        invariant status == old(status)
        invariant log == old(log) + JoinedWrites(i, name, bindAddress)
      {
        log := log + [RelationSet(i, "database", dbData.database.value)];
        log := log + [RelationSet(i, "username", dbData.username.value)];
        log := log + [RelationSet(i, "hostname", bindAddress)];
        i := i + 1;
      }
    }

    /** The scan of relation-changed: the last remote unit, over all relations, with both values truthy. */
    method LatestCredentials(relations: Relations) returns (data: Option<Credentials>)
      ensures data == LastComplete(Flatten(relations))
    {
      data := None;
      ghost var seen: seq<UnitData> := [];
      var i := 0;
      while i < |relations|
        invariant 0 <= i <= |relations|
        invariant seen == Flatten(relations[..i])
        invariant data == LastComplete(seen)
      {
        var units := relations[i];
        ghost var before := seen;
        var j := 0;
        while j < |units|
          invariant 0 <= j <= |units|
          invariant seen == before + units[..j]
          invariant data == LastComplete(seen)
        {
          var unit := units[j];
          LastCompleteSnoc(seen, unit);
          assert (before + units[..j]) + [unit] == before + (units[..j] + [unit]);
          assert units[..j + 1] == units[..j] + [unit];
          seen := seen + [unit];
          if Complete(unit) {
            data := Some(Credentials(unit["db_host"], unit["password"]));
          }
          j := j + 1;
        }
        assert units[..j] == units;
        FlattenSnoc(relations, i);
        i := i + 1;
      }
      assert relations[..i] == relations;
    }

    method OnSharedDbRelationChanged(relations: Relations, cfg: Config, w: World) returns (crash: Option<Crash>)
      modifies this
      ensures Performed(OnChanged(old(Snapshot()), old(status), relations, cfg, w), old(log), crash)
    {
      dbConnected := true;
      var data := LatestCredentials(relations);
      if data.Some? {
        dbData := dbData.(dbHost := Some(data.value.dbHost));
        dbData := dbData.(password := Some(data.value.password));
      }
      crash := ConfigureCharm(cfg, w);
    }

    /** Bound to both relation-departed and relation-broken. */
    method OnSharedDbRelationDeparted(cfg: Config, w: World) returns (crash: Option<Crash>)
      modifies this
      ensures Performed(OnDeparted(old(Snapshot()), old(status), cfg, w), old(log), crash)
    {
      dbConnected := false;
      dbData := dbData.(database := None);
      dbData := dbData.(username := None);
      dbData := dbData.(password := None);
      dbData := dbData.(dbHost := None);
      crash := ConfigureCharm(cfg, w);
    }

    /** One event delivered by the runtime, routed as `__init__` registers the observers. */
    method Dispatch(e: Event, ctx: Context) returns (crash: Option<Crash>)
      modifies this
      ensures Performed(Handle(old(Snapshot()), old(status), name, e, ctx), old(log), crash)
    {
      crash := None;
      match e {
        case Install => OnInstall();
        case Start => crash := ConfigureCharm(ctx.config, ctx.world);
        case ConfigChanged => crash := ConfigureCharm(ctx.config, ctx.world);
        case SharedDbJoined => OnSharedDbRelationJoined(ctx.bindAddress, ctx.relations);
        case SharedDbChanged => crash := OnSharedDbRelationChanged(ctx.relations, ctx.config, ctx.world);
        case SharedDbDeparted => crash := OnSharedDbRelationDeparted(ctx.config, ctx.world);
        case SharedDbBroken => crash := OnSharedDbRelationDeparted(ctx.config, ctx.world);
      }
    }
  }
}
