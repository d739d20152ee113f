/**
 * The Drupal unit's lifecycle controller (src/charm.py, class DrupalCharm) as
 * pure functions over its stored state.  Every external action the charm
 * takes (apt, template rendering, mkdir, download, tar, a2enmod, the apache
 * reload, writes into the relation data bag) is an `Effect` value; what the
 * charm reads from the outside world (its Juju config, the peers' relation
 * data, whether a file exists, whether a download or a command fails) is an
 * input.  Each function returns a `Step`: the new stored state, the unit
 * status, the effects in the order the charm performs them, and the error
 * that escaped the handler, if one did.
 */
module Lifecycle {
  import opened Wrappers
  import opened PyStr

  /** The charm's Juju config: option name to value (values are strings here). */
  type Config = map<string, string>

  /** One remote unit's key/value data on a relation. */
  type UnitData = map<string, string>

  /**
   * Every `shared-db` relation, in iteration order, each with its remote
   * units' data. A relation's units form a set whose iteration order the
   * framework does not fix: the inner sequence is one such order, and every
   * property below holds for whichever order it is.
   */
  type Relations = seq<seq<UnitData>>

  const RequiredJujuConfig: seq<string> := ["site-name"]
  const ConfigErrorPrefix: string := "Required Juju config item(s) not set : "
  const PhpSource: string := "ppa:ondrej/php"
  const Packages: seq<string> :=
    ["apache2", "php7.4", "php7.4-cli", "php7.4-mysql", "php7.4-xml",
     "php7.4-gd", "php7.4-json", "php7.4-curl", "php7.4-mbstring",
     "composer", "mysql-client-5.7", "wget"]
  const SettingsPrefix: string := "sites/default"
  const WaitingForDb: string := "Waiting for database relation"
  const UnitReady: string := "Unit is ready"

  datatype Status =
    | Unknown
    | Maintenance(message: string)
    | Blocked(message: string)
    | Active(message: string)

  /** The `db_data` dict; `None` is Python's `None`. */
  datatype DbData = DbData(database: Option<string>, username: Option<string>,
                           password: Option<string>, dbHost: Option<string>)

  const NoDbData: DbData := DbData(None, None, None, None)

  /** The charm's StoredState. */
  datatype Stored = Stored(installed: bool, siteRootCreated: bool, dbConnected: bool, dbData: DbData)

  /** The defaults given to StoredState when the charm is first constructed. */
  const InitialStored: Stored := Stored(false, false, false, NoDbData)

  datatype Effect =
    | AddSource(source: string)
    | AptUpdate
    | AptInstall(packages: seq<string>)
    | Mkdir(path: string)
    | Download(url: string)
      /** `tar -xzvf <archive fetched from url> -C destination --strip-components=1` */
    | Extract(url: string, destination: string)
    | Render(template: string, target: string, context: TemplateContext)
    | EnableModule(name: string)
    | ReloadService(service: string)
      /** `relation.data[this_unit][key] = value` on the relation at that index */
    | RelationSet(relation: nat, key: string, value: string)

  /** The context dict handed to a template, one shape per template. */
  datatype TemplateContext =
    | NoContext
    | VhostContext(siteName: string, documentRoot: string)
    | DbContext(database: Option<string>, dbHost: Option<string>,
                username: Option<string>, password: Option<string>)

  /** An exception that escapes a handler (the runtime reports the hook as failed). */
  datatype Crash =
    | KeyError(key: string)
    | DownloadFailed
    | ExtractFailed
    | CommandFailed(command: seq<string>)

  /** What the charm observes of the machine during one handler run. */
  datatype World = World(downloadOk: bool, extractOk: bool, enableModuleOk: bool,
                         settingsFileExists: bool, filesDirExists: bool)

  datatype Step = Step(stored: Stored, status: Status, effects: seq<Effect>, crash: Option<Crash>)

  /** The credentials a provider unit publishes. */
  datatype Credentials = Credentials(dbHost: string, password: string)

  /** Outcome of check_juju_config: passes, raises DrupalCharmJujuConfigError, or a lookup raises KeyError. */
  datatype ConfigCheck = Accepted | Rejected(message: string) | Raised(key: string)

  /** Runs `b` after `a` (which did not crash): `b`'s state and status, both effect lists. */
  function Then(a: Step, b: Step): Step
  {
    Step(b.stored, b.status, a.effects + b.effects, b.crash)
  }

  /**
   * Regrouping three logs. Stated on its own so that the large proofs about
   * a whole configure pass need not find it among their many facts.
   */
  lemma ConcatAssoc<T>(a: seq<T>, b: seq<T>, c: seq<T>)
    ensures (a + b) + c == a + (b + c)
  {
  }

  /** Nothing happened. */
  function Skip(s: Stored, status: Status): Step
  {
    Step(s, status, [], None)
  }

  // ---------------------------------------------------------------- config

  /** The first key of `keys` absent from `cfg`: the lookup that raises KeyError. */
  function FirstAbsent(cfg: Config, keys: seq<string>): (r: Option<string>)
    ensures r.None? <==> forall i :: 0 <= i < |keys| ==> keys[i] in cfg
    ensures r.Some? ==> exists i :: AbsentFirstAt(cfg, keys, i) && keys[i] == r.value
    decreases |keys|
  {
    if keys == [] then None
    else
      var init := FirstAbsent(cfg, keys[..|keys| - 1]);
      if init.Some? then
        assert exists j :: AbsentFirstAt(cfg, keys, j) && keys[j] == init.value by {
          var i :| AbsentFirstAt(cfg, keys[..|keys| - 1], i) && keys[..|keys| - 1][i] == init.value;
          assert AbsentFirstAt(cfg, keys, i);
        }
        init
      else if keys[|keys| - 1] !in cfg then
        assert AbsentFirstAt(cfg, keys, |keys| - 1);
        Some(keys[|keys| - 1])
      else None
  }

  ghost predicate AbsentFirstAt(cfg: Config, keys: seq<string>, i: int)
  {
    0 <= i < |keys| && keys[i] !in cfg && forall j :: 0 <= j < i ==> keys[j] in cfg
  }

  /** Once a prefix of `keys` has an absent key, every longer prefix reports the same key. */
  lemma {:induction false} FirstAbsentStable(cfg: Config, keys: seq<string>, i: nat, j: nat)
    requires i <= j <= |keys| && FirstAbsent(cfg, keys[..i]).Some?
    ensures FirstAbsent(cfg, keys[..j]) == FirstAbsent(cfg, keys[..i])
    decreases j - i
  {
    if i < j {
      FirstAbsentStable(cfg, keys, i, j - 1);
      assert keys[..j][..j - 1] == keys[..j - 1];
    }
  }

  /** The keys whose value is set but falsy (the empty string), in order. */
  function FalsyKeys(cfg: Config, keys: seq<string>): (r: seq<string>)
    ensures forall k :: k in r <==> k in keys && k in cfg && cfg[k] == ""
    ensures |r| <= |keys|
    decreases |keys|
  {
    if keys == [] then []
    else
      var init := FalsyKeys(cfg, keys[..|keys| - 1]);
      var k := keys[|keys| - 1];
      assert keys == keys[..|keys| - 1] + [k];
      if k in cfg && cfg[k] == "" then init + [k] else init
  }

  /** check_juju_config over the given required keys. */
  function ValidateConfig(cfg: Config, keys: seq<string>): (r: ConfigCheck)
    ensures r.Accepted? <==> forall i :: 0 <= i < |keys| ==> keys[i] in cfg && cfg[keys[i]] != ""
    ensures r.Rejected? <==> (forall i :: 0 <= i < |keys| ==> keys[i] in cfg)
                             && exists i :: 0 <= i < |keys| && cfg[keys[i]] == ""
    ensures r.Raised? <==> exists i :: 0 <= i < |keys| && keys[i] !in cfg
    ensures r.Raised? ==> exists i :: AbsentFirstAt(cfg, keys, i) && keys[i] == r.key
    ensures r.Rejected? ==>
              r.message == ConfigErrorPrefix + Join(SortStrings(FalsyKeys(cfg, keys)), ", ")
  {
    match FirstAbsent(cfg, keys)
    case Some(k) => Raised(k)
    case None =>
      var errors := FalsyKeys(cfg, keys);
      if errors == [] then
        assert forall i :: 0 <= i < |keys| ==> keys[i] !in errors;
        Accepted
      else
        assert errors[0] in errors;
        Rejected(ConfigErrorPrefix + Join(SortStrings(errors), ", "))
  }

  // ---------------------------------------------------------------- web root

  /**
   * get_drupal_web_root: "/srv/<site>", followed by "/" and the settings
   * directory with every "sites/default" removed and then '/' stripped from
   * both ends, when that removal leaves anything.
   */
  function WebRoot(siteName: string, settingsDirectory: string): string
  {
    var prefix := RemoveAll(settingsDirectory, SettingsPrefix);
    if prefix == "" then "/srv/" + siteName
    else "/srv/" + siteName + "/" + Strip(prefix, '/')
  }

  // ---------------------------------------------------------------- steps

  function InstallEffects(): seq<Effect>
  {
    [AddSource(PhpSource), AptUpdate, AptInstall(Packages)]
  }

  /** install_packages: apt work, then `installed` is set. */
  function InstallPackages(s: Stored): Step
  {
    Step(s.(installed := true), Maintenance("Waiting for configuration"), InstallEffects(), None)
  }

  function SiteRoot(siteName: string): string
  {
    "/srv/" + siteName
  }

  /** What build_site_root does when the download and the extraction both succeed. */
  function BuildEffects(root: string, url: string): seq<Effect>
  {
    [Mkdir(root), Download(url), Extract(url, root)]
  }

  /** build_site_root: mkdir, download, extract; the flag is set only after all three. */
  function BuildSiteRoot(s: Stored, status: Status, cfg: Config, w: World): (r: Step)
    ensures r.stored == if r.crash.None? then s.(siteRootCreated := true) else s
    ensures r.status == status
    ensures r.crash.None? <==> "site-name" in cfg && "drupal-url" in cfg && w.downloadOk && w.extractOk
  {
    if "site-name" !in cfg then Step(s, status, [], Some(KeyError("site-name")))
    else
      var root := SiteRoot(cfg["site-name"]);
      if "drupal-url" !in cfg then Step(s, status, [Mkdir(root)], Some(KeyError("drupal-url")))
      else
        var url := cfg["drupal-url"];
        if !w.downloadOk then Step(s, status, [Mkdir(root), Download(url)], Some(DownloadFailed))
        else if !w.extractOk then
          Step(s, status, [Mkdir(root), Download(url), Extract(url, root)], Some(ExtractFailed))
        else Step(s.(siteRootCreated := true), status, BuildEffects(root, url), None)
  }

  function VhostFile(siteName: string): string
  {
    "/etc/apache2/sites-enabled/99-" + siteName + ".conf"
  }

  function VhostRender(siteName: string, settingsDirectory: string): Effect
  {
    Render("vhost.conf.j2", VhostFile(siteName), VhostContext(siteName, WebRoot(siteName, settingsDirectory)))
  }

  /** What configure_charm does to apache when every step succeeds. */
  function ApacheEffects(siteName: string, settingsDirectory: string): seq<Effect>
  {
    [VhostRender(siteName, settingsDirectory), EnableModule("rewrite"), ReloadService("apache2")]
  }

  /** render_apache2_config: the vhost file, whose document root is the web root. */
  function RenderApache2Config(s: Stored, status: Status, cfg: Config): Step
  {
    if "site-name" !in cfg then Step(s, status, [], Some(KeyError("site-name")))
    else if "settings-directory" !in cfg then Step(s, status, [], Some(KeyError("settings-directory")))
    else Step(s, status, [VhostRender(cfg["site-name"], cfg["settings-directory"])], None)
  }

  /** The apache part of configure_charm: render the vhost, `a2enmod rewrite`, reload apache2. */
  function ConfigureApache(s: Stored, cfg: Config, w: World): Step
  {
    var r := RenderApache2Config(s, Maintenance("Configuring apache2"), cfg);
    if r.crash.Some? then r
    else if !w.enableModuleOk then
      Then(r, Step(s, r.status, [EnableModule("rewrite")], Some(CommandFailed(["a2enmod", "rewrite"]))))
    else Then(r, Step(s, r.status, [EnableModule("rewrite"), ReloadService("apache2")], None))
  }

  /** The template context of settings.local.php. */
  function SettingsContext(d: DbData): TemplateContext
  {
    DbContext(d.database, d.dbHost, d.username, d.password)
  }

  /** The directory the settings files go to: "/srv/<site>/<settings-directory>". */
  function SettingsDir(siteName: string, settingsDirectory: string): string
  {
    "/srv/" + siteName + "/" + settingsDirectory
  }

  function LocalSettingsRender(dir: string, d: DbData): Effect
  {
    Render("settings.local.php.j2", dir + "/settings.local.php", SettingsContext(d))
  }

  /** What render_drupal_settings does, given whether the two paths already exist. */
  function SettingsEffects(siteName: string, settingsDirectory: string, d: DbData, w: World): seq<Effect>
  {
    var dir := SettingsDir(siteName, settingsDirectory);
    (if w.settingsFileExists then [] else [Render("settings.php.j2", dir + "/settings.php", NoContext)])
    + [LocalSettingsRender(dir, d)]
    + (if w.filesDirExists then [] else [Mkdir(dir + "/files")])
  }

  /** render_drupal_settings. */
  function RenderDrupalSettings(s: Stored, status: Status, cfg: Config, w: World): Step
  {
    if "site-name" !in cfg then Step(s, status, [], Some(KeyError("site-name")))
    else if "settings-directory" !in cfg then Step(s, status, [], Some(KeyError("settings-directory")))
    else Step(s, status, SettingsEffects(cfg["site-name"], cfg["settings-directory"], s.dbData, w), None)
  }

  /** configure_charm: validate, install, build, apache, then settings or wait for the database. */
  function Configure(s: Stored, status: Status, cfg: Config, w: World): (r: Step)
    ensures r.stored.dbConnected == s.dbConnected && r.stored.dbData == s.dbData
    ensures r.stored.installed == (s.installed || ValidateConfig(cfg, RequiredJujuConfig).Accepted?)
  {
    match ValidateConfig(cfg, RequiredJujuConfig)
    case Raised(k) => Step(s, status, [], Some(KeyError(k)))
    case Rejected(m) => Step(s, Blocked(m), [], None)
    case Accepted => Provision(s, status, cfg, w)
  }

  /** configure_charm once the config is valid: install and build if not done yet, then the site. */
  function Provision(s: Stored, status: Status, cfg: Config, w: World): (r: Step)
    ensures r.stored.dbConnected == s.dbConnected && r.stored.dbData == s.dbData && r.stored.installed
  {
    var i := if s.installed then Skip(s, status) else InstallPackages(s);
    var b := if i.stored.siteRootCreated then i
             else Then(i, BuildSiteRoot(i.stored, Maintenance("Build site root"), cfg, w));
    if b.crash.Some? then b else Then(b, ConfigureSite(b.stored, cfg, w))
  }

  /** configure_charm from the apache step on: the stored state is left as it is. */
  function ConfigureSite(s: Stored, cfg: Config, w: World): (r: Step)
    ensures r.stored == s
  {
    var a := ConfigureApache(s, cfg, w);
    if a.crash.Some? then a
    else if !s.dbConnected then a.(status := Blocked(WaitingForDb))
    else
      var d := Then(a, RenderDrupalSettings(s, a.status, cfg, w));
      if d.crash.Some? then d else d.(status := Active(UnitReady))
  }

  // ---------------------------------------------------------------- relation handlers

  /** The three writes relation-joined makes into this unit's data bag on the first `n` relations. */
  function JoinedWrites(n: nat, appName: string, bindAddress: string): (r: seq<Effect>)
    ensures |r| == 3 * n
  {
    if n == 0 then []
    else JoinedWrites(n - 1, appName, bindAddress)
         + [RelationSet(n - 1, "database", appName), RelationSet(n - 1, "username", appName),
            RelationSet(n - 1, "hostname", bindAddress)]
  }

  /** on_shared_db_relation_joined. */
  function OnJoined(s: Stored, status: Status, appName: string, bindAddress: string, relations: Relations): Step
  {
    var d := s.dbData.(database := Some(appName), username := Some(appName));
    Step(s.(dbData := d), status, JoinedWrites(|relations|, appName, bindAddress), None)
  }

  /** Both values truthy: present and not the empty string. */
  predicate Complete(u: UnitData)
  {
    "db_host" in u && u["db_host"] != "" && "password" in u && u["password"] != ""
  }

  function CredentialsOf(u: UnitData): Credentials
    requires Complete(u)
  {
    Credentials(u["db_host"], u["password"])
  }

  /** All remote units of all relations, in iteration order. */
  function Flatten(relations: Relations): (r: seq<UnitData>)
    decreases |relations|
  {
    if relations == [] then []
    else Flatten(relations[..|relations| - 1]) + relations[|relations| - 1]
  }

  ghost predicate LastCompleteAt(units: seq<UnitData>, k: int)
  {
    0 <= k < |units| && Complete(units[k]) && forall j :: k < j < |units| ==> !Complete(units[j])
  }

  /** The credentials of the last complete unit, if one is complete. */
  function LastComplete(units: seq<UnitData>): (r: Option<Credentials>)
    ensures r.None? <==> forall k :: 0 <= k < |units| ==> !Complete(units[k])
    ensures r.Some? ==> exists k :: LastCompleteAt(units, k) && r.value == CredentialsOf(units[k])
    decreases |units|
  {
    if units == [] then None
    else if Complete(units[|units| - 1]) then
      assert LastCompleteAt(units, |units| - 1);
      Some(CredentialsOf(units[|units| - 1]))
    else
      var r := LastComplete(units[..|units| - 1]);
      if r.Some? then
        assert exists j :: LastCompleteAt(units, j) && r.value == CredentialsOf(units[j]) by {
          var k :| LastCompleteAt(units[..|units| - 1], k) && r.value == CredentialsOf(units[..|units| - 1][k]);
          LastCompleteAtExtend(units, k);
        }
        r
      else r
  }

  /** A unit stays the last complete one when an incomplete unit is appended. */
  lemma LastCompleteAtExtend(units: seq<UnitData>, k: int)
    requires units != [] && !Complete(units[|units| - 1]) && LastCompleteAt(units[..|units| - 1], k)
    ensures LastCompleteAt(units, k)
  {
    var init := units[..|units| - 1];
    forall j | k < j < |units| ensures !Complete(units[j]) {
      if j < |units| - 1 {
        assert units[j] == init[j];
      }
    }
  }

  lemma LastCompleteSnoc(units: seq<UnitData>, u: UnitData)
    ensures LastComplete(units + [u]) == if Complete(u) then Some(CredentialsOf(u)) else LastComplete(units)
  {
    assert (units + [u])[..|units|] == units;
  }

  lemma FlattenSnoc(relations: Relations, i: nat)
    requires i < |relations|
    ensures Flatten(relations[..i + 1]) == Flatten(relations[..i]) + relations[i]
  {
    assert relations[..i + 1][..i] == relations[..i];
  }

  /** The credential record relation-changed leaves behind before configuring. */
  function ChangedDbData(d: DbData, relations: Relations): DbData
  {
    match LastComplete(Flatten(relations))
    case Some(c) => d.(dbHost := Some(c.dbHost), password := Some(c.password))
    case None => d
  }

  /** on_shared_db_relation_changed. */
  function OnChanged(s: Stored, status: Status, relations: Relations, cfg: Config, w: World): Step
  {
    Configure(s.(dbConnected := true, dbData := ChangedDbData(s.dbData, relations)), status, cfg, w)
  }

  /** on_shared_db_relation_departed (also bound to relation-broken). */
  function OnDeparted(s: Stored, status: Status, cfg: Config, w: World): Step
  {
    Configure(s.(dbConnected := false, dbData := NoDbData), status, cfg, w)
  }

  // ---------------------------------------------------------------- dispatch

  datatype Event =
    | Install
    | Start
    | ConfigChanged
    | SharedDbJoined
    | SharedDbChanged
    | SharedDbDeparted
    | SharedDbBroken

  /** What the runtime and the machine present to one handler run. */
  datatype Context = Context(config: Config, world: World, relations: Relations, bindAddress: string)

  /** The observer table of DrupalCharm.__init__. */
  function Handle(s: Stored, status: Status, appName: string, e: Event, ctx: Context): Step
  {
    match e
    case Install => InstallPackages(s)
    case Start => Configure(s, status, ctx.config, ctx.world)
    case ConfigChanged => Configure(s, status, ctx.config, ctx.world)
    case SharedDbJoined => OnJoined(s, status, appName, ctx.bindAddress, ctx.relations)
    case SharedDbChanged => OnChanged(s, status, ctx.relations, ctx.config, ctx.world)
    case SharedDbDeparted => OnDeparted(s, status, ctx.config, ctx.world)
    case SharedDbBroken => OnDeparted(s, status, ctx.config, ctx.world)
  }
}
