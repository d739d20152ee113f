# Drupal charm lifecycle, modelled in Dafny

This project models the Juju charm that deploys Drupal on a unit.

- `DrupalCharm` (src/charm.py) is the lifecycle controller. It keeps these stored flags:
  - `installed`
  - `site_root_created`
  - `db_connected`
  - a four-value credential record: database, username, password and db_host.
- The controller reacts to the install, start and config-changed hooks, and to the four `shared-db` relation hooks. It also keeps the unit status.
- `configure_charm` runs these steps in order, stopping at the first one that fails:
  1. validate the config;
  2. install the packages (only once);
  3. build the site root (only once);
  4. configure apache;
  5. either wait for the database or write Drupal's settings.
- `MySqlShared` (src/mysql_shared.py) is the requires side of the `mysql-shared` interface. It caches the configured credentials and turns each raw relation event into one signal.

Files:

- `lifecycle.dfy` (module `Lifecycle`) holds the pure specification.
  - The stored state is a `Stored` record and the unit status is a `Status`.
  - Every external action (apt, mkdir, download, `tar`, template render, `a2enmod`, service reload, relation-data write) is an `Effect` value.
  - A handler's outcome is a `Step`: the new stored state, the new status, the effects in order, and the exception that escapes, if any.
  - Each handler and each helper of `DrupalCharm` is a function to a `Step`. `Handle` is the observer table.
- `charm.dfy` (module `Charm`) holds class `DrupalCharm`.
  - Its fields are the stored state and the status, plus a ghost log of effects.
  - Its methods change the fields step by step, as the Python does.
  - Each method is proved to do exactly what the matching `Lifecycle` function describes.
  - `CheckJujuConfig` and the credential scan `LatestCredentials` keep the source's loops, with their invariants.
- `python_str.dfy` (module `PyStr`) models the Python string operations the charm relies on:
  - `sorted` on strings (code-point order), proved sorted and a permutation;
  - `", ".join`;
  - `str.replace(p, '')`, which removes every occurrence;
  - `str.strip(c)`.
- `mysql_shared.dfy` (module `MySqlShared`) holds class `MySqlShared`, with its stored fields and its signal log.
- `lifecycle_properties.dfy` and `relation_properties.dfy` hold the properties.
  - Config validation, the web root, the install/build guards and the order of the apache steps.
  - Which templates are rendered when.
  - The peer-selection rule of relation-changed, and what joined and departed do.
  - One end-to-end deployment: install, config-changed, relation-joined, relation-changed.

The model follows the code as written, including these points where its behaviour is easy to misread:

- **Missing config keys.** `self.model.config[k]` on an absent key raises `KeyError`, which escapes the handler. So a missing required option does not block the unit with the "not set" message: it ends the hook with an error (`Raised` / `Crash.KeyError`). Only a present but empty value is rejected by name.
- **`sites/default` removal.** `get_drupal_web_root` removes every occurrence of `sites/default`, wherever it appears, not just a leading one. For example, `a/sites/default` gives `/srv/<site>/a` (`LifecycleProperties.WebRootOfLeadingDirectory` states the general case).
- **Settings paths.** The settings files are placed under `/srv/<site>/<settings-directory>`, not under the web root. Only the vhost's document root uses `get_drupal_web_root`.
- **`on_install`.** It calls `install_packages` without checking `installed`, so a repeated install hook repeats the apt work. Only `configure_charm` is guarded.
- **relation-changed without credentials.** It sets `db_connected` even when no provider unit has published both a host and a password. After a departure has cleared the credentials, the next relation-changed therefore reports "Unit is ready" and renders `settings.local.php` with no host and no password (`RelationProperties.ConnectedWithoutCredentials`).

External outcomes are inputs of the model:
- The `World` record says whether the download, the extraction and `a2enmod` succeed, and whether `settings.php` and the `files` directory already exist.
- The `Context` record carries the config, the `shared-db` relations (as the remote units' data, relation by relation) and the bind address. Within one relation the units are a set, iterated in an order the framework does not fix. The model lists them in some order, and every lemma holds for every such order. Which unit counts as "last" therefore depends on that order.

## Model

| member | source | states |
|---|---|---|
| PyStr.SortStrings | src/charm.py:94 | `sorted(errors)`: the result is sorted in code-point order and is a permutation of the input |
| PyStr.SortedUnique | src/charm.py:94 | two sorted permutations of the same strings are equal, so the sorted order is unique |
| PyStr.LexLeTotal | src/charm.py:94 | Python's string order is total |
| PyStr.LexLeTransitive | src/charm.py:94 | Python's string order is transitive |
| PyStr.LexLeAntisymmetric | src/charm.py:94 | Python's string order is antisymmetric |
| PyStr.Join | src/charm.py:94 | `", ".join` of one name is that name |
| PyStr.RemoveAll | src/charm.py:103 | `replace(pat, '')` never lengthens the string and is the identity when `pat` does not occur |
| PyStr.RemoveAllFirstOccurrence | src/charm.py:103 | for any strings, an occurrence of `pat` preceded by a part in which no occurrence starts is deleted: that part is kept and the removal continues after the occurrence |
| PyStr.Strip | src/charm.py:105 | `strip(c)` returns the middle of the string: only `c`s are removed, on both sides, and the result neither starts nor ends with `c` |
| Lifecycle.FirstAbsent | src/charm.py:88-89 | the first required key missing from the config (where `config[key]` raises), or None exactly when all are present |
| Lifecycle.FalsyKeys | src/charm.py:87-91 | exactly the required keys present with an empty value |
| Lifecycle.ValidateConfig | src/charm.py:85-95 | accepted iff every required key is present and non-empty; raises KeyError iff some key is absent, naming the first absent one; otherwise the error message is the prefix followed by the empty keys, sorted and joined with ", " |
| Lifecycle.BuildSiteRoot | src/charm.py:153-174 | completes iff site-name and drupal-url are set and the download and the extraction succeed; `site_root_created` is set only then; the status is untouched |
| Lifecycle.Configure | src/charm.py:181-211 | never changes `db_connected` or the credentials; `installed` ends true exactly when validation passed or it was already true |
| Lifecycle.Provision | src/charm.py:191-196 | after the guarded install and build, `installed` is true and the database state is unchanged |
| Lifecycle.ConfigureSite | src/charm.py:198-211 | the apache and settings part of configure_charm changes no stored state |
| Lifecycle.JoinedWrites | src/charm.py:228-234 | three relation-data writes per relation |
| Lifecycle.LastComplete | src/charm.py:242-253 | None iff no unit has both db_host and password truthy; otherwise the credentials of a unit that is complete and has no complete unit after it |
| Lifecycle.LastCompleteSnoc | src/charm.py:246-253 | scanning one more unit: a complete unit replaces the selection, an incomplete one keeps it |
| Lifecycle.FirstAbsentStable | src/charm.py:88-89 | once a missing key has been found, looking at more keys keeps it |
| Charm.DrupalCharm.constructor | src/charm.py:40-51 | the stored defaults: nothing installed or built, not connected, all four credentials None |
| Charm.DrupalCharm.InstallPackages | src/charm.py:70-82 | adds the PPA, updates, installs the twelve packages, sets `installed`, and leaves "Waiting for configuration" |
| Charm.DrupalCharm.CheckJujuConfig | src/charm.py:85-95 | the loop over the required keys computes exactly `Lifecycle.ValidateConfig` |
| Charm.DrupalCharm.RenderApache2Config | src/charm.py:111-120 | renders vhost.conf.j2 to `/etc/apache2/sites-enabled/99-<site>.conf`, with the site name and the web root as document root |
| Charm.DrupalCharm.RenderDrupalSettings | src/charm.py:123-150 | settings.php only if missing, then settings.local.php with the four stored credentials, then the files directory only if missing |
| Charm.DrupalCharm.BuildSiteRoot | src/charm.py:153-174 | mkdir, download, extract into the site root; the flag is set only after all three |
| Charm.DrupalCharm.OnInstall | src/charm.py:177-178 | runs the package installation, whatever `installed` says |
| Charm.DrupalCharm.ConfigureCharm | src/charm.py:181-211 | the handler's new stored state, status, effect log and escaping error are those of `Lifecycle.Configure` |
| Charm.DrupalCharm.ConfigureSite | src/charm.py:198-211 | the apache steps, then Blocked waiting for the database or the settings and Active, as `Lifecycle.ConfigureSite` |
| Charm.DrupalCharm.OnSharedDbRelationJoined | src/charm.py:214-234 | the loop over the relations performs `Lifecycle.OnJoined` |
| Charm.DrupalCharm.LatestCredentials | src/charm.py:241-253 | the nested loop over relations and units returns the credentials of the last complete unit, `LastComplete(Flatten(relations))` |
| Charm.DrupalCharm.OnSharedDbRelationChanged | src/charm.py:237-258 | connects, stores the selected host and password, then runs configure, as `Lifecycle.OnChanged` |
| Charm.DrupalCharm.OnSharedDbRelationDeparted | src/charm.py:262-269 | disconnects, clears all four credentials, then runs configure, as `Lifecycle.OnDeparted` |
| Charm.DrupalCharm.Dispatch | src/charm.py:53-65 | each event runs the handler `__init__` registers for it |
| LifecycleProperties.CheckJujuConfigOutcomes | src/charm.py:28 | with site-name as the only required option: absent raises KeyError, empty is rejected with "Required Juju config item(s) not set : site-name", anything else is accepted |
| LifecycleProperties.SingleKeyOutcomes | src/charm.py:85-95 | with one required key: absent raises KeyError for it, empty rejects it by name, anything else passes |
| LifecycleProperties.RejectionListsSortedNames | src/charm.py:92-95 | the message lists the empty keys in ascending order, whatever order they were found in |
| LifecycleProperties.WebRootUnderSiteRoot | src/charm.py:98-108 | the web root is `/srv/<site>` itself or a path below it, after a `/` |
| LifecycleProperties.WebRootWithoutDefaultDirectory | src/charm.py:102-106 | a non-empty directory without `sites/default` is used below the site root with its slashes stripped |
| LifecycleProperties.WebRootOfLeadingDirectory | src/charm.py:102-106 | a directory `x` followed by `sites/default`, with no earlier occurrence, gives `/srv/<site>/` followed by `x` with its slashes stripped |
| LifecycleProperties.WebRootOfDefaultDirectory | src/charm.py:102-104 | `sites/default` gives the site root itself |
| LifecycleProperties.WebRootOfNestedDirectory | src/charm.py:102-106 | `sites/default/<sub>`, for a `sub` with no slash at either end and no `sites/default` in it, gives `/srv/<site>/<sub>` |
| LifecycleProperties.WebRootOfCustomDirectory | src/charm.py:102-106 | `sites/default/custom` gives `/srv/<site>/custom` |
| LifecycleProperties.WebRootRemovesEveryOccurrence | src/charm.py:103 | `<h>/sites/default`, for a character `h` other than `/` and `s`, gives `/srv/<site>/<h>` (so `a/sites/default` gives `/srv/<site>/a`): the removal is not only at the front |
| LifecycleProperties.WebRootOfSlashOnly | src/charm.py:104-106 | `/` gives `/srv/<site>/`, with a trailing slash |
| LifecycleProperties.InvalidConfigStopsConfigure | src/charm.py:185-189 | a rejected config blocks the unit with the message and changes nothing else; a missing key raises before any action |
| LifecycleProperties.ConfigureCompletesIff | src/charm.py:191-211 | after validation, the pass completes iff the site root is built or builds, settings-directory is set and a2enmod succeeds |
| LifecycleProperties.CompletedSiteTrace | src/charm.py:198-211 | a completed apache-and-settings step: vhost, a2enmod, reload, then settings only if connected; Blocked or Active accordingly |
| LifecycleProperties.CompletedConfigureTrace | src/charm.py:181-211 | a completed pass: install if not installed, build if not built, vhost, a2enmod, reload, settings only if connected; both flags end true; Blocked("Waiting for database relation") or Active("Unit is ready") |
| LifecycleProperties.ApacheConfiguredEitherWay | src/charm.py:198-207 | connected or not, the pass performs the same actions up to the apache reload, and those end in vhost, a2enmod, reload |
| LifecycleProperties.ProvisionedUnitProvisionsNothing | src/charm.py:191-196 | an installed, built unit adds no apt, download or extract action |
| LifecycleProperties.SiteStepProvisionsNothing | src/charm.py:198-211 | the apache and settings part of a pass adds no apt, download or extract action |
| LifecycleProperties.SecondConfigureProvisionsNothing | src/charm.py:191-196 | after a completed pass, any later pass installs and builds nothing |
| LifecycleProperties.FailedBuildLeavesFlagUnset | src/charm.py:153-174 | a failed download or extraction ends the hook before apache, with `site_root_created` still false |
| LifecycleProperties.RenderCountConcat | src/charm.py:120 | render counts add up over consecutive actions |
| LifecycleProperties.SettingsRenderCounts | src/charm.py:123-150 | render_drupal_settings renders settings.local.php once and settings.php once iff it is missing |
| LifecycleProperties.LocalSettingsRenderedOnlyWhenConnected | src/charm.py:205-211 | a completed pass renders settings.local.php once, with the stored credentials, iff connected, and settings.php only when connected and missing |
| RelationProperties.JoinedWritesAt | src/charm.py:229-234 | relation k gets database, username and hostname written, in that order |
| RelationProperties.JoinedWritesOnly | src/charm.py:229-234 | every write goes to a current relation, with the application name or the bind address as value |
| RelationProperties.JoinedPublishesOnEveryRelation | src/charm.py:214-234 | joined stores the application name as database and username, changes nothing else and cannot fail |
| RelationProperties.LastCompleteConcat | src/charm.py:243-253 | over two stretches of units, a complete unit in the later stretch wins |
| RelationProperties.LaterRelationWins | src/charm.py:243-253 | a complete unit of a later relation overrides the first relation's choice, which stands only when the later relations have none |
| RelationProperties.ProviderSelected | src/charm.py:243-256 | when a unit publishes a host and a password and no later unit, in its own relation or a later one, publishes both, its credentials are the ones selected |
| RelationProperties.FlattenCons | src/charm.py:243-246 | the units are visited relation by relation, in order |
| RelationProperties.LastCompleteAtSelected | src/charm.py:252-253 | the last complete unit is the one selected |
| RelationProperties.SecondUnitSelected | src/charm.py:247-253 | a unit with only db_host is skipped for a later complete one |
| RelationProperties.LastCompleteUnitSelected | src/charm.py:241-256 | of two complete units the later wins, across relations, and an empty password does not count |
| RelationProperties.ChangedDbDataFromLastComplete | src/charm.py:254-256 | only db_host and password change, to the selected unit's values, and nothing changes without a complete unit |
| RelationProperties.ChangedStoresCredentials | src/charm.py:237-258 | changed connects, keeps database and username, stores the selected host and password, and configure keeps them |
| RelationProperties.ChangedEndsActive | src/charm.py:237-258 | with a valid config, a completed changed hook ends Active |
| RelationProperties.ConnectedWithoutCredentials | src/charm.py:239 | changed after departed, with no complete unit: Active, connected, and settings.local.php rendered with no credentials |
| RelationProperties.DepartedForgetsDatabase | src/charm.py:262-269 | departed disconnects and clears all four credentials; a completed pass then ends Blocked waiting for the database and renders no settings file |
| RelationProperties.BrokenIsDeparted | src/charm.py:62-65 | relation-broken does exactly what relation-departed does |
| RelationProperties.StartIsConfigChanged | src/charm.py:54-55 | start and config-changed run the same handler |
| RelationProperties.InstallIgnoresFlag | src/charm.py:177-178 | the install hook repeats the apt work on an installed unit |
| RelationProperties.FreshUnitWaitsForDatabase | src/charm.py:177-207 | a fresh unit after install and config-changed is installed, built and Blocked waiting for the database |
| RelationProperties.ProviderCredentialsActivate | src/charm.py:237-258 | after joined, changed, with a provider unit that is the last to publish both a host and a password, gives Active, those credentials stored and rendered once, and nothing installed or downloaded |
| RelationProperties.DeploymentReachesActive | src/charm.py:177-258 | install, config-changed, joined, changed (with a provider unit that is the last to publish both a host and a password): Blocked, Blocked, then Active with those credentials stored and rendered into settings.local.php exactly once |
| MySqlShared.SignalForCollapsesTeardown | src/mysql_shared.py:66-96 | two raw events give the same signal iff they are equal or both are departed/broken |
| MySqlShared.MySqlShared.constructor | src/mysql_shared.py:55-61 | all four stored values start as None, and no signal has been emitted |
| MySqlShared.MySqlShared.OnRelationJoined | src/mysql_shared.py:75-77 | emits `connected` and changes no stored value |
| MySqlShared.MySqlShared.OnRelationChanged | src/mysql_shared.py:89-91 | emits `available` and changes no stored value |
| MySqlShared.MySqlShared.OnRelationDeparted | src/mysql_shared.py:94-96 | emits `departed` and changes no stored value |
| MySqlShared.MySqlShared.Handle | src/mysql_shared.py:66-73 | each raw event emits exactly one signal; departed and broken both emit `departed` |
| MySqlShared.MySqlShared.Configure | src/mysql_shared.py:98-103 | stores database, username and hostname, ignores `prefix`, and leaves the password alone |
| MySqlShared.MySqlShared.Password | src/mysql_shared.py:114-115 | always None, because no code path assigns it |
| MySqlShared.ReadBackAfterEvents | src/mysql_shared.py:98-115 | after configure and any sequence of relation events, the accessors return the configured values and no password |

## Left out

- Package management, template rendering, `host.mkdir` and `host.service_reload` are recorded as effects and assumed to succeed. Their failures, permissions and owners are not modelled.
- The HTTP download and the tar extraction are reduced to a success flag each. The temporary path derived with `urlparse`/`os.path.basename` is not modelled.
- ops framework internals are not modelled: event dispatch itself, `StoredState` persistence, `emit`, and `get_binding`. The bind address is an input. A failing handler's partial changes are kept in the model's state. Whether the framework persists them is not modelled.
- Logging is not modelled, and neither is `_munged_name` of `MySqlShared`, which is computed but never used.
- Config values are modelled as strings. Python truthiness is modelled as "not the empty string" for config values and unit data.
- Charm.DrupalCharm.ConfigureCharm: the intermediate Maintenance statuses are set as the code does, but the contract, like every `Lifecycle` function, states only the status the handler leaves behind.
- MySqlShared.MySqlShared.Configure: the Python default `hostname=None` is not a default here; a caller passes `None` explicitly.
