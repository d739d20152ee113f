/**
 * What the shared-db relation handlers and the event table guarantee,
 * stated over the functions of module Lifecycle.
 */
module RelationProperties {
  import opened Wrappers
  import opened Lifecycle
  import opened LifecycleProperties

  // ---------------------------------------------------------------- relation-joined

  /** Relation k (in iteration order) gets database, username and hostname written, in that order. */
  lemma {:induction false} JoinedWritesAt(n: nat, appName: string, bindAddress: string, k: nat)
    requires k < n
    ensures 3 * k + 3 <= |JoinedWrites(n, appName, bindAddress)|
    ensures JoinedWrites(n, appName, bindAddress)[3 * k .. 3 * k + 3] ==
              [RelationSet(k, "database", appName), RelationSet(k, "username", appName),
               RelationSet(k, "hostname", bindAddress)]
  {
    var prev := JoinedWrites(n - 1, appName, bindAddress);
    var last := [RelationSet(n - 1, "database", appName), RelationSet(n - 1, "username", appName),
                 RelationSet(n - 1, "hostname", bindAddress)];
    assert JoinedWrites(n, appName, bindAddress) == prev + last;
    if k < n - 1 {
      JoinedWritesAt(n - 1, appName, bindAddress, k);
      assert (prev + last)[3 * k .. 3 * k + 3] == prev[3 * k .. 3 * k + 3];
    } else {
      assert (prev + last)[3 * k .. 3 * k + 3] == last;
    }
  }

  /** Every write of relation-joined goes to one of the current relations, under one of the three keys. */
  lemma {:induction false} JoinedWritesOnly(n: nat, appName: string, bindAddress: string)
    ensures forall e :: e in JoinedWrites(n, appName, bindAddress) ==>
              e.RelationSet? && e.relation < n
              && ((e.key == "database" && e.value == appName) || (e.key == "username" && e.value == appName)
                  || (e.key == "hostname" && e.value == bindAddress))
  {
    if n > 0 {
      JoinedWritesOnly(n - 1, appName, bindAddress);
    }
  }

  /**
   * relation-joined records the application name as database and user name,
   * touches nothing else of the stored state or the status, publishes the
   * three values on every relation and cannot fail.
   */
  lemma JoinedPublishesOnEveryRelation(s: Stored, status: Status, appName: string, bindAddress: string,
                                       relations: Relations)
    ensures var r := OnJoined(s, status, appName, bindAddress, relations);
            && r.crash == None && r.status == status
            && r.stored == s.(dbData := s.dbData.(database := Some(appName), username := Some(appName)))
            && |r.effects| == 3 * |relations|
            && forall k :: 0 <= k < |relations| ==>
                 r.effects[3 * k .. 3 * k + 3] ==
                   [RelationSet(k, "database", appName), RelationSet(k, "username", appName),
                    RelationSet(k, "hostname", bindAddress)]
  {
    forall k | 0 <= k < |relations|
      ensures JoinedWrites(|relations|, appName, bindAddress)[3 * k .. 3 * k + 3] ==
                [RelationSet(k, "database", appName), RelationSet(k, "username", appName),
                 RelationSet(k, "hostname", bindAddress)]
    {
      JoinedWritesAt(|relations|, appName, bindAddress, k);
    }
  }

  // ---------------------------------------------------------------- peer selection

  /** Scanning a then b: a complete unit of b wins, otherwise the last complete unit of a. */
  lemma {:induction false} LastCompleteConcat(a: seq<UnitData>, b: seq<UnitData>)
    ensures LastComplete(a + b) == if LastComplete(b).Some? then LastComplete(b) else LastComplete(a)
    decreases |b|
  {
    if b == [] {
      assert a + b == a;
    } else {
      var b' := b[..|b| - 1];
      var u := b[|b| - 1];
      assert b == b' + [u];
      assert a + b == (a + b') + [u];
      LastCompleteSnoc(a + b', u);
      LastCompleteSnoc(b', u);
      LastCompleteConcat(a, b');
    }
  }

  /** A complete unit of a later relation overrides the first relation's own choice. */
  lemma LaterRelationWins(first: seq<UnitData>, rest: Relations)
    ensures LastComplete(Flatten([first] + rest)) ==
              if LastComplete(Flatten(rest)).Some? then LastComplete(Flatten(rest)) else LastComplete(first)
  {
    FlattenCons(first, rest);
    LastCompleteConcat(first, Flatten(rest));
  }

  lemma {:induction false} FlattenCons(first: seq<UnitData>, rest: Relations)
    ensures Flatten([first] + rest) == first + Flatten(rest)
    decreases |rest|
  {
    if rest == [] {
      assert [first] + rest == [first];
      assert Flatten([first]) == Flatten([]) + first;
      assert [] + first == first + [];
    } else {
      var rs := [first] + rest;
      var init := rest[..|rest| - 1];
      assert rs[..|rs| - 1] == [first] + init;
      FlattenCons(first, init);
      assert Flatten(rs) == (first + Flatten(init)) + rest[|rest| - 1];
      assert Flatten(rest) == Flatten(init) + rest[|rest| - 1];
      assert (first + Flatten(init)) + rest[|rest| - 1] == first + (Flatten(init) + rest[|rest| - 1]);
    }
  }

  /** An incomplete unit: one value missing, the other present. */
  const HostOnly: UnitData := map["db_host" := "10.0.0.5"]
  /** Complete units: both values present and non-empty. */
  const PeerA: UnitData := map["db_host" := "10.0.0.5", "password" := "alpha"]
  const PeerB: UnitData := map["db_host" := "10.0.0.6", "password" := "beta"]
  /** A unit whose password is present but empty, which the truthiness test rejects. */
  const EmptyPassword: UnitData := map["db_host" := "10.0.0.7", "password" := ""]

  /** An incomplete first unit is skipped in favour of a complete second one. */
  lemma SecondUnitSelected()
    ensures LastComplete([HostOnly, PeerA]) == Some(Credentials("10.0.0.5", "alpha"))
  {
    assert Complete(PeerA);
  }

  /** Of two complete units the later one wins, even across relations, and an empty password does not count. */
  lemma LastCompleteUnitSelected()
    ensures ChangedDbData(NoDbData, [[PeerA], [PeerB, EmptyPassword]])
              == NoDbData.(dbHost := Some("10.0.0.6"), password := Some("beta"))
  {
    var rels: Relations := [[PeerA], [PeerB, EmptyPassword]];
    assert rels[..1] == [[PeerA]];
    assert Flatten([[PeerA]]) == [PeerA] by {
      assert [[PeerA]][..0] == [];
    }
    assert Flatten(rels) == [PeerA] + [PeerB, EmptyPassword];
    assert [PeerA] + [PeerB, EmptyPassword] == [PeerA, PeerB, EmptyPassword];
    assert !Complete(EmptyPassword) && Complete(PeerB);
    LastCompleteSnoc([PeerA, PeerB], EmptyPassword);
    LastCompleteSnoc([PeerA], PeerB);
    assert [PeerA] + [PeerB] == [PeerA, PeerB];
    assert [PeerA, PeerB] + [EmptyPassword] == [PeerA, PeerB, EmptyPassword];
  }

  // ---------------------------------------------------------------- relation-changed

  /**
   * The credential record relation-changed stores: database and user name
   * kept, host and password from the last complete provider unit when there
   * is one, everything kept otherwise.
   */
  lemma ChangedDbDataFromLastComplete(d: DbData, relations: Relations)
    ensures var r := ChangedDbData(d, relations);
            var units := Flatten(relations);
            && r.database == d.database && r.username == d.username
            && ((forall k :: 0 <= k < |units| ==> !Complete(units[k])) ==> r == d)
            && forall k :: LastCompleteAt(units, k) ==>
                 r.dbHost == Some(units[k]["db_host"]) && r.password == Some(units[k]["password"])
  {
    var units := Flatten(relations);
    var r := ChangedDbData(d, relations);
    forall k | LastCompleteAt(units, k)
      ensures r.dbHost == Some(units[k]["db_host"]) && r.password == Some(units[k]["password"])
    {
      LastCompleteAtSelected(units, k);
      var c := CredentialsOf(units[k]);
      assert r == d.(dbHost := Some(c.dbHost), password := Some(c.password));
    }
    if forall k :: 0 <= k < |units| ==> !Complete(units[k]) {
      assert LastComplete(units).None?;
    }
  }

  /** The unit LastCompleteAt names is the one whose credentials LastComplete returns. */
  lemma {:induction false} LastCompleteAtSelected(units: seq<UnitData>, k: int)
    requires LastCompleteAt(units, k)
    ensures LastComplete(units) == Some(CredentialsOf(units[k]))
    decreases |units|
  {
    if k < |units| - 1 {
      var init := units[..|units| - 1];
      assert !Complete(units[|units| - 1]);
      assert LastCompleteAt(init, k);
      LastCompleteAtSelected(init, k);
    }
  }

  /**
   * relation-changed marks the database connected, stores that record and
   * then runs a configure pass over the new state, which keeps both.
   */
  lemma ChangedStoresCredentials(s: Stored, status: Status, relations: Relations, cfg: Config, w: World)
    ensures var r := OnChanged(s, status, relations, cfg, w);
            var units := Flatten(relations);
            && r.stored.dbConnected
            && r.stored.dbData.database == s.dbData.database
            && r.stored.dbData.username == s.dbData.username
            && ((forall k :: 0 <= k < |units| ==> !Complete(units[k])) ==> r.stored.dbData == s.dbData)
            && forall k :: LastCompleteAt(units, k) ==>
                 r.stored.dbData.dbHost == Some(units[k]["db_host"])
                 && r.stored.dbData.password == Some(units[k]["password"])
  {
    var d := ChangedDbData(s.dbData, relations);
    var r := Configure(s.(dbConnected := true, dbData := d), status, cfg, w);
    assert r.stored.dbData == d && r.stored.dbConnected;
    ChangedDbDataFromLastComplete(s.dbData, relations);
  }

  /** With a valid config and a successful pass, relation-changed always ends Active. */
  lemma ChangedEndsActive(s: Stored, status: Status, relations: Relations, cfg: Config, w: World)
    requires ValidateConfig(cfg, RequiredJujuConfig).Accepted?
    requires OnChanged(s, status, relations, cfg, w).crash.None?
    ensures OnChanged(s, status, relations, cfg, w).status == Active(UnitReady)
  {
    CompletedConfigureTrace(s.(dbConnected := true, dbData := ChangedDbData(s.dbData, relations)), status, cfg, w);
  }

  /**
   * relation-changed with no provider unit publishing both values still marks
   * the database connected: after a departure (which cleared the credentials)
   * the unit goes Active and renders settings.local.php with no host and no
   * password.
   */
  lemma ConnectedWithoutCredentials(s: Stored, status: Status, relations: Relations, cfg: Config, w: World)
    requires ValidateConfig(cfg, RequiredJujuConfig).Accepted?
    requires LastComplete(Flatten(relations)).None?
    requires OnChanged(s.(dbConnected := false, dbData := NoDbData), status, relations, cfg, w).crash.None?
    ensures "site-name" in cfg && "settings-directory" in cfg
    ensures var r := OnChanged(s.(dbConnected := false, dbData := NoDbData), status, relations, cfg, w);
            && r.status == Active(UnitReady) && r.stored.dbConnected && r.stored.dbData == NoDbData
            && LocalSettingsRender(SettingsDir(cfg["site-name"], cfg["settings-directory"]), NoDbData) in r.effects
  {
    var s1 := s.(dbConnected := true, dbData := NoDbData);
    assert ChangedDbData(NoDbData, relations) == NoDbData;
    assert OnChanged(s.(dbConnected := false, dbData := NoDbData), status, relations, cfg, w) == Configure(s1, status, cfg, w);
    LocalSettingsRenderedOnlyWhenConnected(s1, status, cfg, w);
    CompletedConfigureTrace(s1, status, cfg, w);
  }

  // ---------------------------------------------------------------- relation-departed / broken

  /**
   * relation-departed clears the connection flag and all four credential
   * values, and the pass it runs renders no settings file; when it completes
   * the unit is blocked waiting for the database.
   */
  lemma DepartedForgetsDatabase(s: Stored, status: Status, cfg: Config, w: World)
    ensures var r := OnDeparted(s, status, cfg, w);
            && !r.stored.dbConnected && r.stored.dbData == NoDbData
            && (ValidateConfig(cfg, RequiredJujuConfig).Accepted? && r.crash.None? ==>
                  r.status == Blocked(WaitingForDb)
                  && RenderCount(r.effects, "settings.local.php.j2") == 0
                  && RenderCount(r.effects, "settings.php.j2") == 0)
  {
    var s1 := s.(dbConnected := false, dbData := NoDbData);
    if ValidateConfig(cfg, RequiredJujuConfig).Accepted? && Configure(s1, status, cfg, w).crash.None? {
      CompletedConfigureTrace(s1, status, cfg, w);
      LocalSettingsRenderedOnlyWhenConnected(s1, status, cfg, w);
    }
  }

  // ---------------------------------------------------------------- the event table

  /** relation-broken is observed by the departed handler, so the two events do the same. */
  lemma BrokenIsDeparted(s: Stored, status: Status, appName: string, ctx: Context)
    ensures Handle(s, status, appName, SharedDbBroken, ctx) == Handle(s, status, appName, SharedDbDeparted, ctx)
  {
  }

  /** start and config-changed are both observed by configure_charm. */
  lemma StartIsConfigChanged(s: Stored, status: Status, appName: string, ctx: Context)
    ensures Handle(s, status, appName, Start, ctx) == Handle(s, status, appName, ConfigChanged, ctx)
  {
  }

  /** The install hook repeats the apt work even on an installed unit: it does not consult the flag. */
  lemma InstallIgnoresFlag(s: Stored, status: Status, appName: string, ctx: Context)
    requires s.installed
    ensures var r := Handle(s, status, appName, Install, ctx);
            r.effects == InstallEffects() && r.stored == s && r.status == Maintenance("Waiting for configuration")
  {
  }

  // ---------------------------------------------------------------- a deployment, end to end

  /** Assumptions of the deployment scenario: a complete config and a machine on which nothing fails. */
  predicate Deployable(ctx: Context)
  {
    && "site-name" in ctx.config && ctx.config["site-name"] != ""
    && "settings-directory" in ctx.config && "drupal-url" in ctx.config
    && ctx.world.downloadOk && ctx.world.extractOk && ctx.world.enableModuleOk
  }

  /**
   * The provider unit of the scenario: unit `ui` of relation `ri` publishes
   * both a host and a password, and no unit after it, in its own relation or
   * in a later one, publishes both.
   */
  predicate ProviderPublishes(relations: Relations, ri: int, ui: int, c: Credentials)
  {
    && 0 <= ri < |relations| && 0 <= ui < |relations[ri]|
    && Complete(relations[ri][ui]) && CredentialsOf(relations[ri][ui]) == c
    && (forall j :: ui < j < |relations[ri]| ==> !Complete(relations[ri][j]))
    && (forall r, j :: ri < r < |relations| && 0 <= j < |relations[r]| ==> !Complete(relations[r][j]))
  }

  /** That provider's credentials are the ones relation-changed selects. */
  lemma ProviderSelected(relations: Relations, ri: int, ui: int, c: Credentials)
    requires ProviderPublishes(relations, ri, ui, c)
    ensures LastComplete(Flatten(relations)) == Some(c)
  {
    ProviderSelectedUpTo(relations, ri, ui, c, |relations|);
    assert relations[..|relations|] == relations;
  }

  /** The provider stays selected as the relations after its own are scanned. */
  lemma {:induction false} ProviderSelectedUpTo(relations: Relations, ri: int, ui: int, c: Credentials, n: int)
    requires ProviderPublishes(relations, ri, ui, c) && ri < n <= |relations|
    ensures LastComplete(Flatten(relations[..n])) == Some(c)
    decreases n
  {
    FlattenSnoc(relations, n - 1);
    LastCompleteConcat(Flatten(relations[..n - 1]), relations[n - 1]);
    if n == ri + 1 {
      assert LastCompleteAt(relations[ri], ui);
      LastCompleteAtSelected(relations[ri], ui);
    } else {
      assert LastComplete(relations[n - 1]).None?;
      ProviderSelectedUpTo(relations, ri, ui, c, n - 1);
    }
  }

  /** install then config-changed on a fresh unit: installed, built, and blocked waiting for the database. */
  lemma FreshUnitWaitsForDatabase(appName: string, ctx: Context)
    requires Deployable(ctx)
    ensures var r1 := Handle(InitialStored, Unknown, appName, Install, ctx);
            var r2 := Handle(r1.stored, r1.status, appName, ConfigChanged, ctx);
            && r1.crash.None? && r2.crash.None?
            && r2.status == Blocked(WaitingForDb) && r2.stored == Stored(true, true, false, NoDbData)
  {
    var cfg, w := ctx.config, ctx.world;
    CheckJujuConfigOutcomes(cfg);
    var r1 := Handle(InitialStored, Unknown, appName, Install, ctx);
    assert r1 == InstallPackages(InitialStored);
    ConfigureCompletesIff(r1.stored, r1.status, cfg, w);
    CompletedConfigureTrace(r1.stored, r1.status, cfg, w);
  }

  /**
   * relation-changed on a built unit that has joined, with a provider unit
   * publishing credentials: Active, those credentials stored and rendered
   * into settings.local.php exactly once, and nothing installed or downloaded.
   */
  lemma ProviderCredentialsActivate(appName: string, status: Status, ctx: Context, ri: int, ui: int, c: Credentials)
    requires Deployable(ctx)
    requires ProviderPublishes(ctx.relations, ri, ui, c)
    ensures var joined := Stored(true, true, false, NoDbData.(database := Some(appName), username := Some(appName)));
            var r := Handle(joined, status, appName, SharedDbChanged, ctx);
            var creds := NoDbData.(database := Some(appName), username := Some(appName), dbHost := Some(c.dbHost), password := Some(c.password));
            && r.crash.None? && r.status == Active(UnitReady) && r.stored == Stored(true, true, true, creds)
            && RenderCount(r.effects, "settings.local.php.j2") == 1
            && LocalSettingsRender(SettingsDir(ctx.config["site-name"], ctx.config["settings-directory"]), creds) in r.effects
            && forall e :: e in r.effects ==> !Provisions(e)
  {
    var cfg, w := ctx.config, ctx.world;
    CheckJujuConfigOutcomes(cfg);
    var joined := Stored(true, true, false, NoDbData.(database := Some(appName), username := Some(appName)));
    var creds := NoDbData.(database := Some(appName), username := Some(appName), dbHost := Some(c.dbHost), password := Some(c.password));
    var s1 := Stored(true, true, true, creds);
    ProviderSelected(ctx.relations, ri, ui, c);
    assert ChangedDbData(joined.dbData, ctx.relations) == creds;
    assert Handle(joined, status, appName, SharedDbChanged, ctx) == Configure(s1, status, cfg, w);
    ConfigureCompletesIff(s1, status, cfg, w);
    CompletedConfigureTrace(s1, status, cfg, w);
    LocalSettingsRenderedOnlyWhenConnected(s1, status, cfg, w);
    ProvisionedUnitProvisionsNothing(s1, status, cfg, w);
  }

  /**
   * A fresh unit with a complete config: install, config-changed (blocked
   * waiting for the database), relation-joined, then relation-changed with a
   * provider unit publishing credentials. The unit ends Active with those
   * credentials stored and rendered into settings.local.php exactly once, and
   * the last pass installs and downloads nothing.
   */
  lemma DeploymentReachesActive(appName: string, ctx: Context, ri: int, ui: int, c: Credentials)
    requires Deployable(ctx)
    requires ProviderPublishes(ctx.relations, ri, ui, c)
    ensures var r1 := Handle(InitialStored, Unknown, appName, Install, ctx);
            var r2 := Handle(r1.stored, r1.status, appName, ConfigChanged, ctx);
            var r3 := Handle(r2.stored, r2.status, appName, SharedDbJoined, ctx);
            var r4 := Handle(r3.stored, r3.status, appName, SharedDbChanged, ctx);
            var creds := NoDbData.(database := Some(appName), username := Some(appName), dbHost := Some(c.dbHost), password := Some(c.password));
            && r2.status == Blocked(WaitingForDb) && r3.status == Blocked(WaitingForDb)
            && r4.crash.None? && r4.status == Active(UnitReady) && r4.stored == Stored(true, true, true, creds)
            && RenderCount(r4.effects, "settings.local.php.j2") == 1
            && LocalSettingsRender(SettingsDir(ctx.config["site-name"], ctx.config["settings-directory"]), creds) in r4.effects
  {
    FreshUnitWaitsForDatabase(appName, ctx);
    var r1 := Handle(InitialStored, Unknown, appName, Install, ctx);
    var r2 := Handle(r1.stored, r1.status, appName, ConfigChanged, ctx);
    JoinedPublishesOnEveryRelation(r2.stored, r2.status, appName, ctx.bindAddress, ctx.relations);
    var r3 := Handle(r2.stored, r2.status, appName, SharedDbJoined, ctx);
    assert r3.stored == Stored(true, true, false, NoDbData.(database := Some(appName), username := Some(appName)));
    ProviderCredentialsActivate(appName, r3.status, ctx, ri, ui, c);
  }
}
