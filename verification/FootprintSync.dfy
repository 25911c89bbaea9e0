/** Syncing every connection in turn under a configuration of its own. */
module FootprintSync {
  import opened ConfigMerge
  import opened Options

  datatype Connection = Connection(id: string, provider: string, accountId: string, externalId: string)

  /** How a run ends: with the number of records or, if it throws, with none, and with whatever it has
      made of the global configuration. */
  datatype Ran = Ran(records: Option<nat>, config: Json)

  /** Estimating for a connection, starting from the global configuration. */
  type App = (Json, string) -> Ran

  class GlobalConfig {
    var config: Json

    constructor (config: Json)
      ensures this.config == config
    {
      this.config := config;
    }
  }

  const TRUE := Leaf("true")
  const FALSE := Leaf("false")

  function OverrideFor(c: Connection): Json {
    if c.provider == "AWS" && c.accountId != "" then
      Object(map["AWS" := Object(map[
        "INCLUDE_ESTIMATES" := TRUE,
        "INCLUDE_EMBODIED_METRICS" := TRUE,
        "INCLUDE_OPERATIONAL_METRICS" := TRUE,
        "USE_BILLING_DATA" := FALSE,
        "accounts" := Array([Object(map["id" := Leaf(c.accountId)])]),
        "authentication" := Object(map[
          "mode" := Leaf("AWS"),
          "options" := Object(if c.externalId != "" then map["externalId" := Leaf(c.externalId)] else map[])])])])
    else Object(map[])
  }

  /** What syncing one connection comes to, starting from the default configuration. */
  function Outcome(c: Connection, config: Json, app: App): Option<nat>
    requires config.Object?
  {
    app(DeepMerge(config, OverrideFor(c)), c.id).records
  }

  /** Sets the merged configuration, runs, and sets the default again, whether or not the run throws and
      whatever it has set. */
  method SyncCloudConnectionFootprint(global: GlobalConfig, id: string, overrideConfig: Json, app: App)
    returns (records: Option<nat>)
    requires global.config.Object? && overrideConfig.Object?
    modifies global
    ensures global.config == old(global.config)
    ensures records == app(DeepMerge(old(global.config), overrideConfig), id).records
  {
    var defaultConfig := global.config;
    var merged := DeepMergeInto(defaultConfig, overrideConfig);
    global.config := merged;
    var ran := app(global.config, id);
    global.config := ran.config;
    records := ran.records;
    global.config := defaultConfig;
  }

  datatype Report = Report(totalRecordsSaved: nat, totalConnectionsProcessed: nat, failed: seq<string>)

  function AddOutcome(r: Report, c: Connection, outcome: Option<nat>): Report {
    match outcome
    case Some(n) => r.(totalRecordsSaved := r.totalRecordsSaved + n,
                       totalConnectionsProcessed := r.totalConnectionsProcessed + 1)
    case None => r.(failed := r.failed + [c.id])
  }

  function ReportOf(cs: seq<Connection>, config: Json, app: App): Report
    requires config.Object?
  {
    if cs == [] then Report(0, 0, [])
    else
      var c := cs[|cs| - 1];
      AddOutcome(ReportOf(cs[..|cs| - 1], config, app), c, Outcome(c, config, app))
  }

  /** Each connection is synced under the default configuration with its own override, whatever the
      ones before it did. */
  method SyncAllCloudFootprints(global: GlobalConfig, connections: seq<Connection>, app: App) returns (report: Report)
    requires global.config.Object?
    modifies global
    ensures global.config == old(global.config)
    ensures report == ReportOf(connections, old(global.config), app)
  {
    report := Report(0, 0, []);
    for i := 0 to |connections|
      invariant global.config == old(global.config)
      invariant report == ReportOf(connections[..i], old(global.config), app)
    {
      var c := connections[i];
      assert connections[..i + 1][..i] == connections[..i];
      var records := SyncCloudConnectionFootprint(global, c.id, OverrideFor(c), app);
      if records.Some? {
        report := report.(totalRecordsSaved := report.totalRecordsSaved + records.value,
                          totalConnectionsProcessed := report.totalConnectionsProcessed + 1);
      } else {
        report := report.(failed := report.failed + [c.id]);
      }
    }
    assert connections[..|connections|] == connections;
  }

  // ----- What is reported -----

  /** What the connections that did not throw have saved. */
  function RecordsSaved(cs: seq<Connection>, config: Json, app: App): nat
    requires config.Object?
  {
    if cs == [] then 0
    else
      var ran := app(DeepMerge(config, OverrideFor(cs[0])), cs[0].id);
      (if ran.records.Some? then ran.records.value else 0) + RecordsSaved(cs[1..], config, app)
  }

  /** The connections that threw, in order. */
  function Throwing(cs: seq<Connection>, config: Json, app: App): seq<string>
    requires config.Object?
  {
    if cs == [] then []
    else
      var ran := app(DeepMerge(config, OverrideFor(cs[0])), cs[0].id);
      (if ran.records.None? then [cs[0].id] else []) + Throwing(cs[1..], config, app)
  }

  lemma {:induction false} SavedAppend(cs: seq<Connection>, c: Connection, config: Json, app: App)
    requires config.Object?
    ensures RecordsSaved(cs + [c], config, app)
            == RecordsSaved(cs, config, app) + Outcome(c, config, app).GetOr(0)
  {
    if cs == [] {
      assert [c][1..] == [];
    } else {
      SavedAppend(cs[1..], c, config, app);
      assert (cs + [c])[1..] == cs[1..] + [c];
    }
  }

  lemma {:induction false} ThrowingAppend(cs: seq<Connection>, c: Connection, config: Json, app: App)
    requires config.Object?
    ensures Throwing(cs + [c], config, app)
            == Throwing(cs, config, app) + if Outcome(c, config, app).None? then [c.id] else []
  {
    if cs == [] {
      assert [c][1..] == [];
    } else {
      ThrowingAppend(cs[1..], c, config, app);
      assert (cs + [c])[1..] == cs[1..] + [c];
    }
  }

  /** Each connection counts once: those that threw are listed, in order, and nobody else is; the others
      are counted, and their records are added up. */
  lemma {:induction false} EveryConnectionIsReported(cs: seq<Connection>, config: Json, app: App)
    requires config.Object?
    ensures var r := ReportOf(cs, config, app);
            && r.totalRecordsSaved == RecordsSaved(cs, config, app)
            && r.failed == Throwing(cs, config, app)
            && r.totalConnectionsProcessed + |r.failed| == |cs|
  {
    if cs == [] {
    } else {
      var front, c := cs[..|cs| - 1], cs[|cs| - 1];
      EveryConnectionIsReported(front, config, app);
      SavedAppend(front, c, config, app);
      ThrowingAppend(front, c, config, app);
      assert cs == front + [c];
    }
  }

  // ----- What the app finds in its configuration -----

  lemma AlongTwo(j: Json, key: string, key': string)
    ensures At(j, [key, key']) == Field(Field(j, key), key')
    ensures j.Object? && Field(j, key).Object? ==> !Blocked(j, [key, key'])
  {
    var path := [key, key'];
    assert path[1..] == [key'] && [key'][1..] == [];
    assert At(Field(j, key), [key']) == At(Field(Field(j, key), key'), []);
    assert Blocked(Field(j, key), [key']) ==> !Field(j, key).Object? || Blocked(Field(Field(j, key), key'), []);
  }

  /** A setting of the override that is not an object is what the app finds, whatever the default says;
      one that is not in the override is as in the default. */
  lemma SettingAt(config: Json, override: Json, section: string, key: string)
    requires config.Object? && override.Object? && Field(override, section).Object?
    requires !Field(Field(override, section), key).Object?
    ensures var value := Field(Field(override, section), key);
            At(DeepMerge(config, override), [section, key])
            == if value.Undefined? then At(config, [section, key]) else value
  {
    AlongTwo(override, section, key);
    MergeByPath(config, override, [section, key]);
  }

  const OVERRIDDEN := {"INCLUDE_ESTIMATES", "INCLUDE_EMBODIED_METRICS", "INCLUDE_OPERATIONAL_METRICS",
                       "USE_BILLING_DATA", "accounts", "authentication"}

  /** What the app finds for a setting of AWS. */
  function Setting(c: Connection, config: Json, key: string): Json
    requires config.Object?
  {
    At(DeepMerge(config, OverrideFor(c)), ["AWS", key])
  }

  lemma OverriddenSetting(c: Connection, config: Json, key: string, value: Json)
    requires config.Object? && c.provider == "AWS" && c.accountId != ""
    requires Field(Field(OverrideFor(c), "AWS"), key) == value && !value.Object? && !value.Undefined?
    ensures Setting(c, config, key) == value
  {
    SettingAt(config, OverrideFor(c), "AWS", key);
  }

  /** The estimates of an AWS connection are made with its own account, estimates and both kinds of
      metrics and without billing data, whatever the default says. */
  lemma OverrideReachesTheApp(c: Connection, config: Json)
    requires config.Object? && c.provider == "AWS" && c.accountId != ""
    ensures Setting(c, config, "accounts") == Array([Object(map["id" := Leaf(c.accountId)])])
    ensures Setting(c, config, "USE_BILLING_DATA") == Leaf("false")
    ensures Setting(c, config, "INCLUDE_ESTIMATES") == Leaf("true")
    ensures Setting(c, config, "INCLUDE_EMBODIED_METRICS") == Leaf("true")
    ensures Setting(c, config, "INCLUDE_OPERATIONAL_METRICS") == Leaf("true")
  {
    OverriddenSetting(c, config, "accounts", Array([Object(map["id" := Leaf(c.accountId)])]));
    OverriddenSetting(c, config, "USE_BILLING_DATA", Leaf("false"));
    OverriddenSetting(c, config, "INCLUDE_ESTIMATES", Leaf("true"));
    OverriddenSetting(c, config, "INCLUDE_EMBODIED_METRICS", Leaf("true"));
    OverriddenSetting(c, config, "INCLUDE_OPERATIONAL_METRICS", Leaf("true"));
  }

  /** Every other setting of AWS, and every other section, is as in the default. */
  lemma TheRestIsTheDefault(c: Connection, config: Json, key: string)
    requires config.Object? && c.provider == "AWS" && c.accountId != ""
    ensures key !in OVERRIDDEN ==> Setting(c, config, key) == At(config, ["AWS", key])
    ensures key != "AWS" ==> Field(DeepMerge(config, OverrideFor(c)), key) == Field(config, key)
  {
    if key !in OVERRIDDEN {
      SettingAt(config, OverrideFor(c), "AWS", key);
    }
    FieldOfMerge(config, OverrideFor(c), key);
  }

  lemma AlongMore(j: Json, key: string, rest: seq<string>)
    ensures At(j, [key] + rest) == At(Field(j, key), rest)
    ensures j.Object? ==> (Blocked(j, [key] + rest) <==> Blocked(Field(j, key), rest))
  {
    assert ([key] + rest)[1..] == rest;
  }

  lemma DeepSettingAt(config: Json, override: Json, section: string, key: string, rest: seq<string>)
    requires config.Object? && override.Object? && Field(override, section).Object?
    ensures var value := Field(Field(override, section), key);
            var path := [section, key] + rest;
            !Blocked(value, rest) && !At(value, rest).Object? ==>
              At(DeepMerge(config, override), path)
              == if At(value, rest).Undefined? then At(config, path) else At(value, rest)
  {
    var path := [section, key] + rest;
    assert path == [section] + ([key] + rest);
    AlongMore(override, section, [key] + rest);
    AlongMore(Field(override, section), key, rest);
    MergeByPath(config, override, path);
  }

  /** It signs in in the mode of AWS, with the connection's external id if it has one. */
  lemma AuthenticationReachesTheApp(c: Connection, config: Json)
    requires config.Object? && c.provider == "AWS" && c.accountId != ""
    ensures var merged := DeepMerge(config, OverrideFor(c));
            var externalId := ["AWS", "authentication"] + ["options", "externalId"];
            && At(merged, ["AWS", "authentication"] + ["mode"]) == Leaf("AWS")
            && At(merged, externalId) == if c.externalId != "" then Leaf(c.externalId) else At(config, externalId)
  {
    var override := OverrideFor(c);
    var aws := Field(override, "AWS");
    var authentication := Field(aws, "authentication");
    DeepSettingAt(config, override, "AWS", "authentication", ["mode"]);
    AlongMore(authentication, "mode", []);
    assert ["mode"] == ["mode"] + [];
    DeepSettingAt(config, override, "AWS", "authentication", ["options", "externalId"]);
    AlongTwo(authentication, "options", "externalId");
  }

  /** Any other connection is estimated with the default configuration. */
  lemma OthersRunWithTheDefault(c: Connection, config: Json)
    requires config.Object? && !(c.provider == "AWS" && c.accountId != "")
    ensures DeepMerge(config, OverrideFor(c)) == config
  {
    MergeKeys(config, Object(map[]));
    ObjectsEqual(DeepMerge(config, Object(map[])), config);
  }
}
