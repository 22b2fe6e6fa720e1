/**
 * Two whole invocations of `pulsar-admin`, followed from the argument vector to the
 * outcome of `run`.
 */
module Scenarios {
  import opened Wrappers
  import opened JavaLang
  import opened AdminConfig
  import opened Commands
  import opened Dispatch
  import opened AdminTool

  /** The arguments of the first invocation: a global `--admin-url` and `tenants list`. */
  const TenantsArgs: seq<string> := ["cfg.properties", "--admin-url", "http://x:8080", "tenants", "list"]

  /** The arguments of the second invocation: `functions localrun` with its own flags. */
  const LocalRunArgs: seq<string> := ["cfg.properties", "functions", "localrun", "--name", "f1"]

  /** The first invocation with any table that has `tenants` and neither flag token. */
  lemma AdminUrlThenTenantsOn(cm: map<string, CommandClass>, props: Properties, authenticates: AuthCheck,
                              build: BuilderSettings -> Option<AdminHandle>, parse: FlagParser,
                              runHandler: HandlerRunner)
    requires WellFormed(cm) && "tenants" in cm && "--admin-url" !in cm && "http://x:8080" !in cm
    requires parse(["--admin-url", "http://x:8080"]) == Parsed(NoAssignments.(adminUrl := Some("http://x:8080")))
    ensures var opts := ConstructedOptions(props);
      var builder := ConstructedBuilder(props, opts);
      var settings := FactoryInput(opts, builder, cm.Keys, TenantsArgs[1..], parse);
      && GlobalArgs(TenantsArgs[1..], cm.Keys) == ["--admin-url", "http://x:8080"]
      && !IsLocalRun(TenantsArgs, cm.Keys)
      && Decide(opts, cm.Keys, TenantsArgs[1..], parse) == Dispatch("tenants", ["list"])
      && settings.serviceHttpUrl == Some("http://x:8080")
      && MainDefinedOn(cm, opts, builder, TenantsArgs, authenticates, build, parse)
      && MainRunOn(cm, opts, builder, TenantsArgs, authenticates, build, parse, runHandler)
         == (if !authenticates(GetProperty(props, "authPlugin"), GetProperty(props, "authParams")) then Exited
             else match build(settings)
             case None => Exited
             case Some(a) => Completed(runHandler(Handler(cm["tenants"], Some(a)), ["list"])))
  {
    var keys := cm.Keys;
    var runArgs := TenantsArgs[1..];
    assert runArgs[0] !in keys && runArgs[1] !in keys && runArgs[2] in keys;
    CommandPositionUnique(runArgs, keys, 0, 2);
    assert runArgs[..2] == ["--admin-url", "http://x:8080"];
    CommandPositionShift(TenantsArgs, keys, 0);
    assert TenantsArgs[4] != "localrun";
    var opts := ConstructedOptions(props);
    NotLocalRunIsDefined(cm, opts, ConstructedBuilder(props, opts), TenantsArgs, authenticates, build, parse);
  }

  /** `--admin-url http://x:8080 tenants list`: the flags before `tenants` are the global
      ones, `tenants` gets `list`, the client is built for the given URL whatever the
      properties say, and the tenants handler runs with that client; a refused
      authentication plugin or a failed build ends the process with status 1. */
  lemma AdminUrlThenTenants(props: Properties, authenticates: AuthCheck,
                            build: BuilderSettings -> Option<AdminHandle>,
                            parse: FlagParser, runHandler: HandlerRunner)
    requires parse(["--admin-url", "http://x:8080"]) == Parsed(NoAssignments.(adminUrl := Some("http://x:8080")))
    ensures var keys := CommandTable().Keys;
      var opts := ConstructedOptions(props);
      var settings := FactoryInput(opts, ConstructedBuilder(props, opts), keys, TenantsArgs[1..], parse);
      && GlobalArgs(TenantsArgs[1..], keys) == ["--admin-url", "http://x:8080"]
      && Decide(opts, keys, TenantsArgs[1..], parse) == Dispatch("tenants", ["list"])
      && settings.serviceHttpUrl == Some("http://x:8080")
      && MainDefined(TenantsArgs, props, authenticates, build, parse)
      && MainRun(TenantsArgs, props, authenticates, build, parse, runHandler)
         == (if !authenticates(GetProperty(props, "authPlugin"), GetProperty(props, "authParams")) then Exited
             else match build(settings)
             case None => Exited
             case Some(a) => Completed(runHandler(Handler(CmdTenants, Some(a)), ["list"])))
  {
    var cm := CommandTable();
    CommandTableWellFormed();
    AdminUrlThenTenantsOn(cm, props, authenticates, build, parse, runHandler);
  }

  /** The second invocation with any table that has `functions`. */
  lemma FunctionsLocalRunOn(cm: map<string, CommandClass>, props: Properties, authenticates: AuthCheck,
                            build: BuilderSettings -> Option<AdminHandle>, parse: FlagParser,
                            runHandler: HandlerRunner)
    requires WellFormed(cm) && "functions" in cm
    requires parse([]) == Parsed(NoAssignments)
    ensures var opts := ConstructedOptions(props);
      var builder := ConstructedBuilder(props, opts);
      && IsLocalRun(LocalRunArgs, cm.Keys)
      && MainDefinedOn(cm, opts, builder, LocalRunArgs, authenticates, build, parse)
      && MainRunOn(cm, opts, builder, LocalRunArgs, authenticates, build, parse, runHandler)
         == (if authenticates(GetProperty(props, "authPlugin"), GetProperty(props, "authParams"))
             then Completed(runHandler(Handler(cm["functions"], None), ["localrun", "--name", "f1"]))
             else Exited)
  {
    var keys := cm.Keys;
    var runArgs := LocalRunArgs[1..];
    assert runArgs[0] in keys;
    CommandPositionUnique(runArgs, keys, 0, 0);
    CommandPositionShift(LocalRunArgs, keys, 0);
    assert runArgs[..0] == [];
    ApplyNothing(ConstructedOptions(props));
    assert IsRegistered(CanonicalName("functions"), None);
    assert "functions" in RegisteredNames(keys, None);
  }

  /** `functions localrun --name f1`: local-run mode is chosen, nothing is built, and the
      functions handler runs without a client on everything after `functions`, unless
      the authentication plugin from the properties is refused. */
  lemma FunctionsLocalRun(props: Properties, authenticates: AuthCheck, build: BuilderSettings -> Option<AdminHandle>,
                          parse: FlagParser, runHandler: HandlerRunner)
    requires parse([]) == Parsed(NoAssignments)
    ensures IsLocalRun(LocalRunArgs, CommandTable().Keys)
    ensures MainDefined(LocalRunArgs, props, authenticates, build, parse)
    ensures MainRun(LocalRunArgs, props, authenticates, build, parse, runHandler)
            == (if authenticates(GetProperty(props, "authPlugin"), GetProperty(props, "authParams"))
                then Completed(runHandler(Handler(CmdFunctions, None), ["localrun", "--name", "f1"]))
                else Exited)
  {
    var cm := CommandTable();
    CommandTableWellFormed();
    assert cm["functions"] == CmdFunctions;
    FunctionsLocalRunOn(cm, props, authenticates, build, parse, runHandler);
  }
}
