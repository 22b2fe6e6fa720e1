/**
 * The `pulsar-admin` tool object: configuration fields resolved by the constructor,
 * handler registration, `run` and `main`.
 */
module AdminTool {
  import opened Wrappers
  import opened JavaLang
  import opened AdminConfig
  import opened Commands
  import opened Dispatch

  /** What the admin factory does with the builder: return a client or null, or end the
      process with status 1 because the build failed. */
  datatype FactoryOutcome = Returned(admin: Option<AdminHandle>) | ExitedWithError

  /** How `run` ends: it returns a boolean, or the process is terminated with status 1
      (every `System.exit` the tool reaches outside `main` uses 1). */
  datatype RunOutcome = Completed(success: bool) | Exited

  /** The admin factory `run` is given. */
  type AdminFactory = BuilderSettings -> FactoryOutcome

  /** The global-flag parser. */
  type FlagParser = seq<string> -> ParseResult

  /** A handler's own `run` on its arguments. */
  type HandlerRunner = (Handler, seq<string>) -> bool

  /** Whether the builder's `authentication(plugin, params)` accepts the plugin class name
      and its parameters; when it does not, it throws. */
  type AuthCheck = (Option<string>, Option<string>) -> bool

  /** The factory of `run(args)`, and of `main` outside local-run mode: build the client,
      or report the failure and exit with status 1. */
  function BuildingFactory(build: BuilderSettings -> Option<AdminHandle>): AdminFactory {
    settings =>
      match build(settings)
      case Some(a) => Returned(Some(a))
      case None => ExitedWithError
  }

  /** The setup step of `setupCommands` around a factory: the authentication is given to
      the builder first, and a plugin it refuses ends the process with status 1 before the
      factory is asked, in local-run mode too. */
  function SetupStep(authenticates: AuthCheck, factory: AdminFactory): AdminFactory {
    (settings: BuilderSettings) =>
      if authenticates(settings.authPluginClassName, settings.authParams) then factory(settings)
      else ExitedWithError
  }

  /** The factory `main` chooses: in local-run mode it returns null and builds nothing. */
  function MainFactory(localRun: bool, build: BuilderSettings -> Option<AdminHandle>): AdminFactory {
    if localRun then _ => Returned(None) else BuildingFactory(build)
  }

  /** The builder `run` hands to the factory: the URL and authentication taken from the
      flag fields after the global flags have been parsed. */
  function FactoryInput(opts: Options, builder: BuilderSettings, keys: set<string>, args: seq<string>,
                        parse: FlagParser): BuilderSettings
  {
    SetupBuilder(builder, ParsedOptions(opts, keys, args, parse))
  }

  /** The command `run` dispatches to is registered. It fails only when the factory
      returned null and the command is none of functions, sources and sinks; the source
      then dereferences a missing command. */
  ghost predicate RunDefined(opts: Options, builder: BuilderSettings, cm: map<string, CommandClass>,
                             args: seq<string>, parse: FlagParser, factory: AdminFactory)
  {
    match factory(FactoryInput(opts, builder, cm.Keys, args, parse))
    case ExitedWithError => true
    case Returned(admin) =>
      var d := Decide(opts, cm.Keys, args, parse);
      d.Dispatch? ==> d.command in RegisteredNames(cm.Keys, admin)
  }

  /** The outcome of `run`: every path sets up the handlers, so a failed build ends the
      process; otherwise usage reports the decision's status, or the registered handler
      of the dispatched command runs on the command's arguments. */
  ghost function RunResult(opts: Options, builder: BuilderSettings, cm: map<string, CommandClass>,
                           args: seq<string>, parse: FlagParser, factory: AdminFactory,
                           runHandler: HandlerRunner): RunOutcome
    requires WellFormed(cm) && RunDefined(opts, builder, cm, args, parse, factory)
  {
    match factory(FactoryInput(opts, builder, cm.Keys, args, parse))
    case ExitedWithError => Exited
    case Returned(admin) =>
      match Decide(opts, cm.Keys, args, parse)
      case ShowUsage(success) => Completed(success)
      case Dispatch(name, rest) => Completed(runHandler(RegisteredCommands(cm, admin)[name].handler, rest))
  }

  class PulsarAdminTool {
    var commandMap: map<string, CommandClass>
    var adminBuilder: BuilderSettings
    /** The commands registered with the parser, by name. */
    var commands: map<string, Command>

    // Fields the global-flag parser writes.
    var serviceUrl: Option<string>
    var authPluginClassName: Option<string>
    var authParams: Option<string>
    var tlsAllowInsecureConnection: Option<bool>
    var tlsTrustCertsFilePath: Option<string>
    var tlsEnableHostnameVerification: Option<bool>
    var help: bool

    // Key-store TLS settings, from the properties only.
    var useKeyStoreTls: bool
    var tlsTrustStoreType: string
    var tlsTrustStorePath: Option<string>
    var tlsTrustStorePassword: Option<string>

    ghost predicate Valid()
      reads this
    {
      WellFormed(commandMap)
    }

    /** The parser-written fields as one value. */
    function Flags(): Options
      reads this
    {
      Options(serviceUrl, authPluginClassName, authParams, tlsAllowInsecureConnection,
              tlsTrustCertsFilePath, tlsEnableHostnameVerification, help)
    }

    constructor (properties: Properties)
      ensures Valid() && commandMap == CommandTable() && commands == map[]
      ensures Flags() == ConstructedOptions(properties)
      ensures adminBuilder == ConstructedBuilder(properties, Flags())
      ensures useKeyStoreTls == adminBuilder.useKeyStoreTls
      ensures tlsTrustStoreType == adminBuilder.tlsTrustStoreType
      ensures tlsTrustStorePath == adminBuilder.tlsTrustStorePath
      ensures tlsTrustStorePassword == adminBuilder.tlsTrustStorePassword
    {
      // The TLS override fields are read here, before anything has been parsed,
      // so they still hold their initial null.
      var allowInsecureOverride: Option<bool> := None;
      var hostnameVerificationOverride: Option<bool> := None;
      var trustCertsOverride: Option<string> := None;
      tlsAllowInsecureConnection := allowInsecureOverride;
      tlsEnableHostnameVerification := hostnameVerificationOverride;
      tlsTrustCertsFilePath := trustCertsOverride;
      help := false;

      // Legacy `webServiceUrl` first, for backward compatibility.
      serviceUrl := ResolveServiceUrl(properties);
      authPluginClassName := GetProperty(properties, "authPlugin");
      authParams := GetProperty(properties, "authParams");
      var allowInsecure := ResolveTlsFlag(allowInsecureOverride, properties, "tlsAllowInsecureConnection");
      var hostnameVerification :=
        ResolveTlsFlag(hostnameVerificationOverride, properties, "tlsEnableHostnameVerification");
      var trustCertsFilePath := ResolveTrustCertsPath(trustCertsOverride, properties);

      var keyStoreTls := ResolveUseKeyStoreTls(properties);
      var trustStoreType := ResolveTrustStoreType(properties);
      var trustStorePath := GetProperty(properties, "tlsTrustStorePath");
      var trustStorePassword := GetProperty(properties, "tlsTrustStorePassword");
      useKeyStoreTls := keyStoreTls;
      tlsTrustStoreType := trustStoreType;
      tlsTrustStorePath := trustStorePath;
      tlsTrustStorePassword := trustStorePassword;

      adminBuilder := BuilderSettings(allowInsecure, hostnameVerification, trustCertsFilePath,
                                      keyStoreTls, trustStoreType, trustStorePath,
                                      trustStorePassword, None, None, None);

      commandMap := CommandTable();
      commands := map[];
      new;
      assert WellFormed(CommandTable()) by { CommandTableWellFormed(); }
    }

    /** Registers one table entry: sources and sinks under their plural name with the
        singular alias, functions always, every other command only with an admin client. */
    method AddCommand(key: string, cls: CommandClass, admin: Option<AdminHandle>)
      modifies this`commands
      ensures IsRegistered(CanonicalName(key), admin) ==>
        commands == old(commands)[CanonicalName(key) := Command(Handler(cls, admin), Aliases(CanonicalName(key)))]
      ensures !IsRegistered(CanonicalName(key), admin) ==> commands == old(commands)
    {
      if key == "sources" || key == "source" {
        commands := commands["sources" := Command(Handler(cls, admin), ["source"])];
      } else if key == "sinks" || key == "sink" {
        commands := commands["sinks" := Command(Handler(cls, admin), ["sink"])];
      } else if key == "functions" {
        commands := commands[key := Command(Handler(cls, admin), [])];
      } else {
        if admin.Some? {
          commands := commands[key := Command(Handler(cls, admin), [])];
        }
      }
    }

    /** Puts the URL and authentication into the builder, asks the factory for a client
        and registers every table entry, in no particular order. */
    method SetupCommands(authenticates: AuthCheck, factory: AdminFactory) returns (outcome: FactoryOutcome)
      requires Valid() && commands == map[]
      modifies this`adminBuilder, this`commands
      ensures adminBuilder == SetupBuilder(old(adminBuilder), Flags())
      ensures outcome == SetupStep(authenticates, factory)(adminBuilder)
      ensures outcome.Returned? ==> commands == RegisteredCommands(commandMap, outcome.admin)
      ensures outcome.ExitedWithError? ==> commands == map[]
    {
      adminBuilder := adminBuilder.(serviceHttpUrl := serviceUrl);
      adminBuilder := adminBuilder.(authPluginClassName := authPluginClassName, authParams := authParams);
      if !authenticates(authPluginClassName, authParams) {
        // The refused plugin's exception ends the process.
        outcome := ExitedWithError;
        return;
      }
      outcome := factory(adminBuilder);
      if outcome.ExitedWithError? {
        return;
      }
      RegisterCommands(outcome.admin);
    }

    /** The registration loop: every table entry, taken in no particular order. */
    method RegisterCommands(admin: Option<AdminHandle>)
      requires Valid() && commands == map[]
      modifies this`commands
      ensures commands == RegisteredCommands(commandMap, admin)
    {
      var pending := commandMap.Keys;
      while pending != {}
        invariant pending <= commandMap.Keys
        invariant forall n :: n in commands <==> n in RegisteredNames(commandMap.Keys - pending, admin)
        invariant forall n | n in commands :: n in commandMap && commands[n] == CommandFor(commandMap, n, admin)
        decreases pending
      {
        var key :| key in pending;
        AddCommand(key, commandMap[key], admin);
        pending := pending - {key};
      }
      assert commandMap.Keys - pending == commandMap.Keys;
    }

    /** The parser writes the fields of the flags it was given. */
    method AssignFlags(given: Assignments)
      modifies this`serviceUrl, this`authPluginClassName, this`authParams, this`tlsAllowInsecureConnection,
               this`tlsTrustCertsFilePath, this`tlsEnableHostnameVerification, this`help
      ensures Flags() == ApplyAssignments(old(Flags()), given)
    {
      if given.adminUrl.Some? { serviceUrl := given.adminUrl; }
      if given.authPlugin.Some? { authPluginClassName := given.authPlugin; }
      if given.authParams.Some? { authParams := given.authParams; }
      if given.tlsAllowInsecure.Some? { tlsAllowInsecureConnection := given.tlsAllowInsecure; }
      if given.tlsTrustCertPath.Some? { tlsTrustCertsFilePath := given.tlsTrustCertPath; }
      if given.tlsEnableHostnameVerification.Some? {
        tlsEnableHostnameVerification := given.tlsEnableHostnameVerification;
      }
      if given.help { help := true; }
    }

    /** Splits the arguments at the first command token, parses the global flags before it,
        sets up the handlers and prints usage or runs the selected command. */
    method Run(args: seq<string>, authenticates: AuthCheck, factory: AdminFactory, parse: FlagParser,
               runHandler: HandlerRunner) returns (outcome: RunOutcome)
      requires Valid() && commands == map[]
      requires RunDefined(Flags(), adminBuilder, commandMap, args, parse, SetupStep(authenticates, factory))
      modifies this`serviceUrl, this`authPluginClassName, this`authParams, this`tlsAllowInsecureConnection,
               this`tlsTrustCertsFilePath, this`tlsEnableHostnameVerification, this`help,
               this`adminBuilder, this`commands
      ensures outcome == RunResult(old(Flags()), old(adminBuilder), commandMap, args, parse,
                                   SetupStep(authenticates, factory), runHandler)
      ensures Flags() == ParsedOptions(old(Flags()), commandMap.Keys, args, parse)
      ensures adminBuilder == FactoryInput(old(Flags()), old(adminBuilder), commandMap.Keys, args, parse)
      ensures var setup := SetupStep(authenticates, factory)(adminBuilder);
        setup.Returned? ==> commands == RegisteredCommands(commandMap, setup.admin)
    {
      ghost var before := Flags();
      var setup: FactoryOutcome;
      if |args| == 0 {
        setup := SetupCommands(authenticates, factory);
        if setup.ExitedWithError? { return Exited; }
        return Completed(false);
      }

      var cmdPos := FindCommand(args, commandMap.Keys, 0);
      var parsed := parse(args[..if cmdPos < |args| then cmdPos else |args|]);
      assert parsed == parse(GlobalArgs(args, commandMap.Keys));
      AssignFlags(parsed.given);
      assert Flags() == ParsedOptions(before, commandMap.Keys, args, parse);
      ghost var decision := Decide(before, commandMap.Keys, args, parse);
      if parsed.ParseError? {
        assert decision == ShowUsage(false);
        setup := SetupCommands(authenticates, factory);
        if setup.ExitedWithError? { return Exited; }
        return Completed(false);
      }

      if help {
        assert decision == ShowUsage(true);
        setup := SetupCommands(authenticates, factory);
        if setup.ExitedWithError? { return Exited; }
        return Completed(true);
      }

      if cmdPos == |args| {
        assert decision == ShowUsage(false);
        setup := SetupCommands(authenticates, factory);
        if setup.ExitedWithError? { return Exited; }
        return Completed(false);
      } else {
        setup := SetupCommands(authenticates, factory);
        if setup.ExitedWithError? { return Exited; }
        var cmd := args[cmdPos];
        if cmd == "source" {
          cmd := "sources";
        } else if cmd == "sink" {
          cmd := "sinks";
        }
        assert decision == Dispatch(cmd, args[cmdPos + 1..]);
        assert cmd in RegisteredNames(commandMap.Keys, setup.admin);
        var handler := commands[cmd].handler;
        return Completed(runHandler(handler, args[cmdPos + 1..]));
      }
    }

    /** `run(args)`: `run` with the factory that builds the client or exits. */
    method RunWithBuilder(args: seq<string>, authenticates: AuthCheck, build: BuilderSettings -> Option<AdminHandle>,
                          parse: FlagParser, runHandler: HandlerRunner) returns (outcome: RunOutcome)
      requires Valid() && commands == map[]
      modifies this`serviceUrl, this`authPluginClassName, this`authParams, this`tlsAllowInsecureConnection,
               this`tlsTrustCertsFilePath, this`tlsEnableHostnameVerification, this`help,
               this`adminBuilder, this`commands
      ensures outcome == RunResult(old(Flags()), old(adminBuilder), commandMap, args, parse,
                                   SetupStep(authenticates, BuildingFactory(build)), runHandler)
      ensures Flags() == ParsedOptions(old(Flags()), commandMap.Keys, args, parse)
      ensures adminBuilder == FactoryInput(old(Flags()), old(adminBuilder), commandMap.Keys, args, parse)
      ensures var setup := SetupStep(authenticates, BuildingFactory(build))(adminBuilder);
        setup.Returned? ==> commands == RegisteredCommands(commandMap, setup.admin)
    {
      BuildingRunDefined(Flags(), adminBuilder, commandMap, args, parse, authenticates, build);
      outcome := Run(args, authenticates, BuildingFactory(build), parse, runHandler);
    }
  }

  /** `main`'s precondition, for a tool whose table, flag fields and builder are given:
      `run` never looks up a command that was not registered. */
  ghost predicate MainDefinedOn(cm: map<string, CommandClass>, opts: Options, builder: BuilderSettings,
                                args: seq<string>, authenticates: AuthCheck,
                                build: BuilderSettings -> Option<AdminHandle>, parse: FlagParser)
    requires 1 <= |args|
  {
    RunDefined(opts, builder, cm, args[1..], parse,
               SetupStep(authenticates, MainFactory(IsLocalRun(args, cm.Keys), build)))
  }

  /** What `main`'s call of `run` does for a tool whose table, flag fields and builder are given. */
  ghost function MainRunOn(cm: map<string, CommandClass>, opts: Options, builder: BuilderSettings,
                           args: seq<string>, authenticates: AuthCheck,
                           build: BuilderSettings -> Option<AdminHandle>, parse: FlagParser,
                           runHandler: HandlerRunner): RunOutcome
    requires 1 <= |args| && WellFormed(cm) && MainDefinedOn(cm, opts, builder, args, authenticates, build, parse)
  {
    RunResult(opts, builder, cm, args[1..], parse,
              SetupStep(authenticates, MainFactory(IsLocalRun(args, cm.Keys), build)), runHandler)
  }

  /** `main`'s precondition for the tool it constructs from the properties. */
  ghost predicate MainDefined(args: seq<string>, properties: Properties, authenticates: AuthCheck,
                              build: BuilderSettings -> Option<AdminHandle>, parse: FlagParser)
    requires 1 <= |args|
  {
    var opts := ConstructedOptions(properties);
    MainDefinedOn(CommandTable(), opts, ConstructedBuilder(properties, opts), args, authenticates, build, parse)
  }

  /** What `run` does when `main` calls it on everything after the configuration file. */
  ghost function MainRun(args: seq<string>, properties: Properties, authenticates: AuthCheck,
                         build: BuilderSettings -> Option<AdminHandle>, parse: FlagParser,
                         runHandler: HandlerRunner): RunOutcome
    requires 1 <= |args| && MainDefined(args, properties, authenticates, build, parse)
  {
    CommandTableWellFormed();
    var opts := ConstructedOptions(properties);
    MainRunOn(CommandTable(), opts, ConstructedBuilder(properties, opts), args, authenticates, build, parse,
              runHandler)
  }

  /** The process exit status for an outcome of `run`: 0 exactly when it returned true. */
  function ExitStatus(outcome: RunOutcome): (status: int)
    ensures status == 0 || status == 1
    ensures status == 0 <==> outcome == Completed(true)
  {
    match outcome
    case Exited => 1
    case Completed(success) => if success then 0 else 1
  }

  /** The builder the factory sees: `--admin-url` replaces the URL resolved from the
      properties, while the TLS settings stay the ones the constructor resolved from the
      properties alone, whatever TLS flags were given. */
  lemma FactorySeesAdminUrlButNotTlsFlags(props: Properties, keys: set<string>, args: seq<string>,
                                          parse: FlagParser)
    ensures var opts := ConstructedOptions(props);
      var b := FactoryInput(opts, ConstructedBuilder(props, opts), keys, args, parse);
      var given := if |args| == 0 then NoAssignments else parse(GlobalArgs(args, keys)).given;
      && b.serviceHttpUrl == (if given.adminUrl.Some? then given.adminUrl else ResolveServiceUrl(props))
      && b.authPluginClassName == Assign(GetProperty(props, "authPlugin"), given.authPlugin)
      && b.authParams == Assign(GetProperty(props, "authParams"), given.authParams)
      && b.allowTlsInsecureConnection == ResolveTlsFlag(None, props, "tlsAllowInsecureConnection")
      && b.enableTlsHostnameVerification == ResolveTlsFlag(None, props, "tlsEnableHostnameVerification")
      && b.tlsTrustCertsFilePath == GetProperty(props, "tlsTrustCertsFilePath")
  {
  }

  /** The builder the TLS flags' descriptions promise: the TLS settings resolved, as the
      constructor does, but from the flag fields after the global flags have been parsed. */
  function IntendedFactoryInput(props: Properties, keys: set<string>, args: seq<string>,
                                parse: FlagParser): BuilderSettings
  {
    var parsed := ParsedOptions(ConstructedOptions(props), keys, args, parse);
    SetupBuilder(ConstructedBuilder(props, parsed), parsed)
  }

  /** In the intended builder a given `--tls-allow-insecure` or
      `--tls-enable-hostname-verification` value and a non-blank `--tls-trust-cert-path`
      reach the client; the URL and the authentication are those the factory sees now,
      and without any TLS flag it is exactly the builder the factory sees now. */
  lemma IntendedTlsFlagsTakeEffect(props: Properties, keys: set<string>, args: seq<string>,
                                   parse: FlagParser)
    ensures var opts := ConstructedOptions(props);
      var b := IntendedFactoryInput(props, keys, args, parse);
      var actual := FactoryInput(opts, ConstructedBuilder(props, opts), keys, args, parse);
      var given := if |args| == 0 then NoAssignments else parse(GlobalArgs(args, keys)).given;
      && (given.tlsAllowInsecure.Some? ==> b.allowTlsInsecureConnection == given.tlsAllowInsecure.value)
      && (given.tlsEnableHostnameVerification.Some? ==>
            b.enableTlsHostnameVerification == given.tlsEnableHostnameVerification.value)
      && (!IsBlank(given.tlsTrustCertPath) ==> b.tlsTrustCertsFilePath == given.tlsTrustCertPath)
      && b.serviceHttpUrl == actual.serviceHttpUrl
      && b.authPluginClassName == actual.authPluginClassName && b.authParams == actual.authParams
      && ((given.tlsAllowInsecure.None? && given.tlsEnableHostnameVerification.None?
           && given.tlsTrustCertPath.None?) ==> b == actual)
  {
  }

  /** Every path of `run` sets up the handlers first, so the outcome is an exit with
      status 1 exactly when the setup ends the process (a refused authentication plugin or
      a failed build), help and usage included; otherwise usage reports the decision's
      status. */
  lemma BuildFailureAlwaysExits(opts: Options, builder: BuilderSettings, cm: map<string, CommandClass>,
                                args: seq<string>, parse: FlagParser, factory: AdminFactory,
                                runHandler: HandlerRunner)
    requires WellFormed(cm) && RunDefined(opts, builder, cm, args, parse, factory)
    ensures var outcome := RunResult(opts, builder, cm, args, parse, factory, runHandler);
      var setup := factory(FactoryInput(opts, builder, cm.Keys, args, parse));
      var d := Decide(opts, cm.Keys, args, parse);
      && (outcome.Exited? <==> setup.ExitedWithError?)
      && (setup.Returned? && d.ShowUsage? ==> outcome == Completed(d.success))
  {
  }

  /** With a factory that builds the client, every dispatched command is registered:
      `run(args)` is defined for every input. */
  lemma BuildingRunDefined(opts: Options, builder: BuilderSettings, cm: map<string, CommandClass>,
                           args: seq<string>, parse: FlagParser, authenticates: AuthCheck,
                           build: BuilderSettings -> Option<AdminHandle>)
    ensures RunDefined(opts, builder, cm, args, parse, SetupStep(authenticates, BuildingFactory(build)))
  {
    var d := Decide(opts, cm.Keys, args, parse);
    var setup := SetupStep(authenticates, BuildingFactory(build))(FactoryInput(opts, builder, cm.Keys, args, parse));
    if d.Dispatch? && setup.Returned? {
      DispatchSplitsArguments(opts, cm.Keys, args, parse);
      var token := args[|GlobalArgs(args, cm.Keys)|];
      assert token in cm.Keys && IsRegistered(CanonicalName(token), setup.admin);
    }
  }

  /** Outside local-run mode `main`'s run is always defined: only local-run mode can reach
      a command that was not registered. */
  lemma NotLocalRunIsDefined(cm: map<string, CommandClass>, opts: Options, builder: BuilderSettings,
                             args: seq<string>, authenticates: AuthCheck,
                             build: BuilderSettings -> Option<AdminHandle>, parse: FlagParser)
    requires 1 <= |args| && !IsLocalRun(args, cm.Keys)
    ensures MainDefinedOn(cm, opts, builder, args, authenticates, build, parse)
  {
    BuildingRunDefined(opts, builder, cm, args[1..], parse, authenticates, build);
  }

  /** In local-run mode no client is built and the factory never ends the process: `run`
      returns unless the authentication plugin is refused, and a dispatched command is one
      of functions, sources and sinks, whose handler is given no client. */
  lemma LocalRunBypassesClient(cm: map<string, CommandClass>, opts: Options, builder: BuilderSettings,
                               args: seq<string>, authenticates: AuthCheck,
                               build: BuilderSettings -> Option<AdminHandle>,
                               parse: FlagParser, runHandler: HandlerRunner)
    requires 1 <= |args| && WellFormed(cm) && MainDefinedOn(cm, opts, builder, args, authenticates, build, parse)
    requires IsLocalRun(args, cm.Keys)
    ensures var settings := FactoryInput(opts, builder, cm.Keys, args[1..], parse);
      (MainRunOn(cm, opts, builder, args, authenticates, build, parse, runHandler).Completed?
       <==> authenticates(settings.authPluginClassName, settings.authParams))
    ensures var d := Decide(opts, cm.Keys, args[1..], parse);
      var settings := FactoryInput(opts, builder, cm.Keys, args[1..], parse);
      d.Dispatch? && authenticates(settings.authPluginClassName, settings.authParams) ==>
        && d.command in LocalRunCommands && d.command in cm
        && MainRunOn(cm, opts, builder, args, authenticates, build, parse, runHandler)
           == Completed(runHandler(Handler(cm[d.command], None), d.commandArgs))
  {
    var d := Decide(opts, cm.Keys, args[1..], parse);
    var settings := FactoryInput(opts, builder, cm.Keys, args[1..], parse);
    if d.Dispatch? && authenticates(settings.authPluginClassName, settings.authParams) {
      var k :| k in cm.Keys && IsRegistered(CanonicalName(k), None) && CanonicalName(k) == d.command;
      CanonicalKeyInTable(cm, k);
    }
  }

  /** `main`'s choice of factory: scan for the first command token from index 1 on and
      test the token right after it. */
  method ChooseFactory(args: seq<string>, keys: set<string>, build: BuilderSettings -> Option<AdminHandle>)
    returns (localRun: bool, adminFactory: AdminFactory)
    requires 1 <= |args|
    ensures localRun == IsLocalRun(args, keys)
    ensures adminFactory == MainFactory(localRun, build)
  {
    var cmdPos := FindCommand(args, keys, 1);
    cmdPos := cmdPos + 1;
    localRun := cmdPos < |args| && LowerAscii(args[cmdPos]) == "localrun";
    adminFactory := MainFactory(localRun, build);
  }

  /** `main` after the tool has been constructed. */
  method RunConstructed(tool: PulsarAdminTool, args: seq<string>, authenticates: AuthCheck,
                        build: BuilderSettings -> Option<AdminHandle>, parse: FlagParser,
                        runHandler: HandlerRunner) returns (status: int)
    requires 1 <= |args| && tool.Valid() && tool.commands == map[]
    requires MainDefinedOn(tool.commandMap, tool.Flags(), tool.adminBuilder, args, authenticates, build, parse)
    modifies tool`serviceUrl, tool`authPluginClassName, tool`authParams, tool`tlsAllowInsecureConnection,
             tool`tlsTrustCertsFilePath, tool`tlsEnableHostnameVerification, tool`help,
             tool`adminBuilder, tool`commands
    ensures status == 0 || status == 1
    ensures status == 0 <==> MainRunOn(tool.commandMap, old(tool.Flags()), old(tool.adminBuilder), args,
                                       authenticates, build, parse, runHandler) == Completed(true)
  {
    var _, adminFactory := ChooseFactory(args, tool.commandMap.Keys, build);
    var outcome := tool.Run(args[1..], authenticates, adminFactory, parse, runHandler);
    status := ExitStatus(outcome);
  }

  /** `main`: builds the tool from the loaded properties, picks local-run mode from the
      token after the first command token, runs the rest and turns the result into the
      exit status. */
  method ToolMain(args: seq<string>, properties: Properties, authenticates: AuthCheck,
                  build: BuilderSettings -> Option<AdminHandle>, parse: FlagParser,
                  runHandler: HandlerRunner) returns (status: int)
    requires 1 <= |args|
    requires MainDefined(args, properties, authenticates, build, parse)
    ensures status == 0 || status == 1
    ensures status == 0 <==> MainRun(args, properties, authenticates, build, parse, runHandler) == Completed(true)
  {
    var tool := new PulsarAdminTool(properties);
    status := RunConstructed(tool, args, authenticates, build, parse, runHandler);
  }
}
