# pulsar-admin: configuration, command table and dispatch

This project models the core of `PulsarAdminTool`, the entry point of the
`pulsar-admin` command-line tool. It covers four parts.

- **Configuration resolution.** The constructor resolves the service URL, the
  authentication and the TLS settings from a `Properties` map. It uses the legacy
  `webServiceUrl` key, blank checks and `parseBoolean` with defaults "false" and "JKS".
- **The command table.** There are 21 keys, including the hidden `properties`,
  `persistent` and `non-persistent`, and the singular `source` and `sink`.
- **`run`.**
  - A linear scan finds the first command token.
  - The tokens before it are parsed as global flags. Those flags update the tool's
    fields before the client builder reads them.
  - `setupCommands` fills in the builder, asks the admin factory for a client and
    registers the handlers. Without a client it registers only functions, sources
    and sinks.
  - The outcome is decided in the source's order: empty arguments, a parse failure,
    help, no command, and then the handler's own result. `source` and `sink` are
    renamed to `sources` and `sinks`.
- **`main`.** It scans from index 1 and detects local-run mode from the token after
  the command, in any letter case. In that mode it uses a factory that builds nothing.
  It runs everything after the configuration file and exits with 0 exactly when `run`
  returned true.

## Structure

- `wrappers.dfy` (`Wrappers`) is `Option`, which stands for Java's null.
- `java_lang.dfy` (`JavaLang`) holds `Properties` as `map<string, string>`,
  `getProperty` with and without a default, `StringUtils.isBlank`,
  `Boolean.parseBoolean` and lower-casing.
- `admin_config.dfy` (`AdminConfig`) holds the per-field resolution of the
  constructor, the builder settings, the flag fields and how one parse of the global
  flags changes them.
- `commands.dfy` (`Commands`) holds the command table, the canonical names and
  what registration produces, for any order of the table's entries.
- `dispatch.dfy` (`Dispatch`) holds the scan for the command token, the split of
  the arguments, the decision of `run` and the local-run test of `main`.
- `admin_tool.dfy` (`AdminTool`) holds the class `PulsarAdminTool` with the
  source's fields, whose methods update them in place. It also holds `main`
  (`ToolMain`) and the whole-run properties.
- `scenarios.dfy` (`Scenarios`) follows two complete invocations through the model.

The following parts are parameters of the model:

- The flag parser (JCommander) is a function from the global-flag tokens to
  `Parsed` or `ParseError`. Each carries the flags assigned, because a failed
  parse may already have written some of them.
- The admin factory is a function from the builder's settings to a returned client,
  which may be absent, or to `ExitedWithError` (the factory's `System.exit(1)`).
- `PulsarAdminBuilder.build()` is a function that gives a client or fails.
- `PulsarAdminBuilder.authentication(plugin, params)` is represented by a predicate:
  whether it accepts the plugin class name and parameters. When it does not, it
  throws, and the catch at lines 150-158 ends the process with status 1. This
  happens before the factory is asked, in local-run mode too.
- A handler's own `run` is a function of the handler and its arguments to a boolean.

The registration loop takes the table's entries in an unspecified order (`:|`),
because `HashMap` iteration order is not part of the contract. Its postcondition
holds for every order.

## Where the code does not do what its declarations say

The model follows the code here.

- **The TLS flags have no effect.** `--tls-allow-insecure`,
  `--tls-trust-cert-path` and `--tls-enable-hostname-verification` are declared as
  global flags with descriptions that promise an effect (lines 54-61). But the
  constructor resolves the TLS settings from these three fields at lines 79-87. That
  is before anything has been parsed, so the fields are still null there.
  `setupCommands` later copies only the URL and the authentication into the builder
  (lines 144-145). So a TLS flag on the command line never reaches the client.
  `AdminTool.FactorySeesAdminUrlButNotTlsFlags` states this. `--admin-url`,
  `--auth-plugin` and `--auth-params` do take effect.
  The builder the flags' descriptions promise is `AdminTool.IntendedFactoryInput`:
  the constructor's TLS resolution applied to the flag fields after the parse.
  `AdminTool.IntendedTlsFlagsTakeEffect` proves that there a given
  `--tls-allow-insecure` or `--tls-enable-hostname-verification` and a non-blank
  `--tls-trust-cert-path` reach the client. It also proves that the URL and the
  authentication are unchanged, and that without TLS flags the intended builder is
  the one the factory sees now. The rest of the model keeps the code's behaviour.

## Observed behaviour

These follow from the code and may well be intended.

- **`--help` can still fail.** `-h`/`--help` is declared as a help flag (line 63),
  and `run` reports success for it (lines 215-219). Every path of `run` calls
  `setupCommands` before it prints usage: the empty-argument, parse-failure, help
  and no-command paths alike (lines 193, 210, 216, 222). That lets usage list the
  registered commands. It also means that a refused authentication plugin, or a
  client that cannot be built, ends the process with status 1 even for `--help`. `AdminTool.BuildFailureAlwaysExits` states this.
- **Two keys per command.** The table puts both `sources` and `source`, and both
  `sinks` and `sink` (lines 130-131 and 138-139). Registration adds the command
  `sources` with alias `source` for each of the two keys (lines 165-168). Both keys
  name the same class, so the result is one command whatever the order
  (`Commands.AliasesShareOneCommand`).

## Model

| member | source | states |
|---|---|---|
| JavaLang.GetProperty | pulsar-client-tools/src/main/java/org/apache/pulsar/admin/cli/PulsarAdminTool.java:74-93 | `Properties.getProperty(key)`: the value stored under the key, or null when the key is absent |
| JavaLang.GetPropertyOr | pulsar-client-tools/src/main/java/org/apache/pulsar/admin/cli/PulsarAdminTool.java:80-91 | `Properties.getProperty(key, default)`: the stored value, or the default when the key is absent; never null |
| JavaLang.IsWhitespace | pulsar-client-tools/src/main/java/org/apache/pulsar/admin/cli/PulsarAdminTool.java:74 | `Character.isWhitespace` as of Java 9 (Unicode 6.3 and later): the space, line and paragraph separators other than the no-break spaces, tab to carriage return, and U+001C to U+001F; Java 8 (Unicode 6.2) also counts U+180E, which this table does not |
| JavaLang.LowerAscii | pulsar-client-tools/src/main/java/org/apache/pulsar/admin/cli/PulsarAdminTool.java:264 | the lower-casing of `toLowerCase` as far as ASCII letters go: the length is kept and each upper-case ASCII letter becomes its lower-case letter |
| JavaLang.LowerAsciiAnyCase | pulsar-client-tools/src/main/java/org/apache/pulsar/admin/cli/PulsarAdminTool.java:264 | lower-casing gives a lower-case ASCII word exactly when the string spells that word with each letter in either case; this is the "any letter case" of the local-run test and of `parseBoolean` |
| JavaLang.ParseBoolean | pulsar-client-tools/src/main/java/org/apache/pulsar/admin/cli/PulsarAdminTool.java:80 | `Boolean.parseBoolean` holds exactly for the four-letter strings t, r, u, e with each letter in either case |
| JavaLang.IsBlank | pulsar-client-tools/src/main/java/org/apache/pulsar/admin/cli/PulsarAdminTool.java:74 | `StringUtils.isBlank`, both directions: null, the empty string and every string of whitespace only are blank, and a string holding any non-whitespace character is not |
| AdminConfig.Assign | pulsar-client-tools/src/main/java/org/apache/pulsar/admin/cli/PulsarAdminTool.java:206 | a flag the parser was given replaces the field, and a flag it was not given leaves the field unchanged |
| AdminConfig.ApplyAssignments | pulsar-client-tools/src/main/java/org/apache/pulsar/admin/cli/PulsarAdminTool.java:206 | after a parse, each of the six flag fields is the given value or the old one, and `help` is set if it was set before or was given |
| AdminConfig.ApplyNothing | pulsar-client-tools/src/main/java/org/apache/pulsar/admin/cli/PulsarAdminTool.java:206 | parsing no flags leaves every flag field as it was |
| AdminConfig.ResolveServiceUrl | pulsar-client-tools/src/main/java/org/apache/pulsar/admin/cli/PulsarAdminTool.java:74-76 | the URL is `webServiceUrl` when that property is present and not blank, otherwise the `serviceUrl` property or null; it is always one of the property values |
| AdminConfig.ResolveTlsFlag | pulsar-client-tools/src/main/java/org/apache/pulsar/admin/cli/PulsarAdminTool.java:79-84 | a non-null override wins; otherwise an absent key gives false, never an error, and a present key gives true exactly when it reads "true" in any letter case |
| AdminConfig.ResolveTrustCertsPath | pulsar-client-tools/src/main/java/org/apache/pulsar/admin/cli/PulsarAdminTool.java:85-87 | a non-blank override wins, otherwise the `tlsTrustCertsFilePath` property; null only when the override is blank (null, empty or whitespace only) and the key is absent |
| AdminConfig.ResolveUseKeyStoreTls | pulsar-client-tools/src/main/java/org/apache/pulsar/admin/cli/PulsarAdminTool.java:89-90 | key-store TLS is on exactly when `useKeyStoreTls` is present and reads "true" in any letter case, so an absent key gives false |
| AdminConfig.ResolveTrustStoreType | pulsar-client-tools/src/main/java/org/apache/pulsar/admin/cli/PulsarAdminTool.java:91 | the trust-store type is "JKS" when the key is absent, and otherwise the property's value unchanged |
| AdminConfig.ConstructedOptions | pulsar-client-tools/src/main/java/org/apache/pulsar/admin/cli/PulsarAdminTool.java:74-78 | the flag fields as the constructor leaves them: the URL from `AdminConfig.ResolveServiceUrl`, the authentication plugin and parameters from the properties, no TLS override and no help |
| AdminConfig.ConstructedBuilder | pulsar-client-tools/src/main/java/org/apache/pulsar/admin/cli/PulsarAdminTool.java:95-101 | the builder as the constructor leaves it: the seven TLS settings resolved from the properties and the override fields, with no URL and no authentication yet |
| AdminConfig.ConstructedTlsDefaults | pulsar-client-tools/src/main/java/org/apache/pulsar/admin/cli/PulsarAdminTool.java:79-101 | the builder the constructor makes takes its TLS settings from the properties alone; with no properties they are false, false, false, "JKS" and three nulls |
| AdminConfig.SetupBuilder | pulsar-client-tools/src/main/java/org/apache/pulsar/admin/cli/PulsarAdminTool.java:144-145 | the builder after `setupCommands` sets the URL and the authentication from the flag fields; its partner is `AdminConfig.SetupKeepsTls` |
| AdminConfig.SetupKeepsTls | pulsar-client-tools/src/main/java/org/apache/pulsar/admin/cli/PulsarAdminTool.java:144-145 | filling in the builder sets the URL and the authentication from the flag fields and changes nothing else |
| Commands.CanonicalName | pulsar-client-tools/src/main/java/org/apache/pulsar/admin/cli/PulsarAdminTool.java:231-235 | a token is renamed exactly when it is `source` or `sink`, which become `sources` and `sinks`; no lookup name is ever a singular alias |
| Commands.CommandTable | pulsar-client-tools/src/main/java/org/apache/pulsar/admin/cli/PulsarAdminTool.java:107-139 | the 21 keys of the fixed table and the handler class of each, including the hidden `properties`, `persistent` and `non-persistent` and the aliases `source` and `sink`; its properties are `Commands.CommandTableWellFormed`, `Commands.NullAdminRegistersLocalRunCommands` and `Commands.AdminRegistersEveryCommand` |
| Commands.CanonicalKeyInTable | pulsar-client-tools/src/main/java/org/apache/pulsar/admin/cli/PulsarAdminTool.java:130-139 | in a table where each singular key comes with its plural key of the same class, every key's canonical name is a key of the same class |
| Commands.CommandTableWellFormed | pulsar-client-tools/src/main/java/org/apache/pulsar/admin/cli/PulsarAdminTool.java:107-139 | the fixed table maps `source` and `sink` to the classes of `sources` and `sinks` |
| Commands.RegisteredKeyDispatches | pulsar-client-tools/src/main/java/org/apache/pulsar/admin/cli/PulsarAdminTool.java:162-177 | a registered key is found under its canonical name, with a handler of the key's own class built with the registration's client |
| Commands.RegisteredCommands | pulsar-client-tools/src/main/java/org/apache/pulsar/admin/cli/PulsarAdminTool.java:147-177 | what the registration loop leaves in the parser for a client, in any order: one entry per table key that `addCommand` registers, stored under the key's canonical name |
| Commands.RegisteredCommandEntry | pulsar-client-tools/src/main/java/org/apache/pulsar/admin/cli/PulsarAdminTool.java:162-177 | each registered entry sits under a table key that is not `source` or `sink` and that `addCommand` registers for the client, with a handler of that key's class built with the client and the key's aliases |
| Commands.NullAdminRegistersLocalRunCommands | pulsar-client-tools/src/main/java/org/apache/pulsar/admin/cli/PulsarAdminTool.java:169-176 | without a client, exactly the commands functions, sources and sinks are registered |
| Commands.AdminRegistersEveryCommand | pulsar-client-tools/src/main/java/org/apache/pulsar/admin/cli/PulsarAdminTool.java:147-149 | with a client, every table key is registered, under its canonical name: the registered names are the keys less `source` and `sink` |
| Commands.AliasesShareOneCommand | pulsar-client-tools/src/main/java/org/apache/pulsar/admin/cli/PulsarAdminTool.java:165-168 | `source` and `sources` reach one command, `sources`, of the `sources` class with alias `source`; likewise for `sink` and `sinks` |
| Dispatch.CommandPosition | pulsar-client-tools/src/main/java/org/apache/pulsar/admin/cli/PulsarAdminTool.java:198-203 | the split point is the least index at or after the start whose token is a command key, or the length when there is none |
| Dispatch.FindCommand | pulsar-client-tools/src/main/java/org/apache/pulsar/admin/cli/PulsarAdminTool.java:198-203 | the scanning loop stops at exactly that split point |
| Dispatch.GlobalArgs | pulsar-client-tools/src/main/java/org/apache/pulsar/admin/cli/PulsarAdminTool.java:206 | the global flags parsed at line 206: the arguments before the first command token, all of them when there is none |
| Dispatch.Decide | pulsar-client-tools/src/main/java/org/apache/pulsar/admin/cli/PulsarAdminTool.java:192-240 | the decision of `run` in the source's order (no arguments, parse failure, help, no command token, the command found); its properties are `Dispatch.DecisionOrder`, `Dispatch.DispatchSplitsArguments` and `Dispatch.HelpWinsWhateverFollows` |
| Dispatch.IsLocalRun | pulsar-client-tools/src/main/java/org/apache/pulsar/admin/cli/PulsarAdminTool.java:256-264 | `main`'s local-run test on the token after the first command token from index 1 on; its properties are `Dispatch.LocalRunIff`, `Dispatch.NoCommandNoLocalRun` and `Dispatch.LocalRunLooksAfterDispatchedCommand` |
| Dispatch.CommandPositionUnique | pulsar-client-tools/src/main/java/org/apache/pulsar/admin/cli/PulsarAdminTool.java:198-203 | any index with no key before it, which is a key or the end, is the split point |
| Dispatch.CommandPositionShift | pulsar-client-tools/src/main/java/org/apache/pulsar/admin/cli/PulsarAdminTool.java:256-261 | scanning from index 1 finds the token one place later than scanning the arguments without their first one from index 0 |
| Dispatch.DispatchSplitsArguments | pulsar-client-tools/src/main/java/org/apache/pulsar/admin/cli/PulsarAdminTool.java:198-240 | on dispatch, the global flags, the command token and the handler's arguments concatenate back to the arguments; no global flag is a command key; only `source` and `sink` are renamed |
| Dispatch.DecisionOrder | pulsar-client-tools/src/main/java/org/apache/pulsar/admin/cli/PulsarAdminTool.java:192-224 | empty arguments fail; a parse failure fails; help succeeds; a command is dispatched exactly when the parse succeeded, help is off and some argument is a command key |
| Dispatch.HelpWinsWhateverFollows | pulsar-client-tools/src/main/java/org/apache/pulsar/admin/cli/PulsarAdminTool.java:215-219 | a successful parse that sets help succeeds whether a command follows or not |
| Dispatch.LocalRunLooksAfterDispatchedCommand | pulsar-client-tools/src/main/java/org/apache/pulsar/admin/cli/PulsarAdminTool.java:256-264 | `main` tests the token after the very command that `run` dispatches on the arguments without the configuration file |
| Dispatch.LocalRunIff | pulsar-client-tools/src/main/java/org/apache/pulsar/admin/cli/PulsarAdminTool.java:256-264 | local-run mode holds exactly when there is a first command token at index 1 or later and the token after it reads "localrun" in any letter case |
| Dispatch.NoCommandNoLocalRun | pulsar-client-tools/src/main/java/org/apache/pulsar/admin/cli/PulsarAdminTool.java:256-264 | without a command token from index 1 on, local-run mode is never chosen |
| AdminTool.BuildingFactory | pulsar-client-tools/src/main/java/org/apache/pulsar/admin/cli/PulsarAdminTool.java:179-189 | the factory of `run(args)`: the built client, or the end of the process with status 1 when the build fails; it never returns null, which `AdminTool.BuildingRunDefined` uses |
| AdminTool.MainFactory | pulsar-client-tools/src/main/java/org/apache/pulsar/admin/cli/PulsarAdminTool.java:266-280 | the factory `main` chooses: in local-run mode one that returns null and builds nothing, otherwise the building one |
| AdminTool.SetupStep | pulsar-client-tools/src/main/java/org/apache/pulsar/admin/cli/PulsarAdminTool.java:143-158 | `setupCommands` ends the process with status 1 when the builder refuses the authentication plugin, before the factory is asked; otherwise the outcome is the factory's |
| AdminTool.RunResult | pulsar-client-tools/src/main/java/org/apache/pulsar/admin/cli/PulsarAdminTool.java:191-242 | the outcome of `run`: exit 1 when the setup ends the process, otherwise usage with the decision's status or the registered handler's result on the command's arguments; its properties are `AdminTool.BuildFailureAlwaysExits` and the ensures of `AdminTool.PulsarAdminTool.Run` |
| AdminTool.PulsarAdminTool.constructor | pulsar-client-tools/src/main/java/org/apache/pulsar/admin/cli/PulsarAdminTool.java:72-139 | the flag fields hold the resolved URL and authentication, with no TLS override and no help; the builder holds the TLS settings resolved with no override; the key-store fields equal the builder's; the table is the fixed table; nothing is registered |
| AdminTool.PulsarAdminTool.AddCommand | pulsar-client-tools/src/main/java/org/apache/pulsar/admin/cli/PulsarAdminTool.java:162-177 | an entry is added under its canonical name, with its alias and a handler of its class, exactly when it is functions, sources or sinks or a client exists; otherwise nothing changes |
| AdminTool.PulsarAdminTool.SetupCommands | pulsar-client-tools/src/main/java/org/apache/pulsar/admin/cli/PulsarAdminTool.java:142-149 | the builder gets the flag fields' URL and authentication; the outcome is an exit when the authentication plugin is refused and otherwise the factory's; when it returns, the registered commands are those of the whole table for that client |
| AdminTool.PulsarAdminTool.RegisterCommands | pulsar-client-tools/src/main/java/org/apache/pulsar/admin/cli/PulsarAdminTool.java:147-149 | after the loop over the table, in any order, the registered commands are those of the whole table for the client |
| AdminTool.PulsarAdminTool.AssignFlags | pulsar-client-tools/src/main/java/org/apache/pulsar/admin/cli/PulsarAdminTool.java:206 | the parser writes exactly the fields of the flags it was given |
| AdminTool.PulsarAdminTool.Run | pulsar-client-tools/src/main/java/org/apache/pulsar/admin/cli/PulsarAdminTool.java:191-242 | the outcome is the decision's: exit 1 when the authentication plugin is refused or the factory fails, usage with its status, or the registered handler's result on the command's arguments; the flag fields are those after the parse, the builder is the one the factory saw, and the commands are all registered |
| AdminTool.PulsarAdminTool.RunWithBuilder | pulsar-client-tools/src/main/java/org/apache/pulsar/admin/cli/PulsarAdminTool.java:179-189 | `run(args)` is `run` with the building factory, for every input: the same outcome, flag fields, builder and registered commands as `AdminTool.PulsarAdminTool.Run` gives with that factory, and `AdminTool.BuildingRunDefined` discharges `run`'s precondition |
| AdminTool.FactorySeesAdminUrlButNotTlsFlags | pulsar-client-tools/src/main/java/org/apache/pulsar/admin/cli/PulsarAdminTool.java:79-87 | the factory sees `--admin-url` when it is given and otherwise the URL from the properties, and likewise `--auth-plugin` and `--auth-params` over the properties, but the TLS settings from the properties whatever TLS flags were given |
| AdminTool.IntendedTlsFlagsTakeEffect | pulsar-client-tools/src/main/java/org/apache/pulsar/admin/cli/PulsarAdminTool.java:54-61 | in the builder the TLS flags' descriptions promise, a given `--tls-allow-insecure` or `--tls-enable-hostname-verification` value and a non-blank `--tls-trust-cert-path` reach the client; URL and authentication are as now, and without TLS flags it is the builder the factory sees now |
| AdminTool.BuildFailureAlwaysExits | pulsar-client-tools/src/main/java/org/apache/pulsar/admin/cli/PulsarAdminTool.java:192-226 | `run` exits with status 1 exactly when the setup ends the process (refused authentication plugin or failed build), on every path including help; otherwise usage returns the decision's status |
| AdminTool.BuildingRunDefined | pulsar-client-tools/src/main/java/org/apache/pulsar/admin/cli/PulsarAdminTool.java:226-238 | with the building factory, the dispatched command is always registered, so the lookup never fails |
| AdminTool.NotLocalRunIsDefined | pulsar-client-tools/src/main/java/org/apache/pulsar/admin/cli/PulsarAdminTool.java:266-280 | outside local-run mode, `main`'s run never looks up an unregistered command |
| AdminTool.LocalRunBypassesClient | pulsar-client-tools/src/main/java/org/apache/pulsar/admin/cli/PulsarAdminTool.java:266-269 | in local-run mode `run` returns exactly when the authentication plugin is accepted; then a dispatched command is functions, sources or sinks, and its handler gets no client |
| AdminTool.ExitStatus | pulsar-client-tools/src/main/java/org/apache/pulsar/admin/cli/PulsarAdminTool.java:282-286 | the exit status is 0 or 1, and 0 exactly when `run` returned true |
| AdminTool.ChooseFactory | pulsar-client-tools/src/main/java/org/apache/pulsar/admin/cli/PulsarAdminTool.java:256-280 | local-run mode is the local-run test on the arguments, and the factory builds nothing exactly in that mode |
| AdminTool.RunConstructed | pulsar-client-tools/src/main/java/org/apache/pulsar/admin/cli/PulsarAdminTool.java:256-286 | for a constructed tool, the status is 0 or 1, and 0 exactly when `main`'s run of the arguments after the configuration file returns true |
| AdminTool.ToolMain | pulsar-client-tools/src/main/java/org/apache/pulsar/admin/cli/PulsarAdminTool.java:244-286 | from the properties and the arguments, the status is 0 or 1, and 0 exactly when `run` on everything after the configuration file, with the factory local-run mode selects, returns true |
| Scenarios.AdminUrlThenTenantsOn | pulsar-client-tools/src/main/java/org/apache/pulsar/admin/cli/PulsarAdminTool.java:191-240 | for any well-formed table with `tenants`, the invocation `--admin-url http://x:8080 tenants list` is split, built and dispatched as below |
| Scenarios.AdminUrlThenTenants | pulsar-client-tools/src/main/java/org/apache/pulsar/admin/cli/PulsarAdminTool.java:191-240 | `--admin-url http://x:8080 tenants list`: the global flags are the two before `tenants`, `tenants` gets `list`, the client is built for `http://x:8080`, and the tenants handler runs with it; a refused authentication plugin or a failed build exits with 1 |
| Scenarios.FunctionsLocalRunOn | pulsar-client-tools/src/main/java/org/apache/pulsar/admin/cli/PulsarAdminTool.java:256-286 | for any well-formed table with `functions`, `functions localrun --name f1` runs as below |
| Scenarios.FunctionsLocalRun | pulsar-client-tools/src/main/java/org/apache/pulsar/admin/cli/PulsarAdminTool.java:256-286 | `functions localrun --name f1` is local-run mode; nothing is built, and the functions handler runs without a client on `localrun --name f1`, unless the authentication plugin from the properties is refused, which exits with 1 |

## Left out

- AdminTool.PulsarAdminTool.Run: requires the dispatched command to be registered (`RunDefined`). With no client and a command other than functions, sources or sinks (`tenants localrun`), the source dereferences null at lines 237-238; that failure is not modelled.
- AdminTool.ToolMain: requires the same of `main`'s run (`MainDefined`). `AdminTool.NotLocalRunIsDefined` shows that only local-run mode can violate it.
- AdminTool.RunConstructed: carries the same precondition as `AdminTool.ToolMain`.
- JavaLang.LowerAscii: folds ASCII letters only. That is exact for the two comparisons the tool makes, with "true" (`parseBoolean`) and "localrun" (line 264). The only non-ASCII characters Java lower-cases to ASCII letters are the Kelvin sign (to k) and dotted capital I (to i and a combining dot), and the only ones `equalsIgnoreCase` upper-cases to ASCII are dotless i and long s; neither word contains k, i or s.
- JCommander's parsing rules, usage and help text, and its handling of a command added twice under one name are not modelled. The parser is a parameter, and the registered commands are a map from name to command.
- `PulsarAdmin.builder()`, `build()` and all client behaviour are foreign calls. The builder is a record of its settings, and `build` is a parameter.
- AdminTool.PulsarAdminTool.RegisterCommands: takes every handler constructor to succeed. The source builds the handlers reflectively (`getConstructor(...).newInstance`), and a constructor that throws ends the process with status 1 (lines 150-158). That exit, and the unwrapping of `InvocationTargetException`, are not modelled. A handler is its class and its client, and a handler's `run` is a parameter.
- AdminTool.BuildFailureAlwaysExits: "exits exactly when the setup ends the process" counts only a refused authentication plugin and a failed build as setup failures, not a handler constructor that throws.
- AdminTool.LocalRunBypassesClient: "returns when the plugin is accepted" likewise takes every handler constructor to succeed.
- Reading the configuration file (lines 245-252) is I/O. The properties are a given map, and the first argument is required to exist.
- `System.err` output and usage printing are left out. `System.exit` is an outcome (`Exited`) or the returned status.
- The order of `HashMap` iteration is left open rather than modelled.
- pulsar-functions/runtime/src/test/java/org/apache/pulsar/functions/fs/FunctionConfigTest.java only loads YAML through code that is not part of this model, so it is not modelled.
