/**
 * Configuration resolution of the admin tool: how each builder setting is chosen
 * from the properties file, a command-line override and a built-in default, and
 * how one parse of the global flags changes the tool's flag fields.
 */
module AdminConfig {
  import opened Wrappers
  import opened JavaLang

  /** The settings handed to the admin-client builder. */
  datatype BuilderSettings = BuilderSettings(
    allowTlsInsecureConnection: bool,
    enableTlsHostnameVerification: bool,
    tlsTrustCertsFilePath: Option<string>,
    useKeyStoreTls: bool,
    tlsTrustStoreType: string,
    tlsTrustStorePath: Option<string>,
    tlsTrustStorePassword: Option<string>,
    serviceHttpUrl: Option<string>,
    authPluginClassName: Option<string>,
    authParams: Option<string>)

  /** The tool's fields that the global-flag parser writes. */
  datatype Options = Options(
    serviceUrl: Option<string>,
    authPluginClassName: Option<string>,
    authParams: Option<string>,
    tlsAllowInsecureConnection: Option<bool>,
    tlsTrustCertsFilePath: Option<string>,
    tlsEnableHostnameVerification: Option<bool>,
    help: bool)

  /** What one parse of the global flags assigned: `Some` for each flag that was given,
      `help` when `-h` or `--help` was given. */
  datatype Assignments = Assignments(
    adminUrl: Option<string>,
    authPlugin: Option<string>,
    authParams: Option<string>,
    tlsAllowInsecure: Option<bool>,
    tlsTrustCertPath: Option<string>,
    tlsEnableHostnameVerification: Option<bool>,
    help: bool)

  /** The parser's verdict on the global flags. A failed parse may already have
      assigned the flags it read before the failing one. */
  datatype ParseResult = Parsed(given: Assignments) | ParseError(given: Assignments)

  /** Nothing assigned: the parse of an empty flag list. */
  const NoAssignments := Assignments(None, None, None, None, None, None, false)

  /** A flag that was given replaces the field; a flag that was not keeps it. */
  function Assign<T>(field: Option<T>, given: Option<T>): (r: Option<T>)
    ensures given.Some? ==> r == given
    ensures given.None? ==> r == field
  {
    if given.Some? then given else field
  }

  /** The fields after a parse: every given flag wins, every other field keeps its value,
      and help, once set, stays set. */
  function ApplyAssignments(opts: Options, a: Assignments): (r: Options)
    ensures r.serviceUrl == Assign(opts.serviceUrl, a.adminUrl)
    ensures r.authPluginClassName == Assign(opts.authPluginClassName, a.authPlugin)
    ensures r.authParams == Assign(opts.authParams, a.authParams)
    ensures r.tlsAllowInsecureConnection == Assign(opts.tlsAllowInsecureConnection, a.tlsAllowInsecure)
    ensures r.tlsTrustCertsFilePath == Assign(opts.tlsTrustCertsFilePath, a.tlsTrustCertPath)
    ensures r.tlsEnableHostnameVerification == Assign(opts.tlsEnableHostnameVerification, a.tlsEnableHostnameVerification)
    ensures r.help <==> opts.help || a.help
  {
    Options(
      Assign(opts.serviceUrl, a.adminUrl),
      Assign(opts.authPluginClassName, a.authPlugin),
      Assign(opts.authParams, a.authParams),
      Assign(opts.tlsAllowInsecureConnection, a.tlsAllowInsecure),
      Assign(opts.tlsTrustCertsFilePath, a.tlsTrustCertPath),
      Assign(opts.tlsEnableHostnameVerification, a.tlsEnableHostnameVerification),
      if a.help then true else opts.help)
  }

  /** An empty parse changes nothing. */
  lemma ApplyNothing(opts: Options)
    ensures ApplyAssignments(opts, NoAssignments) == opts
  {
  }

  /** The service URL: the legacy `webServiceUrl` property when it is not blank,
      otherwise the `serviceUrl` property, which may be absent. */
  function ResolveServiceUrl(props: Properties): (url: Option<string>)
    ensures ("webServiceUrl" in props && !IsBlank(Some(props["webServiceUrl"])))
      ==> url == Some(props["webServiceUrl"])
    ensures ("webServiceUrl" !in props || IsBlank(Some(props["webServiceUrl"])))
      ==> url == (if "serviceUrl" in props then Some(props["serviceUrl"]) else None)
    ensures url.Some? ==> url.value in props.Values
  {
    if !IsBlank(GetProperty(props, "webServiceUrl"))
    then GetProperty(props, "webServiceUrl")
    else GetProperty(props, "serviceUrl")
  }

  /** A TLS switch: a given override wins; otherwise the property read with
      `parseBoolean` and default "false", so a missing key is false, never an error. */
  function ResolveTlsFlag(override: Option<bool>, props: Properties, key: string): (on: bool)
    ensures override.Some? ==> on == override.value
    ensures override.None? && key !in props ==> !on
    ensures override.None? && key in props ==> (on <==> LowerAscii(props[key]) == "true")
  {
    if override.Some? then override.value
    else ParseBoolean(GetPropertyOr(props, key, "false"))
  }

  /** The trust-certificate path: a non-blank override wins, otherwise the property. */
  function ResolveTrustCertsPath(override: Option<string>, props: Properties): (path: Option<string>)
    ensures !IsBlank(override) ==> path == override
    ensures IsBlank(override) ==> path == GetProperty(props, "tlsTrustCertsFilePath")
    ensures path.None? ==> IsBlank(override) && "tlsTrustCertsFilePath" !in props
  {
    if !IsBlank(override) then override else GetProperty(props, "tlsTrustCertsFilePath")
  }

  /** Key-store TLS: on only when the property reads "true" in some letter case. */
  function ResolveUseKeyStoreTls(props: Properties): (on: bool)
    ensures "useKeyStoreTls" !in props ==> !on
    ensures on <==> "useKeyStoreTls" in props && LowerAscii(props["useKeyStoreTls"]) == "true"
  {
    ParseBoolean(GetPropertyOr(props, "useKeyStoreTls", "false"))
  }

  /** The trust-store type: "JKS" when the key is absent; a present value is kept as is,
      even an empty one. */
  function ResolveTrustStoreType(props: Properties): (kind: string)
    ensures "tlsTrustStoreType" !in props ==> kind == "JKS"
    ensures "tlsTrustStoreType" in props ==> kind == props["tlsTrustStoreType"]
  {
    GetPropertyOr(props, "tlsTrustStoreType", "JKS")
  }

  /** The builder as the constructor leaves it: TLS settings resolved from the properties
      and the three TLS override fields as they are at that moment; the URL and the
      authentication are not set yet. */
  function ConstructedBuilder(props: Properties, opts: Options): BuilderSettings {
    BuilderSettings(
      ResolveTlsFlag(opts.tlsAllowInsecureConnection, props, "tlsAllowInsecureConnection"),
      ResolveTlsFlag(opts.tlsEnableHostnameVerification, props, "tlsEnableHostnameVerification"),
      ResolveTrustCertsPath(opts.tlsTrustCertsFilePath, props),
      ResolveUseKeyStoreTls(props),
      ResolveTrustStoreType(props),
      GetProperty(props, "tlsTrustStorePath"),
      GetProperty(props, "tlsTrustStorePassword"),
      None, None, None)
  }

  /** The flag fields as the constructor leaves them: URL and authentication from the
      properties, no TLS override (nothing has been parsed yet), no help. */
  function ConstructedOptions(props: Properties): (o: Options)
    ensures o.serviceUrl == ResolveServiceUrl(props)
    ensures o.authPluginClassName == GetProperty(props, "authPlugin")
    ensures o.authParams == GetProperty(props, "authParams")
    ensures o.tlsAllowInsecureConnection == None && o.tlsTrustCertsFilePath == None
    ensures o.tlsEnableHostnameVerification == None && !o.help
  {
    Options(ResolveServiceUrl(props), GetProperty(props, "authPlugin"), GetProperty(props, "authParams"),
            None, None, None, false)
  }

  /** The builder after `setupCommands` fills in the URL and the authentication from
      the current flag fields. */
  function SetupBuilder(builder: BuilderSettings, opts: Options): BuilderSettings {
    builder.(serviceHttpUrl := opts.serviceUrl,
             authPluginClassName := opts.authPluginClassName,
             authParams := opts.authParams)
  }

  /** Every TLS setting of the constructed builder comes from the properties alone:
      with no override at construction time the defaults are "false", "false", the
      property path, "false" and "JKS". */
  lemma ConstructedTlsDefaults(props: Properties)
    ensures var b := ConstructedBuilder(props, ConstructedOptions(props));
      && (b.allowTlsInsecureConnection <==>
            "tlsAllowInsecureConnection" in props && LowerAscii(props["tlsAllowInsecureConnection"]) == "true")
      && (b.enableTlsHostnameVerification <==>
            "tlsEnableHostnameVerification" in props && LowerAscii(props["tlsEnableHostnameVerification"]) == "true")
      && b.tlsTrustCertsFilePath == GetProperty(props, "tlsTrustCertsFilePath")
      && (props == map[] ==> !b.allowTlsInsecureConnection && !b.enableTlsHostnameVerification
                             && !b.useKeyStoreTls && b.tlsTrustStoreType == "JKS"
                             && b.tlsTrustCertsFilePath.None? && b.tlsTrustStorePath.None?
                             && b.tlsTrustStorePassword.None?)
  {
  }

  /** `setupCommands` changes the URL and the authentication only: the TLS settings the
      factory sees are the constructor's, whatever the flag fields say by then. */
  lemma SetupKeepsTls(builder: BuilderSettings, opts: Options)
    ensures var b := SetupBuilder(builder, opts);
      && b.serviceHttpUrl == opts.serviceUrl
      && b.authPluginClassName == opts.authPluginClassName
      && b.authParams == opts.authParams
      && b.(serviceHttpUrl := builder.serviceHttpUrl,
            authPluginClassName := builder.authPluginClassName,
            authParams := builder.authParams) == builder
  {
  }
}
