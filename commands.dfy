/**
 * The command table of the admin tool and what registering it with the parser
 * produces, with and without an admin client.
 */
module Commands {
  import opened Wrappers

  /** The handler classes the table names. */
  datatype CommandClass =
    | CmdClusters | CmdNamespaceIsolationPolicy | CmdBrokers | CmdBrokerStats
    | CmdTenants | CmdProperties | CmdNamespaces | CmdTopics | CmdSchemas | CmdBookies
    | CmdPersistentTopics | CmdNonPersistentTopics | CmdResourceQuotas | CmdProxyStats
    | CmdFunctions | CmdFunctionWorker | CmdSources | CmdSinks | CmdGenerateDocument

  /** An admin client built by the builder; its behaviour is not modelled. */
  datatype AdminHandle = AdminHandle(id: nat)

  /** A handler object: its class, constructed with the admin client or with null. */
  datatype Handler = Handler(cls: CommandClass, admin: Option<AdminHandle>)

  /** A command as registered with the parser: its handler and its aliases. */
  datatype Command = Command(handler: Handler, aliases: seq<string>)

  /** The command keys and their classes, including the deprecated `properties`, the hidden
      `persistent` and `non-persistent`, and the backward-compatible `source` and `sink`. */
  function CommandTable(): map<string, CommandClass> {
    map[
      "clusters" := CmdClusters,
      "ns-isolation-policy" := CmdNamespaceIsolationPolicy,
      "brokers" := CmdBrokers,
      "broker-stats" := CmdBrokerStats,
      "tenants" := CmdTenants,
      "properties" := CmdProperties,
      "namespaces" := CmdNamespaces,
      "topics" := CmdTopics,
      "schemas" := CmdSchemas,
      "bookies" := CmdBookies,
      "persistent" := CmdPersistentTopics,
      "non-persistent" := CmdNonPersistentTopics,
      "resource-quotas" := CmdResourceQuotas,
      "proxy-stats" := CmdProxyStats,
      "functions" := CmdFunctions,
      "functions-worker" := CmdFunctionWorker,
      "sources" := CmdSources,
      "sinks" := CmdSinks,
      "documents" := CmdGenerateDocument,
      "source" := CmdSources,
      "sink" := CmdSinks
    ]
  }

  /** The name a command token is registered and looked up under: the singular
      `source` and `sink` stand for `sources` and `sinks`; every other token is its own name. */
  function CanonicalName(token: string): (name: string)
    ensures name != token <==> token == "source" || token == "sink"
    ensures token == "source" ==> name == "sources"
    ensures token == "sink" ==> name == "sinks"
    ensures name != "source" && name != "sink"
  {
    if token == "source" then "sources"
    else if token == "sink" then "sinks"
    else token
  }

  /** The aliases registered beside a canonical name. */
  function Aliases(name: string): seq<string> {
    if name == "sources" then ["source"]
    else if name == "sinks" then ["sink"]
    else []
  }

  /** The commands that are registered even without an admin client (local-run mode). */
  const LocalRunCommands: set<string> := {"functions", "sources", "sinks"}

  /** Whether the command registered under `name` is added: always with an admin
      client, and without one only for functions, sources and sinks. */
  predicate IsRegistered(name: string, admin: Option<AdminHandle>) {
    admin.Some? || name in LocalRunCommands
  }

  /** A table in which an alias key comes with its plural key, of the same class,
      so that a key and its alias register the same command. */
  ghost predicate WellFormed(cm: map<string, CommandClass>) {
    && ("source" in cm ==> "sources" in cm && cm["sources"] == cm["source"])
    && ("sink" in cm ==> "sinks" in cm && cm["sinks"] == cm["sink"])
  }

  /** In a well-formed table every key's canonical name is a key of the same class. */
  lemma CanonicalKeyInTable(cm: map<string, CommandClass>, k: string)
    requires WellFormed(cm) && k in cm
    ensures CanonicalName(k) in cm && cm[CanonicalName(k)] == cm[k]
  {
  }

  /** The names registered when the entries with keys `keys` have been added. */
  ghost function RegisteredNames(keys: set<string>, admin: Option<AdminHandle>): set<string> {
    set k | k in keys && IsRegistered(CanonicalName(k), admin) :: CanonicalName(k)
  }

  /** The command registered under a name, built from the table entry of that name. */
  function CommandFor(cm: map<string, CommandClass>, name: string, admin: Option<AdminHandle>): Command
    requires name in cm
  {
    Command(Handler(cm[name], admin), Aliases(name))
  }

  /** The parser's commands once every entry of the table has been added, in any order. */
  ghost function RegisteredCommands(cm: map<string, CommandClass>, admin: Option<AdminHandle>): (r: map<string, Command>)
    requires WellFormed(cm)
    ensures r.Keys == RegisteredNames(cm.Keys, admin)
  {
    map n | n in RegisteredNames(cm.Keys, admin) :: CommandFor(cm, n, admin)
  }

  /** Every command registered from a well-formed table sits under a key of the table that
      is not a singular alias, with a handler of that key's class and that key's aliases. */
  lemma RegisteredCommandEntry(cm: map<string, CommandClass>, admin: Option<AdminHandle>, n: string)
    requires WellFormed(cm) && n in RegisteredCommands(cm, admin)
    ensures n in cm && n != "source" && n != "sink" && IsRegistered(n, admin)
    ensures RegisteredCommands(cm, admin)[n] == Command(Handler(cm[n], admin), Aliases(n))
  {
  }

  /** The fixed table is well formed: `source` and `sink` name the classes of `sources` and `sinks`. */
  lemma CommandTableWellFormed()
    ensures WellFormed(CommandTable())
  {
  }

  /** A key of a well-formed table, once registered, dispatches to a handler of that
      key's own class, constructed with the admin client the registration used. */
  lemma RegisteredKeyDispatches(cm: map<string, CommandClass>, k: string, admin: Option<AdminHandle>)
    requires WellFormed(cm) && k in cm && IsRegistered(CanonicalName(k), admin)
    ensures CanonicalName(k) in RegisteredCommands(cm, admin)
    ensures RegisteredCommands(cm, admin)[CanonicalName(k)].handler == Handler(cm[k], admin)
  {
    assert CanonicalName(k) in RegisteredNames(cm.Keys, admin);
  }

  /** Without an admin client exactly functions, sources and sinks are registered. */
  lemma NullAdminRegistersLocalRunCommands()
    ensures WellFormed(CommandTable())
    ensures RegisteredCommands(CommandTable(), None).Keys == LocalRunCommands
  {
    CommandTableWellFormed();
    var cm := CommandTable();
    assert "functions" == CanonicalName("functions");
    assert "sources" == CanonicalName("sources");
    assert "sinks" == CanonicalName("sinks");
    assert "functions" in RegisteredNames(cm.Keys, None);
    assert "sources" in RegisteredNames(cm.Keys, None);
    assert "sinks" in RegisteredNames(cm.Keys, None);
  }

  /** With an admin client every key of the table is registered under its canonical
      name, so the registered names are the keys less the two singular aliases. */
  lemma AdminRegistersEveryCommand(a: AdminHandle)
    ensures WellFormed(CommandTable())
    ensures RegisteredCommands(CommandTable(), Some(a)).Keys == CommandTable().Keys - {"source", "sink"}
  {
    CommandTableWellFormed();
    var cm := CommandTable();
    var names := RegisteredNames(cm.Keys, Some(a));
    forall k | k in cm.Keys - {"source", "sink"}
      ensures k in names
    {
      assert CanonicalName(k) == k;
    }
  }

  /** Both the singular alias and the plural name reach one command, the plural one,
      whose handler is of the plural key's class and carries the alias. */
  lemma AliasesShareOneCommand(admin: Option<AdminHandle>)
    ensures WellFormed(CommandTable())
    ensures var regs := RegisteredCommands(CommandTable(), admin);
      && CanonicalName("source") == CanonicalName("sources") == "sources"
      && CanonicalName("sink") == CanonicalName("sinks") == "sinks"
      && regs["sources"] == Command(Handler(CmdSources, admin), ["source"])
      && regs["sinks"] == Command(Handler(CmdSinks, admin), ["sink"])
  {
    CommandTableWellFormed();
    var cm := CommandTable();
    assert "sources" in RegisteredNames(cm.Keys, admin) by { assert CanonicalName("sources") == "sources"; }
    assert "sinks" in RegisteredNames(cm.Keys, admin) by { assert CanonicalName("sinks") == "sinks"; }
  }
}
