/**
 * The argument splitter and the dispatch decision of `run`, and the local-run test of `main`.
 */
module Dispatch {
  import opened JavaLang
  import opened AdminConfig
  import opened Commands

  /** The first index at or after `start` whose token is a command key, or `|args|` when
      there is none. */
  function CommandPosition(args: seq<string>, keys: set<string>, start: nat): (pos: nat)
    requires start <= |args|
    ensures start <= pos <= |args|
    ensures forall i | start <= i < pos :: args[i] !in keys
    ensures pos < |args| ==> args[pos] in keys
    decreases |args| - start
  {
    if start == |args| then start
    else if args[start] in keys then start
    else CommandPosition(args, keys, start + 1)
  }

  /** The scan of `run` (from index 0) and of `main` (from index 1). */
  method FindCommand(args: seq<string>, keys: set<string>, start: nat) returns (pos: nat)
    requires start <= |args|
    ensures pos == CommandPosition(args, keys, start)
  {
    pos := start;
    while pos < |args|
      invariant start <= pos <= |args|
      invariant CommandPosition(args, keys, pos) == CommandPosition(args, keys, start)
    {
      if args[pos] in keys {
        break;
      }
      pos := pos + 1;
    }
  }

  /** The global flags: the arguments before the first command token. */
  function GlobalArgs(args: seq<string>, keys: set<string>): (g: seq<string>)
    ensures |g| <= |args| && g == args[..|g|]
    ensures forall i | 0 <= i < |g| :: g[i] !in keys
    ensures |g| < |args| ==> args[|g|] in keys
  {
    args[..CommandPosition(args, keys, 0)]
  }

  /** What `run` does once the handlers are set up: print usage and report success or
      failure, or run the named command's handler on the given arguments. */
  datatype Decision = ShowUsage(success: bool) | Dispatch(command: string, commandArgs: seq<string>)

  /** The flag fields after `run` has parsed the global flags (not parsed at all when
      there are no arguments). */
  function ParsedOptions(opts: Options, keys: set<string>, args: seq<string>,
                         parse: seq<string> -> ParseResult): Options
  {
    if |args| == 0 then opts
    else ApplyAssignments(opts, parse(GlobalArgs(args, keys)).given)
  }

  /** The decision of `run`, in the source's order: no arguments, a parse failure,
      help, no command token, and otherwise the command found. */
  function Decide(opts: Options, keys: set<string>, args: seq<string>,
                  parse: seq<string> -> ParseResult): Decision
  {
    if |args| == 0 then ShowUsage(false)
    else
      var pos := CommandPosition(args, keys, 0);
      var result := parse(args[..pos]);
      if result.ParseError? then ShowUsage(false)
      else if ApplyAssignments(opts, result.given).help then ShowUsage(true)
      else if pos == |args| then ShowUsage(false)
      else Dispatch(CanonicalName(args[pos]), args[pos + 1..])
  }

  /** `main`'s local-run test: the token right after the first command token found from
      index 1 on reads "localrun" in any letter case. */
  predicate IsLocalRun(args: seq<string>, keys: set<string>)
    requires 1 <= |args|
  {
    var next := CommandPosition(args, keys, 1) + 1;
    next < |args| && LowerAscii(args[next]) == "localrun"
  }

  /** The split point is determined by its three properties: no earlier token is a key,
      and it is the end or a key itself. */
  lemma {:induction false} CommandPositionUnique(args: seq<string>, keys: set<string>, start: nat, p: nat)
    requires start <= p <= |args|
    requires forall i | start <= i < p :: args[i] !in keys
    requires p < |args| ==> args[p] in keys
    ensures CommandPosition(args, keys, start) == p
    decreases p - start
  {
    if start < p {
      CommandPositionUnique(args, keys, start + 1, p);
    }
  }

  /** Scanning from index `start + 1` finds the token one place later than scanning the
      arguments without their first one from `start`. */
  lemma {:induction false} CommandPositionShift(args: seq<string>, keys: set<string>, start: nat)
    requires start + 1 <= |args|
    ensures CommandPosition(args, keys, start + 1) == 1 + CommandPosition(args[1..], keys, start)
    decreases |args| - start
  {
    if start + 1 < |args| && args[start + 1] !in keys {
      assert args[1..][start] == args[start + 1];
      CommandPositionShift(args, keys, start + 1);
    }
  }

  /** When a command is dispatched, it is the first command token: the global flags,
      that token and the handler's arguments concatenate back to the arguments, no global
      flag is a command key, and only `source` and `sink` are renamed. */
  lemma DispatchSplitsArguments(opts: Options, keys: set<string>, args: seq<string>,
                                parse: seq<string> -> ParseResult)
    requires Decide(opts, keys, args, parse).Dispatch?
    ensures var d := Decide(opts, keys, args, parse);
      var pos := |GlobalArgs(args, keys)|;
      && pos < |args|
      && args[pos] in keys
      && GlobalArgs(args, keys) + [args[pos]] + d.commandArgs == args
      && (forall t | t in GlobalArgs(args, keys) :: t !in keys)
      && d.command == CanonicalName(args[pos])
      && (d.command == args[pos] || args[pos] in {"source", "sink"})
  {
    var pos := CommandPosition(args, keys, 0);
    assert args[..pos] + [args[pos]] + args[pos + 1..] == args;
    forall t | t in GlobalArgs(args, keys) ensures t !in keys {
      var i :| 0 <= i < pos && args[..pos][i] == t;
    }
  }

  /** The whole decision, as the source orders it. */
  lemma DecisionOrder(opts: Options, keys: set<string>, args: seq<string>,
                      parse: seq<string> -> ParseResult)
    ensures var d := Decide(opts, keys, args, parse);
      var global := args[..CommandPosition(args, keys, 0)];
      && (|args| == 0 ==> d == ShowUsage(false))
      && (|args| > 0 && parse(global).ParseError? ==> d == ShowUsage(false))
      && ((|args| > 0 && parse(global).Parsed? && (opts.help || parse(global).given.help))
          ==> d == ShowUsage(true))
      && (d.Dispatch? <==> |args| > 0 && parse(global).Parsed? && !opts.help
                           && !parse(global).given.help && (exists t | t in args :: t in keys))
      && (d == ShowUsage(true) <==> |args| > 0 && parse(global).Parsed?
                                    && (opts.help || parse(global).given.help))
  {
    var pos := CommandPosition(args, keys, 0);
    if pos < |args| {
      assert args[pos] in args;
    } else {
      forall t | t in args ensures t !in keys {
        var i :| 0 <= i < |args| && args[i] == t;
      }
    }
  }

  /** Help succeeds whatever follows the flags: a command, or nothing at all. */
  lemma HelpWinsWhateverFollows(opts: Options, keys: set<string>, flags: seq<string>, rest: seq<string>,
                                parse: seq<string> -> ParseResult)
    requires forall t | t in flags :: t !in keys
    requires rest == [] || rest[0] in keys
    requires flags + rest != []
    requires parse(flags).Parsed? && parse(flags).given.help
    ensures Decide(opts, keys, flags + rest, parse) == ShowUsage(true)
  {
    var args := flags + rest;
    forall i | 0 <= i < |flags| ensures args[i] !in keys {
      assert args[i] == flags[i];
    }
    CommandPositionUnique(args, keys, 0, |flags|);
    assert args[..|flags|] == flags;
  }

  /** `main` looks at the token after the very command that `run` dispatches: `run` gets
      the arguments without the configuration file, and its split point is `main`'s, one
      place earlier. */
  lemma LocalRunLooksAfterDispatchedCommand(args: seq<string>, keys: set<string>)
    requires 1 <= |args|
    ensures var runArgs := args[1..];
      var pos := CommandPosition(runArgs, keys, 0);
      IsLocalRun(args, keys) <==> pos + 1 < |runArgs| && LowerAscii(runArgs[pos + 1]) == "localrun"
  {
    CommandPositionShift(args, keys, 0);
  }

  /** Index `i` holds the first command token found from index `from` on. */
  ghost predicate FirstCommandAt(args: seq<string>, keys: set<string>, from: nat, i: nat) {
    from <= i < |args| && args[i] in keys && forall j | from <= j < i :: args[j] !in keys
  }

  /** Local-run mode holds exactly when some command token at index 1 or later is the
      first one there and the token after it reads "localrun" in any letter case. */
  lemma LocalRunIff(args: seq<string>, keys: set<string>)
    requires 1 <= |args|
    ensures IsLocalRun(args, keys) <==>
      exists i: nat | FirstCommandAt(args, keys, 1, i) :: i + 1 < |args| && LowerAscii(args[i + 1]) == "localrun"
  {
    var pos := CommandPosition(args, keys, 1);
    if IsLocalRun(args, keys) {
      assert FirstCommandAt(args, keys, 1, pos);
    }
    if exists i: nat | FirstCommandAt(args, keys, 1, i) :: i + 1 < |args| && LowerAscii(args[i + 1]) == "localrun" {
      var i: nat :| FirstCommandAt(args, keys, 1, i) && i + 1 < |args| && LowerAscii(args[i + 1]) == "localrun";
      CommandPositionUnique(args, keys, 1, i);
    }
  }

  /** Without a command token from index 1 on, local-run mode is never chosen, even when
      "localrun" itself is among the arguments. */
  lemma NoCommandNoLocalRun(args: seq<string>, keys: set<string>)
    requires 1 <= |args|
    requires forall i | 1 <= i < |args| :: args[i] !in keys
    ensures !IsLocalRun(args, keys)
  {
    CommandPositionUnique(args, keys, 1, |args|);
  }
}
