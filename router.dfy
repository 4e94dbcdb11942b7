/**
 * Command routing: the pre-parse rule of the `service` group that lets a
 * service name come before the subcommand, and the two group callbacks that
 * decide, before any subcommand runs, whether the invocation may proceed.
 */
module Router {
  import opened Wrappers
  import opened Json
  import opened Responses

  /** Subcommands of the `service` group. */
  const ServiceCommands: set<string> :=
    {"list-all", "status", "add", "remove", "rename", "top-up", "auto-recharge", "subscribe"}

  /**
   * `Group.parse_args`: when the first token is a subcommand and is not
   * followed by another subcommand, an empty service-name placeholder is
   * inserted in front of it; otherwise the first token stays where the
   * optional service-name argument will bind it.
   */
  method ParseArgs(commands: set<string>, args: seq<string>) returns (parsed: seq<string>)
    ensures parsed == args || parsed == [""] + args
    ensures parsed == [""] + args <==>
              |args| > 0 && args[0] in commands && (|args| == 1 || args[1] !in commands)
  {
    parsed := args;
    if |parsed| > 0 && parsed[0] in commands && (|parsed| == 1 || parsed[1] !in commands) {
      parsed := [""] + parsed;
    }
  }

  /** What click makes of the pre-parsed tokens: the optional service name, then the subcommand. */
  datatype Invocation = Invocation(serviceName: Option<string>, subcommand: Option<string>, rest: seq<string>)

  function Bind(parsed: seq<string>): Invocation {
    if parsed == [] then Invocation(None, None, [])
    else if |parsed| == 1 then Invocation(Some(parsed[0]), None, [])
    else Invocation(Some(parsed[0]), Some(parsed[1]), parsed[2..])
  }

  /**
   * How the tokens after `service` are understood: a first token that names a
   * subcommand is that subcommand (with an empty, hence absent, service name)
   * unless a second subcommand follows it; any other first token is the
   * service name.
   */
  lemma ServiceArgsResolution(commands: set<string>, args: seq<string>, parsed: seq<string>)
    requires parsed == args || parsed == [""] + args
    requires parsed == [""] + args <==>
               |args| > 0 && args[0] in commands && (|args| == 1 || args[1] !in commands)
    ensures args == [] ==> Bind(parsed) == Invocation(None, None, [])
    ensures |args| > 0 && args[0] in commands && (|args| == 1 || args[1] !in commands) ==>
              Bind(parsed) == Invocation(Some(""), Some(args[0]), args[1..])
    ensures |args| > 0 && (args[0] !in commands || (|args| > 1 && args[1] in commands)) ==>
              Bind(parsed).serviceName == Some(args[0]) &&
              Bind(parsed).subcommand == (if |args| > 1 then Some(args[1]) else None)
  {
    if |args| > 0 && args[0] in commands && (|args| == 1 || args[1] !in commands) {
      assert parsed[2..] == args[1..];
    } else {
      assert parsed == args;
    }
  }

  /** Python truthiness of the optional service-name argument. */
  predicate Named(name: Option<string>) {
    name.Some? && name.value != ""
  }

  /** What the top-level callback lets happen. */
  datatype TopAction = InvokeService | InvokeSignup | RunSubcommand

  /**
   * The top-level callback: with no subcommand, the service view if signed up
   * and signup otherwise; any subcommand but `signup` needs a prior signup;
   * signing up again needs the user's confirmation.
   */
  function TopLevelDispatch(signedUp: bool, invoked: Option<string>, confirmed: bool): (r: Result<TopAction>)
    ensures invoked.None? ==> r == Ok(if signedUp then InvokeService else InvokeSignup)
    ensures r == Ok(RunSubcommand) <==>
              invoked.Some? && (if invoked.value == "signup" then !signedUp || confirmed else signedUp)
    ensures r.Err? ==> invoked.Some? && (r.failure.Fatal? <==> !signedUp) && (r.failure == Aborted <==> signedUp)
  {
    if invoked.None? then Ok(if signedUp then InvokeService else InvokeSignup)
    else if invoked.value != "signup" && !signedUp then Err(Fatal(JStr("You have to sign up first")))
    else if invoked.value == "signup" && signedUp && !confirmed then Err(Aborted)
    else Ok(RunSubcommand)
  }

  /** What the `service` group callback lets happen. */
  datatype ServiceAction = RunStatus | RunListAll | RunInvoked

  /** The subcommands that work without an existing service. */
  predicate NeedsNoService(invoked: Option<string>) {
    invoked == Some("add") || invoked == Some("list-all")
  }

  /**
   * The `service` group callback. The decisive guarantee: whenever it lets a
   * subcommand other than `add` and `list-all` run, or defaults to `status`,
   * the service name is present and names an existing service.
   */
  function ServiceDispatch(name: Option<string>, invoked: Option<string>, services: set<string>): (r: Result<ServiceAction>)
    ensures r == Ok(RunStatus) <==> Named(name) && name.value in services && invoked.None?
    ensures r == Ok(RunListAll) <==> !Named(name) && invoked.None?
    ensures r == Ok(RunInvoked) ==> invoked.Some?
    ensures r == Ok(RunInvoked) && !NeedsNoService(invoked) ==> Named(name) && name.value in services
    ensures NeedsNoService(invoked) ==> r == Ok(RunInvoked)
    ensures r.Err? ==> r.failure.Fatal? && !NeedsNoService(invoked)
    ensures r.Err? <==> !NeedsNoService(invoked) &&
                        (if Named(name) then name.value !in services else invoked.Some?)
  {
    if Named(name) then
      if !NeedsNoService(invoked) && name.value !in services then
        Err(Fatal(JStr("You don't have a service with the name \"" + name.value + "\"")))
      else if invoked.None? then Ok(RunStatus)
      else Ok(RunInvoked)
    else
      if invoked.Some? && !NeedsNoService(invoked) then Err(Fatal(JStr("You must specify a service")))
      else if invoked.None? then Ok(RunListAll)
      else Ok(RunInvoked)
  }

  /** `service mysvc status` runs `status` on `mysvc`; `service status` has no service and fails. */
  lemma ServiceExamples(services: set<string>)
    requires "mysvc" in services
    ensures "mysvc" !in ServiceCommands
    ensures Bind(["mysvc", "status"]) == Invocation(Some("mysvc"), Some("status"), [])
    ensures ServiceDispatch(Some("mysvc"), Some("status"), services) == Ok(RunInvoked)
    ensures Bind([""] + ["status"]) == Invocation(Some(""), Some("status"), [])
    ensures ServiceDispatch(Some(""), Some("status"), services).Err?
    ensures ServiceDispatch(None, None, services) == Ok(RunListAll)
  {
  }
}
