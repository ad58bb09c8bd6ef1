/** The exceptions the bootstrapper throws, as values. */
module Failures {
  import opened Strings

  /**
   * The messages the bootstrapper's exceptions carry, by name; `Text`
   * gives the wording of each.
   */
  datatype Message =
    | NicAddressRequired
    | ZonesNotAllowed
    | LookupGroupRequired
    | UnknownHost
    | AgentAlreadyRunning
    | ServiceRunning(serviceName: string)
    | ManagementRunning
    | ShutdownFailed
    | OperationTimedOut

  function Text(m: Message): string {
    match m
    case NicAddressRequired => "nicAddress cannot be null"
    case ZonesNotAllowed => "Local-cloud does not use zones"
    case LookupGroupRequired => "Admin lookup group must be set"
    case UnknownHost => "UnknownHostException"
    case AgentAlreadyRunning => "Agent already running on local machine."
    case ServiceRunning(name) =>
      "Cannot shutdown agent since " + name + " service is still running on this machine. Use -force flag."
    case ManagementRunning =>
      "Cannot shutdown agent since management processes running on this machine. "
      + "Use the shutdown-management command instead."
    case ShutdownFailed => "Failed to shutdown GSA"
    case OperationTimedOut => "The operation timed out waiting for the agent to start"
  }

  /**
   * The refusal for a running service quotes the processing unit's name
   * right after its fixed opening, so two such texts are equal only for the
   * same processing unit.
   */
  lemma ServiceRunningTextNamesUnit(a: string, b: string)
    ensures var opening := "Cannot shutdown agent since ";
            Text(ServiceRunning(a))[|opening|..|opening| + |a|] == a
    ensures Text(ServiceRunning(a)) == Text(ServiceRunning(b)) ==> a == b
  {
    var opening, closing := "Cannot shutdown agent since ", " service is still running on this machine. Use -force flag.";
    assert Text(ServiceRunning(a)) == opening + a + closing;
    assert Text(ServiceRunning(b)) == opening + b + closing;
    assert (opening + a + closing)[|opening|..|opening| + |a|] == a;
    assert (opening + b + closing)[|opening|..|opening| + |b|] == b;
  }

  /** The message-bundle keys of the CLIStatusExceptions; `Key` gives each key. */
  datatype Reason = FailedToAccessRest | AppsDeployed | FailedToUninstallApp | AgentNotFound

  function Key(r: Reason): string {
    match r
    case FailedToAccessRest => "failed_to_access_rest_before_teardown"
    case AppsDeployed => "apps_deployed_before_teardown_localcloud"
    case FailedToUninstallApp => "failed_to_uninstall_app_before_teardown"
    case AgentNotFound => "teardown_failed_agent_not_found"
  }

  datatype Failure =
      /** IllegalStateException with its message. */
    | IllegalState(message: Message)
      /** CLIException with its message. */
    | CliError(message: Message)
      /** CLIStatusException: a message-bundle key and its arguments. */
    | CliStatus(reason: Reason, args: seq<string>)
      /** TimeoutException raised by a condition latch. */
    | TimedOut(message: Message)
      /** AdminException raised when the agent refuses the shutdown call. */
    | AdminError(message: Message)

  datatype Result<+T> = Ok(value: T) | Err(failure: Failure)

  /** Normal completion of a void operation, or the exception it threw. */
  datatype Outcome = Done | Failed(failure: Failure)

  /** java.util.AbstractCollection.toString of a list of strings: "[a, b, c]". */
  function ListToString(items: seq<string>): string {
    "[" + Join(items, ", ") + "]"
  }
}
