/**
 * LocalhostGridAgentBootstrapper: the object that starts and tears down the
 * agent and management processes on this machine. Its fields are set by
 * the CLI and filled in with defaults before a local cloud is started or
 * torn down; the decisions of teardown (is there an agent of ours, may it
 * be shut down) are taken on snapshots of the admin view.
 *
 * The defaulting steps are specified as functions over a value copy of the
 * fields (`Fields`), the methods of the class are proved against them.
 */
module Bootstrapper {
  import opened Wrappers
  import opened Strings
  import opened AdminSnapshot
  import opened AgentMatching
  import opened ShutdownGuard
  import opened Failures
  import opened LookupSettings
  import opened LaunchOptions
  import opened ApplicationTeardown
  import opened ApplicationValidation

  /** The lookup group of every local cloud. */
  const LocalcloudLookupGroup := "localcloud"

  /** The mutable fields of the bootstrapper, as a value. */
  datatype Fields = Fields(
    verbose: bool,
    lookupGroups: Option<string>,
    lookupLocators: Option<string>,
    nicAddress: Option<string>,
    zone: Option<string>,
    progressInSeconds: int,
    noWebServices: bool,
    noManagementSpace: bool,
    notHighlyAvailableManagementSpace: bool,
    lusPort: int,
    autoShutdown: bool,
    waitForWebUi: bool,
    cloudContents: Option<string>,
    force: bool)

  /** The outcome of a step together with the fields it leaves behind. */
  datatype Step = Step(outcome: Outcome, fields: Fields)

  /**
   * setDefaultNicAddress. `hostAddress` is the local host address lookup;
   * None is its UnknownHostException, which becomes a CLIException.
   */
  function DefaultNicAddress(f: Fields, hostAddress: Option<string>): Step {
    if f.nicAddress.Some? then Step(Done, f)
    else if hostAddress.None? then Step(Failed(CliError(UnknownHost)), f)
    else Step(Done, f.(nicAddress := hostAddress))
  }

  /**
   * A NIC address the user set is kept; otherwise the host address is
   * taken, and the step fails, changing nothing, only when there is none.
   */
  lemma DefaultNicAddressPromises(f: Fields, hostAddress: Option<string>)
    ensures DefaultNicAddress(f, hostAddress).outcome.Failed? <==> f.nicAddress.None? && hostAddress.None?
    ensures DefaultNicAddress(f, hostAddress).outcome.Failed? ==> DefaultNicAddress(f, hostAddress).fields == f
    ensures DefaultNicAddress(f, hostAddress).outcome == Done ==>
              DefaultNicAddress(f, hostAddress).fields
              == f.(nicAddress := if f.nicAddress.Some? then f.nicAddress else hostAddress)
              && DefaultNicAddress(f, hostAddress).fields.nicAddress.Some?
  {
  }

  /**
   * setDefaultLocalcloudLookup: a zone is refused; otherwise the LUS port
   * becomes the local cloud's, and the locators and groups not set by the
   * user get the local cloud's. The port is already changed when the
   * locators cannot be derived for lack of a NIC address.
   */
  function DefaultLocalcloudLookup(f: Fields, localcloudLusPort: int): Step {
    if f.zone.Some? then Step(Failed(IllegalState(ZonesNotAllowed)), f)
    else
      var locators := if f.lookupLocators.Some? then Ok(f.lookupLocators.value)
                      else GetLocalcloudLookupLocators(f.nicAddress, localcloudLusPort);
      if locators.Err? then Step(Failed(locators.failure), f.(lusPort := localcloudLusPort))
      else Step(Done, f.(lusPort := localcloudLusPort, lookupLocators := Some(locators.value),
                         lookupGroups := Some(f.lookupGroups.GetOr(LocalcloudLookupGroup))))
  }

  /**
   * The local-cloud lookup fails exactly for a zone or for missing locators
   * without a NIC address; on success the port is the local cloud's, the
   * user's groups and locators are kept, the missing ones are "localcloud"
   * and "nic:port", and no other field changes.
   */
  lemma DefaultLocalcloudLookupPromises(f: Fields, localcloudLusPort: int)
    ensures var r := DefaultLocalcloudLookup(f, localcloudLusPort);
            && (r.outcome.Failed? <==> f.zone.Some? || (f.lookupLocators.None? && f.nicAddress.None?))
            && (f.zone.Some? ==> r == Step(Failed(IllegalState(ZonesNotAllowed)), f))
            && (f.zone.None? && f.lookupLocators.None? && f.nicAddress.None? ==>
                  r == Step(Failed(IllegalState(NicAddressRequired)), f.(lusPort := localcloudLusPort)))
            && (r.outcome == Done ==>
                  r.fields == f.(lusPort := localcloudLusPort,
                                 lookupLocators := Some(f.lookupLocators.GetOr(f.nicAddress.GetOr("") + ":"
                                                                                 + IntToString(localcloudLusPort))),
                                 lookupGroups := Some(f.lookupGroups.GetOr(LocalcloudLookupGroup))))
  {
  }

  /**
   * When the locators are derived, they name one locator, at the NIC
   * address and the local cloud's port, which split back out of the string.
   */
  lemma DerivedLocalcloudLocator(f: Fields, localcloudLusPort: int)
    requires f.zone.None? && f.lookupLocators.None? && f.nicAddress.Some?
    requires ',' !in f.nicAddress.value && ':' !in f.nicAddress.value
    ensures var r := DefaultLocalcloudLookup(f, localcloudLusPort);
            && r.outcome == Done
            && Split(r.fields.lookupLocators.value, ',') == [r.fields.lookupLocators.value]
            && Split(r.fields.lookupLocators.value, ':') == [f.nicAddress.value, IntToString(localcloudLusPort)]
            && ParseInt(Split(r.fields.lookupLocators.value, ':')[1]) == localcloudLusPort
  {
    var l := LookupLocator(f.nicAddress.value, localcloudLusPort);
    LocatorsStringSplits([l]);
    LocatorStringParts(l);
    assert LocatorStrings([l]) == [LocatorString(l)];
  }

  /**
   * setLookupDefaults: the admin's groups, joined by commas, replace the
   * lookup groups, and its locators, if there are any, the lookup locators;
   * an admin without groups is refused.
   */
  function LookupDefaults(f: Fields, groups: seq<string>, locators: Option<seq<LookupLocator>>): Step {
    if |groups| == 0 then Step(Failed(IllegalState(LookupGroupRequired)), f)
    else
      var withGroups := f.(lookupGroups := Some(Join(groups, ",")));
      if locators.Some? && |locators.value| > 0 then
        Step(Done, withGroups.(lookupLocators := Some(LocatorsToString(locators))))
      else Step(Done, withGroups)
  }

  /**
   * The step fails, changing nothing, exactly without groups; otherwise it
   * changes the groups and locators fields only, and replaces the locators
   * exactly when the admin has locators.
   */
  lemma LookupDefaultsPromises(f: Fields, groups: seq<string>, locators: Option<seq<LookupLocator>>)
    ensures var r := LookupDefaults(f, groups, locators);
            && (r.outcome.Failed? <==> |groups| == 0)
            && (r.outcome.Failed? ==> r.fields == f)
            && (r.outcome == Done ==>
                  && r.fields.(lookupGroups := f.lookupGroups, lookupLocators := f.lookupLocators) == f
                  && r.fields.lookupLocators
                     == if locators.Some? && |locators.value| > 0 then Some(LocatorsToString(locators))
                        else f.lookupLocators)
  {
    if |groups| > 0 {
      var withGroups := f.(lookupGroups := Some(Join(groups, ",")));
      var r := LookupDefaults(f, groups, locators);
      if locators.Some? && |locators.value| > 0 {
        assert r.fields == withGroups.(lookupLocators := Some(LocatorsToString(locators)));
      } else {
        assert r.fields == withGroups;
      }
    }
  }

  /** The groups field left by the step splits at commas back into the admin's groups. */
  lemma LookupDefaultsGroupsSplit(f: Fields, groups: seq<string>, locators: Option<seq<LookupLocator>>)
    requires |groups| > 0
    requires forall i | 0 <= i < |groups| :: ',' !in groups[i]
    ensures Split(LookupDefaults(f, groups, locators).fields.lookupGroups.value, ',') == groups
  {
    SplitJoin(groups, ',');
  }

  /**
   * The gate before starting management (`!isLocalCloud ||
   * fastExistingAgentCheck()`): where it applies, an existing agent found by
   * the wait refuses the start; a timeout of the wait lets it go on.
   */
  function ExistingAgentGate(isLocalCloud: bool, lusPortInUse: bool, existing: Option<Agent>): Outcome {
    if (!isLocalCloud || lusPortInUse) && existing.Some? then Failed(CliError(AgentAlreadyRunning))
    else Done
  }

  /**
   * The start is refused exactly when the gate applies and some snapshot
   * shows an agent of ours; a local cloud whose LUS port is free is never
   * refused, whatever is running.
   */
  lemma ExistingAgentGateDecides(isLocalCloud: bool, lusPortInUse: bool, polls: seq<AdminView>, filter: Filter)
    ensures ExistingAgentGate(isLocalCloud, lusPortInUse, FirstAgentOverPolls(polls, filter)).Failed? <==>
              && (!isLocalCloud || lusPortInUse)
              && exists k, i | 0 <= k < |polls| && 0 <= i < |polls[k].agents| :: CheckAgent(filter, polls[k].agents[i])
    ensures ExistingAgentGate(isLocalCloud, lusPortInUse, FirstAgentOverPolls(polls, filter)).Failed? ==>
              ExistingAgentGate(isLocalCloud, lusPortInUse, FirstAgentOverPolls(polls, filter))
              == Failed(CliError(AgentAlreadyRunning))
    ensures isLocalCloud && !lusPortInUse ==>
              ExistingAgentGate(isLocalCloud, lusPortInUse, FirstAgentOverPolls(polls, filter)) == Done
  {
    FirstAgentOverPollsFinds(polls, filter);
  }

  /** What the remote gsa.shutdown() call does. */
  datatype ShutdownReply =
      /** The call returns. */
    | Accepted
      /** It throws a RemoteException that is a connect or close error: taken as going down. */
    | ConnectionDropped
      /** It throws any other RemoteException, which becomes an AdminException. */
    | Refused

  /**
   * shutdownAgentAndWait over the ping results its latch observes: true is
   * a ping that threw, meaning the agent is gone.
   */
  function AgentShutdown(reply: ShutdownReply, pings: seq<bool>): Outcome {
    if reply == Refused then Failed(AdminError(ShutdownFailed))
    else if true in pings then Done
    else Failed(TimedOut(OperationTimedOut))
  }

  /** The wait of shutdownAgentAndWait: stops at the first ping that fails. */
  method WaitForAgentShutdown(pings: seq<bool>) returns (down: bool)
    ensures down <==> true in pings
  {
    for k := 0 to |pings|
      invariant true !in pings[..k]
    {
      if pings[k] {
        return true;
      }
      assert pings[..k + 1] == pings[..k] + [pings[k]];
    }
    assert pings[..|pings|] == pings;
    return false;
  }

  /**
   * shutdownAgentAndWait: the shutdown call, then the wait for the agent to
   * stop answering pings.
   */
  method ShutdownAgentAndWait(reply: ShutdownReply, pings: seq<bool>) returns (outcome: Outcome)
    ensures outcome == AgentShutdown(reply, pings)
  {
    if reply == Refused {
      return Failed(AdminError(ShutdownFailed));
    }
    var down := WaitForAgentShutdown(pings);
    if !down {
      return Failed(TimedOut(OperationTimedOut));
    }
    return Done;
  }

  /** The observable steps of shutdownAgentOnLocalhostAndWaitInternal. */
  datatype Action = DisconnectFacade | CreateAdmin | CloseAdmin | ShutdownAgent(uid: Uid) | GraceSleep

  datatype TeardownRun = TeardownRun(outcome: Outcome, actions: seq<Action>)

  /**
   * The body of shutdownAgentOnLocalhostAndWaitInternal after the facade is
   * disconnected and the admin created: `defaults` is how setLookupDefaults
   * ended, `found` what the wait for the existing agent returned, `view`
   * the admin view the guard reads. The admin is closed in every case;
   * once an agent is found, the grace sleep follows.
   */
  function TeardownSteps(defaults: Outcome, found: Option<Agent>, view: AdminView,
                         allowManagement: bool, allowContainers: bool,
                         reply: ShutdownReply, pings: seq<bool>): TeardownRun
  {
    var start := [DisconnectFacade, CreateAdmin];
    if defaults.Failed? then TeardownRun(defaults, start + [CloseAdmin])
    else if found.None? then TeardownRun(Failed(CliStatus(AgentNotFound, [])), start + [CloseAdmin])
    else
      match Guard(view, found.value.uid, allowManagement, allowContainers)
      case ServiceStillRunning(pu) =>
        TeardownRun(Failed(CliError(ServiceRunning(pu))), start + [CloseAdmin, GraceSleep])
      case ManagementStillRunning =>
        TeardownRun(Failed(CliError(ManagementRunning)), start + [CloseAdmin, GraceSleep])
      case Pass =>
        TeardownRun(AgentShutdown(reply, pings),
                    start + [CloseAdmin, ShutdownAgent(found.value.uid), CloseAdmin, GraceSleep])
  }

  /**
   * Every path disconnects the facade, creates the admin and closes it
   * again; the grace sleep happens exactly when an agent was found.
   */
  lemma TeardownStepsCloseAdmin(defaults: Outcome, found: Option<Agent>, view: AdminView,
                                allowManagement: bool, allowContainers: bool,
                                reply: ShutdownReply, pings: seq<bool>)
    ensures var r := TeardownSteps(defaults, found, view, allowManagement, allowContainers, reply, pings);
            && |r.actions| >= 3 && r.actions[..3] == [DisconnectFacade, CreateAdmin, CloseAdmin]
            && r.actions[|r.actions| - 1] in {CloseAdmin, GraceSleep}
            && (GraceSleep in r.actions <==> defaults == Done && found.Some?)
  {
    var r := TeardownSteps(defaults, found, view, allowManagement, allowContainers, reply, pings);
    if defaults.Failed? || found.None? {
      assert r.actions == [DisconnectFacade, CreateAdmin, CloseAdmin];
    } else if Guard(view, found.value.uid, allowManagement, allowContainers) == Pass {
      assert r.actions == [DisconnectFacade, CreateAdmin, CloseAdmin, ShutdownAgent(found.value.uid), CloseAdmin, GraceSleep];
    } else {
      assert r.actions == [DisconnectFacade, CreateAdmin, CloseAdmin, GraceSleep];
    }
  }

  /**
   * The agent is shut down only if one was found and the guard let it
   * pass, and only after the admin was closed.
   */
  lemma TeardownShutdownNeedsGuard(defaults: Outcome, found: Option<Agent>, view: AdminView,
                                   allowManagement: bool, allowContainers: bool,
                                   reply: ShutdownReply, pings: seq<bool>)
    ensures var r := TeardownSteps(defaults, found, view, allowManagement, allowContainers, reply, pings);
            forall i | 0 <= i < |r.actions| && r.actions[i].ShutdownAgent? ::
              && i == 3 && r.actions[i - 1] == CloseAdmin
              && defaults == Done && found.Some? && r.actions[i].uid == found.value.uid
              && Guard(view, found.value.uid, allowManagement, allowContainers) == Pass
  {
    TeardownStepsCloseAdmin(defaults, found, view, allowManagement, allowContainers, reply, pings);
    var r := TeardownSteps(defaults, found, view, allowManagement, allowContainers, reply, pings);
    if defaults.Failed? || found.None? || Guard(view, found.value.uid, allowManagement, allowContainers) != Pass {
      assert forall i | 0 <= i < |r.actions| :: !r.actions[i].ShutdownAgent?;
    } else {
      assert r.actions == [DisconnectFacade, CreateAdmin, CloseAdmin, ShutdownAgent(found.value.uid), CloseAdmin, GraceSleep];
    }
  }

  /**
   * Without an agent, teardown fails with teardown_failed_agent_not_found
   * and reaches neither guard nor shutdown; it succeeds only when the agent
   * was shut down and then stopped answering.
   */
  lemma TeardownStepsOutcome(defaults: Outcome, found: Option<Agent>, view: AdminView,
                             allowManagement: bool, allowContainers: bool,
                             reply: ShutdownReply, pings: seq<bool>)
    ensures var r := TeardownSteps(defaults, found, view, allowManagement, allowContainers, reply, pings);
            && (defaults == Done && found.None? ==>
                  r == TeardownRun(Failed(CliStatus(AgentNotFound, [])), [DisconnectFacade, CreateAdmin, CloseAdmin]))
            && (defaults.Failed? ==> r.outcome == defaults)
            && (r.outcome == Done ==>
                  && defaults == Done && found.Some? && reply != Refused && true in pings
                  && Guard(view, found.value.uid, allowManagement, allowContainers) == Pass
                  && ShutdownAgent(found.value.uid) in r.actions)
  {
  }

  /**
   * The guard's refusals read as the source words them: a running service
   * names its processing unit; running management processes point to
   * shutdown-management.
   */
  lemma TeardownGuardMessages(found: Agent, view: AdminView, allowManagement: bool, allowContainers: bool,
                              reply: ShutdownReply, pings: seq<bool>)
    ensures var r := TeardownSteps(Done, Some(found), view, allowManagement, allowContainers, reply, pings);
            && (!allowContainers && HostsServices(view.processingUnits, found.uid) ==>
                  exists p | 0 <= p < |view.processingUnits| && RunsOn(view.processingUnits[p], found.uid) ::
                    r.outcome == Failed(CliError(ServiceRunning(view.processingUnits[p].name))))
            && (!allowManagement && HostsManagement(view, found.uid)
                && (allowContainers || !HostsServices(view.processingUnits, found.uid)) ==>
                  r.outcome == Failed(CliError(ManagementRunning)))
  {
    GuardDecides(view, found.uid, allowManagement, allowContainers);
  }

  /**
   * teardown-localcloud shuts down with both categories allowed, so once an
   * agent is found nothing the guard reads can stop it.
   */
  lemma LocalCloudTeardownIgnoresGuard(found: Agent, view: AdminView, reply: ShutdownReply, pings: seq<bool>)
    ensures TeardownSteps(Done, Some(found), view, true, true, reply, pings)
            == TeardownRun(AgentShutdown(reply, pings),
                           [DisconnectFacade, CreateAdmin, CloseAdmin, ShutdownAgent(found.uid), CloseAdmin, GraceSleep])
  {
    ForcedShutdownPasses(view, found.uid);
  }

  /**
   * Each application teardown hands to uninstallApplication passes the REST
   * service's uninstall validator once it is discovered under its name, as
   * long as the validator's management application name is the
   * bootstrapper's.
   */
  lemma TeardownUninstallsPassValidation(connected: bool, fetched: Result<seq<string>>, managementApp: string,
                                         validatorManagementApp: string, force: bool, failing: set<string>,
                                         drainPolls: seq<Result<seq<string>>>)
    requires validatorManagementApp == managementApp
    ensures var t := UninstallApplicationsPlan(connected, fetched, managementApp, force, failing, drainPolls);
            forall i | 0 <= i < |t.attempted| ::
              Validate(ValidationContext(t.attempted[i]), Some(Application(t.attempted[i])),
                       validatorManagementApp).None?
  {
    UninstallApplicationsPromises(connected, fetched, managementApp, force, failing, drainPolls);
  }

  /**
   * With two different management application names, a forced teardown
   * hands uninstallApplication the validator's management application
   * whenever it is listed, and the validator refuses it.
   */
  lemma TeardownCanHitValidatorsManagementApp(apps: seq<string>, managementApp: string,
                                              validatorManagementApp: string, failing: set<string>,
                                              drainPolls: seq<Result<seq<string>>>)
    requires validatorManagementApp != managementApp && validatorManagementApp in apps
    ensures var t := UninstallApplicationsPlan(true, Ok(apps), managementApp, true, failing, drainPolls);
            && validatorManagementApp in t.attempted
            && Validate(ValidationContext(validatorManagementApp), Some(Application(validatorManagementApp)),
                        validatorManagementApp)
               == Some(CannotUninstallManagementApp)
  {
    ForcedTeardownUninstallsAll(true, Ok(apps), managementApp, failing, drainPolls);
    NonManagementKeeps(apps, managementApp, validatorManagementApp);
  }

  /** `options += " " + switch` on an option string that joins `switches`. */
  method AppendSwitch(options: string, ghost switches: seq<string>, switch: string) returns (r: string)
    requires |switches| > 0 && options == Join(switches, " ")
    ensures r == Join(switches + [switch], " ")
  {
    JoinSnoc(switches, switch, " ");
    r := options + " " + switch;
  }

  class LocalhostGridAgentBootstrapper {
    var verbose: bool
    var lookupGroups: Option<string>
    var lookupLocators: Option<string>
    var nicAddress: Option<string>
    var zone: Option<string>
    var progressInSeconds: int
    var noWebServices: bool
    var noManagementSpace: bool
    var notHighlyAvailableManagementSpace: bool
    var lusPort: int
    var autoShutdown: bool
    var waitForWebUi: bool
    var cloudContents: Option<string>
    var force: bool

    /** The management application's name (a constant of the web-service installer). */
    const managementApplication: string
    /** The local cloud's LUS port (a constant of the DSL). */
    const defaultLocalcloudLusPort: int

    /** The fields, as a value. */
    function State(): Fields
      reads this
    {
      Fields(verbose, lookupGroups, lookupLocators, nicAddress, zone, progressInSeconds, noWebServices,
             noManagementSpace, notHighlyAvailableManagementSpace, lusPort, autoShutdown, waitForWebUi,
             cloudContents, force)
    }

    /** The fields runCommand reads. */
    function Settings(): LaunchSettings
      reads this
    {
      LaunchSettings(lookupGroups, lookupLocators, nicAddress, zone, lusPort, autoShutdown)
    }

    /** The fields checkAgent reads, with the local-address test. */
    function AgentFilter(isLocal: string -> bool): Filter
      reads this
    {
      Filter(lookupGroups, nicAddress, isLocal)
    }

    /** Every field at its Java default; the LUS port at the default LUS port. */
    constructor(defaultLusPort: int, defaultLocalcloudLusPort: int, managementApplication: string)
      ensures State() == Fields(false, None, None, None, None, 0, false, false, false, defaultLusPort,
                                false, false, None, false)
      ensures this.defaultLocalcloudLusPort == defaultLocalcloudLusPort
      ensures this.managementApplication == managementApplication
    {
      verbose := false;
      lookupGroups := None;
      lookupLocators := None;
      nicAddress := None;
      zone := None;
      progressInSeconds := 0;
      noWebServices := false;
      noManagementSpace := false;
      notHighlyAvailableManagementSpace := false;
      lusPort := defaultLusPort;
      autoShutdown := false;
      waitForWebUi := false;
      cloudContents := None;
      force := false;
      this.defaultLocalcloudLusPort := defaultLocalcloudLusPort;
      this.managementApplication := managementApplication;
    }

    method SetVerbose(verbose: bool)
      modifies this
      ensures State() == old(State()).(verbose := verbose)
    {
      this.verbose := verbose;
    }

    method SetLookupGroups(lookupGroups: Option<string>)
      modifies this
      ensures State() == old(State()).(lookupGroups := lookupGroups)
    {
      this.lookupGroups := lookupGroups;
    }

    method SetLookupLocators(lookupLocators: Option<string>)
      modifies this
      ensures State() == old(State()).(lookupLocators := lookupLocators)
    {
      this.lookupLocators := lookupLocators;
    }

    method SetNicAddress(nicAddress: Option<string>)
      modifies this
      ensures State() == old(State()).(nicAddress := nicAddress)
    {
      this.nicAddress := nicAddress;
    }

    method SetZone(zone: Option<string>)
      modifies this
      ensures State() == old(State()).(zone := zone)
    {
      this.zone := zone;
    }

    method SetProgressInSeconds(progressInSeconds: int)
      modifies this
      ensures State() == old(State()).(progressInSeconds := progressInSeconds)
    {
      this.progressInSeconds := progressInSeconds;
    }

    method SetNoWebServices(noWebServices: bool)
      modifies this
      ensures State() == old(State()).(noWebServices := noWebServices)
    {
      this.noWebServices := noWebServices;
    }

    method SetNoManagementSpace(noManagementSpace: bool)
      modifies this
      ensures State() == old(State()).(noManagementSpace := noManagementSpace)
    {
      this.noManagementSpace := noManagementSpace;
    }

    method SetAutoShutdown(autoShutdown: bool)
      modifies this
      ensures State() == old(State()).(autoShutdown := autoShutdown)
    {
      this.autoShutdown := autoShutdown;
    }

    method SetWaitForWebui(waitForWebui: bool)
      modifies this
      ensures State() == old(State()).(waitForWebUi := waitForWebui)
    {
      this.waitForWebUi := waitForWebui;
    }

    method SetNotHighlyAvailableManagementSpace(notHighlyAvailableManagementSpace: bool)
      modifies this
      ensures State() == old(State()).(notHighlyAvailableManagementSpace := notHighlyAvailableManagementSpace)
    {
      this.notHighlyAvailableManagementSpace := notHighlyAvailableManagementSpace;
    }

    method SetForce(force: bool)
      modifies this
      ensures State() == old(State()).(force := force)
    {
      this.force := force;
    }

    method SetCloudContents(cloudContents: Option<string>)
      modifies this
      ensures State() == old(State()).(cloudContents := cloudContents)
    {
      this.cloudContents := cloudContents;
    }

    /** setDefaultNicAddress, with the host address lookup as an input. */
    method SetDefaultNicAddress(hostAddress: Option<string>) returns (outcome: Outcome)
      modifies this
      ensures Step(outcome, State()) == DefaultNicAddress(old(State()), hostAddress)
    {
      if nicAddress.None? {
        if hostAddress.None? {
          return Failed(CliError(UnknownHost));
        }
        nicAddress := hostAddress;
      }
      return Done;
    }

    method SetDefaultLocalcloudLookup() returns (outcome: Outcome)
      modifies this
      ensures Step(outcome, State()) == DefaultLocalcloudLookup(old(State()), defaultLocalcloudLusPort)
    {
      if zone.Some? {
        return Failed(IllegalState(ZonesNotAllowed));
      }
      lusPort := defaultLocalcloudLusPort;
      var locators := lookupLocators;
      if locators.None? {
        var derived := GetLocalcloudLookupLocators(nicAddress, lusPort);
        if derived.Err? {
          return Failed(derived.failure);
        }
        locators := Some(derived.value);
      }
      lookupLocators := locators;
      lookupGroups := if lookupGroups.None? then Some(LocalcloudLookupGroup) else lookupGroups;
      return Done;
    }

    /** setLookupDefaults, with the admin's groups and locators as inputs. */
    method SetLookupDefaults(groups: seq<string>, locators: Option<seq<LookupLocator>>) returns (outcome: Outcome)
      modifies this
      ensures Step(outcome, State()) == LookupDefaults(old(State()), groups, locators)
    {
      if |groups| == 0 {
        return Failed(IllegalState(LookupGroupRequired));
      }
      lookupGroups := Some(Join(groups, ","));
      if locators.Some? && |locators.value| > 0 {
        var s := ConvertLookupLocatorToString(locators);
        lookupLocators := Some(s);
      }
      return Done;
    }

    /**
     * The existing-agent gate of startManagementOnLocalhostAndWaitInternal.
     * `lusPortInUse` is fastExistingAgentCheck's port probe, `polls` the
     * snapshots the wait observes.
     */
    method CheckExistingAgent(isLocalCloud: bool, lusPortInUse: bool, polls: seq<AdminView>, isLocal: string -> bool)
      returns (outcome: Outcome)
      ensures outcome == ExistingAgentGate(isLocalCloud, lusPortInUse, FirstAgentOverPolls(polls, AgentFilter(isLocal)))
    {
      if !isLocalCloud || lusPortInUse {
        var existing := WaitForAgent(polls, AgentFilter(isLocal));
        if existing.Some? {
          return Failed(CliError(AgentAlreadyRunning));
        }
      }
      return Done;
    }

    /**
     * uninstallApplications. `connected` and `fetched` are what the facade
     * reports, `failing` the applications whose uninstall throws,
     * `drainPolls` what the drain wait fetches. Returns the outcome, the
     * applications handed to uninstallApplication and whether the drain
     * wait ran.
     */
    method UninstallApplications(connected: bool, fetched: Result<seq<string>>, failing: set<string>,
                                 drainPolls: seq<Result<seq<string>>>)
      returns (outcome: Outcome, attempted: seq<string>, waited: bool)
      ensures TeardownApps(outcome, attempted, waited)
              == UninstallApplicationsPlan(connected, fetched, managementApplication, force, failing, drainPolls)
    {
      attempted, waited := [], false;
      if !connected || fetched.Err? {
        if !force {
          return Failed(CliStatus(FailedToAccessRest, [])), attempted, waited;
        }
        return Done, attempted, waited;
      }
      var applicationsList := fetched.value;
      var applicationsExist := |applicationsList| > 1;
      if applicationsExist && !force {
        return Failed(CliStatus(AppsDeployed, [ListToString(applicationsList)])), attempted, waited;
      }
      for i := 0 to |applicationsList|
        invariant UninstallEach(applicationsList, managementApplication, force, failing)
                  == var rest := UninstallEach(applicationsList[i..], managementApplication, force, failing);
                     LoopResult(rest.outcome, attempted + rest.attempted)
      {
        var appName := applicationsList[i];
        assert applicationsList[i..][1..] == applicationsList[i + 1..];
        if appName != managementApplication {
          attempted := attempted + [appName];
          if appName in failing && !force {
            return Failed(CliStatus(FailedToUninstallApp, [appName])), attempted, waited;
          }
        }
      }
      outcome := Done;
      if applicationsExist {
        outcome := WaitForUninstallApplications(drainPolls, managementApplication);
        waited := true;
      }
    }

    /** The GSA's options: memory, then auto-shutdown, multicast and zone switches as they apply. */
    method GsaJavaOptions() returns (gsaJavaOptions: string)
      ensures gsaJavaOptions == Join(GsaOptionSwitches(Settings()), " ")
    {
      gsaJavaOptions := MemorySwitch(GsaMemoryInMb);
      ghost var gsa := [MemorySwitch(GsaMemoryInMb)];
      if autoShutdown {
        gsaJavaOptions := AppendSwitch(gsaJavaOptions, gsa, AutoShutdownArgument);
        gsa := gsa + [AutoShutdownArgument];
      }
      if lookupLocators.Some? {
        gsaJavaOptions := AppendSwitch(gsaJavaOptions, gsa, DisableMulticast);
        gsa := gsa + [DisableMulticast];
      }
      if zone.Some? {
        gsaJavaOptions := AppendSwitch(gsaJavaOptions, gsa, ZonesSwitchPrefix + zone.value);
        gsa := gsa + [ZonesSwitchPrefix + zone.value];
      }
      assert gsa == GsaOptionSwitches(Settings());
    }

    /** The LUS's options: memory and unicast discovery port, then the multicast switch. */
    method LusJavaOptions() returns (lusJavaOptions: string)
      ensures lusJavaOptions == Join(LusOptionSwitches(Settings()), " ")
    {
      lusJavaOptions := AppendSwitch(MemorySwitch(LusMemoryInMb), [MemorySwitch(LusMemoryInMb)], LusPortSwitch(lusPort));
      if lookupLocators.Some? {
        lusJavaOptions := AppendSwitch(lusJavaOptions, [MemorySwitch(LusMemoryInMb), LusPortSwitch(lusPort)],
                                       DisableMulticast);
      }
    }

    /** The GSM's options: memory and unicast discovery port, then the multicast switch. */
    method GsmJavaOptions() returns (gsmJavaOptions: string)
      ensures gsmJavaOptions == Join(GsmOptionSwitches(Settings()), " ")
    {
      gsmJavaOptions := AppendSwitch(MemorySwitch(GsmMemoryInMb), [MemorySwitch(GsmMemoryInMb)], LusPortSwitch(lusPort));
      if lookupLocators.Some? {
        gsmJavaOptions := AppendSwitch(gsmJavaOptions, [MemorySwitch(GsmMemoryInMb), LusPortSwitch(lusPort)],
                                       DisableMulticast);
      }
    }

    /** The ESM's options: memory, then the multicast switch. */
    method EsmJavaOptions() returns (esmJavaOptions: string)
      ensures esmJavaOptions == Join(EsmOptionSwitches(Settings()), " ")
    {
      esmJavaOptions := MemorySwitch(EsmMemoryInMb);
      if lookupLocators.Some? {
        esmJavaOptions := AppendSwitch(esmJavaOptions, [MemorySwitch(EsmMemoryInMb)], DisableMulticast);
      }
    }

    /** The GSC's options: empty, or the bare multicast switch (appended without a blank). */
    method GscJavaOptions() returns (gscJavaOptions: string)
      ensures gscJavaOptions == Join(GscOptionSwitches(Settings()), " ")
    {
      gscJavaOptions := "";
      if lookupLocators.Some? {
        gscJavaOptions := gscJavaOptions + DisableMulticast;
      }
    }

    /** The five option strings of runCommand. */
    method JavaOptions() returns (gsaJavaOptions: string, lusJavaOptions: string, gsmJavaOptions: string,
                                  esmJavaOptions: string, gscJavaOptions: string)
      ensures gsaJavaOptions == Join(GsaOptionSwitches(Settings()), " ")
      ensures lusJavaOptions == Join(LusOptionSwitches(Settings()), " ")
      ensures gsmJavaOptions == Join(GsmOptionSwitches(Settings()), " ")
      ensures esmJavaOptions == Join(EsmOptionSwitches(Settings()), " ")
      ensures gscJavaOptions == Join(GscOptionSwitches(Settings()), " ")
    {
      gsaJavaOptions := GsaJavaOptions();
      lusJavaOptions := LusJavaOptions();
      gsmJavaOptions := GsmJavaOptions();
      esmJavaOptions := EsmJavaOptions();
      gscJavaOptions := GscJavaOptions();
    }

    /**
     * The environment of runCommand: the lookup settings that are set, then
     * the five option strings.
     */
    method BuildEnvironment(inherited: map<string, string>) returns (environment: map<string, string>)
      ensures environment == LaunchEnvironment(inherited, Settings())
    {
      var gsaJavaOptions, lusJavaOptions, gsmJavaOptions, esmJavaOptions, gscJavaOptions := JavaOptions();
      environment := inherited;
      if lookupGroups.Some? {
        environment := environment[LookupGroupsVar := lookupGroups.value];
      }
      if lookupLocators.Some? {
        environment := environment[LookupLocatorsVar := lookupLocators.value];
      }
      if nicAddress.Some? {
        environment := environment[NicAddrVar := nicAddress.value];
      }
      ghost var withNic := environment;
      environment := environment[GsaOptionsVar := gsaJavaOptions];
      environment := environment[LusOptionsVar := lusJavaOptions];
      environment := environment[GsmOptionsVar := gsmJavaOptions];
      environment := environment[EsmOptionsVar := esmJavaOptions];
      environment := environment[GscOptionsVar := gscJavaOptions];
      ghost var s := Settings();
      assert LaunchEnvironment(inherited, s)
             == withNic[GsaOptionsVar := Join(GsaOptionSwitches(s), " ")]
                       [LusOptionsVar := Join(LusOptionSwitches(s), " ")]
                       [GsmOptionsVar := Join(GsmOptionSwitches(s), " ")]
                       [EsmOptionsVar := Join(EsmOptionSwitches(s), " ")]
                       [GscOptionsVar := Join(GscOptionSwitches(s), " ")];
    }

    /**
     * shutdownAgentOnLocalhostAndWaitInternal. The admin's groups and
     * locators feed setLookupDefaults; `existingPolls` are the snapshots
     * the ten-second wait for the existing agent observes (with the lookup
     * groups as setLookupDefaults leaves them), `view` the snapshot the
     * guard reads, `reply` and `pings` what the agent answers.
     */
    method ShutdownAgentOnLocalhostAndWaitInternal(allowManagement: bool, allowContainers: bool,
                                                   groups: seq<string>, locators: Option<seq<LookupLocator>>,
                                                   existingPolls: seq<AdminView>, isLocal: string -> bool,
                                                   view: AdminView, reply: ShutdownReply, pings: seq<bool>)
      returns (outcome: Outcome, actions: seq<Action>)
      modifies this
      ensures State() == LookupDefaults(old(State()), groups, locators).fields
      ensures TeardownRun(outcome, actions)
              == TeardownSteps(LookupDefaults(old(State()), groups, locators).outcome,
                               FirstAgentOverPolls(existingPolls, AgentFilter(isLocal)),
                               view, allowManagement, allowContainers, reply, pings)
    {
      actions := [DisconnectFacade, CreateAdmin];
      var defaults := SetLookupDefaults(groups, locators);
      if defaults.Failed? {
        return defaults, actions + [CloseAdmin];
      }
      var agent := WaitForAgent(existingPolls, AgentFilter(isLocal));
      if agent.None? {
        return Failed(CliStatus(AgentNotFound, [])), actions + [CloseAdmin];
      }
      var guard := CheckShutdownGuard(view, agent.value.uid, allowManagement, allowContainers);
      if guard.ServiceStillRunning? {
        outcome := Failed(CliError(ServiceRunning(guard.processingUnitName)));
      } else if guard.ManagementStillRunning? {
        outcome := Failed(CliError(ManagementRunning));
      } else {
        actions := actions + [CloseAdmin, ShutdownAgent(agent.value.uid)];
        outcome := ShutdownAgentAndWait(reply, pings);
      }
      actions := actions + [CloseAdmin, GraceSleep];
    }

    /**
     * shutdownAgentOnLocalhostAndWait: the NIC address default, then the
     * teardown with management processes refused and services allowed only
     * under `force`.
     */
    method ShutdownAgentOnLocalhostAndWait(force: bool, hostAddress: Option<string>,
                                           groups: seq<string>, locators: Option<seq<LookupLocator>>,
                                           existingPolls: seq<AdminView>, isLocal: string -> bool,
                                           view: AdminView, reply: ShutdownReply, pings: seq<bool>)
      returns (outcome: Outcome, actions: seq<Action>)
      modifies this
      ensures var nic := DefaultNicAddress(old(State()), hostAddress);
              if nic.outcome.Failed? then outcome == nic.outcome && actions == [] && State() == old(State())
              else
                && State() == LookupDefaults(nic.fields, groups, locators).fields
                && TeardownRun(outcome, actions)
                   == TeardownSteps(LookupDefaults(nic.fields, groups, locators).outcome,
                                    FirstAgentOverPolls(existingPolls, AgentFilter(isLocal)),
                                    view, false, force, reply, pings)
    {
      outcome := SetDefaultNicAddress(hostAddress);
      if outcome.Failed? {
        return outcome, [];
      }
      outcome, actions := ShutdownAgentOnLocalhostAndWaitInternal(false, force, groups, locators, existingPolls,
                                                                  isLocal, view, reply, pings);
    }

    /**
     * teardownLocalCloudOnLocalhostAndWait: the NIC address and local-cloud
     * lookup defaults, the application teardown, then the agent teardown
     * with nothing refused. Each step runs only when the one before it
     * completed; `attempted` are the applications handed to
     * uninstallApplication.
     */
    method TeardownLocalCloudOnLocalhostAndWait(hostAddress: Option<string>, connected: bool,
                                                fetched: Result<seq<string>>, failing: set<string>,
                                                drainPolls: seq<Result<seq<string>>>,
                                                groups: seq<string>, locators: Option<seq<LookupLocator>>,
                                                existingPolls: seq<AdminView>, isLocal: string -> bool,
                                                view: AdminView, reply: ShutdownReply, pings: seq<bool>)
      returns (outcome: Outcome, attempted: seq<string>, actions: seq<Action>)
      modifies this
      ensures var nic := DefaultNicAddress(old(State()), hostAddress);
              var lookup := DefaultLocalcloudLookup(nic.fields, defaultLocalcloudLusPort);
              var apps := UninstallApplicationsPlan(connected, fetched, managementApplication, old(force), failing,
                                                    drainPolls);
              if nic.outcome.Failed? then outcome == nic.outcome && attempted == [] && actions == [] && State() == nic.fields
              else if lookup.outcome.Failed? then
                outcome == lookup.outcome && attempted == [] && actions == [] && State() == lookup.fields
              else if apps.outcome.Failed? then
                outcome == apps.outcome && attempted == apps.attempted && actions == [] && State() == lookup.fields
              else
                && attempted == apps.attempted
                && State() == LookupDefaults(lookup.fields, groups, locators).fields
                && TeardownRun(outcome, actions)
                   == TeardownSteps(LookupDefaults(lookup.fields, groups, locators).outcome,
                                    FirstAgentOverPolls(existingPolls, AgentFilter(isLocal)),
                                    view, true, true, reply, pings)
    {
      attempted, actions := [], [];
      outcome := SetDefaultNicAddress(hostAddress);
      if outcome.Failed? {
        return;
      }
      outcome := SetDefaultLocalcloudLookup();
      if outcome.Failed? {
        return;
      }
      var waited;
      outcome, attempted, waited := UninstallApplications(connected, fetched, failing, drainPolls);
      if outcome.Failed? {
        return;
      }
      outcome, actions := ShutdownAgentOnLocalhostAndWaitInternal(true, true, groups, locators, existingPolls,
                                                                  isLocal, view, reply, pings);
    }
  }
}
