/**
 * The guard of shutdownAgentOnLocalhostAndWaitInternal: before the admin is
 * closed and the agent is told to shut down, refuse when processing-unit
 * instances (unless containers are allowed) or GSM/ESM/LUS processes
 * (unless management is allowed) still run on the target agent.
 */
module ShutdownGuard {
  import opened Wrappers
  import opened AdminSnapshot

  /** The two refusals the guard raises as CLIException, or passing. */
  datatype GuardOutcome =
    | Pass
      /** An instance of the named processing unit runs on the agent (the first such unit). */
    | ServiceStillRunning(processingUnitName: string)
      /** A GSM, ESM or LUS started by the agent is still running. */
    | ManagementStillRunning

  /** Some processing unit has an instance on the agent. */
  predicate HostsServices(pus: seq<ProcessingUnit>, uid: Uid) {
    exists p | 0 <= p < |pus| :: RunsOn(pus[p], uid)
  }

  /** The agent started one of the management processes. */
  predicate HostsManagement(view: AdminView, uid: Uid) {
    AnyStartedBy(view.gridServiceManagers, uid)
    || AnyStartedBy(view.elasticServiceManagers, uid)
    || AnyStartedBy(view.lookupServices, uid)
  }

  /** The first processing unit, in the admin's order, that has an instance on the agent. */
  function FirstRunningOn(pus: seq<ProcessingUnit>, uid: Uid): Option<string>
    decreases |pus|
  {
    if |pus| == 0 then None
    else if RunsOn(pus[0], uid) then Some(pus[0].name)
    else FirstRunningOn(pus[1..], uid)
  }

  /** What the guard block decides, in the order the source checks it. */
  function Guard(view: AdminView, uid: Uid, allowManagement: bool, allowContainers: bool): GuardOutcome {
    if !allowContainers && FirstRunningOn(view.processingUnits, uid).Some? then
      ServiceStillRunning(FirstRunningOn(view.processingUnits, uid).value)
    else if !allowManagement && HostsManagement(view, uid) then
      ManagementStillRunning
    else
      Pass
  }

  lemma {:induction false} FirstRunningOnFinds(pus: seq<ProcessingUnit>, uid: Uid)
    ensures FirstRunningOn(pus, uid).Some? <==> HostsServices(pus, uid)
    ensures FirstRunningOn(pus, uid).Some? ==>
              exists p | 0 <= p < |pus| :: RunsOn(pus[p], uid) && pus[p].name == FirstRunningOn(pus, uid).value
                && forall q | 0 <= q < p :: !RunsOn(pus[q], uid)
    decreases |pus|
  {
    if |pus| > 0 {
      var rest := pus[1..];
      FirstRunningOnFinds(rest, uid);
      assert forall p | 1 <= p < |pus| :: pus[p] == rest[p - 1];
      if !RunsOn(pus[0], uid) && FirstRunningOn(rest, uid).Some? {
        var p :| 0 <= p < |rest| && RunsOn(rest[p], uid) && rest[p].name == FirstRunningOn(rest, uid).value
                 && forall q | 0 <= q < p :: !RunsOn(rest[q], uid);
        forall q | 0 <= q < p + 1 ensures !RunsOn(pus[q], uid) {
          if q > 0 { assert pus[q] == rest[q - 1]; }
        }
      }
    }
  }

  /**
   * The guard refuses for the services exactly when containers are not
   * allowed and some instance runs on the agent, and then names the first
   * such processing unit; it refuses for management exactly when that
   * check passed, management is not allowed and the agent started a GSM,
   * an ESM or a LUS; otherwise it passes.
   */
  lemma GuardDecides(view: AdminView, uid: Uid, allowManagement: bool, allowContainers: bool)
    ensures Guard(view, uid, allowManagement, allowContainers).ServiceStillRunning? <==>
              !allowContainers && HostsServices(view.processingUnits, uid)
    ensures Guard(view, uid, allowManagement, allowContainers).ServiceStillRunning? ==>
              exists p | 0 <= p < |view.processingUnits| ::
                RunsOn(view.processingUnits[p], uid)
                && view.processingUnits[p].name == Guard(view, uid, allowManagement, allowContainers).processingUnitName
                && forall q | 0 <= q < p :: !RunsOn(view.processingUnits[q], uid)
    ensures Guard(view, uid, allowManagement, allowContainers) == ManagementStillRunning <==>
              (allowContainers || !HostsServices(view.processingUnits, uid))
              && !allowManagement && HostsManagement(view, uid)
    ensures Guard(view, uid, allowManagement, allowContainers) == Pass <==>
              (allowContainers || !HostsServices(view.processingUnits, uid))
              && (allowManagement || !HostsManagement(view, uid))
  {
    FirstRunningOnFinds(view.processingUnits, uid);
  }

  /** With both overrides the guard never refuses, whatever runs on the agent. */
  lemma ForcedShutdownPasses(view: AdminView, uid: Uid)
    ensures Guard(view, uid, true, true) == Pass
  {
  }

  /**
   * An allowed category is never looked at: with containers allowed the
   * processing units do not matter, and with management allowed the
   * management processes do not matter.
   */
  lemma AllowedCategoryIgnored(view: AdminView, other: AdminView, uid: Uid, allowManagement: bool, allowContainers: bool)
    requires allowContainers || view.processingUnits == other.processingUnits
    requires allowManagement || (view.gridServiceManagers == other.gridServiceManagers
                                 && view.elasticServiceManagers == other.elasticServiceManagers
                                 && view.lookupServices == other.lookupServices)
    ensures Guard(view, uid, allowManagement, allowContainers) == Guard(other, uid, allowManagement, allowContainers)
  {
  }

  /**
   * The loops of the guard block: every instance of every processing unit
   * when containers are not allowed, then the GSMs, ESMs and LUSs when
   * management is not allowed; the first hit ends the scan.
   */
  method CheckShutdownGuard(view: AdminView, uid: Uid, allowManagement: bool, allowContainers: bool)
    returns (outcome: GuardOutcome)
    ensures outcome == Guard(view, uid, allowManagement, allowContainers)
  {
    if !allowContainers {
      var pus := view.processingUnits;
      for p := 0 to |pus|
        invariant FirstRunningOn(pus, uid) == FirstRunningOn(pus[p..], uid)
      {
        var instances := pus[p].instances;
        for i := 0 to |instances|
          invariant forall k | 0 <= k < i :: instances[k].containerAgent != Some(uid)
        {
          if instances[i].containerAgent == Some(uid) {
            assert pus[p..][0] == pus[p] && RunsOn(pus[p], uid);
            return ServiceStillRunning(pus[p].name);
          }
        }
        assert pus[p..][1..] == pus[p + 1..];
      }
    }
    if !allowManagement {
      var running := AnyStarted(view.gridServiceManagers, uid);
      if running { return ManagementStillRunning; }
      running := AnyStarted(view.elasticServiceManagers, uid);
      if running { return ManagementStillRunning; }
      running := AnyStarted(view.lookupServices, uid);
      if running { return ManagementStillRunning; }
    }
    return Pass;
  }
}
