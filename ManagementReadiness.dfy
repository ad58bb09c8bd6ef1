/**
 * The predicate waitForManagementProcesses polls after a new agent is up:
 * a LUS and a GSM started by that agent, and at least one ESM. The ESM is
 * not checked for ownership; any visible ESM will do.
 */
module ManagementReadiness {
  import opened Wrappers
  import opened AdminSnapshot

  /** The readiness condition on one admin view. */
  predicate ManagementReady(view: AdminView, uid: Uid) {
    && AnyStartedBy(view.lookupServices, uid)
    && AnyStartedBy(view.gridServiceManagers, uid)
    && |view.elasticServiceManagers| > 0
  }

  /** Which agent started the ESMs makes no difference, only whether there is one. */
  lemma EsmOwnershipIgnored(view: AdminView, uid: Uid, esms: seq<AgentComponent>)
    requires |esms| > 0 <==> |view.elasticServiceManagers| > 0
    ensures ManagementReady(view, uid) == ManagementReady(view.(elasticServiceManagers := esms), uid)
  {
  }

  /**
   * Management processes of other agents do not count: without a LUS or
   * without a GSM started by this agent the management is not ready,
   * whatever else is visible.
   */
  lemma ForeignProcessesDoNotCount(view: AdminView, uid: Uid)
    requires || (forall k | 0 <= k < |view.lookupServices| :: view.lookupServices[k].startedBy != Some(uid))
             || (forall k | 0 <= k < |view.gridServiceManagers| :: view.gridServiceManagers[k].startedBy != Some(uid))
    ensures !ManagementReady(view, uid)
  {
  }

  /** The isDone of the latch: each of the three checks is made, and all must hold. */
  method ManagementProcessesDone(view: AdminView, uid: Uid) returns (isDone: bool)
    ensures isDone <==> ManagementReady(view, uid)
  {
    isDone := true;
    var lus := AnyStarted(view.lookupServices, uid);
    if !lus {
      isDone := false;
    }
    var gsm := AnyStarted(view.gridServiceManagers, uid);
    if !gsm {
      isDone := false;
    }
    if |view.elasticServiceManagers| == 0 {
      isDone := false;
    }
  }

  /**
   * waitForManagementProcesses: the latch evaluates the predicate on each
   * snapshot observed before the deadline, in order, and stops at the first
   * one that is ready; false is the timeout.
   */
  method WaitForManagementProcesses(polls: seq<AdminView>, uid: Uid) returns (done: bool)
    ensures done <==> exists k | 0 <= k < |polls| :: ManagementReady(polls[k], uid)
  {
    for k := 0 to |polls|
      invariant forall j | 0 <= j < k :: !ManagementReady(polls[j], uid)
    {
      var ready := ManagementProcessesDone(polls[k], uid);
      if ready {
        return true;
      }
    }
    return false;
  }
}
