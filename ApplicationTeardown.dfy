/**
 * The application part of teardown-localcloud: uninstallApplications, which
 * fetches the deployed applications, refuses to go on without `force` while
 * applications besides the management one exist, uninstalls every other
 * application and then waits until only the management application is left
 * (the isDone of waitForUninstallApplications).
 */
module ApplicationTeardown {
  import opened Failures

  /** `applicationsList.size() > 1`: something besides the management application is deployed. */
  predicate ApplicationsExist(apps: seq<string>) {
    |apps| > 1
  }

  /** The drain condition: every listed application is the management application. */
  predicate Drained(apps: seq<string>, managementApp: string) {
    forall i | 0 <= i < |apps| :: apps[i] == managementApp
  }

  /**
   * The isDone of waitForUninstallApplications: stops at the first
   * application that is not the management one.
   */
  method AllApplicationsUninstalled(apps: seq<string>, managementApp: string) returns (done: bool)
    ensures done <==> Drained(apps, managementApp)
  {
    done := true;
    for i := 0 to |apps|
      invariant done
      invariant forall j | 0 <= j < i :: apps[j] == managementApp
    {
      if managementApp != apps[i] {
        done := false;
        break;
      }
    }
  }

  /**
   * waitForUninstallApplications over the application lists its latch
   * fetches before the deadline: Done at the first drained list, the
   * fetch's CLIException if a fetch fails first, and a timeout when the
   * lists run out.
   */
  function DrainOutcome(polls: seq<Result<seq<string>>>, managementApp: string): Outcome {
    if |polls| == 0 then Failed(TimedOut(OperationTimedOut))
    else if polls[0].Err? then Failed(polls[0].failure)
    else if Drained(polls[0].value, managementApp) then Done
    else DrainOutcome(polls[1..], managementApp)
  }

  /** The latch loop of waitForUninstallApplications. */
  method WaitForUninstallApplications(polls: seq<Result<seq<string>>>, managementApp: string)
    returns (outcome: Outcome)
    ensures outcome == DrainOutcome(polls, managementApp)
  {
    for k := 0 to |polls|
      invariant DrainOutcome(polls, managementApp) == DrainOutcome(polls[k..], managementApp)
    {
      if polls[k].Err? {
        return Failed(polls[k].failure);
      }
      var done := AllApplicationsUninstalled(polls[k].value, managementApp);
      if done {
        return Done;
      }
      assert polls[k..][1..] == polls[k + 1..];
    }
    return Failed(TimedOut(OperationTimedOut));
  }

  /**
   * The wait succeeds exactly when some fetched list is drained and every
   * earlier fetch succeeded with a list that was not.
   */
  lemma {:induction false} DrainOutcomeDone(polls: seq<Result<seq<string>>>, managementApp: string)
    ensures DrainOutcome(polls, managementApp) == Done <==>
              exists k | 0 <= k < |polls| ::
                && polls[k].Ok? && Drained(polls[k].value, managementApp)
                && forall j | 0 <= j < k :: polls[j].Ok? && !Drained(polls[j].value, managementApp)
    decreases |polls|
  {
    if |polls| > 0 {
      var rest := polls[1..];
      DrainOutcomeDone(rest, managementApp);
      assert forall k | 1 <= k < |polls| :: polls[k] == rest[k - 1];
      if polls[0].Ok? && !Drained(polls[0].value, managementApp) {
        if DrainOutcome(rest, managementApp) == Done {
          var k :| && 0 <= k < |rest| && rest[k].Ok? && Drained(rest[k].value, managementApp)
                   && forall j | 0 <= j < k :: rest[j].Ok? && !Drained(rest[j].value, managementApp);
          forall j | 0 <= j < k + 1 ensures polls[j].Ok? && !Drained(polls[j].value, managementApp) {
            if j > 0 { assert polls[j] == rest[j - 1]; }
          }
          assert polls[k + 1].Ok? && Drained(polls[k + 1].value, managementApp);
        } else {
          forall k | 0 <= k < |polls| && polls[k].Ok? && Drained(polls[k].value, managementApp)
            ensures exists j | 0 <= j < k :: !(polls[j].Ok? && !Drained(polls[j].value, managementApp))
          {
            assert k > 0;
            assert rest[k - 1] == polls[k];
            var j :| 0 <= j < k - 1 && !(rest[j].Ok? && !Drained(rest[j].value, managementApp));
            assert polls[j + 1] == rest[j];
          }
        }
      } else if polls[0].Ok? {
        assert Drained(polls[0].value, managementApp);
      }
    }
  }

  /** The wait fails only by timing out or with the error of one of its fetches. */
  lemma {:induction false} DrainOutcomeFailures(polls: seq<Result<seq<string>>>, managementApp: string)
    ensures DrainOutcome(polls, managementApp).Failed? ==>
              || DrainOutcome(polls, managementApp) == Failed(TimedOut(OperationTimedOut))
              || exists k | 0 <= k < |polls| :: polls[k] == Err(DrainOutcome(polls, managementApp).failure)
    decreases |polls|
  {
    if |polls| > 0 && polls[0].Ok? && !Drained(polls[0].value, managementApp) {
      DrainOutcomeFailures(polls[1..], managementApp);
      if DrainOutcome(polls, managementApp) != Failed(TimedOut(OperationTimedOut))
         && DrainOutcome(polls, managementApp).Failed?
      {
        var k :| 0 <= k < |polls[1..]| && polls[1..][k] == Err(DrainOutcome(polls, managementApp).failure);
        assert polls[k + 1] == polls[1..][k];
      }
    } else if |polls| > 0 && polls[0].Err? {
      assert polls[0] == Err(DrainOutcome(polls, managementApp).failure);
    }
  }

  /** The applications list is empty of anything but the management application. */
  lemma EmptyListIsDrained(managementApp: string)
    ensures Drained([], managementApp)
    ensures Drained([managementApp], managementApp)
    ensures forall a: string | a != managementApp :: !Drained([a], managementApp)
  {
    forall a: string | a != managementApp ensures !Drained([a], managementApp) {
      assert [a][0] == a;
    }
  }

  /**
   * The uninstall loop of uninstallApplications, as a value: the
   * applications handed to uninstallApplication, in order, and how the loop
   * ended. An uninstall that fails stops the loop without `force` and is
   * skipped with it.
   */
  datatype LoopResult = LoopResult(outcome: Outcome, attempted: seq<string>)

  function UninstallEach(apps: seq<string>, managementApp: string, force: bool, failing: set<string>): LoopResult {
    if |apps| == 0 then LoopResult(Done, [])
    else if apps[0] == managementApp then UninstallEach(apps[1..], managementApp, force, failing)
    else if apps[0] in failing && !force then
      LoopResult(Failed(CliStatus(FailedToUninstallApp, [apps[0]])), [apps[0]])
    else
      var rest := UninstallEach(apps[1..], managementApp, force, failing);
      LoopResult(rest.outcome, [apps[0]] + rest.attempted)
  }

  /** The applications other than the management one, in list order. */
  function NonManagement(apps: seq<string>, managementApp: string): (r: seq<string>)
    ensures forall i | 0 <= i < |r| :: r[i] != managementApp
  {
    if |apps| == 0 then []
    else if apps[0] == managementApp then NonManagement(apps[1..], managementApp)
    else [apps[0]] + NonManagement(apps[1..], managementApp)
  }

  /** Every listed application other than the management one is kept. */
  lemma {:induction false} NonManagementKeeps(apps: seq<string>, managementApp: string, app: string)
    requires app in apps && app != managementApp
    ensures app in NonManagement(apps, managementApp)
    decreases |apps|
  {
    if apps[0] != app {
      assert app in apps[1..];
      NonManagementKeeps(apps[1..], managementApp, app);
    }
  }

  /**
   * The loop hands uninstallApplication a prefix of the non-management
   * applications, so never the management application; once it completes
   * it has handed every one of them over, and a failure names the last one.
   */
  lemma {:induction false} UninstallEachPlan(apps: seq<string>, managementApp: string, force: bool, failing: set<string>)
    ensures UninstallEach(apps, managementApp, force, failing).attempted <= NonManagement(apps, managementApp)
    ensures managementApp !in UninstallEach(apps, managementApp, force, failing).attempted
    ensures UninstallEach(apps, managementApp, force, failing).outcome == Done ==>
              UninstallEach(apps, managementApp, force, failing).attempted == NonManagement(apps, managementApp)
    ensures UninstallEach(apps, managementApp, force, failing).outcome.Failed? ==>
              var att := UninstallEach(apps, managementApp, force, failing).attempted;
              && |att| > 0 && att[|att| - 1] in failing && !force
              && UninstallEach(apps, managementApp, force, failing).outcome
                 == Failed(CliStatus(FailedToUninstallApp, [att[|att| - 1]]))
    decreases |apps|
  {
    if |apps| > 0 {
      var rest := apps[1..];
      UninstallEachPlan(rest, managementApp, force, failing);
      var r := UninstallEach(rest, managementApp, force, failing);
      if apps[0] != managementApp && (apps[0] !in failing || force) {
        var att := [apps[0]] + r.attempted;
        assert att[1..] == r.attempted;
        if r.outcome.Failed? {
          assert att[|att| - 1] == r.attempted[|r.attempted| - 1];
        }
      }
    }
  }

  /**
   * The loop completes exactly when `force` is set or no application other
   * than the management one fails to uninstall.
   */
  lemma {:induction false} UninstallEachCompletes(apps: seq<string>, managementApp: string, force: bool,
                                                  failing: set<string>)
    ensures UninstallEach(apps, managementApp, force, failing).outcome == Done <==>
              (force || forall i | 0 <= i < |apps| && apps[i] != managementApp :: apps[i] !in failing)
    decreases |apps|
  {
    if |apps| > 0 {
      var rest := apps[1..];
      UninstallEachCompletes(rest, managementApp, force, failing);
      assert forall i | 1 <= i < |apps| :: apps[i] == rest[i - 1];
      var r := UninstallEach(rest, managementApp, force, failing);
      if !force && r.outcome.Failed? && (apps[0] == managementApp || apps[0] !in failing) {
        var i :| 0 <= i < |rest| && rest[i] != managementApp && rest[i] in failing;
        assert apps[i + 1] == rest[i];
      }
    }
  }

  /** What one run of uninstallApplications does. */
  datatype TeardownApps = TeardownApps(outcome: Outcome, attempted: seq<string>, waited: bool)

  /**
   * uninstallApplications. `connected` is adminFacade.isConnected(), `fetched`
   * what getApplicationsList returned or threw, `failing` the applications
   * whose uninstall throws, `drainPolls` what the drain wait fetches.
   */
  function UninstallApplicationsPlan(connected: bool, fetched: Result<seq<string>>, managementApp: string,
                                     force: bool, failing: set<string>,
                                     drainPolls: seq<Result<seq<string>>>): TeardownApps
  {
    if !connected || fetched.Err? then
      if force then TeardownApps(Done, [], false)
      else TeardownApps(Failed(CliStatus(FailedToAccessRest, [])), [], false)
    else
      var apps := fetched.value;
      if ApplicationsExist(apps) && !force then
        TeardownApps(Failed(CliStatus(AppsDeployed, [ListToString(apps)])), [], false)
      else
        var loop := UninstallEach(apps, managementApp, force, failing);
        if loop.outcome.Failed? then TeardownApps(loop.outcome, loop.attempted, false)
        else if ApplicationsExist(apps) then TeardownApps(DrainOutcome(drainPolls, managementApp), loop.attempted, true)
        else TeardownApps(Done, loop.attempted, false)
  }

  /**
   * The promises of uninstallApplications: the management application is
   * never uninstalled; without `force`, deployed applications stop teardown
   * before any uninstall, with the list in the status; so the drain wait
   * runs exactly when applications existed and `force` is set.
   */
  lemma UninstallApplicationsPromises(connected: bool, fetched: Result<seq<string>>, managementApp: string,
                                      force: bool, failing: set<string>, drainPolls: seq<Result<seq<string>>>)
    ensures var t := UninstallApplicationsPlan(connected, fetched, managementApp, force, failing, drainPolls);
            && managementApp !in t.attempted
            && (t.waited <==> connected && fetched.Ok? && ApplicationsExist(fetched.value) && force)
            && (t.waited ==> t.outcome == DrainOutcome(drainPolls, managementApp))
            && (connected && fetched.Ok? && ApplicationsExist(fetched.value) && !force ==>
                  t == TeardownApps(Failed(CliStatus(AppsDeployed, [ListToString(fetched.value)])), [], false))
  {
    if connected && fetched.Ok? {
      UninstallEachPlan(fetched.value, managementApp, force, failing);
    }
  }

  /**
   * Under `force`, no error of the applications step stops teardown: access
   * errors and failed uninstalls are swallowed, every non-management
   * application is handed to uninstallApplication, and only the drain wait
   * can still fail.
   */
  lemma ForcedTeardownUninstallsAll(connected: bool, fetched: Result<seq<string>>, managementApp: string,
                                    failing: set<string>, drainPolls: seq<Result<seq<string>>>)
    ensures var t := UninstallApplicationsPlan(connected, fetched, managementApp, true, failing, drainPolls);
            && (t.outcome.Failed? ==> t.waited)
            && (connected && fetched.Ok? ==> t.attempted == NonManagement(fetched.value, managementApp))
  {
    if connected && fetched.Ok? {
      UninstallEachPlan(fetched.value, managementApp, true, failing);
      UninstallEachCompletes(fetched.value, managementApp, true, failing);
    }
  }

  /**
   * The `size() > 1` test counts the management application too: a single
   * other application is uninstalled even without `force`, and no drain
   * wait follows.
   */
  lemma SingleApplicationUninstalledWithoutForce(app: string, managementApp: string, failing: set<string>,
                                                 drainPolls: seq<Result<seq<string>>>)
    requires app != managementApp && app !in failing
    ensures UninstallApplicationsPlan(true, Ok([app]), managementApp, false, failing, drainPolls)
            == TeardownApps(Done, [app], false)
  {
    assert [app][1..] == [];
    assert UninstallEach([app], managementApp, false, failing) == LoopResult(Done, [app]);
  }
}
