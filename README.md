# Local bootstrap and teardown decisions of Cloudify's CLI

This project models the decision logic of Cloudify's `LocalhostGridAgentBootstrapper`. In the CLI, this object starts the grid service agent (GSA) and the management processes on the local machine, and tears them down again. The project also models the REST service's `ValidateApplicationNotManagement` uninstall validator. It proves what the code promises about both.

Each poll of the admin (discovery) API is a snapshot value (`AdminSnapshot.AdminView`). The snapshot holds the visible agents, the processing units with their instances, and the GSM, ESM and LUS processes. Each component refers to the agent that started it by uid. A `ConditionLatch` wait is modelled as a scan over the snapshots the latch would see before its deadline. Running out of snapshots is the latch's `TimeoutException`.

The modules follow the structure of the Java code:

- `AgentMatching`: `waitForAgent`, `checkAgent` and `getCommandLineArgumentRemovePrefix`. These pick the agent that is "ours".
- `ManagementReadiness`: the `isDone` predicate of `waitForManagementProcesses`.
- `ShutdownGuard`: the `allowContainers` / `allowManagement` block of `shutdownAgentOnLocalhostAndWaitInternal`.
- `ApplicationTeardown`: `uninstallApplications`, and the drain predicate of `waitForUninstallApplications`.
- `LookupSettings`: `convertLookupLocatorToString` and `getLocalcloudLookupLocators`.
- `LaunchOptions`: the JVM options and environment that `runCommand` assembles.
- `ApplicationValidation`: the REST uninstall validator.
- `Bootstrapper`: the `LocalhostGridAgentBootstrapper` class itself. Its fields mirror the Java fields, and its setters and defaulting steps update them in place. Its composite operations are proved against specification functions over a value copy of the fields, `Fields`.
- `Failures`, `Strings`, `Wrappers`: the exceptions as values, the delimited joining of GigaSpaces' `com.gigaspaces.internal.utils.StringUtils` and Java's int rendering, and `Option`.

Java `null` is `None`. Each exception the code throws is a `Failure` value: `IllegalState`, `CliError`, `CliStatus` (a message-bundle key and its arguments), `TimedOut` or `AdminError`. A message is named by a `Failures.Message` value, and `Failures.Text` gives its wording as the source writes it. A bundle key is a `Failures.Reason`, and `Failures.Key` gives the key string.

Some values come from outside the class. They are parameters of the model:

- `isThisMyIpAddress` (it resolves addresses through the JVM) is the function parameter `isLocal`.
- The port probe of `fastExistingAgentCheck` is the boolean `lusPortInUse`.
- The host address lookup of `setDefaultNicAddress` is an `Option<string>`.
- The admin's groups and locators are inputs.
- What the REST facade reports is `connected`, `fetched`, `failing` and the drain polls.
- What the remote agent answers is `ShutdownReply` plus the ping results.
- Four constants are defined in classes that are not part of this model. `CloudifyConstants.DEFAULT_LUS_PORT`, `CloudifyConstants.DEFAULT_LOCALCLOUD_LUS_PORT` and `ManagementWebServiceInstaller.MANAGEMENT_APPLICATION_NAME` (the bootstrapper's management application) are constructor parameters. `CloudifyConstants.MANAGEMENT_APPLICATION_NAME` (the REST validator's management application) is a parameter of `ApplicationValidation.Validate`.

Two behaviours of the code are easy to misread, and lemmas state them:

- **ESM readiness.** `waitForManagementProcesses` requires the LUS and the GSM to be started by the new agent, but only that some ESM exists (`ManagementReadiness.EsmOwnershipIgnored`).
- **Which applications count.** `uninstallApplications` counts the management application itself: applications "exist" only when the list has more than one entry. So a single other application is uninstalled even without `force`, and no drain wait follows (`ApplicationTeardown.SingleApplicationUninstalledWithoutForce`).

## Model

| member | source | states |
|---|---|---|
| AdminSnapshot.AnyStarted | CLI/src/main/java/org/cloudifysource/shell/installer/LocalhostGridAgentBootstrapper.java:620-636 | one `agent.equals(component.getGridServiceAgent())` scan finds a hit exactly when some component of the list was started by the agent |
| AgentMatching.LastWithPrefixIsLast | CLI/src/main/java/org/cloudifysource/shell/installer/LocalhostGridAgentBootstrapper.java:1171-1176 | nothing is remembered exactly when no argument starts with the prefix; otherwise the remembered argument is the one at the last position that does |
| AgentMatching.ArgumentAfterPrefixIs | CLI/src/main/java/org/cloudifysource/shell/installer/LocalhostGridAgentBootstrapper.java:1163-1182 | the extracted lookup group is `v` exactly when the last argument with the prefix is the prefix followed by `v` |
| AgentMatching.ArgumentAfterPrefixAbsent | CLI/src/main/java/org/cloudifysource/shell/installer/LocalhostGridAgentBootstrapper.java:1178-1181 | the result is null exactly when no argument has the prefix |
| AgentMatching.GetCommandLineArgumentRemovePrefix | CLI/src/main/java/org/cloudifysource/shell/installer/LocalhostGridAgentBootstrapper.java:1169-1182 | the loop returns the last prefixed argument with the prefix stripped, and null iff there is none |
| AgentMatching.CheckAgent | CLI/src/main/java/org/cloudifysource/shell/installer/LocalhostGridAgentBootstrapper.java:1115-1134 | an agent matches iff the filter group is set, the agent's last lookup-groups switch names exactly that group, and its host address is the filter's NIC address or a local address |
| AgentMatching.LocalAddressMatchesAnyNic | CLI/src/main/java/org/cloudifysource/shell/installer/LocalhostGridAgentBootstrapper.java:1119-1120 | for an agent on a local address, the NIC address held by the filter (even null) does not change the verdict |
| AgentMatching.FirstMatchingIsFirst | CLI/src/main/java/org/cloudifysource/shell/installer/LocalhostGridAgentBootstrapper.java:1096-1103 | the scan finds nothing iff no agent matches; otherwise it returns the agent at the first matching position |
| AgentMatching.FindAgent | CLI/src/main/java/org/cloudifysource/shell/installer/LocalhostGridAgentBootstrapper.java:1096-1103 | the scan loop with `break` returns the first matching agent of the snapshot, and nothing iff none matches |
| AgentMatching.FirstAgentOverPollsFinds | CLI/src/main/java/org/cloudifysource/shell/installer/LocalhostGridAgentBootstrapper.java:1089-1113 | the wait times out iff no snapshot shows a matching agent; an agent it returns is the first match of some snapshot, and every earlier snapshot has none |
| AgentMatching.WaitForAgent | CLI/src/main/java/org/cloudifysource/shell/installer/LocalhostGridAgentBootstrapper.java:1084-1186 | the latch loop returns what the specification of the wait over the polls returns |
| ManagementReadiness.EsmOwnershipIgnored | CLI/src/main/java/org/cloudifysource/shell/installer/LocalhostGridAgentBootstrapper.java:1015-1021 | readiness depends on the ESM list only through whether it is empty, whoever started the ESMs |
| ManagementReadiness.ForeignProcessesDoNotCount | CLI/src/main/java/org/cloudifysource/shell/installer/LocalhostGridAgentBootstrapper.java:999-1013 | when no LUS or no GSM was started by the new agent, its management is not ready, whatever other agents run |
| ManagementReadiness.ManagementProcessesDone | CLI/src/main/java/org/cloudifysource/shell/installer/LocalhostGridAgentBootstrapper.java:995-1033 | isDone holds iff some LUS and some GSM were started by the agent and the ESM list is not empty |
| ManagementReadiness.WaitForManagementProcesses | CLI/src/main/java/org/cloudifysource/shell/installer/LocalhostGridAgentBootstrapper.java:984-1072 | the wait succeeds iff some polled snapshot is ready; otherwise it times out |
| ShutdownGuard.FirstRunningOnFinds | CLI/src/main/java/org/cloudifysource/shell/installer/LocalhostGridAgentBootstrapper.java:603-612 | a processing unit is named iff some unit has an instance on the agent, and the one named is the first such unit |
| ShutdownGuard.GuardDecides | CLI/src/main/java/org/cloudifysource/shell/installer/LocalhostGridAgentBootstrapper.java:603-637 | the services refusal happens iff containers are not allowed and an instance runs on the agent, and it names the first such unit; the management refusal happens iff that check passed, management is not allowed and the agent started a GSM, ESM or LUS; otherwise the guard passes |
| ShutdownGuard.ForcedShutdownPasses | CLI/src/main/java/org/cloudifysource/shell/installer/LocalhostGridAgentBootstrapper.java:603-637 | with both categories allowed the guard passes whatever runs on the agent |
| ShutdownGuard.AllowedCategoryIgnored | CLI/src/main/java/org/cloudifysource/shell/installer/LocalhostGridAgentBootstrapper.java:603-637 | an allowed category is never looked at: changing only its components leaves the verdict unchanged |
| ShutdownGuard.CheckShutdownGuard | CLI/src/main/java/org/cloudifysource/shell/installer/LocalhostGridAgentBootstrapper.java:603-637 | the nested scan loops with early exits decide exactly what the guard specification decides |
| Failures.ServiceRunningTextNamesUnit | CLI/src/main/java/org/cloudifysource/shell/installer/LocalhostGridAgentBootstrapper.java:607-608 | the running-service refusal quotes the processing unit's name after its fixed opening, so equal texts mean the same unit |
| LookupSettings.ConvertLookupLocatorToString | CLI/src/main/java/org/cloudifysource/shell/installer/LocalhostGridAgentBootstrapper.java:929-937 | the loop yields the comma join of "host:port" for each locator in order, and "" for a null array |
| LookupSettings.NoLocatorsGiveEmptyString | CLI/src/main/java/org/cloudifysource/shell/installer/LocalhostGridAgentBootstrapper.java:929-937 | a null array and an empty array both give the empty string |
| LookupSettings.LocatorsStringSplits | CLI/src/main/java/org/cloudifysource/shell/installer/LocalhostGridAgentBootstrapper.java:929-937 | when no host contains a comma, the string splits at commas back into one "host:port" entry per locator, in order |
| LookupSettings.LocatorStringParts | CLI/src/main/java/org/cloudifysource/shell/installer/LocalhostGridAgentBootstrapper.java:933 | an entry splits at its colon into the host and a number that parses back to the port |
| LookupSettings.GetLocalcloudLookupLocators | CLI/src/main/java/org/cloudifysource/shell/installer/LocalhostGridAgentBootstrapper.java:341-346 | getLocalcloudLookupLocators fails iff there is no NIC address; otherwise it is what convertLookupLocatorToString makes of the single locator at the NIC address and LUS port |
| LaunchOptions.MulticastDisabledEverywhereIffLocators | CLI/src/main/java/org/cloudifysource/shell/installer/LocalhostGridAgentBootstrapper.java:1221-1229 | each of the five option lists has the multicast-off switch iff lookup locators are set |
| LaunchOptions.ZoneOnlyForGsa | CLI/src/main/java/org/cloudifysource/shell/installer/LocalhostGridAgentBootstrapper.java:1235-1237 | the GSA options carry a zone switch iff a zone is set, and then it is the switch for that zone |
| LaunchOptions.NoZoneOutsideGsa | CLI/src/main/java/org/cloudifysource/shell/installer/LocalhostGridAgentBootstrapper.java:1211-1237 | none of the LUS, GSM, ESM and GSC option lists carries a zone switch |
| LaunchOptions.AutoShutdownOnlyForGsa | CLI/src/main/java/org/cloudifysource/shell/installer/LocalhostGridAgentBootstrapper.java:1207-1214 | the GSA options carry the auto-shutdown switch iff auto-shutdown is on, and no other process's options ever do |
| LaunchOptions.LusAndGsmCarryLusPort | CLI/src/main/java/org/cloudifysource/shell/installer/LocalhostGridAgentBootstrapper.java:1211-1212 | the LUS and GSM options both hold the unicast discovery port switch, and its value parses back to `lusPort` |
| LaunchOptions.OptionStringsSplitIntoSwitches | CLI/src/main/java/org/cloudifysource/shell/installer/LocalhostGridAgentBootstrapper.java:1207-1237 | each non-empty option string splits at blanks back into its switch list when the zone has no blank |
| LaunchOptions.LaunchEnvironmentKeys | CLI/src/main/java/org/cloudifysource/shell/installer/LocalhostGridAgentBootstrapper.java:1216-1243 | the environment holds the inherited variables, LOOKUPGROUPS, LOOKUPLOCATORS and NIC_ADDR exactly when set, and the five option variables always |
| LaunchOptions.LaunchEnvironmentLookupValues | CLI/src/main/java/org/cloudifysource/shell/installer/LocalhostGridAgentBootstrapper.java:1217-1233 | LOOKUPGROUPS, LOOKUPLOCATORS and NIC_ADDR hold the set field values |
| LaunchOptions.LaunchEnvironmentOptionValues | CLI/src/main/java/org/cloudifysource/shell/installer/LocalhostGridAgentBootstrapper.java:1239-1243 | the five option variables hold the GSA, LUS, GSM, ESM and GSC option strings |
| LaunchOptions.LaunchEnvironmentKeepsInherited | CLI/src/main/java/org/cloudifysource/shell/installer/LocalhostGridAgentBootstrapper.java:1216-1243 | every other inherited variable keeps its value |
| ApplicationTeardown.AllApplicationsUninstalled | CLI/src/main/java/org/cloudifysource/shell/installer/LocalhostGridAgentBootstrapper.java:516-522 | the loop with `break` says done iff every listed name is the management application |
| ApplicationTeardown.EmptyListIsDrained | CLI/src/main/java/org/cloudifysource/shell/installer/LocalhostGridAgentBootstrapper.java:516-522 | the empty list and the management application alone are drained; a single other application is not |
| ApplicationTeardown.WaitForUninstallApplications | CLI/src/main/java/org/cloudifysource/shell/installer/LocalhostGridAgentBootstrapper.java:507-537 | the latch loop ends as the drain specification over the fetched lists says |
| ApplicationTeardown.DrainOutcomeDone | CLI/src/main/java/org/cloudifysource/shell/installer/LocalhostGridAgentBootstrapper.java:509-536 | the wait succeeds iff some fetched list is drained and every earlier fetch returned an undrained list |
| ApplicationTeardown.DrainOutcomeFailures | CLI/src/main/java/org/cloudifysource/shell/installer/LocalhostGridAgentBootstrapper.java:513-514 | the wait fails only by the timeout or with the error of one of its fetches |
| ApplicationTeardown.UninstallEachPlan | CLI/src/main/java/org/cloudifysource/shell/installer/LocalhostGridAgentBootstrapper.java:481-499 | the loop hands uninstallApplication a prefix of the non-management applications, so never the management one; it hands all of them when it completes; a failure is failed_to_uninstall_app_before_teardown naming the last one handed |
| ApplicationTeardown.UninstallEachCompletes | CLI/src/main/java/org/cloudifysource/shell/installer/LocalhostGridAgentBootstrapper.java:481-499 | the loop completes iff `force` is set or no non-management application fails to uninstall |
| ApplicationTeardown.UninstallApplicationsPromises | CLI/src/main/java/org/cloudifysource/shell/installer/LocalhostGridAgentBootstrapper.java:448-505 | the management application is never uninstalled; applications existing without `force` fail with apps_deployed_before_teardown_localcloud and the list before any uninstall; the drain wait runs iff the list was fetched, applications existed and `force` is set, and then decides the outcome |
| ApplicationTeardown.ForcedTeardownUninstallsAll | CLI/src/main/java/org/cloudifysource/shell/installer/LocalhostGridAgentBootstrapper.java:462-499 | under `force`, access and uninstall errors are swallowed: every non-management application is handed over and only the drain wait can fail |
| ApplicationTeardown.SingleApplicationUninstalledWithoutForce | CLI/src/main/java/org/cloudifysource/shell/installer/LocalhostGridAgentBootstrapper.java:461 | a list of one non-management application is uninstalled without `force` and without a drain wait |
| ApplicationValidation.Validate | restful/src/main/java/org/cloudifysource/rest/validators/ValidateApplicationNotManagement.java:46-64 | validation rejects with FAILED_TO_LOCATE_APP and the requested name iff nothing was discovered, rejects with CANNOT_UNINSTALL_MANAGEMENT_APP iff the discovered application is the management application, and passes iff another application was found |
| ApplicationValidation.NotFoundCheckedFirst | restful/src/main/java/org/cloudifysource/rest/validators/ValidateApplicationNotManagement.java:51-57 | without a discovered application the verdict does not depend on the management name, even for a request naming the management application |
| ApplicationValidation.NameComparedExactly | restful/src/main/java/org/cloudifysource/rest/validators/ValidateApplicationNotManagement.java:57-64 | a discovered name that differs from the management name in any one character, letter case included, passes |
| Bootstrapper.DefaultNicAddressPromises | CLI/src/main/java/org/cloudifysource/shell/installer/LocalhostGridAgentBootstrapper.java:322-335 | a set NIC address is kept; otherwise the host address is taken; the step fails, changing nothing, iff neither exists |
| Bootstrapper.DefaultLocalcloudLookupPromises | CLI/src/main/java/org/cloudifysource/shell/installer/LocalhostGridAgentBootstrapper.java:539-554 | the step fails iff a zone is set, or locators are missing with no NIC address, in which case the port is already changed; on success the port is the local cloud's, set groups and locators are kept, missing ones become "localcloud" and "nic:port", and nothing else changes |
| Bootstrapper.DerivedLocalcloudLocator | CLI/src/main/java/org/cloudifysource/shell/installer/LocalhostGridAgentBootstrapper.java:547-549 | derived locators name one locator, at the NIC address and the local cloud's port, which split back out of the string |
| Bootstrapper.LookupDefaultsPromises | CLI/src/main/java/org/cloudifysource/shell/installer/LocalhostGridAgentBootstrapper.java:910-919 | setLookupDefaults fails, changing nothing, iff the admin has no groups; otherwise it changes only groups and locators, and replaces the locators iff the admin has some |
| Bootstrapper.LookupDefaultsGroupsSplit | CLI/src/main/java/org/cloudifysource/shell/installer/LocalhostGridAgentBootstrapper.java:914 | the groups field splits at commas back into the admin's groups |
| Bootstrapper.ExistingAgentGateDecides | CLI/src/main/java/org/cloudifysource/shell/installer/LocalhostGridAgentBootstrapper.java:773-780 | the start is refused with "Agent already running on local machine." iff the gate applies and some snapshot shows an agent of ours; a local cloud with a free LUS port is never refused |
| Bootstrapper.WaitForAgentShutdown | CLI/src/main/java/org/cloudifysource/shell/installer/LocalhostGridAgentBootstrapper.java:690-712 | the ping wait ends with the agent down iff some ping failed |
| Bootstrapper.ShutdownAgentAndWait | CLI/src/main/java/org/cloudifysource/shell/installer/LocalhostGridAgentBootstrapper.java:672-713 | a refused shutdown call is an AdminException; otherwise the outcome is Done iff some ping failed, else the timeout |
| Bootstrapper.TeardownStepsCloseAdmin | CLI/src/main/java/org/cloudifysource/shell/installer/LocalhostGridAgentBootstrapper.java:583-653 | every path disconnects the facade, creates the admin and closes it; the last step is a close or the grace sleep; the grace sleep happens iff an agent was found |
| Bootstrapper.TeardownShutdownNeedsGuard | CLI/src/main/java/org/cloudifysource/shell/installer/LocalhostGridAgentBootstrapper.java:603-641 | the agent is shut down only after `admin.close()`, only once, only if it was found and the guard passed, and it is the agent found |
| Bootstrapper.TeardownStepsOutcome | CLI/src/main/java/org/cloudifysource/shell/installer/LocalhostGridAgentBootstrapper.java:589-600 | without an agent, teardown fails with teardown_failed_agent_not_found and only closes the admin; a failed setLookupDefaults is the outcome; success means found, guard passed, the shutdown call was not refused (it returned, or the connection dropped) and a failed ping |
| Bootstrapper.TeardownGuardMessages | CLI/src/main/java/org/cloudifysource/shell/installer/LocalhostGridAgentBootstrapper.java:603-637 | the refusal for a running service names a processing unit that runs on the agent; the management refusal is the shutdown-management message |
| Bootstrapper.LocalCloudTeardownIgnoresGuard | CLI/src/main/java/org/cloudifysource/shell/installer/LocalhostGridAgentBootstrapper.java:445 | teardown-localcloud's agent teardown shuts down any found agent, whatever runs on it |
| Bootstrapper.TeardownUninstallsPassValidation | CLI/src/main/java/org/cloudifysource/shell/installer/LocalhostGridAgentBootstrapper.java:483-484 | when the validator's management application name is the bootstrapper's, each application teardown hands to uninstallApplication passes the REST uninstall validator once discovered |
| Bootstrapper.TeardownCanHitValidatorsManagementApp | restful/src/main/java/org/cloudifysource/rest/validators/ValidateApplicationNotManagement.java:57 | when the validator's management application name differs from the bootstrapper's and is listed, a forced teardown hands it to uninstallApplication, and the validator refuses it |
| Bootstrapper.LocalhostGridAgentBootstrapper.constructor | CLI/src/main/java/org/cloudifysource/shell/installer/LocalhostGridAgentBootstrapper.java:135-149 | every field starts at its Java default, the LUS port at the default LUS port |
| Bootstrapper.LocalhostGridAgentBootstrapper.SetVerbose | CLI/src/main/java/org/cloudifysource/shell/installer/LocalhostGridAgentBootstrapper.java:159-161 | sets `verbose`; no other field changes |
| Bootstrapper.LocalhostGridAgentBootstrapper.SetLookupGroups | CLI/src/main/java/org/cloudifysource/shell/installer/LocalhostGridAgentBootstrapper.java:169-171 | sets `lookupGroups`; no other field changes |
| Bootstrapper.LocalhostGridAgentBootstrapper.SetLookupLocators | CLI/src/main/java/org/cloudifysource/shell/installer/LocalhostGridAgentBootstrapper.java:179-181 | sets `lookupLocators`; no other field changes |
| Bootstrapper.LocalhostGridAgentBootstrapper.SetNicAddress | CLI/src/main/java/org/cloudifysource/shell/installer/LocalhostGridAgentBootstrapper.java:189-191 | sets `nicAddress`; no other field changes |
| Bootstrapper.LocalhostGridAgentBootstrapper.SetZone | CLI/src/main/java/org/cloudifysource/shell/installer/LocalhostGridAgentBootstrapper.java:199-201 | sets `zone`; no other field changes |
| Bootstrapper.LocalhostGridAgentBootstrapper.SetProgressInSeconds | CLI/src/main/java/org/cloudifysource/shell/installer/LocalhostGridAgentBootstrapper.java:209-211 | sets `progressInSeconds`; no other field changes |
| Bootstrapper.LocalhostGridAgentBootstrapper.SetNoWebServices | CLI/src/main/java/org/cloudifysource/shell/installer/LocalhostGridAgentBootstrapper.java:229-231 | sets `noWebServices`; no other field changes |
| Bootstrapper.LocalhostGridAgentBootstrapper.SetNoManagementSpace | CLI/src/main/java/org/cloudifysource/shell/installer/LocalhostGridAgentBootstrapper.java:240-242 | sets `noManagementSpace`; no other field changes |
| Bootstrapper.LocalhostGridAgentBootstrapper.SetAutoShutdown | CLI/src/main/java/org/cloudifysource/shell/installer/LocalhostGridAgentBootstrapper.java:250-252 | sets `autoShutdown`; no other field changes |
| Bootstrapper.LocalhostGridAgentBootstrapper.SetWaitForWebui | CLI/src/main/java/org/cloudifysource/shell/installer/LocalhostGridAgentBootstrapper.java:260-262 | sets `waitForWebUi`; no other field changes |
| Bootstrapper.LocalhostGridAgentBootstrapper.SetNotHighlyAvailableManagementSpace | CLI/src/main/java/org/cloudifysource/shell/installer/LocalhostGridAgentBootstrapper.java:272-274 | sets `notHighlyAvailableManagementSpace`; no other field changes |
| Bootstrapper.LocalhostGridAgentBootstrapper.SetForce | CLI/src/main/java/org/cloudifysource/shell/installer/LocalhostGridAgentBootstrapper.java:293-295 | sets `force`; no other field changes |
| Bootstrapper.LocalhostGridAgentBootstrapper.SetCloudContents | CLI/src/main/java/org/cloudifysource/shell/installer/LocalhostGridAgentBootstrapper.java:1347-1349 | sets `cloudContents`; no other field changes |
| Bootstrapper.LocalhostGridAgentBootstrapper.SetDefaultNicAddress | CLI/src/main/java/org/cloudifysource/shell/installer/LocalhostGridAgentBootstrapper.java:322-335 | the outcome and new fields are those of the NIC-address default step |
| Bootstrapper.LocalhostGridAgentBootstrapper.SetDefaultLocalcloudLookup | CLI/src/main/java/org/cloudifysource/shell/installer/LocalhostGridAgentBootstrapper.java:539-554 | the outcome and new fields are those of the local-cloud lookup step |
| Bootstrapper.LocalhostGridAgentBootstrapper.SetLookupDefaults | CLI/src/main/java/org/cloudifysource/shell/installer/LocalhostGridAgentBootstrapper.java:910-919 | the outcome and new fields are those of the lookup-defaults step |
| Bootstrapper.LocalhostGridAgentBootstrapper.CheckExistingAgent | CLI/src/main/java/org/cloudifysource/shell/installer/LocalhostGridAgentBootstrapper.java:773-780 | the gate's outcome is the existing-agent gate applied to what the wait over the polls finds with the current filter |
| Bootstrapper.LocalhostGridAgentBootstrapper.UninstallApplications | CLI/src/main/java/org/cloudifysource/shell/installer/LocalhostGridAgentBootstrapper.java:448-505 | outcome, uninstalled applications and whether the drain ran are those of the application-teardown plan for the current `force` |
| Bootstrapper.LocalhostGridAgentBootstrapper.GsaJavaOptions | CLI/src/main/java/org/cloudifysource/shell/installer/LocalhostGridAgentBootstrapper.java:1207-1237 | the GSA option string is the blank join of its switch list |
| Bootstrapper.LocalhostGridAgentBootstrapper.LusJavaOptions | CLI/src/main/java/org/cloudifysource/shell/installer/LocalhostGridAgentBootstrapper.java:1211-1225 | the LUS option string is the blank join of its switch list |
| Bootstrapper.LocalhostGridAgentBootstrapper.GsmJavaOptions | CLI/src/main/java/org/cloudifysource/shell/installer/LocalhostGridAgentBootstrapper.java:1212-1226 | the GSM option string is the blank join of its switch list |
| Bootstrapper.LocalhostGridAgentBootstrapper.EsmJavaOptions | CLI/src/main/java/org/cloudifysource/shell/installer/LocalhostGridAgentBootstrapper.java:1213-1227 | the ESM option string is the blank join of its switch list |
| Bootstrapper.LocalhostGridAgentBootstrapper.GscJavaOptions | CLI/src/main/java/org/cloudifysource/shell/installer/LocalhostGridAgentBootstrapper.java:1214-1228 | the GSC option string is the blank join of its switch list |
| Bootstrapper.LocalhostGridAgentBootstrapper.JavaOptions | CLI/src/main/java/org/cloudifysource/shell/installer/LocalhostGridAgentBootstrapper.java:1207-1237 | the five option strings are the blank joins of the five switch lists |
| Bootstrapper.LocalhostGridAgentBootstrapper.BuildEnvironment | CLI/src/main/java/org/cloudifysource/shell/installer/LocalhostGridAgentBootstrapper.java:1207-1243 | the process environment is the launch environment of the current fields |
| Bootstrapper.LocalhostGridAgentBootstrapper.ShutdownAgentOnLocalhostAndWaitInternal | CLI/src/main/java/org/cloudifysource/shell/installer/LocalhostGridAgentBootstrapper.java:577-654 | the fields are those setLookupDefaults leaves; outcome and admin/agent steps are those of the teardown specification over the found agent |
| Bootstrapper.LocalhostGridAgentBootstrapper.ShutdownAgentOnLocalhostAndWait | CLI/src/main/java/org/cloudifysource/shell/installer/LocalhostGridAgentBootstrapper.java:391-397 | a failing NIC default ends it with nothing touched; otherwise it is the teardown with management refused and services allowed only under `force` |
| Bootstrapper.LocalhostGridAgentBootstrapper.TeardownLocalCloudOnLocalhostAndWait | CLI/src/main/java/org/cloudifysource/shell/installer/LocalhostGridAgentBootstrapper.java:436-446 | each step runs only if the one before completed: NIC default, local-cloud lookup, application teardown, then the agent teardown with both categories allowed |
| Strings.SplitJoin | CLI/src/main/java/org/cloudifysource/shell/installer/LocalhostGridAgentBootstrapper.java:914 | a list of parts without the delimiter splits back out of its delimited join |

## Left out

- Process launch: `runCommand`'s script, command line, `ProcessBuilder` start, the settle sleep and exit-value check, `createScript` and `isWindows`. These are operating-system I/O. The environment the process would receive is modelled.
- `runGsAgentOnLocalHost`, `startAgentOnLocalhostAndWait`, `startLocalCloudOnLocalhostAndWait`, `startManagementOnLocalhostAndWait`, `shutdownManagementOnLocalhostAndWait`, and everything in `startManagementOnLocalhostAndWaitInternal` except the existing-agent gate. These drive the process launch and the management installers, whose source is not part of this model. The pieces they decide with are modelled: the gate, the agent wait and the readiness wait.
- The management space, web UI and REST installers, and the write of the cloud configuration into the space. Their classes are not part of this model.
- `ConnectionLogsFilter`: the suppression of connection logs while the admin is in use, and its restore on every exit path in the `finally` blocks, are not modelled. They are logging only.
- `ConditionLatch` timing, `ShellUtils.millisUntil` and the wall clock. A wait is a scan over the snapshots seen before the deadline, and a deadline already passed is not modelled.
- `createAdmin` (AdminFactory) and `adminFacade.disconnect` appear only as named steps in `Bootstrapper.Action`. The 10-second sleep after closing the admin is the `GraceSleep` step.
- RMI: `gsa.shutdown()` and `gsa.ping()` become `ShutdownReply` and ping results. The `NetworkExceptionHelper` classification becomes the `ConnectionDropped` / `Refused` choice.
- `isThisMyIpAddress`: its address resolution is the uninterpreted function parameter `isLocal`.
- Events, logging and the `verbose` messages (`publishEvent`, the listener list, the `messagePublished` flags). No decision depends on them.
- `setAdminFacade`: the facade's answers are inputs to the operations that use them.
- `isNotHighlyAvailableManagementSpace` and `getCloudContents`: the model reads the fields directly.
- `Bootstrapper.DefaultNicAddress`: the `CLIException` wrapping an `UnknownHostException` carries that exception's own message. The model names it `UnknownHost` and does not model the wrapped text.
- Exception causes: a `CLIStatusException` built from a caught exception keeps its key and arguments but not the cause.
- `Bootstrapper.LookupDefaults`: `admin.getGroups()` returning null (which makes the source throw a NullPointerException) is not modelled. The groups are a list, possibly empty.
- Integer width: ports and memory sizes are unbounded integers. No computation here can overflow 32 bits.
- `Bootstrapper.TeardownUninstallsPassValidation`: holds only when `ManagementWebServiceInstaller.MANAGEMENT_APPLICATION_NAME` and `CloudifyConstants.MANAGEMENT_APPLICATION_NAME` are the same string. Neither class is part of this model, so the lemma requires the two names to be equal, and `Bootstrapper.TeardownCanHitValidatorsManagementApp` shows what happens when they differ.
- `ApplicationTeardown.DrainOutcome`: an exception thrown by the latch's `isDone` (a failed application fetch) is taken to end the wait with that exception. `ConditionLatch` is not part of this model.
- `InterruptedException` from the latch waits and the sleeps is not modelled. No thread interrupts are modelled.
