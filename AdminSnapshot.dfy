/**
 * One observation of the admin (discovery) view, as the bootstrapper reads
 * it: the visible grid service agents, the processing units with their
 * instances, and the GSM, ESM and LUS management processes. Every
 * component refers to the agent that started it by that agent's uid,
 * standing in for GridServiceAgent.equals; `None` is a component whose
 * getGridServiceAgent() is null.
 */
module AdminSnapshot {
  import opened Wrappers

  type Uid = string

  /** A grid service agent: identity, its machine's host address and its JVM input arguments. */
  datatype Agent = Agent(uid: Uid, hostAddress: string, inputArguments: seq<string>)

  /** A GSM, ESM or LUS, known only by the agent that started it. */
  datatype AgentComponent = AgentComponent(startedBy: Option<Uid>)

  /** An instance of a processing unit, known by the agent of the container that hosts it. */
  datatype ProcessingUnitInstance = ProcessingUnitInstance(containerAgent: Option<Uid>)

  datatype ProcessingUnit = ProcessingUnit(name: string, instances: seq<ProcessingUnitInstance>)

  datatype AdminView = AdminView(
    agents: seq<Agent>,
    processingUnits: seq<ProcessingUnit>,
    gridServiceManagers: seq<AgentComponent>,
    elasticServiceManagers: seq<AgentComponent>,
    lookupServices: seq<AgentComponent>)

  /** A lookup locator "host:port" as net.jini's LookupLocator holds it. */
  datatype LookupLocator = LookupLocator(host: string, port: int)

  /** `agent.equals(component.getGridServiceAgent())`. */
  predicate StartedBy(c: AgentComponent, uid: Uid) {
    c.startedBy == Some(uid)
  }

  /** Some component in the list was started by the agent. */
  predicate AnyStartedBy(cs: seq<AgentComponent>, uid: Uid) {
    exists k | 0 <= k < |cs| :: StartedBy(cs[k], uid)
  }

  /** Some instance of the processing unit lives in a container of the agent. */
  predicate RunsOn(pu: ProcessingUnit, uid: Uid) {
    exists i | 0 <= i < |pu.instances| :: pu.instances[i].containerAgent == Some(uid)
  }

  /** One `for (component : components) if (agent.equals(component.getGridServiceAgent()))` scan. */
  method AnyStarted(cs: seq<AgentComponent>, uid: Uid) returns (found: bool)
    ensures found <==> AnyStartedBy(cs, uid)
  {
    for k := 0 to |cs|
      invariant forall j | 0 <= j < k :: !StartedBy(cs[j], uid)
    {
      if StartedBy(cs[k], uid) {
        return true;
      }
    }
    return false;
  }
}
