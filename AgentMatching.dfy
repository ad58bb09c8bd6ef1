/**
 * Deciding which visible agent is "ours" (the checkAgent rule inside
 * waitForAgent): the agent's lookup group, read from its JVM arguments,
 * must equal the filter group, and its host address must be the filter's
 * NIC address or an address of this machine.
 */
module AgentMatching {
  import opened Wrappers
  import opened AdminSnapshot

  /** The JVM switch that carries an agent's lookup groups. */
  const LookupGroupsPrefix := "-Dcom.gs.jini_lus.groups="

  /**
   * Fields of the bootstrapper the rule reads, plus `isLocal`, which stands
   * for isThisMyIpAddress (loopback, any-local, or an address of a local
   * network interface; resolved by the JVM and not modelled).
   */
  datatype Filter = Filter(lookupGroups: Option<string>, nicAddress: Option<string>, isLocal: string -> bool)

  /** The last argument that starts with `prefix`, if any. */
  function LastWithPrefix(args: seq<string>, prefix: string): (r: Option<string>)
    ensures r.Some? ==> prefix <= r.value
    decreases |args|
  {
    if |args| == 0 then None
    else if prefix <= args[|args| - 1] then Some(args[|args| - 1])
    else LastWithPrefix(args[..|args| - 1], prefix)
  }

  /** No argument after position `i` starts with `prefix`. */
  predicate NoneAfter(args: seq<string>, prefix: string, i: nat) {
    forall j | i < j < |args| :: !(prefix <= args[j])
  }

  /** What getCommandLineArgumentRemovePrefix returns: the last matching argument without its prefix. */
  function ArgumentAfterPrefix(args: seq<string>, prefix: string): Option<string> {
    match LastWithPrefix(args, prefix)
    case None => None
    case Some(a) => Some(a[|prefix|..])
  }

  /** getLookupGroups: the agent's lookup groups as its command line states them, null when absent. */
  function AgentLookupGroups(agent: Agent): Option<string> {
    ArgumentAfterPrefix(agent.inputArguments, LookupGroupsPrefix)
  }

  /**
   * checkAgent: the filter's lookup groups are set and are exactly the
   * groups the agent's last lookup-groups switch names, and the agent's host
   * address is the filter's NIC address or a local one.
   */
  predicate CheckAgent(filter: Filter, agent: Agent): (r: bool)
    ensures r <==>
              && filter.lookupGroups.Some?
              && (exists i | 0 <= i < |agent.inputArguments| ::
                    agent.inputArguments[i] == LookupGroupsPrefix + filter.lookupGroups.value
                    && NoneAfter(agent.inputArguments, LookupGroupsPrefix, i))
              && (filter.nicAddress == Some(agent.hostAddress) || filter.isLocal(agent.hostAddress))
  {
    var checkNicAddress := (filter.nicAddress.Some? && agent.hostAddress == filter.nicAddress.value)
                           || filter.isLocal(agent.hostAddress);
    if filter.lookupGroups.None? then false
    else
      ArgumentAfterPrefixIs(agent.inputArguments, LookupGroupsPrefix, filter.lookupGroups.value);
      AgentLookupGroups(agent) == Some(filter.lookupGroups.value) && checkNicAddress
  }

  /** The agent the isDone scan of waitForAgent picks: the first match in iteration order. */
  function FirstMatching(agents: seq<Agent>, filter: Filter): Option<Agent>
    decreases |agents|
  {
    if |agents| == 0 then None
    else if CheckAgent(filter, agents[0]) then Some(agents[0])
    else FirstMatching(agents[1..], filter)
  }

  /** Position `i` holds a matching agent and no earlier agent matches. */
  predicate IsFirstMatch(agents: seq<Agent>, filter: Filter, i: int) {
    0 <= i < |agents| && CheckAgent(filter, agents[i])
    && forall j | 0 <= j < i :: !CheckAgent(filter, agents[j])
  }

  /**
   * The last argument with the prefix is the one found: none is found
   * exactly when no argument has the prefix, and otherwise the result is
   * the argument at the last position that has it.
   */
  lemma {:induction false} LastWithPrefixIsLast(args: seq<string>, prefix: string)
    ensures LastWithPrefix(args, prefix).None? <==> forall i | 0 <= i < |args| :: !(prefix <= args[i])
    ensures forall i | 0 <= i < |args| && prefix <= args[i] && NoneAfter(args, prefix, i) ::
              LastWithPrefix(args, prefix) == Some(args[i])
    ensures LastWithPrefix(args, prefix).Some? ==>
              exists i | 0 <= i < |args| :: args[i] == LastWithPrefix(args, prefix).value && NoneAfter(args, prefix, i)
    decreases |args|
  {
    if |args| > 0 {
      var n := |args| - 1;
      var init := args[..n];
      LastWithPrefixIsLast(init, prefix);
      assert forall i | 0 <= i < n :: init[i] == args[i];
      if !(prefix <= args[n]) {
        forall i | 0 <= i < n && NoneAfter(args, prefix, i)
          ensures NoneAfter(init, prefix, i)
        {
        }
        if LastWithPrefix(init, prefix).Some? {
          var i :| 0 <= i < n && init[i] == LastWithPrefix(init, prefix).value && NoneAfter(init, prefix, i);
          assert args[i] == LastWithPrefix(args, prefix).value && NoneAfter(args, prefix, i);
        }
      }
    }
  }

  /** The extracted group is `v` exactly when the last prefixed argument is the prefix followed by `v`. */
  lemma ArgumentAfterPrefixIs(args: seq<string>, prefix: string, v: string)
    ensures ArgumentAfterPrefix(args, prefix) == Some(v) <==>
              exists i | 0 <= i < |args| :: args[i] == prefix + v && NoneAfter(args, prefix, i)
  {
    LastWithPrefixIsLast(args, prefix);
    var last := LastWithPrefix(args, prefix);
    if ArgumentAfterPrefix(args, prefix) == Some(v) {
      var i :| 0 <= i < |args| && args[i] == last.value && NoneAfter(args, prefix, i);
      assert args[i] == prefix + args[i][|prefix|..];
    }
    if exists i | 0 <= i < |args| :: args[i] == prefix + v && NoneAfter(args, prefix, i) {
      var i :| 0 <= i < |args| && args[i] == prefix + v && NoneAfter(args, prefix, i);
      assert prefix <= args[i];
      assert args[i][|prefix|..] == v;
    }
  }

  /** No argument with the prefix means no group: a null result. */
  lemma ArgumentAfterPrefixAbsent(args: seq<string>, prefix: string)
    ensures ArgumentAfterPrefix(args, prefix).None? <==> forall i | 0 <= i < |args| :: !(prefix <= args[i])
  {
    LastWithPrefixIsLast(args, prefix);
  }

  /** A local address matches whatever NIC address the filter holds, even none. */
  lemma LocalAddressMatchesAnyNic(filter: Filter, agent: Agent, nic: Option<string>)
    requires filter.isLocal(agent.hostAddress)
    ensures CheckAgent(filter, agent) == CheckAgent(filter.(nicAddress := nic), agent)
  {
  }

  /**
   * FirstMatching finds nothing exactly when no agent matches, and
   * otherwise the agent at the first matching position.
   */
  lemma {:induction false} FirstMatchingIsFirst(agents: seq<Agent>, filter: Filter)
    ensures FirstMatching(agents, filter).None? <==> forall i | 0 <= i < |agents| :: !CheckAgent(filter, agents[i])
    ensures forall i | IsFirstMatch(agents, filter, i) :: FirstMatching(agents, filter) == Some(agents[i])
    ensures FirstMatching(agents, filter).Some? ==>
              exists i :: IsFirstMatch(agents, filter, i) && agents[i] == FirstMatching(agents, filter).value
    decreases |agents|
  {
    if |agents| > 0 {
      var rest := agents[1..];
      FirstMatchingIsFirst(rest, filter);
      assert forall i | 1 <= i < |agents| :: agents[i] == rest[i - 1];
      if CheckAgent(filter, agents[0]) {
        assert IsFirstMatch(agents, filter, 0);
        forall i | 0 < i < |agents| ensures !IsFirstMatch(agents, filter, i) {
          assert CheckAgent(filter, agents[0]);
        }
      } else {
        forall i | IsFirstMatch(agents, filter, i) ensures IsFirstMatch(rest, filter, i - 1) {
          assert i != 0;
          forall j | 0 <= j < i - 1 ensures !CheckAgent(filter, rest[j]) {
            assert rest[j] == agents[j + 1];
          }
        }
        if FirstMatching(rest, filter).Some? {
          var i :| IsFirstMatch(rest, filter, i) && rest[i] == FirstMatching(rest, filter).value;
          forall j | 0 <= j < i + 1 ensures !CheckAgent(filter, agents[j]) {
            if j > 0 { assert agents[j] == rest[j - 1]; }
          }
          assert IsFirstMatch(agents, filter, i + 1);
        }
      }
    }
  }

  /**
   * The scan loop of waitForAgent's isDone: walks the agents in order and
   * keeps the first one checkAgent accepts.
   */
  method FindAgent(agents: seq<Agent>, filter: Filter) returns (found: Option<Agent>)
    ensures found == FirstMatching(agents, filter)
    ensures found.None? <==> forall i | 0 <= i < |agents| :: !CheckAgent(filter, agents[i])
    ensures found.Some? ==> exists i :: IsFirstMatch(agents, filter, i) && agents[i] == found.value
  {
    found := None;
    var i := 0;
    while i < |agents|
      invariant 0 <= i <= |agents|
      invariant forall j | 0 <= j < i :: !CheckAgent(filter, agents[j])
      invariant FirstMatching(agents, filter) == FirstMatching(agents[i..], filter)
    {
      if CheckAgent(filter, agents[i]) {
        found := Some(agents[i]);
        break;
      }
      assert agents[i..][1..] == agents[i + 1..];
      i := i + 1;
    }
    FirstMatchingIsFirst(agents, filter);
  }

  /**
   * The scan loop of getCommandLineArgumentRemovePrefix: remembers every
   * argument with the prefix, so the last one wins, and strips the prefix.
   */
  method GetCommandLineArgumentRemovePrefix(args: seq<string>, prefix: string) returns (r: Option<string>)
    ensures r == ArgumentAfterPrefix(args, prefix)
    ensures r.None? <==> forall i | 0 <= i < |args| :: !(prefix <= args[i])
  {
    var requiredArg: Option<string> := None;
    for i := 0 to |args|
      invariant requiredArg == LastWithPrefix(args[..i], prefix)
    {
      if prefix <= args[i] {
        requiredArg := Some(args[i]);
      }
      assert args[..i + 1][..i] == args[..i];
    }
    assert args[..|args|] == args;
    if requiredArg.Some? {
      r := Some(requiredArg.value[|prefix|..]);
    } else {
      r := None;
    }
    ArgumentAfterPrefixAbsent(args, prefix);
  }

  /**
   * What waitForAgent returns over the snapshots its latch observes before
   * the deadline: the first matching agent of the first snapshot that has
   * one; None is the latch's TimeoutException.
   */
  function FirstAgentOverPolls(polls: seq<AdminView>, filter: Filter): Option<Agent> {
    if |polls| == 0 then None
    else if FirstMatching(polls[0].agents, filter).Some? then FirstMatching(polls[0].agents, filter)
    else FirstAgentOverPolls(polls[1..], filter)
  }

  /**
   * The wait times out exactly when no snapshot shows a matching agent; an
   * agent it returns is the first match of some snapshot, every earlier
   * snapshot having none.
   */
  lemma {:induction false} FirstAgentOverPollsFinds(polls: seq<AdminView>, filter: Filter)
    ensures FirstAgentOverPolls(polls, filter).None? <==>
              forall k, i | 0 <= k < |polls| && 0 <= i < |polls[k].agents| :: !CheckAgent(filter, polls[k].agents[i])
    ensures FirstAgentOverPolls(polls, filter).Some? ==>
              exists k | 0 <= k < |polls| ::
                && FirstMatching(polls[k].agents, filter) == FirstAgentOverPolls(polls, filter)
                && forall j | 0 <= j < k :: FirstMatching(polls[j].agents, filter).None?
    decreases |polls|
  {
    if |polls| > 0 {
      FirstMatchingIsFirst(polls[0].agents, filter);
      FirstAgentOverPollsFinds(polls[1..], filter);
      if FirstMatching(polls[0].agents, filter).None? {
        assert forall k | 1 <= k < |polls| :: polls[k] == polls[1..][k - 1];
        if FirstAgentOverPolls(polls[1..], filter).Some? {
          var k :| && 0 <= k < |polls[1..]|
                   && FirstMatching(polls[1..][k].agents, filter) == FirstAgentOverPolls(polls[1..], filter)
                   && forall j | 0 <= j < k :: FirstMatching(polls[1..][j].agents, filter).None?;
          assert forall j | 0 <= j < k + 1 :: FirstMatching(polls[j].agents, filter).None? by {
            forall j | 0 <= j < k + 1 ensures FirstMatching(polls[j].agents, filter).None? {
              if j > 0 { assert polls[j] == polls[1..][j - 1]; }
            }
          }
          assert FirstMatching(polls[k + 1].agents, filter) == FirstAgentOverPolls(polls, filter);
        } else {
          forall k, i | 0 <= k < |polls| && 0 <= i < |polls[k].agents|
            ensures !CheckAgent(filter, polls[k].agents[i])
          {
            if k > 0 { assert polls[k] == polls[1..][k - 1]; }
          }
        }
      } else {
        assert FirstMatching(polls[0].agents, filter) == FirstAgentOverPolls(polls, filter);
      }
    }
  }

  /**
   * waitForAgent: the latch runs the scan on each snapshot in turn and
   * stops at the first one in which it finds an agent.
   */
  method WaitForAgent(polls: seq<AdminView>, filter: Filter) returns (agent: Option<Agent>)
    ensures agent == FirstAgentOverPolls(polls, filter)
  {
    for k := 0 to |polls|
      invariant FirstAgentOverPolls(polls, filter) == FirstAgentOverPolls(polls[k..], filter)
    {
      var found := FindAgent(polls[k].agents, filter);
      if found.Some? {
        return found;
      }
      assert polls[k..][1..] == polls[k + 1..];
    }
    return None;
  }
}
