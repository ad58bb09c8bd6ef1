/**
 * The environment runCommand hands to the agent script: lookup settings and
 * the JVM options of the GSA, LUS, GSM, ESM and GSC processes. Each option
 * string is built with `+=` and a blank between switches, so it is the
 * join, with " ", of a list of switches; the lemmas below are stated on
 * those lists.
 */
module LaunchOptions {
  import opened Wrappers
  import opened Strings

  const GsaMemoryInMb := 128
  const LusMemoryInMb := 128
  const GsmMemoryInMb := 128
  const EsmMemoryInMb := 128
  const AutoShutdownArgument := "-Dcom.gs.agent.auto-shutdown-enabled=true"
  /** The Jini configuration component of the lookup service (reggie) and its unicast port entry. */
  const ReggieComponent := "com.sun.jini.reggie"
  const UnicastPortEntry := "initialUnicastDiscoveryPort"
  /** "com.sun.jini.reggie.initialUnicastDiscoveryPort": the entry qualified by its component. */
  const LusPortContextProperty := ReggieComponent + "." + UnicastPortEntry
  const DisableMulticast := "-Dcom.gs.multicast.enabled=false"
  const ZonesSwitchPrefix := "-Dcom.gs.zones="

  /** The bootstrapper fields runCommand reads. */
  datatype LaunchSettings = LaunchSettings(
    lookupGroups: Option<string>,
    lookupLocators: Option<string>,
    nicAddress: Option<string>,
    zone: Option<string>,
    lusPort: int,
    autoShutdown: bool)

  /** "-Xmx<mb>m". */
  function MemorySwitch(mb: int): string {
    "-Xmx" + IntToString(mb) + "m"
  }

  /** The unicast discovery port switch the LUS and the GSM are started with. */
  function LusPortSwitch(lusPort: int): string {
    "-D" + LusPortContextProperty + "=" + IntToString(lusPort)
  }

  /** The multicast switch every process gets when explicit locators are set. */
  function MulticastSwitches(s: LaunchSettings): seq<string> {
    if s.lookupLocators.Some? then [DisableMulticast] else []
  }

  function GsaOptionSwitches(s: LaunchSettings): seq<string> {
    [MemorySwitch(GsaMemoryInMb)]
    + (if s.autoShutdown then [AutoShutdownArgument] else [])
    + MulticastSwitches(s)
    + (if s.zone.Some? then [ZonesSwitchPrefix + s.zone.value] else [])
  }

  function LusOptionSwitches(s: LaunchSettings): seq<string> {
    [MemorySwitch(LusMemoryInMb), LusPortSwitch(s.lusPort)] + MulticastSwitches(s)
  }

  function GsmOptionSwitches(s: LaunchSettings): seq<string> {
    [MemorySwitch(GsmMemoryInMb), LusPortSwitch(s.lusPort)] + MulticastSwitches(s)
  }

  function EsmOptionSwitches(s: LaunchSettings): seq<string> {
    [MemorySwitch(EsmMemoryInMb)] + MulticastSwitches(s)
  }

  function GscOptionSwitches(s: LaunchSettings): seq<string> {
    MulticastSwitches(s)
  }

  /** The five option lists, GSA first. */
  function AllOptionSwitches(s: LaunchSettings): seq<seq<string>> {
    [GsaOptionSwitches(s), LusOptionSwitches(s), GsmOptionSwitches(s), EsmOptionSwitches(s), GscOptionSwitches(s)]
  }

  const LookupGroupsVar := "LOOKUPGROUPS"
  const LookupLocatorsVar := "LOOKUPLOCATORS"
  const NicAddrVar := "NIC_ADDR"
  const GsaOptionsVar := "GSA_JAVA_OPTIONS"
  const LusOptionsVar := "LUS_JAVA_OPTIONS"
  const GsmOptionsVar := "GSM_JAVA_OPTIONS"
  const EsmOptionsVar := "ESM_JAVA_OPTIONS"
  const GscOptionsVar := "GSC_JAVA_OPTIONS"

  /** The option variables, in the order of OptionSwitches. */
  const OptionVars := [GsaOptionsVar, LusOptionsVar, GsmOptionsVar, EsmOptionsVar, GscOptionsVar]

  /** The environment variables runCommand may set. */
  const LaunchVars: set<string> := {LookupGroupsVar, LookupLocatorsVar, NicAddrVar, GsaOptionsVar,
                                    LusOptionsVar, GsmOptionsVar, EsmOptionsVar, GscOptionsVar}

  /** The process environment after runCommand's `environment.put` calls. */
  function LaunchEnvironment(inherited: map<string, string>, s: LaunchSettings): map<string, string> {
    var withGroups := if s.lookupGroups.Some? then inherited[LookupGroupsVar := s.lookupGroups.value] else inherited;
    var withLocators := if s.lookupLocators.Some? then withGroups[LookupLocatorsVar := s.lookupLocators.value] else withGroups;
    var withNic := if s.nicAddress.Some? then withLocators[NicAddrVar := s.nicAddress.value] else withLocators;
    withNic[GsaOptionsVar := Join(GsaOptionSwitches(s), " ")]
           [LusOptionsVar := Join(LusOptionSwitches(s), " ")]
           [GsmOptionsVar := Join(GsmOptionSwitches(s), " ")]
           [EsmOptionsVar := Join(EsmOptionSwitches(s), " ")]
           [GscOptionsVar := Join(GscOptionSwitches(s), " ")]
  }

  /** The eight variable names are pairwise different. */
  lemma LaunchVarsDistinct()
    ensures LookupGroupsVar != LookupLocatorsVar && LookupGroupsVar != NicAddrVar && LookupLocatorsVar != NicAddrVar
    ensures forall k | 0 <= k < 5 :: OptionVars[k] != LookupGroupsVar && OptionVars[k] != LookupLocatorsVar
                                      && OptionVars[k] != NicAddrVar
    ensures forall k, j | 0 <= k < j < 5 :: OptionVars[k] != OptionVars[j]
  {
    assert LookupGroupsVar[6] == 'G' && LookupLocatorsVar[6] == 'L';
    assert NicAddrVar[0] == 'N' && LookupGroupsVar[0] == 'L';
    assert GsaOptionsVar[2] == 'A' && LusOptionsVar[2] == 'S' && GsmOptionsVar[2] == 'M'
           && EsmOptionsVar[2] == 'M' && GscOptionsVar[2] == 'C';
    assert GsaOptionsVar[0] == 'G' && LusOptionsVar[0] == 'L' && GsmOptionsVar[0] == 'G'
           && EsmOptionsVar[0] == 'E' && GscOptionsVar[0] == 'G';
    assert |LookupGroupsVar| == 12 && |LookupLocatorsVar| == 14 && |NicAddrVar| == 8;
    assert forall k | 0 <= k < 5 :: |OptionVars[k]| == 16;
  }

  /** Two strings that differ at one position are different and neither starts with the other. */
  lemma DifferAt(a: string, b: string, k: nat)
    requires k < |a| && k < |b| && a[k] != b[k]
    ensures a != b && !(a <= b) && !(b <= a)
  {
  }

  /** The memory switch has an 'X' where every other switch has a 'D'. */
  lemma MemorySwitchShape(mb: int)
    ensures |MemorySwitch(mb)| > 1 && MemorySwitch(mb)[1] == 'X'
  {
    assert MemorySwitch(mb) == "-Xmx" + (IntToString(mb) + "m");
  }

  /** Inside a "-D<component>.<entry>=<value>" switch, the component starts at the third character. */
  lemma ComponentInSwitch(component: string, entry: string, value: string, i: nat)
    requires i < |component|
    ensures (("-D" + (component + "." + entry)) + "=" + value)[i + 2] == component[i]
  {
  }

  /** The LUS port switch has the 's' of "com.sun" where the others have "gs". */
  lemma LusPortSwitchShape(port: int)
    ensures |LusPortSwitch(port)| > 6 && LusPortSwitch(port)[6] == 's'
  {
    assert ReggieComponent[4] == 's';
    ComponentInSwitch(ReggieComponent, UnicastPortEntry, IntToString(port), 4);
  }

  /** The three "-Dcom.gs." switches differ at their ninth character. */
  lemma GsSwitchShapes()
    ensures DisableMulticast[1] == 'D' && DisableMulticast[6] == 'g' && DisableMulticast[9] == 'm'
    ensures ZonesSwitchPrefix[1] == 'D' && ZonesSwitchPrefix[6] == 'g' && ZonesSwitchPrefix[9] == 'z'
    ensures AutoShutdownArgument[1] == 'D' && AutoShutdownArgument[6] == 'g' && AutoShutdownArgument[9] == 'a'
  {
  }

  /** A switch list holds a switch starting with `p` at some position. */
  predicate HasSwitchWithPrefix(switches: seq<string>, p: string) {
    exists i | 0 <= i < |switches| :: p <= switches[i]
  }

  /**
   * Explicit lookup locators disable multicast in all five processes, and
   * only they do.
   */
  lemma MulticastDisabledEverywhereIffLocators(s: LaunchSettings)
    ensures forall k | 0 <= k < 5 :: (DisableMulticast in AllOptionSwitches(s)[k]) <==> s.lookupLocators.Some?
  {
    MemorySwitchShape(GsaMemoryInMb);
    LusPortSwitchShape(s.lusPort);
    GsSwitchShapes();
    DifferAt(DisableMulticast, MemorySwitch(GsaMemoryInMb), 1);
    DifferAt(DisableMulticast, LusPortSwitch(s.lusPort), 6);
    DifferAt(DisableMulticast, AutoShutdownArgument, 9);
    if s.zone.Some? {
      DifferAt(DisableMulticast, ZonesSwitchPrefix + s.zone.value, 9);
    }
  }

  /** The zone switch goes to the GSA exactly when a zone is set. */
  lemma ZoneOnlyForGsa(s: LaunchSettings)
    ensures HasSwitchWithPrefix(GsaOptionSwitches(s), ZonesSwitchPrefix) <==> s.zone.Some?
    ensures s.zone.Some? ==> ZonesSwitchPrefix + s.zone.value in GsaOptionSwitches(s)
  {
    MemorySwitchShape(GsaMemoryInMb);
    GsSwitchShapes();
    DifferAt(ZonesSwitchPrefix, MemorySwitch(GsaMemoryInMb), 1);
    DifferAt(ZonesSwitchPrefix, DisableMulticast, 9);
    DifferAt(ZonesSwitchPrefix, AutoShutdownArgument, 9);
    if s.zone.Some? {
      var gsa := GsaOptionSwitches(s);
      assert gsa[|gsa| - 1] == ZonesSwitchPrefix + s.zone.value;
    }
  }

  /** No process but the GSA gets a zone switch. */
  lemma NoZoneOutsideGsa(s: LaunchSettings)
    ensures forall k | 1 <= k < 5 :: !HasSwitchWithPrefix(AllOptionSwitches(s)[k], ZonesSwitchPrefix)
  {
    MemorySwitchShape(GsaMemoryInMb);
    LusPortSwitchShape(s.lusPort);
    GsSwitchShapes();
    DifferAt(ZonesSwitchPrefix, MemorySwitch(GsaMemoryInMb), 1);
    DifferAt(ZonesSwitchPrefix, LusPortSwitch(s.lusPort), 6);
    DifferAt(ZonesSwitchPrefix, DisableMulticast, 9);
  }

  /**
   * The auto-shutdown switch goes to the GSA only, exactly when
   * auto-shutdown is on.
   */
  lemma AutoShutdownOnlyForGsa(s: LaunchSettings)
    ensures (AutoShutdownArgument in GsaOptionSwitches(s)) <==> s.autoShutdown
    ensures forall k | 1 <= k < 5 :: AutoShutdownArgument !in AllOptionSwitches(s)[k]
  {
    MemorySwitchShape(GsaMemoryInMb);
    LusPortSwitchShape(s.lusPort);
    GsSwitchShapes();
    DifferAt(AutoShutdownArgument, MemorySwitch(GsaMemoryInMb), 1);
    DifferAt(AutoShutdownArgument, LusPortSwitch(s.lusPort), 6);
    DifferAt(AutoShutdownArgument, DisableMulticast, 9);
    if s.zone.Some? {
      var z := ZonesSwitchPrefix + s.zone.value;
      assert ZonesSwitchPrefix <= z && z[9] == 'z';
      DifferAt(AutoShutdownArgument, z, 9);
    }
  }

  /** The LUS and the GSM both carry the LUS port, and it parses back to `lusPort`. */
  lemma LusAndGsmCarryLusPort(s: LaunchSettings)
    ensures LusPortSwitch(s.lusPort) in LusOptionSwitches(s)
    ensures LusPortSwitch(s.lusPort) in GsmOptionSwitches(s)
    ensures ParseInt(LusPortSwitch(s.lusPort)[|"-D" + LusPortContextProperty + "="|..]) == s.lusPort
  {
    var p := "-D" + LusPortContextProperty + "=";
    assert LusPortSwitch(s.lusPort)[|p|..] == IntToString(s.lusPort);
    IntToStringRoundTrip(s.lusPort);
  }

  /** A character absent from both parts is absent from their concatenation. */
  lemma AbsentFromConcat(a: string, b: string, c: char)
    requires c !in a && c !in b
    ensures c !in a + b
  {
  }

  /** The LUS port property name has no blank, so its switch survives splitting at blanks. */
  lemma LusPortContextPropertyHasNoBlank()
    ensures ' ' !in LusPortContextProperty
  {
    assert ' ' !in ReggieComponent;
    assert ' ' !in UnicastPortEntry;
    AbsentFromConcat(ReggieComponent, ".", ' ');
    AbsentFromConcat(ReggieComponent + ".", UnicastPortEntry, ' ');
  }

  /** The LUS port switch contains no blank. */
  lemma LusPortSwitchHasNoBlank(port: int)
    ensures ' ' !in LusPortSwitch(port)
  {
    LusPortContextPropertyHasNoBlank();
    IntToStringAvoids(port, ' ');
    var property, digits := LusPortContextProperty, IntToString(port);
    AbsentFromConcat("-D", property, ' ');
    AbsentFromConcat("-D" + property, "=", ' ');
    AbsentFromConcat("-D" + property + "=", digits, ' ');
  }

  /** No fixed switch contains a blank. */
  lemma FixedSwitchesHaveNoBlank(port: int)
    ensures ' ' !in MemorySwitch(128)
    ensures ' ' !in LusPortSwitch(port)
    ensures ' ' !in DisableMulticast && ' ' !in AutoShutdownArgument
  {
    IntToStringAvoids(128, ' ');
    AbsentFromConcat("-Xmx", IntToString(128), ' ');
    AbsentFromConcat("-Xmx" + IntToString(128), "m", ' ');
    LusPortSwitchHasNoBlank(port);
  }

  /**
   * Each option string splits at blanks back into its switch list, provided
   * the zone name has no blank (the GSC list is empty without locators, and
   * "" splits into one empty piece, so it is left out of that case).
   */
  lemma OptionStringsSplitIntoSwitches(s: LaunchSettings)
    requires s.zone.Some? ==> ' ' !in s.zone.value
    ensures forall k | 0 <= k < 5 && |AllOptionSwitches(s)[k]| > 0 ::
              Split(Join(AllOptionSwitches(s)[k], " "), ' ') == AllOptionSwitches(s)[k]
  {
    FixedSwitchesHaveNoBlank(s.lusPort);
    forall k | 0 <= k < 5 && |AllOptionSwitches(s)[k]| > 0
      ensures Split(Join(AllOptionSwitches(s)[k], " "), ' ') == AllOptionSwitches(s)[k]
    {
      var sw := AllOptionSwitches(s)[k];
      forall i | 0 <= i < |sw| ensures ' ' !in sw[i] {
        if sw[i] == ZonesSwitchPrefix + s.zone.GetOr("") {
          AbsentFromConcat(ZonesSwitchPrefix, s.zone.GetOr(""), ' ');
        }
      }
      SplitJoin(sw, ' ');
    }
  }

  /**
   * Which variables the environment holds after launch: the inherited ones,
   * the lookup groups, locators and NIC address exactly when set, and the
   * five option variables always.
   */
  lemma LaunchEnvironmentKeys(inherited: map<string, string>, s: LaunchSettings)
    ensures LaunchEnvironment(inherited, s).Keys == inherited.Keys
              + (if s.lookupGroups.Some? then {LookupGroupsVar} else {})
              + (if s.lookupLocators.Some? then {LookupLocatorsVar} else {})
              + (if s.nicAddress.Some? then {NicAddrVar} else {})
              + {GsaOptionsVar, LusOptionsVar, GsmOptionsVar, EsmOptionsVar, GscOptionsVar}
  {
  }

  /** The lookup variables hold the lookup groups, locators and NIC address when those are set. */
  lemma LaunchEnvironmentLookupValues(inherited: map<string, string>, s: LaunchSettings)
    ensures s.lookupGroups.Some? ==> LaunchEnvironment(inherited, s)[LookupGroupsVar] == s.lookupGroups.value
    ensures s.lookupLocators.Some? ==> LaunchEnvironment(inherited, s)[LookupLocatorsVar] == s.lookupLocators.value
    ensures s.nicAddress.Some? ==> LaunchEnvironment(inherited, s)[NicAddrVar] == s.nicAddress.value
  {
    LaunchVarsDistinct();
  }

  /** The five option variables hold the five option strings. */
  lemma LaunchEnvironmentOptionValues(inherited: map<string, string>, s: LaunchSettings)
    ensures forall k | 0 <= k < 5 :: LaunchEnvironment(inherited, s)[OptionVars[k]] == Join(AllOptionSwitches(s)[k], " ")
  {
    LaunchVarsDistinct();
  }

  /** Every other variable keeps its inherited value. */
  lemma LaunchEnvironmentKeepsInherited(inherited: map<string, string>, s: LaunchSettings)
    ensures forall v | v in inherited && v !in LaunchVars :: LaunchEnvironment(inherited, s)[v] == inherited[v]
  {
  }
}
