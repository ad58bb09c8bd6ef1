/**
 * Lookup locator strings: convertLookupLocatorToString, which renders an
 * array of locators as comma-separated "host:port", and
 * getLocalcloudLookupLocators, which names the local cloud's single LUS.
 */
module LookupSettings {
  import opened Wrappers
  import opened Strings
  import opened AdminSnapshot
  import opened Failures

  /** `locator.getHost() + ":" + locator.getPort()`. */
  function LocatorString(l: LookupLocator): string {
    l.host + ":" + IntToString(l.port)
  }

  /** Each locator rendered, in order. */
  function LocatorStrings(locators: seq<LookupLocator>): (r: seq<string>)
    ensures |r| == |locators|
    ensures forall i | 0 <= i < |locators| :: r[i] == LocatorString(locators[i])
  {
    seq(|locators|, i requires 0 <= i < |locators| => LocatorString(locators[i]))
  }

  /** The string convertLookupLocatorToString returns; a null array gives the empty string. */
  function LocatorsToString(locators: Option<seq<LookupLocator>>): string {
    match locators
    case None => ""
    case Some(ls) => Join(LocatorStrings(ls), ",")
  }

  /**
   * convertLookupLocatorToString: collects "host:port" for each locator in
   * a list, then joins the list with commas.
   */
  method ConvertLookupLocatorToString(locators: Option<seq<LookupLocator>>) returns (s: string)
    ensures s == LocatorsToString(locators)
  {
    var trimmedLocators: seq<string> := [];
    if locators.Some? {
      var ls := locators.value;
      for i := 0 to |ls|
        invariant trimmedLocators == LocatorStrings(ls[..i])
      {
        trimmedLocators := trimmedLocators + [ls[i].host + ":" + IntToString(ls[i].port)];
        assert ls[..i + 1] == ls[..i] + [ls[i]];
      }
      assert ls[..|ls|] == ls;
    }
    s := Join(trimmedLocators, ",");
  }

  /** A null array and an empty one both give the empty string. */
  lemma NoLocatorsGiveEmptyString()
    ensures LocatorsToString(None) == "" && LocatorsToString(Some([])) == ""
  {
  }

  /**
   * The comma-separated string decodes back into one "host:port" entry per
   * locator, in order, as long as no host name contains a comma.
   */
  lemma LocatorsStringSplits(locators: seq<LookupLocator>)
    requires |locators| > 0
    requires forall i | 0 <= i < |locators| :: ',' !in locators[i].host
    ensures Split(LocatorsToString(Some(locators)), ',') == LocatorStrings(locators)
  {
    var parts := LocatorStrings(locators);
    forall k | 0 <= k < |parts| ensures ',' !in parts[k] {
      IntToStringAvoids(locators[k].port, ',');
      assert parts[k] == locators[k].host + ":" + IntToString(locators[k].port);
    }
    SplitJoin(parts, ',');
  }

  /** One entry splits at its colon into the host and a number that parses back to the port. */
  lemma LocatorStringParts(l: LookupLocator)
    requires ':' !in l.host
    ensures Split(LocatorString(l), ':') == [l.host, IntToString(l.port)]
    ensures ParseInt(Split(LocatorString(l), ':')[1]) == l.port
  {
    IntToStringAvoids(l.port, ':');
    SplitJoin([l.host, IntToString(l.port)], ':');
    assert Join([l.host, IntToString(l.port)], ":") == LocatorString(l);
    IntToStringRoundTrip(l.port);
  }

  /**
   * getLocalcloudLookupLocators: the locator string of the local cloud's
   * single LUS at the NIC address, which is exactly what
   * convertLookupLocatorToString makes of that one locator; it throws
   * IllegalStateException exactly when there is no NIC address.
   */
  function GetLocalcloudLookupLocators(nicAddress: Option<string>, lusPort: int): (r: Result<string>)
    ensures r.Err? <==> nicAddress.None?
    ensures r.Err? ==> r.failure == IllegalState(NicAddressRequired)
    ensures nicAddress.Some? ==> r == Ok(LocatorsToString(Some([LookupLocator(nicAddress.value, lusPort)])))
  {
    if nicAddress.None? then Err(IllegalState(NicAddressRequired))
    else Ok(nicAddress.value + ":" + IntToString(lusPort))
  }
}
