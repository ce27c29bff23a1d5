/** The routing decision: given a finding and one consistent reading of the
    routing configuration, the channel the finding is sent to, if any. */
module Decision {
  import opened Wrappers
  import opened Severity

  /** One finding as decoded from the queue. `category` is the message's
      `Type` field ("OS" or "APP"); the last three fields are display text. */
  datatype Vulnerability = Vulnerability(
    severity: string,
    category: string,
    description: string,
    packageName: string,
    resourceName: string)

  /** The four routing fields of the configuration record, read together. */
  datatype ConfigSnapshot = ConfigSnapshot(
    osChannelName: string,
    osMinSeverity: string,
    appChannelName: string,
    appMinSeverity: string)

  /** The configuration the service starts with. */
  const DefaultConfig: ConfigSnapshot :=
    ConfigSnapshot("#os-vulns", "MEDIUM", "#app-vulns", "HIGH")

  /** The channel a finding is sent to: the incoming severity is upper-cased
      and ranked, the category is matched exactly against "OS" and then
      "APP", and the finding goes to that category's channel when its rank is
      at least the rank of the category's threshold (which is not
      upper-cased). */
  function Decide(v: Vulnerability, cfg: ConfigSnapshot): (channel: Option<string>)
    ensures channel.Some? ==>
      (v.category == "OS" && channel.value == cfg.osChannelName) ||
      (v.category == "APP" && channel.value == cfg.appChannelName)
  {
    var severityRank := IncomingRank(v.severity);
    if v.category == "OS" && severityRank >= Rank(cfg.osMinSeverity) then
      Some(cfg.osChannelName)
    else if v.category == "APP" && severityRank >= Rank(cfg.appMinSeverity) then
      Some(cfg.appChannelName)
    else
      None
  }

  // A second reading of the configuration: one routing rule per category,
  // in a table keyed by the exact category name.

  datatype RoutingRule = RoutingRule(channel: string, minSeverity: string)

  function Rules(cfg: ConfigSnapshot): (rules: map<string, RoutingRule>)
    ensures rules.Keys == {"OS", "APP"}
  {
    map["OS" := RoutingRule(cfg.osChannelName, cfg.osMinSeverity),
        "APP" := RoutingRule(cfg.appChannelName, cfg.appMinSeverity)]
  }

  /** Look the category up in the rule table; no rule, no dispatch; otherwise
      dispatch to the rule's channel when the finding reaches the threshold. */
  function DecideByRule(v: Vulnerability, rules: map<string, RoutingRule>): (channel: Option<string>)
  {
    if v.category !in rules then None
    else if IncomingRank(v.severity) >= Rank(rules[v.category].minSeverity) then
      Some(rules[v.category].channel)
    else None
  }

  /** The if/else-if chain of the service is the rule-table lookup. */
  lemma DecideIsRuleLookup(v: Vulnerability, cfg: ConfigSnapshot)
    ensures Decide(v, cfg) == DecideByRule(v, Rules(cfg))
  {
  }

  /** A finding of a category other than exactly "OS" or "APP" (compared
      case-sensitively) is never sent anywhere. */
  lemma UnknownCategoryNeverDispatches(v: Vulnerability, cfg: ConfigSnapshot)
    requires v.category != "OS" && v.category != "APP"
    ensures Decide(v, cfg) == None
  {
  }

  /** For a known category: the finding is sent exactly when its rank is at
      least its threshold's, and then to that category's channel. */
  lemma DispatchIffAtThreshold(v: Vulnerability, cfg: ConfigSnapshot)
    requires v.category in Rules(cfg)
    ensures Decide(v, cfg).Some? <==>
      IncomingRank(v.severity) >= Rank(Rules(cfg)[v.category].minSeverity)
    ensures Decide(v, cfg).Some? ==> Decide(v, cfg).value == Rules(cfg)[v.category].channel
  {
  }

  /** The comparison is inclusive: a finding exactly at the threshold is sent. */
  lemma ThresholdIsInclusive(v: Vulnerability, cfg: ConfigSnapshot)
    requires v.category in Rules(cfg)
    requires IncomingRank(v.severity) == Rank(Rules(cfg)[v.category].minSeverity)
    ensures Decide(v, cfg) == Some(Rules(cfg)[v.category].channel)
  {
  }

  /** On the scale itself: a finding spelling the i-th label (in any case)
      under a threshold that is the j-th label is sent exactly when i >= j. */
  lemma ScaleDecision(v: Vulnerability, cfg: ConfigSnapshot, i: nat, j: nat)
    requires i < |Labels| && j < |Labels|
    requires v.category in Rules(cfg)
    requires Rules(cfg)[v.category].minSeverity == Labels[j]
    requires MatchesIgnoringCase(v.severity, Labels[i])
    ensures Decide(v, cfg).Some? <==> i >= j
  {
    IncomingRankIs(v.severity, i + 1);
    RankOfLabel(j);
  }

  /** A finding that is sent would also be sent, to the same channel, at any
      severity of at least its rank. */
  lemma DispatchIsMonotone(v: Vulnerability, severity: string, cfg: ConfigSnapshot)
    requires Decide(v, cfg).Some?
    requires IncomingRank(severity) >= IncomingRank(v.severity)
    ensures Decide(v.(severity := severity), cfg) == Decide(v, cfg)
  {
  }

  /** Changing only the case of the incoming severity never changes the
      decision: "medium", "Medium" and "MEDIUM" route alike. */
  lemma DecideIgnoresSeverityCase(v: Vulnerability, severity: string, cfg: ConfigSnapshot)
    requires |severity| == |v.severity|
    requires forall i :: 0 <= i < |severity| ==> UpperChar(severity[i]) == UpperChar(v.severity[i])
    ensures Decide(v.(severity := severity), cfg) == Decide(v, cfg)
  {
    IncomingRankIgnoresCase(severity, v.severity);
  }

  /** A decision reads only its own category's rule: two configurations that
      agree on that rule decide alike. */
  lemma DecideReadsOwnRuleOnly(v: Vulnerability, cfg1: ConfigSnapshot, cfg2: ConfigSnapshot)
    requires v.category in Rules(cfg1)
    requires Rules(cfg1)[v.category] == Rules(cfg2)[v.category]
    ensures Decide(v, cfg1) == Decide(v, cfg2)
  {
  }

  /** Fail-closed: a severity that spells no label ranks 0 and is never sent
      while its category's threshold is a label of the scale. */
  lemma UnknownSeverityFailsClosed(v: Vulnerability, cfg: ConfigSnapshot)
    requires forall k :: 0 <= k < |Labels| ==> !MatchesIgnoringCase(v.severity, Labels[k])
    requires v.category in Rules(cfg) ==> Rules(cfg)[v.category].minSeverity in Labels
    ensures Decide(v, cfg) == None
  {
    IncomingRankZero(v.severity);
  }

  /** Fail-open: a threshold outside the scale — misspelt, empty, or a label
      in lower case, since thresholds are not upper-cased — ranks 0, and then
      every finding of that category is sent, whatever its severity. */
  lemma UnrankedThresholdFailsOpen(v: Vulnerability, cfg: ConfigSnapshot)
    requires v.category in Rules(cfg)
    requires Rules(cfg)[v.category].minSeverity !in Labels
    ensures Decide(v, cfg) == Some(Rules(cfg)[v.category].channel)
  {
  }

  /** The lower-case threshold "medium" on OS sends every OS finding, even
      one whose severity is not a label at all. */
  lemma LowerCaseThresholdFailsOpen(v: Vulnerability, cfg: ConfigSnapshot)
    requires v.category == "OS" && cfg.osMinSeverity == "medium"
    ensures Decide(v, cfg) == Some(cfg.osChannelName)
  {
    assert !IsUpperAscii(cfg.osMinSeverity[0]);
    ThresholdRankZero(cfg.osMinSeverity);
  }

  // The routes under the default configuration: an OS finding needs at least
  // MEDIUM, an APP finding at least HIGH.

  /** OS "low" is not sent. */
  lemma DefaultOsLowNotSent(v: Vulnerability)
    requires v.category == "OS" && v.severity == "low"
    ensures Decide(v, DefaultConfig) == None
  {
    IncomingRankIs(v.severity, 1);
    RankOfLabel(1);
  }

  /** OS "medium" goes to #os-vulns. */
  lemma DefaultOsMediumSent(v: Vulnerability)
    requires v.category == "OS" && v.severity == "medium"
    ensures Decide(v, DefaultConfig) == Some("#os-vulns")
  {
    IncomingRankIs(v.severity, 2);
    RankOfLabel(1);
  }

  /** OS "unknown" is not sent. */
  lemma DefaultOsUnknownNotSent(v: Vulnerability)
    requires v.category == "OS" && v.severity == "unknown"
    ensures Decide(v, DefaultConfig) == None
  {
    IncomingRankZero(v.severity);
    RankOfLabel(1);
  }

  /** APP "HIGH" goes to #app-vulns. */
  lemma DefaultAppHighSent(v: Vulnerability)
    requires v.category == "APP" && v.severity == "HIGH"
    ensures Decide(v, DefaultConfig) == Some("#app-vulns")
  {
    UpperLabelRank(2);
    RankOfLabel(2);
  }

  /** APP "medium" is not sent. */
  lemma DefaultAppMediumNotSent(v: Vulnerability)
    requires v.category == "APP" && v.severity == "medium"
    ensures Decide(v, DefaultConfig) == None
  {
    IncomingRankIs(v.severity, 2);
    RankOfLabel(2);
  }
}
