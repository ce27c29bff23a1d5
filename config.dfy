/** The process-wide routing configuration record, changed in place by the
    operator's form and read by every routing decision. */
module ConfigStore {
  import opened Wrappers
  import opened Severity
  import opened Decision

  class Config {
    var osChannelName: string
    var osMinSeverity: string
    var appChannelName: string
    var appMinSeverity: string

    /** The four fields read together, as one decision reads them. */
    function Snapshot(): (snapshot: ConfigSnapshot)
      reads this
    {
      ConfigSnapshot(osChannelName, osMinSeverity, appChannelName, appMinSeverity)
    }

    /** The record the service starts with: #os-vulns at MEDIUM and
        #app-vulns at HIGH. */
    constructor ()
      ensures Snapshot() == DefaultConfig
    {
      osChannelName := "#os-vulns";
      osMinSeverity := "MEDIUM";
      appChannelName := "#app-vulns";
      appMinSeverity := "HIGH";
    }

    /** The operator's form overwrites all four fields, both categories at
        once, with the submitted values taken as they are (no check that a
        threshold is a label of the scale). */
    method Update(osChannel: string, osSeverity: string, appChannel: string, appSeverity: string)
      modifies this
      ensures osChannelName == osChannel && osMinSeverity == osSeverity
      ensures appChannelName == appChannel && appMinSeverity == appSeverity
      ensures Snapshot() == ConfigSnapshot(osChannel, osSeverity, appChannel, appSeverity)
    {
      osChannelName := osChannel;
      osMinSeverity := osSeverity;
      appChannelName := appChannel;
      appMinSeverity := appSeverity;
    }

    /** Routes one finding against the current fields; the result is the
        channel the finding is handed to the notifier for, or None. */
    method ProcessVulnerability(v: Vulnerability) returns (sentTo: Option<string>)
      ensures sentTo == Decide(v, Snapshot())
      ensures sentTo.Some? ==>
        (v.category == "OS" && sentTo.value == osChannelName) ||
        (v.category == "APP" && sentTo.value == appChannelName)
    {
      var severityRank := Rank(ToUpper(v.severity));
      if v.category == "OS" && severityRank >= Rank(osMinSeverity) {
        sentTo := Some(osChannelName);
      } else if v.category == "APP" && severityRank >= Rank(appMinSeverity) {
        sentTo := Some(appChannelName);
      } else {
        sentTo := None;
      }
    }
  }

  /** Submitting the same form twice leaves the record as submitting it once:
      `once` is the record after the first submission, and the second one
      leaves it as it is. */
  method UpdateIsIdempotent(c: Config, osChannel: string, osSeverity: string, appChannel: string, appSeverity: string)
    returns (once: ConfigSnapshot)
    modifies c
    ensures once == ConfigSnapshot(osChannel, osSeverity, appChannel, appSeverity)
    ensures c.Snapshot() == once
  {
    c.Update(osChannel, osSeverity, appChannel, appSeverity);
    once := c.Snapshot();
    c.Update(osChannel, osSeverity, appChannel, appSeverity);
  }

  /** The configuration after the operator keeps OS as it is and moves APP
      to #app-vulns-v2 at CRITICAL. */
  const RaisedAppConfig: ConfigSnapshot :=
    ConfigSnapshot("#os-vulns", "MEDIUM", "#app-vulns-v2", "CRITICAL")

  /** After the update APP "HIGH" is no longer sent. */
  lemma RaisedAppHighNotSent(v: Vulnerability)
    requires v.category == "APP" && v.severity == "HIGH"
    ensures Decide(v, RaisedAppConfig) == None
  {
    UpperLabelRank(2);
    RankOfLabel(3);
  }

  /** After the update APP "CRITICAL" goes to #app-vulns-v2. */
  lemma RaisedAppCriticalSent(v: Vulnerability)
    requires v.category == "APP" && v.severity == "CRITICAL"
    ensures Decide(v, RaisedAppConfig) == Some("#app-vulns-v2")
  {
    UpperLabelRank(3);
    RankOfLabel(3);
  }

  /** After the update OS "MEDIUM" still goes to #os-vulns. */
  lemma RaisedAppOsUnchanged(v: Vulnerability)
    requires v.category == "OS" && v.severity == "MEDIUM"
    ensures Decide(v, RaisedAppConfig) == Some("#os-vulns")
  {
    UpperLabelRank(1);
  }

  /** Decisions made after an update use the submitted values: starting from
      the defaults, the operator resubmits OS unchanged and moves APP to
      #app-vulns-v2 at CRITICAL. */
  method RaiseAppThreshold(d: string, p: string, r: string)
    returns (highApp: Option<string>, criticalApp: Option<string>, mediumOs: Option<string>)
    ensures highApp == None
    ensures criticalApp == Some("#app-vulns-v2")
    ensures mediumOs == Some("#os-vulns")
  {
    var c := new Config();
    c.Update(c.osChannelName, c.osMinSeverity, "#app-vulns-v2", "CRITICAL");
    assert c.Snapshot() == RaisedAppConfig;
    var high := Vulnerability("HIGH", "APP", d, p, r);
    var critical := Vulnerability("CRITICAL", "APP", d, p, r);
    var medium := Vulnerability("MEDIUM", "OS", d, p, r);
    RaisedAppHighNotSent(high);
    RaisedAppCriticalSent(critical);
    RaisedAppOsUnchanged(medium);
    highApp := c.ProcessVulnerability(high);
    criticalApp := c.ProcessVulnerability(critical);
    mediumOs := c.ProcessVulnerability(medium);
  }
}
