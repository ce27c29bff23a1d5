# Severity-gated vulnerability routing

A model of the routing core of a small Go service that receives
vulnerability-scan findings from a Pub/Sub subscription and forwards each one
to a Slack channel when it is severe enough for its category. The core is
three pieces of `main.go`:

- the **severity scale**, a fixed table `LOW → 1, MEDIUM → 2, HIGH → 3,
  CRITICAL → 4` in which every other string ranks 0 (the zero value of a
  missing Go map key);
- the **routing configuration**, one mutable record with a channel and a
  minimum severity for each of the two categories OS and APP, started with
  `#os-vulns` at MEDIUM and `#app-vulns` at HIGH and overwritten as a whole
  by the operator's web form;
- the **routing decision** `processVulnerability`, which upper-cases the
  incoming severity (but not the configured thresholds), ranks it, matches
  the finding's `Type` exactly against "OS" and then "APP", and sends the
  finding to that category's channel when its rank is at least the
  threshold's rank.

Files:

- `wrappers.dfy` — module `Wrappers`: the `Option` datatype.
- `severity.dfy` — module `Severity`: the table `SeverityLevels`, `Rank`
  (a table read that yields 0 for a missing key), the upper-casing
  `UpperChar`/`ToUpper`, the incoming rank, and lemmas that tie ranks to
  positions in the scale and to spelling up to case.
- `decision.dfy` — module `Decision`: the finding record `Vulnerability`
  (main.go:20-26; the `Type` field is named `category`, since `type` is a
  Dafny keyword), the value `ConfigSnapshot` of the four routing fields, the
  default configuration, the pure decision `Decide`, a second reading of the
  configuration as a table of per-category rules (`Rules`, `DecideByRule`),
  and the routing properties as lemmas.
- `config.dfy` — module `ConfigStore`: class `Config` with the four string
  fields, a constructor giving the defaults, `Update` (the form's four field
  assignments) and `ProcessVulnerability` (the decision made against the
  current fields, returning the channel that would be handed to
  `sendToSlack`), and two client methods: submitting a form twice, and an
  operator update followed by decisions.

Upper-casing follows Go's `strings.ToUpper` as far as it can matter for a
rank: ASCII `a`–`z` become `A`–`Z`, and the only two runes outside ASCII whose
Go upper case is an ASCII letter, dotless `ı` (U+0131, to `I`) and long `ſ`
(U+017F, to `S`), are mapped too, so `"crıtıcal"` ranks 4 as it does in Go.
Every other rune is left unchanged; Go would change some of them, but always
to a rune outside ASCII, which cannot complete a label, so no rank differs.

Two behaviours of the code are worth stating on their own:

- The form handler overwrites all four fields in one step, so there is no
  per-category replace: `Update` takes all four values, and keeping one
  category unchanged means resubmitting its current values
  (`RaiseAppThreshold`). `DecideReadsOwnRuleOnly` states the per-category
  independence that remains.
- An unknown incoming severity is held back only while its category's
  threshold is an upper-case label. A misspelt, empty or lower-case threshold
  (thresholds are not upper-cased) ranks 0 and lets every finding of that
  category through, unknown severities included; the form accepts any
  threshold without checking it. `UnknownSeverityFailsClosed` states the
  first half, `UnrankedThresholdFailsOpen` and `LowerCaseThresholdFailsOpen`
  the second.

## Model

| member | source | states |
|---|---|---|
| `Severity.Rank` | main.go:43-48 | a rank is at most 4; it is positive exactly for the four labels LOW, MEDIUM, HIGH, CRITICAL (upper case, exact), and a positive rank k belongs to the k-th label of the scale; every other string, "" included, ranks 0 |
| `Severity.RankOfLabel` | main.go:43-48 | the k-th label of the scale (LOW first) ranks k + 1 |
| `Severity.RankOrdersScale` | main.go:43-48 | the ranks order the labels as the scale does: LOW < MEDIUM < HIGH < CRITICAL |
| `Severity.LabelsAreUpperAscii` | main.go:43-48 | every key of the table is made of upper-case ASCII letters |
| `Severity.UpperChar` | main.go:113 | a rune's upper case is an ASCII capital exactly when the rune is an ASCII letter, dotless i or long s; lower-case ASCII moves down by 32, dotless i becomes 'I', long s becomes 'S', other runes are kept, and upper-casing is idempotent on a rune |
| `Severity.ToUpper` | main.go:113 | the upper case of a string has the same length and is the rune-wise upper case |
| `Severity.ToUpperIdempotent` | main.go:113 | upper-casing an already upper-cased severity changes nothing |
| `Severity.IncomingRank` | main.go:113 | the rank of an incoming severity is at most 4, and a positive rank k means the severity spells the k-th label up to case |
| `Severity.DotlessIRanksAsI` | main.go:113 | "crıtıcal" (with dotless i) ranks 4, as CRITICAL |
| `Severity.IncomingRankIs` | main.go:113 | an incoming severity ranks k (1 to 4) exactly when it spells the k-th label in any mix of case |
| `Severity.UpperLabelRank` | main.go:113 | an incoming severity that is already an upper-case label ranks as that label |
| `Severity.IncomingRankZero` | main.go:113 | an incoming severity ranks 0 exactly when it spells no label in any case |
| `Severity.IncomingRankIgnoresCase` | main.go:113 | two severities that differ only in case rank the same |
| `Severity.ThresholdRankZero` | main.go:115-117 | a threshold that is empty or holds any rune other than an upper-case ASCII letter (a lower-case label, say) ranks 0, since thresholds are looked up without upper-casing |
| `Decision.Decide` | main.go:109-120 | a finding is sent to at most one channel, and only an OS finding to the OS channel and only an APP finding to the APP channel |
| `Decision.Rules` | main.go:28-32 | the configuration holds a rule for exactly the two categories OS and APP |
| `Decision.DecideIsRuleLookup` | main.go:115-119 | the service's if/else-if chain equals looking the exact category up in the per-category rule table and comparing the incoming rank with the rule's threshold rank |
| `Decision.UnknownCategoryNeverDispatches` | main.go:115-119 | a finding whose type is not exactly "OS" or "APP" (case-sensitive, so "os" or "NETWORK" too) is never sent |
| `Decision.DispatchIffAtThreshold` | main.go:115-118 | for OS and APP, a finding is sent exactly when its rank is at least its category threshold's rank, and then to that category's channel |
| `Decision.ThresholdIsInclusive` | main.go:115-118 | a finding whose rank equals its category threshold's rank is sent to that category's channel |
| `Decision.ScaleDecision` | main.go:113-118 | a finding spelling the i-th label in any case, under a threshold that is the j-th label, is sent exactly when i >= j |
| `Decision.DispatchIsMonotone` | main.go:113-118 | a finding that is sent is also sent, to the same channel, with any severity of at least its rank and the configuration unchanged |
| `Decision.DecideIgnoresSeverityCase` | main.go:113 | changing only the case of the incoming severity ("medium", "Medium", "MEDIUM") never changes the decision |
| `Decision.DecideReadsOwnRuleOnly` | main.go:115-118 | a decision depends only on its own category's channel and threshold |
| `Decision.UnknownSeverityFailsClosed` | main.go:113-118 | a severity that spells no label is never sent when its category's threshold is a label of the scale |
| `Decision.UnrankedThresholdFailsOpen` | main.go:115-118 | when a category's threshold is not a label of the scale, every finding of that category is sent to its channel, whatever its severity |
| `Decision.LowerCaseThresholdFailsOpen` | main.go:115 | with the OS threshold set to lower-case "medium", every OS finding is sent to the OS channel |
| `Decision.DefaultOsLowNotSent` | main.go:36-41 | under the defaults, an OS finding of severity "low" is not sent |
| `Decision.DefaultOsMediumSent` | main.go:36-41 | under the defaults, an OS finding of severity "medium" goes to #os-vulns |
| `Decision.DefaultOsUnknownNotSent` | main.go:36-41 | under the defaults, an OS finding of severity "unknown" is not sent |
| `Decision.DefaultAppHighSent` | main.go:36-41 | under the defaults, an APP finding of severity "HIGH" goes to #app-vulns |
| `Decision.DefaultAppMediumNotSent` | main.go:36-41 | under the defaults, an APP finding of severity "medium" is not sent |
| `ConfigStore.Config.constructor` | main.go:36-41 | the record starts as #os-vulns at MEDIUM and #app-vulns at HIGH |
| `ConfigStore.Config.Update` | main.go:78-81 | after the form is submitted all four fields equal the submitted values, taken unchecked |
| `ConfigStore.Config.ProcessVulnerability` | main.go:109-120 | the channel the finding is handed to is the decision on the current four fields, and only its own category's channel |
| `ConfigStore.UpdateIsIdempotent` | main.go:78-81 | submitting the same form twice leaves the record as submitting it once |
| `ConfigStore.RaisedAppHighNotSent` | main.go:115-118 | with APP moved to #app-vulns-v2 at CRITICAL, an APP "HIGH" finding is not sent |
| `ConfigStore.RaisedAppCriticalSent` | main.go:115-118 | with APP moved to #app-vulns-v2 at CRITICAL, an APP "CRITICAL" finding goes to #app-vulns-v2 |
| `ConfigStore.RaisedAppOsUnchanged` | main.go:115-118 | with OS resubmitted unchanged, an OS "MEDIUM" finding still goes to #os-vulns |
| `ConfigStore.RaiseAppThreshold` | main.go:78-81 | decisions made after an update use the submitted values: from the defaults, an update of APP to #app-vulns-v2 at CRITICAL routes APP "HIGH" nowhere, APP "CRITICAL" to #app-vulns-v2 and OS "MEDIUM" to #os-vulns |

## Left out

- The read/write lock on the record (main.go:33, 71-72, 76-77, 110-111): it is there for concurrency. `Update` is modelled as one atomic step and each decision reads one consistent snapshot of the four fields; torn reads and the timing of a decision against a racing update are not modelled.
- The Pub/Sub listener, JSON decoding, Ack/Nack and the client set-up from environment variables (main.go:88-107): queue I/O through a foreign library. `ProcessVulnerability` takes an already decoded finding.
- The Prometheus counter, its registration and increment (main.go:50-56, 59, 103): a metrics sink that does not influence routing.
- The gin web server, the HTML template for GET `/config`, the redirect after POST and the `/metrics` route (main.go:67-86): HTTP I/O. Only the four field assignments of the POST handler are modelled; `Update`'s parameters stand for the four form values (a missing form field arrives as "").
- `sendToSlack` (main.go:165-224): message formatting, JSON marshalling and the webhook POST are I/O; the model returns the channel it would be called with instead of calling it. The deep link it builds uses `url.QueryEscape`, whose package `net/url` is not imported in the file.
- The older, commented-out `sendToSlack` (main.go:122-161): dead code.
- `main` and the start-up of the two goroutines (main.go:58-65).
- Severity.UpperChar: covers the runes whose upper case can make a label (ASCII letters, U+0131, U+017F); the other Unicode case mappings of Go's `strings.ToUpper` are not modelled, since none of them yields an ASCII letter and so none can change a rank.
