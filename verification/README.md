# osko, modelled and verified

osko is a Kubernetes operator. It compiles OpenSLO objects into Prometheus recording and alerting rules
and brings them into Grafana Mimir. This project models its core in Dafny and proves what it is for:
that the compiled rules mean what the SLO asks for, and that three controllers sharing one object store,
with calls failing and processes crashing anywhere, keep what they promise and get where they should.

## What is modelled

**The compiler.** `RuleCompiler` is the compiler of `prometheus_helper.go` as an expression datatype with
a text printer, next to the loop-by-loop procedure (`SetupRules` and its helpers: a table of tables filled
window by window, regrouped in any key order, alerts appended one by one). `Selectors` and `FixedPoint` are
the two printers rules depend on, label selectors and `%.10f` / `%.1f`, each with a reader. `RuleTable`,
`RuleReferences` and `RuleInputs` say what a compiled table looks like, what its references select, and
which inputs it depends on. `EmittedRules` writes the compiler's whole output out, every failure, group, rule,
expression, label and threshold, in the terms of the SLO, the SLI and the configuration alone, and the meaning
below is stated on these. `ExpressionText` reads every compiled expression back from its text. `PromQL`
gives the emitted fragment a meaning over samples; a database is *stable* when every recording rule,
evaluated in it, writes what it holds. `RuleMeaning` and `AlertMeaning` prove that stable databases exist,
are unique and hold the intended values, and say exactly when alerts fire and when they mean what the SLO asks.

**The store and the controllers.** `ObjectStore` is one slot of the Kubernetes API: versions, conflicts, a
status subresource, finalizers and deletion marks, and calls that fail before or after taking effect.
`Cluster` puts the objects of one SLO beside the SLIs, the datasources and Mimir, whose groups are kept
apart by server and tenant.
`SloController`, `PromController` and `MimirController` are step machines, one API call per step, with all
branches and retries of the Go code. `SloReconciler`, `PromReconciler` and `MimirReconciler` are the
imperative `Reconcile` methods over a mutable `Server` (`ApiServer`); each is proved to end exactly as its
step machine does, for every choice of faults and of interference by others between calls.

**Whole runs.** `MimirConvergence` and `SloConvergence` follow failure-free passes with a decreasing
measure, a deletion included, and say all that each pass writes; `SloOutcomes` takes the passes that stop short
or meet a failing write. `PromConvergence` shows that a pass brings any stored PrometheusRule up to date,
under faults and under others' edits, and `Contention` does the latter for the MimirRule controller. `FaultReports`
says which failing calls a pass reports. `Delivery` joins the stages: from a new SLO to every compiled rule in Mimir.
`MimirMeaning` reads those rules back and says what they mean. `JointRuns` lets the three controllers and
users take steps in any order, with faults and crashes. Over its reachable states `Ownership`,
`Generations`, `InlineSlis`, `AlertingOwnership`, `FinalizerEdits`, `GroupLeaks`, `Tenants` and `Readiness`
prove the safety properties, and `Agreement` settles when the two derivations of the same rules agree.
`MimirTranslation` and `Conditions` are the rule translation and the condition list that both need.

## Where the code does less than it looks

Each of these is proved, with the exact condition where there is one.

- The two sides of an alert's `and` carry different `window` labels, and PromQL pairs `and` on all labels. So as
  the text is read no alert fires for any samples; in a complete outage both windows exceed every attainable
  threshold and the alert stays silent (`AlertMeaning.OutageMissed`). An alert means what the SLO asks for
  exactly if `and` is taken to ignore `window`, or if no samples should ever make it fire: its printed
  threshold times the printed budget is at least one, or good and total are the same query
  (`AlertMeaning.CompilationPreservesMeaningIff`). A threshold printed as a negative number is passed by every
  burn rate, so such an alert means what is asked only if `and` ignored `window` and good and total were one
  query. Every result about alerts names its pairing.
- With only a bad query, the good rule reads a record no group emits, and nothing is ever recorded above
  the totals. A user label keyed `window` makes references ambiguous and drops all alerts. Apart from these
  two cases references are closed and unambiguous (`RuleReferences.WellReferencedIff`).
- Overwriting a MimirRule drops its finalizer. A pass keeps the finalizer exactly when the stored spec was
  already the derived one; otherwise, if there are groups, a deletion right after the pass leaves them in Mimir.
- A look for a missing MimirRule that fails otherwise than by NotFound is taken for success, and the SLO then
  reports Ready without one. A failing look for the PrometheusRule does no such harm while there is no
  MimirRule: the one built from the empty object has no name and cannot be created (`SloOutcomes.PromLookFails`).
- The PrometheusRule controller takes a failing look for a referenced SLI for a missing SLI and reports no error
  (`FaultReports.PromFaultsReported`); a MimirRule that could not be created leaves no trace in the SLO's status
  (`SloOutcomes.RuleCreationFails`), while a PrometheusRule that could not be does.
- The text `status.ready` is set to True as soon as the PrometheusRule exists, and promises no more than that.
- The PrometheusRule controller overwrites the rules of an unnamed inline indicator with different ones,
  unless the name does not show, and fails for one whose source type is only on the threshold metric.
- `docs/OWNERSHIP-MODEL.md` (line 186) promises that the SLO owns its AlertManagerConfig. The code creates it
  without an owner and adds one in the next call; it is owned exactly when that call reached the store.
- An inline indicator whose name is that of an existing SLI overwrites the SLI's spec and never adds an owner.
- When an SLO is deleted and created again under its name, its children are the new SLO's exactly if none was
  left over at that moment. A PrometheusRule, MimirRule or SLI left from the earlier SLO keeps its owner
  (`Generations.RecreationFails` gives the run), and a pass of the PrometheusRule or MimirRule controller that
  read the earlier SLO may still overwrite with its derived object. The SLO controller never does: past its
  finalizer stage it works for the stored SLO.

## Model

| member | source | states |
|---|---|---|
| Selectors.MapToColonSeparatedString | internal/helpers/prometheus_helper.go:69-93 | for every order in which the map yields its keys, the text is the one selector of the label map |
| Selectors.SelectorKeysAscend | internal/helpers/prometheus_helper.go:78-92 | the selector lists exactly the keys not matching `__.*?__`, each once, strictly ascending, with its own value |
| Selectors.SelectorRoundTrip | internal/helpers/prometheus_helper.go:69-93 | keys without `=` or `"` and values without `"`: reading the printed selector back gives the map minus reserved keys |
| Selectors.SelectorInjective | internal/helpers/prometheus_helper.go:69-93 | two such maps print alike if and only if they are equal after dropping reserved keys |
| Selectors.ReservedIff | internal/helpers/prometheus_helper.go:72-88 | the keys dropped are exactly those with two underscores, text without a line break, and two underscores in them |
| Text.LessIff | internal/helpers/prometheus_helper.go:82 | the order of the keys: the first place where two differ decides, and a proper prefix comes first |
| Selectors.MergeLabels | internal/helpers/prometheus_helper.go:95-104 | merging copies any number of maps, later ones winning |
| Selectors.LastMapWins | internal/helpers/prometheus_helper.go:95-104 | a key is in the merge if and only if some map has it, with the value of the last map that has it |
| EmittedRules.RuleLabelsMerged | internal/helpers/prometheus_helper.go:245-249 | a rule's labels are the merge of the base labels and the user's, the user's last |
| Selectors.UniqueStrings | internal/helpers/prometheus_helper.go:106-117 | the result is the first-occurrence listing whose properties the next two rows give |
| Selectors.UniqueLists | internal/helpers/prometheus_helper.go:106-117 | no duplicates, the same members |
| Selectors.UniqueInFirstOrder | internal/helpers/prometheus_helper.go:106-117 | values appear in the order of their first occurrence |
| FixedPoint.ParsePrinted | internal/helpers/prometheus_helper.go:165 | reading a printed fixed-point number gives the value rounded half to even |
| FixedPoint.PrintParsed | internal/helpers/prometheus_helper.go:165 | printing undoes reading on every text the printer can produce, so the two are mutually inverse |
| FixedPoint.RoundedNear | internal/helpers/prometheus_helper.go:501 | a printed value is within half a unit of its last decimal |
| FixedPoint.TiesToEven | internal/helpers/prometheus_helper.go:165 | halfway between two printable numbers the one with the even last digit is printed |
| FixedPoint.RoundedExact | internal/helpers/prometheus_helper.go:165 | printing loses nothing exactly when the number has no more decimals than are printed |
| FixedPoint.PrintedBudgetPositive | internal/helpers/prometheus_helper.go:161-168 | a positive budget prints as a positive divisor if and only if it exceeds 5e-11 |
| FixedPoint.PrintedBudgetExact | internal/helpers/prometheus_helper.go:161-168 | the printed budget is the budget if and only if the target has at most ten decimals |
| FixedPoint.PrintedBudgetBound | internal/helpers/prometheus_helper.go:161-168 | targets up to 1 - 1e-10: printed budget positive, off by at most 5e-11, relative error of the burn rate at most 1e-10 / budget |
| RuleCompiler.CreateUserDefinedRuleLabels | internal/helpers/prometheus_helper.go:129-140 | exactly the labels under the `label.osko.dev/` prefix, prefix removed, in any map order |
| RuleCompiler.GetBurnRateWindows | internal/helpers/prometheus_helper.go:441-449 | per non-empty window label, the last burn-rate rule carrying it |
| RuleTable.LastBurnRateWins | internal/helpers/prometheus_helper.go:441-449 | the lookup table has a window if and only if some rule is labelled with it and it is not empty, and holds the last such rule |
| RuleTable.ValidIff | internal/helpers/prometheus_helper.go:451-453 | a rule counts as usable if and only if it has a record, since no expression prints as the empty text |
| RuleCompiler.HasWindows | internal/helpers/prometheus_helper.go:428-435 | true if and only if every required window has an entry |
| RuleCompiler.MonitoringRuleSet.FillWindow | internal/helpers/prometheus_helper.go:302-326 | one turn of the window loop extends every column by that window's rule and nothing else |
| RuleCompiler.MonitoringRuleSet.CollectRows | internal/helpers/prometheus_helper.go:338-353 | whatever order the table's keys come in, each kind's row has one rule per window in window order |
| RuleCompiler.MonitoringRuleSet.CreateAlerts | internal/helpers/prometheus_helper.go:370-414 | the alerts whose two windows are both present, in the fixed order |
| RuleCompiler.MonitoringRuleSet.SetupRules | internal/helpers/prometheus_helper.go:254-422 | the procedure returns the groups or the error of the compiled form that all later results are about |
| EmittedRules.CompilesIff | internal/helpers/prometheus_helper.go:178-276 | compilation succeeds if and only if the source type is one of the five, case aside, an objective is there and its text stands for a number strictly between 0 and 1; otherwise the error is the first of these that fails |
| EmittedRules.EmittedRecordings | internal/helpers/prometheus_helper.go:254-363 | if the first target's text stands for t: the named groups hold exactly one target rule and, per window, the good, total, measurement, error-ratio and burn-rate rules over that window's own queries, aggregation, labels and the divisor printed from 1 - t |
| EmittedRules.BurnRatesDivideByBudget | internal/helpers/prometheus_helper.go:161-168 | the divisor in every burn rate reads back within 5e-11 of 1 - t, where t is the number the first target's text stands for |
| EmittedRules.EmittedAlerts | internal/helpers/prometheus_helper.go:366-532 | no alert group without the annotation, an empty one with a user label for the window, and else the four alerts: name, both printed thresholds, windows, severity, labels, duration and annotations, over the emitted burn rates of their two windows |
| EmittedRules.EmittedObject | internal/helpers/prometheus_helper.go:538-582 | the PrometheusRule object: name, namespace, labels and annotations of the SLO, controlled by it, with the compiled groups |
| RuleTable.WindowsInOrder | internal/helpers/prometheus_helper.go:291-292 | the windows are base, extended and the seven alerting windows, each once, in first-occurrence order |
| RuleTable.AlertsAllOrNothing | internal/helpers/prometheus_helper.go:366-420 | the alert group has exactly the four specified window pairs in order, or none if a user label is keyed `window` |
| RuleReferences.OneRulePerWindow | internal/helpers/prometheus_helper.go:302-363 | each of the five per-window groups has one rule of its kind per distinct window, in order, whose window label is its window, or the user's value if a user label is keyed `window` |
| RuleInputs.SameRuleGroups | internal/helpers/prometheus_helper.go:538-553 | versions, finalizers, owners and status of the SLO and SLI objects never change the compiled groups |
| RuleReferences.ReferenceExact | internal/helpers/prometheus_helper.go:69-93 | the printed reference to a kind's rule for a window selects that emitted rule and no other |
| RuleReferences.RecordingReferences | internal/helpers/prometheus_helper.go:142-168 | measurement, ratio and burn rate each refer to the rules of their own window one layer below |
| RuleReferences.AlertReferences | internal/helpers/prometheus_helper.go:466-504 | each alert refers to the burn rates of its short and its long window, and to nothing else |
| RuleReferences.WellReferencedIff | internal/helpers/prometheus_helper.go:254-363 | references are closed and unambiguous if and only if there is a good query and no user label keyed `window` |
| RuleReferences.BadReferenceOpen | internal/helpers/prometheus_helper.go:309-316 | with only a bad query some reference selects no emitted rule, and no emitted rule records the bad series |
| RuleReferences.ReferencesAcyclic | internal/helpers/prometheus_helper.go:302-320 | a rank strictly decreases along every reference; recording rules refer within their own labels |
| ExpressionText.ReadRendered | internal/helpers/prometheus_helper.go:142-176 | an independent reader of the emitted PromQL fragment gives back every expression from its text, so nothing is lost or swapped in printing |
| ExpressionText.CompiledTextReads | internal/helpers/prometheus_helper.go:254-422 | the text of every compiled rule reads back as the expression the meaning is given to |
| RuleMeaning.StableHolds | internal/helpers/prometheus_helper.go:142-168 | in every stable database each kind's record holds, per window, exactly its intended value, good and total being what the good and the total query, aggregated over that window, give |
| AlertMeaning.StableExists | internal/helpers/prometheus_helper.go:254-363 | for all samples with positive totals the compiled rules have a stable database |
| AlertMeaning.StableUnique | internal/helpers/prometheus_helper.go:254-363 | and only one: the rules determine every recorded value |
| AlertMeaning.AlertFiresIff | internal/helpers/prometheus_helper.go:466-504 | for either pairing of `and`: the j-th alert fires if and only if `and` ignores the window label and either total - good > T * E * total in both of its windows or T is negative, T being the j-th of the four configured thresholds and E the budget, both as printed |
| AlertMeaning.OutageMissed | internal/helpers/prometheus_helper.go:497-504 | the failing input: in a complete outage both windows exceed the threshold, the alert fires with `and` ignoring the window and does not with `and` on all labels, as PromQL reads it |
| AlertMeaning.FaithfulIff | internal/helpers/prometheus_helper.go:466-504 | for all samples an alert fires exactly as the SLO asks if and only if: for T >= 0, `and` ignores the window, or T * E >= 1, or good and total are the same query; for T < 0, `and` ignores the window and good and total are the same query |
| AlertMeaning.CompiledAlertFiresIff | internal/helpers/prometheus_helper.go:254-422 | from the compiler's actual output, for either pairing, with E printed from 1 - t for the number t the first target's text stands for: seven groups, four alerts, each firing if and only if `and` ignores the window and both windows exceed the threshold or it is negative |
| AlertMeaning.CompilationPreservesMeaningIff | internal/helpers/prometheus_helper.go:254-422 | the exact condition for the compiler's output, every threshold and every budget that does not print as zero: for all samples the j-th alert fires as the SLO asks if and only if: for T >= 0, `and` ignores the window, or T * E >= 1, or good and total are the same query; for T < 0, `and` ignores the window and good and total are the same query |
| AlertMeaning.AlertNeverFiresOnAllLabels | internal/helpers/prometheus_helper.go:497-504 | with `and` paired on all labels, as PromQL pairs it, no alert fires for any samples |
| AlertMeaning.BurnRateBounds | internal/helpers/prometheus_helper.go:142-168 | every recorded burn rate lies between 0 and 1/E |
| AlertMeaning.CanFireIff | internal/helpers/prometheus_helper.go:466-504 | for either pairing: some samples make an alert fire if and only if `and` ignores the window and T < 0, or T * E < 1 and good and total are not the same query; read as PromQL reads it, none do |
| AlertMeaning.BadOnlySilent | internal/helpers/prometheus_helper.go:309-316 | with only a bad query no good, measurement, ratio or burn-rate series is ever recorded |
| AlertMeaning.BadOnlyNeverFires | internal/helpers/prometheus_helper.go:309-316 | so no alert fires, whatever the queries return |
| Conditions.UpdateCondition | internal/utils/common_utils.go:64-93 | scan, filter and append give the specified list: unchanged for an equal status, else the type moved to the end |
| Conditions.StatusBlock.UpdateStatus | internal/utils/common_utils.go:95-120 | both status fields after the call, as the specification gives them from both before it |
| Conditions.ConditionsRefineMap | internal/utils/common_utils.go:64-120 | after any calls with a nondecreasing clock: distinct types, each with its latest status and the time of its last real change, ordered by that time, Ready the last status |
| Conditions.FindUpdated | internal/utils/common_utils.go:76-92 | after an update the type has the new status, and the list is unchanged if and only if it had it before |
| Conditions.RepeatIsQuiet | internal/utils/common_utils.go:76-78 | repeating a status changes nothing but Ready, timestamps included |
| MimirTranslation.NewMimirRuleGroups | internal/helpers/mimirtool_helper.go:64-95 | the nested loops give the first-stage translation of every group, in order |
| MimirTranslation.PushedGroupOf | internal/controller/osko/mimirrule_controller.go:275-325 | the second stage, giving up on the whole group exactly where a duration does not parse |
| MimirTranslation.PushesSkip | internal/controller/osko/mimirrule_controller.go:175-180 | a group given up for its duration keeps none of the others back: the rest are pushed, each once and in order |
| MimirTranslation.TranslationKeepsRules | internal/helpers/mimirtool_helper.go:64-95 | a group is pushed if and only if its alerts' durations parse, keeping name, tenants, count and order; a rule survives if and only if it does not set both record and alert |
| MimirTranslation.CompiledGroupsPushed | internal/controller/osko/mimirrule_controller.go:275-325 | every compiled group is pushed, every rule of it intact |
| MimirTranslation.GroupNameInjective | internal/helpers/prometheus_helper.go:355-363 | group names are injective in SLO name and group kind, over all strings |
| MimirTranslation.NonInterference | internal/controller/osko/mimirrule_controller.go:95-101 | pushing or deleting one SLO's groups, at its connection's address and target tenant, changes no group of a differently named SLO and none of another server or tenant; names meet only for equal SLO names |
| MimirTranslation.SharedPlaceIff | internal/controller/osko/mimirrule_controller.go:259-263 | groups of two connections share a place in Mimir if and only if address, target tenant and group name are the same |
| ObjectStore.RemoveKeeps | internal/controller/osko/mimirrule_controller.go:107 | removing a finalizer removes all its copies and no other entry |
| Tenants.TenantsApart | internal/controller/osko/mimirrule_controller.go:79-82 | in every run, outside edits included, a server and tenant keeps exactly its groups as long as no stored MimirRule has that address and target tenant in its connection |
| MimirReconciler.MimirRuleReconciler.PushGroups | internal/controller/osko/mimirrule_controller.go:175-180 | the push loop, through the client stored for this rule's connection, makes the step machine's pushes in order and stops at the first failure |
| MimirReconciler.MimirRuleReconciler.CleanUp | internal/controller/osko/mimirrule_controller.go:94-127 | deletion ends as the step machine's: groups first, then the two finalizers with their retries |
| MimirReconciler.MimirRuleReconciler.Guard | internal/controller/osko/mimirrule_controller.go:182-225 | both finalizer retry loops and the comparison end as the step machine's |
| MimirReconciler.MimirRuleReconciler.Reconcile | internal/controller/osko/mimirrule_controller.go:55-257 | outcome, world and call count of a whole pass, for all faults and interference |
| SloReconciler.Reconciler.CreateOrUpdateInlineSli | internal/controller/openslo/slo_controller.go:389-456 | the inline SLI is created or brought up to date as in the step machine |
| SloReconciler.Reconciler.Reconcile | internal/controller/openslo/slo_controller.go:52-329 | outcome, world and call count of a whole pass, for all faults and interference |
| PromReconciler.PrometheusRuleReconciler.Reconcile | internal/controller/monitoring.coreos.com/prometheusrule_controller.go:39-228 | outcome, world and call count of a whole pass, for all faults and interference |
| PromConvergence.PassBringsUpToDate | internal/controller/monitoring.coreos.com/prometheusrule_controller.go:57-226 | whatever groups it held, a failure-free pass leaves the PrometheusRule with exactly the groups compiled for its first SLO owner and that SLO's SLI, labelled and owned for it, and touches nothing else; one that was up to date is left alone |
| PromConvergence.SecondPassIdle | internal/controller/monitoring.coreos.com/prometheusrule_controller.go:182-198 | a second pass changes nothing, versions included |
| PromConvergence.UncompilableLeftAlone | internal/controller/monitoring.coreos.com/prometheusrule_controller.go:172-180 | if the groups do not compile the pass fails and writes nothing |
| PromConvergence.NoSloNothingWritten | internal/controller/monitoring.coreos.com/prometheusrule_controller.go:47-80 | without a PrometheusRule, without an SLO among its owners, or with an SLO that is not there: outcome by case, and nothing is written |
| PromConvergence.MissingSliReported | internal/controller/monitoring.coreos.com/prometheusrule_controller.go:82-112 | a missing SLI marks the SLO not ready, with the message and the time, and leaves the PrometheusRule alone |
| PromConvergence.SettledMeansUpToDate | internal/controller/monitoring.coreos.com/prometheusrule_controller.go:172-226 | under every choice of faults: a pass that reports no error has the compiled groups stored, unless the look for a referenced SLI failed |
| PromConvergence.FiveConflicts | internal/controller/monitoring.coreos.com/prometheusrule_controller.go:189-198 | for any edits by others: the overwrite gives up, after ten calls, if the PrometheusRule changed between read and write in each of five attempts, and otherwise stores the derived groups at the first attempt in which it did not |
| PromConvergence.RefreshGivesUp | internal/controller/monitoring.coreos.com/prometheusrule_controller.go:199-225 | the status refresh of an SLO that changes under every attempt: two rounds of five attempts and an error |
| PromConvergence.FourEditsSettle | internal/controller/monitoring.coreos.com/prometheusrule_controller.go:39-228 | with an indicator that compiles, a pass settles however others relabel the PrometheusRule and the SLO before up to four of its calls |
| MimirController.AdvanceProgresses | internal/controller/osko/mimirrule_controller.go:55-257 | a measure falls at every call, conflicts and retries included, so every pass ends |
| PromController.AdvanceProgresses | internal/controller/monitoring.coreos.com/prometheusrule_controller.go:189-225 | likewise, with the nested retry of the status refresh |
| SloController.AdvanceProgresses | internal/controller/openslo/slo_controller.go:52-329 | likewise for the staged SLO pass |
| FaultReports.MimirFaultsReported | internal/controller/osko/mimirrule_controller.go:55-257 | for all faults and interference: a pass that reports no error met no failing call |
| FaultReports.PromFaultsReported | internal/controller/monitoring.coreos.com/prometheusrule_controller.go:39-228 | the same, but for a failing look for a referenced SLI, after which the pass makes one more call |
| FaultReports.SloFaultsReported | internal/controller/openslo/slo_controller.go:52-329 | the same, but for the looks for the PrometheusRule and the MimirRule, whose failures are taken for success |
| FaultReports.MimirFaultKind | internal/controller/osko/mimirrule_controller.go:55-257 | from every position, whatever follows: a failing call ends the pass in a transient error |
| FaultReports.PromFaultKind | internal/controller/monitoring.coreos.com/prometheusrule_controller.go:39-228 | a failing call ends the pass in an unclassified error, or in a panic for the status update of an SLO that names no SLI; the look for the SLI aside |
| FaultReports.SloFaultKind | internal/controller/openslo/slo_controller.go:52-329 | a failing call ends the pass in a transient error, or in an unclassified one at exactly four calls: the two finalizer writes, owning the PrometheusRule and the status after it; the two looks aside |
| Contention.FourEditsSurvived | internal/controller/osko/mimirrule_controller.go:94-251 | a pass, cleaning up or bringing Mimir up to date, ends without an error however others relabel the PrometheusRule and the MimirRule before up to four of its calls |
| Contention.FifthEditDefeats | internal/controller/osko/mimirrule_controller.go:182-197 | a MimirRule that changes under every attempt: five attempts, ten calls, an error and no finalizer |
| Contention.PushesStopAtFailure | internal/controller/osko/mimirrule_controller.go:175-180 | if the n-th push fails: exactly the groups before it are in Mimir, and it too if only its answer was lost; nothing else has changed, and the pass ends in an error |
| Contention.DeletesStopAtFailure | internal/controller/osko/mimirrule_controller.go:95-101 | the same for the deletions of a clean-up, both finalizers still in place |
| Contention.OverwriteFailureReported | internal/controller/osko/mimirrule_controller.go:227-240 | an overwrite whose read fails or whose write never arrives turns the MimirRule's Ready text False, leaves the rest of it, and ends in an error |
| Contention.NothingToTranslate | internal/controller/osko/mimirrule_controller.go:63-81 | with either object missing a pass does nothing |
| Contention.UnusableLeftAlone | internal/controller/osko/mimirrule_controller.go:83-172 | with an unusable address, or an owning SLO that is not there, a pass ends in an error and has written nothing, to Mimir included |
| MimirConvergence.CalmPassIsRun | internal/controller/osko/mimirrule_controller.go:55-257 | the failure-free runs below are passes of the controller without faults |
| MimirConvergence.PassApproaches | internal/controller/osko/mimirrule_controller.go:161-256 | each failure-free pass keeps the setting, puts every group in Mimir and lowers the distance, the overwrite that drops the finalizer included |
| MimirConvergence.PassWrites | internal/controller/osko/mimirrule_controller.go:161-256 | all that a failure-free pass writes: the groups at the connection's server and tenant, the finalizer on the PrometheusRule, and either the finalizer on the MimirRule or, if its spec is out of date, a MimirRule with the PrometheusRule's metadata, controlled by the SLO, without finalizers, Ready True |
| MimirConvergence.TwoPassesConverge | internal/controller/osko/mimirrule_controller.go:161-256 | two passes put all groups in Mimir, at the connection's address and target tenant, the derived spec in the store and both finalizers in place; further passes change nothing |
| MimirConvergence.FinalizerSurvivesIff | internal/controller/osko/mimirrule_controller.go:215-233 | a failure-free pass keeps the finalizer if and only if the stored spec was the derived one |
| MimirConvergence.OverwriteThenDeleteLeaksIff | internal/controller/osko/mimirrule_controller.go:215-233 | a deletion right after a failure-free pass removes the MimirRule at once with one of its groups still in Mimir if and only if the stored spec was not the derived one and there are groups |
| MimirConvergence.DeletionCompletes | internal/controller/osko/mimirrule_controller.go:94-127 | a failure-free pass over a deleted MimirRule takes exactly its groups out of Mimir, then the MimirRule and the PrometheusRule's finalizer, and nothing else |
| SloConvergence.CalmPassIsRun | internal/controller/openslo/slo_controller.go:52-329 | the failure-free runs below are passes of the controller without faults |
| SloConvergence.PromPass | internal/controller/openslo/slo_controller.go:114-206 | the second stage stores the SLI and exactly the compiled rules, in a PrometheusRule like the SLO and owned by it |
| SloConvergence.RulePass | internal/controller/openslo/slo_controller.go:211-267 | the third stores exactly the rules' translation, in a MimirRule like the PrometheusRule and owned by the SLO, Ready True |
| SloConvergence.LastPass | internal/controller/openslo/slo_controller.go:272-328 | the last stage marks the SLO ready, with the message and the time, and creates the AlertManagerConfig if it is wanted and missing: its name, labels, datasource, secret and owner |
| SloConvergence.PassAdvances | internal/controller/openslo/slo_controller.go:85-328 | each failure-free pass strictly lowers the stages ahead, or changes nothing at zero |
| SloConvergence.FourPassesConverge | internal/controller/openslo/slo_controller.go:85-328 | after four passes all children exist and Ready is True; every later pass changes nothing, versions and timestamps included |
| SloOutcomes.DeletedSloReleased | internal/controller/openslo/slo_controller.go:58-83 | a deleted SLO loses the one finalizer and nothing else, or goes |
| SloOutcomes.SourceMissingReported | internal/controller/openslo/slo_controller.go:96-109 | without its datasource the SLO's Ready text turns False, its conditions stay, and the pass waits for the dependency |
| SloOutcomes.SliMissingReported | internal/controller/openslo/slo_controller.go:114-150 | a missing SLI marks the SLO not ready and is waited for; an SLO that names none is given up |
| SloOutcomes.UncompilableReported | internal/controller/openslo/slo_controller.go:158-170 | an SLO that does not compile is marked not ready, or makes the controller panic for want of an objective, exactly by which error comes first |
| SloOutcomes.PromCreationFails | internal/controller/openslo/slo_controller.go:171-183 | a failing creation of the PrometheusRule, whether or not it took effect, marks the SLO not ready |
| SloOutcomes.RuleCreationFails | internal/controller/openslo/slo_controller.go:228-240 | a failing creation of the MimirRule ends in an error and leaves the SLO as it was |
| SloOutcomes.RuleReportFails | internal/controller/openslo/slo_controller.go:234-240 | if the status refresh after that fails too, the SLO is marked not ready |
| SloOutcomes.PromLookFails | internal/controller/openslo/slo_controller.go:152-240 | a failing look for the PrometheusRule is taken for having found an empty one: without a MimirRule an error and nothing written, with one the SLO is marked ready, PrometheusRule or not |
| SloOutcomes.InlineSliFails | internal/controller/openslo/slo_controller.go:129-140 | a failing look for the inline SLI, or a failing write of it, marks the SLO not ready |
| Delivery.NewSloDelivered | internal/controller/osko/mimirrule_controller.go:161-256 | a new SLO that compiles: after four and two failure-free passes Mimir holds, at the datasource's address and target tenant, every compiled rule word for word |
| MimirMeaning.NewSloReadsBack | internal/controller/osko/mimirrule_controller.go:275-325 | the texts Mimir then holds, read back, are the compiled rules: record, alert name, expression and labels |
| MimirMeaning.HeldAlertFiresIff | internal/controller/osko/mimirrule_controller.go:175-180 | the j-th alert text Mimir holds, over the recording texts Mimir holds, fires if and only if `and` ignores the window and both windows exceed the threshold or it is negative |
| Ownership.GeneratedObjectsOwned | internal/controller/openslo/slo_controller.go:152-267 | in every reachable state, the PrometheusRule, MimirRule and created inline SLIs carry one owner reference, to an SLO of this name under a uid such an SLO has had |
| Generations.SloCopyIsStored | internal/controller/openslo/slo_controller.go:69-93 | in every reachable state, outside edits included, past its finalizer stage the SLO controller holds a copy of the SLO now stored, which keeps its finalizer |
| Generations.SloCallsMakeForStored | internal/controller/openslo/slo_controller.go:171-198 | in every reachable state, what the SLO controller writes when it makes a PrometheusRule or MimirRule belongs to the SLO stored at that moment |
| Generations.RecreationIff | internal/controller/openslo/slo_controller.go:86-93 | at every creation of the SLO in every run, the children are the new SLO's if and only if none is left of an earlier one, and everything held is too if and only if besides no pass holds anything of an SLO |
| Generations.GenerationOwned | internal/controller/openslo/slo_controller.go:152-267 | from any state where everything stored and held is of given SLOs, and for as long as only these are stored, all children stay theirs, whatever fails, crashes or is deleted |
| Generations.CleanStart | internal/controller/openslo/slo_controller.go:152-267 | after a creation with no child left and nothing held, all children are that SLO's for as long as no other of the name is stored |
| Generations.RecreationFails | internal/controller/openslo/slo_controller.go:69-93 | for every SLO that compiles a fault-free run: its PrometheusRule is stored, it is deleted and released, and after re-creation the PrometheusRule is an earlier SLO's and not the stored one's |
| Generations.PromOverwriteOwnerIff | internal/controller/monitoring.coreos.com/prometheusrule_controller.go:188-198 | an overwrite, under every fault, leaves a PrometheusRule that is SLO u's if and only if the derived object was, if the call went through, or the stored one was, if not |
| Generations.RuleOverwriteOwnerIff | internal/controller/osko/mimirrule_controller.go:227-233 | the same for the MimirRule |
| InlineSlis.InlineStageOwners | internal/controller/openslo/slo_controller.go:389-456 | in every reachable state, under every fault: after a call of the SLI stage the SLI of the inline name is the stored SLO's if the call created it, has its former owners if it was there, and has the indicator's spec if the pass goes on |
| InlineSlis.ExistingSliOwnersKept | internal/controller/openslo/slo_controller.go:431-452 | in every reachable state no call of any controller changes the owners of an SLI that exists |
| InlineSlis.SliOwnersForever | internal/controller/openslo/slo_controller.go:431-452 | over every run an SLI, by uid, keeps the owners it was created with, so one that was there before never becomes the SLO's |
| Ownership.ReferencesNeverWritten | internal/controller/openslo/slo_controller.go:115-150 | in every reachable state, a controller's call writes no datasource and no SLI but the one an SLO without a reference names inline |
| AlertingOwnership.PassOwnsAlertingIff | internal/controller/openslo/slo_controller.go:292-308 | the rest of a pass, under all faults: the AlertManagerConfig is stored if and only if its creation was not dropped, and then is the SLO's if and only if the creation answered and the ownership call was not dropped |
| AlertingOwnership.AlertingOwnedIff | internal/controller/openslo/slo_controller.go:280-308 | in every reachable state, crashes, deletions and re-creations included: a stored AlertManagerConfig is SLO u's, the stored one's in particular, if and only if its ownership call reached the store while u was stored, and nobody's if and only if none reached it |
| AlertingOwnership.UnownedAlertingStays | internal/controller/openslo/slo_controller.go:280-308 | once the ownership call is past or missed, no controller writes the AlertManagerConfig again |
| FinalizerEdits.FinalizerEditsLoseNothing | internal/controller/osko/mimirrule_controller.go:102-125 | in every reachable state, outside edits included: a finalizer edit that takes effect changes the object stored just before it in that one finalizer alone, without duplicates |
| FinalizerEdits.StepTracked | internal/controller/osko/mimirrule_controller.go:182-212 | every step of anyone moves both objects to newer versions only, so a copy with the stored version is the stored object |
| GroupLeaks.ReleasingSound | internal/controller/osko/mimirrule_controller.go:94-113 | during clean-up each group is still to be deleted or gone, and only the last finalizer write can remove the MimirRule |
| GroupLeaks.NoLeakedGroups | internal/controller/osko/mimirrule_controller.go:94-225 | in every run with fixed groups: the step after which a MimirRule that ever carried its finalizer is gone leaves none of its groups in Mimir |
| Readiness.ReadyMeansChildren | internal/controller/openslo/slo_controller.go:152-324 | in every run with failing writes and crashes, a True Ready condition implies PrometheusRule and MimirRule, and the AlertManagerConfig under magic alerting; a Ready text of True implies the PrometheusRule |
| Readiness.FailedLookIsReadyIff | internal/controller/openslo/slo_controller.go:211-217 | from an honest state at the look for the MimirRule, the rest without faults: Ready at the end means that the children exist if and only if the look did not fail or there was a MimirRule |
| Readiness.TextBeforeRule | internal/controller/openslo/slo_controller.go:200-201 | the Ready text says True with no MimirRule there yet |
| Agreement.InlineAgreementIff | internal/controller/monitoring.coreos.com/prometheusrule_controller.go:97-103 | both derivations from an inline indicator agree if and only if the total metric has a source type and the name is written out or does not show |
| Agreement.SecondPassKeepsGroups | internal/controller/monitoring.coreos.com/prometheusrule_controller.go:176-194 | outside the one disagreeing case a PrometheusRule pass leaves the groups as made, whatever its faults |
| Agreement.SecondPassChangesGroups | internal/controller/monitoring.coreos.com/prometheusrule_controller.go:176-194 | in that case a failure-free pass writes different groups |

## Left out

- Library calls are parameters of the configuration: number and duration parsing, the severity lookup, and
  whether a Mimir client can be built for an address. The theorems hold for every choice of them.
- IEEE floating point: targets, samples and thresholds are reals; NaN targets, which pass validation, and
  infinities are not represented.
- PromQL beyond the emitted fragment: raw queries are opaque, each window gives one sample, and backslash
  escapes in selectors are not read. Group evaluation order and staleness are replaced by stable databases.
- An SLO without objectives makes the compiler panic; the model returns an error of its own that ends the
  pass as a crash.
- RuleReferences.WellReferencedIff: assumes names and windows without quotes and user labels without `=`,
  since other texts break the selector syntax itself.
- ExpressionText.CompiledTextReads: assumes the same texts, no `}` in user label keys and no `[` in windows; the
  reader takes raw queries as they are.
- AlertMeaning.CompilationPreservesMeaningIff: leaves out targets within 5e-11 of one, whose budget prints as zero
  and whose burn rates are then infinite or undefined.
- Ownership.GeneratedObjectsOwned: the owner may be an earlier SLO of the name once one has been re-created, exactly
  as RecreationIff, GenerationOwned and the two overwrite lemmas say; garbage collection after a deletion is a
  user action of the model, not a promise.
- GroupLeaks.NoLeakedGroups: fixes the groups of the PrometheusRule and requires created MimirRules to be built
  from them; OverwriteThenDeleteLeaksIff shows that without this groups are leaked.
- Readiness.ReadyMeansChildren: excludes a failing look for a MimirRule that does not exist, where by
  FailedLookIsReadyIff the property is lost, outside edits and deletions of children, and a changed
  magic-alerting annotation.
- MimirConvergence.TwoPassesConverge: failure-free passes with the other controllers idle; liveness under crashes
  and clean-up of groups whose names change are not provided by the code.
- The AlertManagerConfig controller, of which only the object's existence and owner matter here.
- The SLI, Datasource, AlertPolicy, AlertCondition and AlertNotificationTarget controllers: connectivity checks
  or empty.
- Events, logging, watches, indices and requeue delays; a pass only says whether it is requeued at once, later,
  or by an error of which kind. Error texts inside condition messages are shortened to their fixed part.
- One SLO key per run and one Mimir namespace: SLOs of one name in two Kubernetes namespaces share
  Mimir group names, which NonInterference states as equality of names.
- Stale reads: reads see the latest write. Absent and empty lists are not told apart after a store round trip.
- The branches for a missing object after it was just read, in the MimirRule and PrometheusRule controllers,
  cannot be reached and have no steps.
- Retried status updates of objects that were never stored are modelled by the failure the store gives.
- The unused rule builders and the environment parsing of the configuration.
