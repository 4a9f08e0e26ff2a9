# Deployment status provisioner, modelled in Dafny

The status provisioner is a one-shot job that runs beside a deployment in
Kubernetes. Its entry point, `__main__` in `docker/status_provisioner.py`, does
four things:

1. It publishes an "In Progress" condition on a target custom resource.
2. It polls three kinds of monitored objects until each is ready, decides, or runs out of time:
   - workloads: daemon sets, deployments, jobs and stateful sets;
   - custom resources, judged by a JSONPath expression;
   - an integration-tests resource, judged by a status condition.
3. It collects one status message per object. An empty message means success.
4. It publishes one aggregate condition:
   - "failed", with the non-empty messages joined by spaces, when any message is non-empty;
   - "successful", with the "all components are ready" message, otherwise.

`docker/libraries.py` supplies the Kubernetes-facing helpers:
- the `CustomResource` reference parser;
- the readiness predicates and their dispatch;
- `get_condition`;
- the status-condition lookup;
- the two ways a condition is upserted into the target's status: a list of conditions matched by reason, or a component-status field matched by message.

The model has five modules:

- `Wrappers`: `Option` (a missing key or `None`) and `Result` (`Err` is a raised exception).
- `Strings`: the Python string operations the code relies on, as functions on `seq<char>` with their properties:
  - `split()` and `strip()` on Python's whitespace set;
  - `split(',')` (empty pieces kept) and `sep.join`;
  - `s.split(sep)[0]`, `lower()` and `str(int)`.
- `Libraries`: `docker/libraries.py`.
  - A `Cluster` datatype is the snapshot the read calls see.
  - The target resource is the class `StatusTarget`. Its two update methods are the source's loops, proved against the functions `ListFormStatus`/`FieldFormStatus`.
- `Polling`: the shape the three polling loops share.
  - `Poll` is the outcome of the first decision taken before the deadline, else the time-out message.
  - `Attempts` is the number of checks the loop makes.
  - Lemmas cover the first decision, the if-and-only-if characterisation, time-outs, later observations and the bound on checks.
- `StatusProvisioner`: `docker/status_provisioner.py`, covering:
  - the entry parsers;
  - the three loops, as methods with `while` loops proved against `Poll`;
  - the two list walks, as methods proved against `CollectStatuses`;
  - the aggregation;
  - the entry point `Provision`, which updates a `StatusTarget` and is proved against the function `ProvisionRun`.

Time and the cluster are inputs:
- Each loop receives a `Schedule`: the clock reading at its start, and for every evaluation of its loop test, the clock reading and the cluster snapshot a check would then see.
- The `while start + timeout > now` test is evaluated on those readings.
- A loop that runs out of readings stops as if its deadline had passed. The length of the schedule is the fuel that stands in for the clock.
- JSONPath evaluation is a function parameter `find`.
- The timestamps `get_condition` writes are given as text.
- The target is a `StatusTarget` object that may be absent. Both updates read it first, so a missing target fails at the first publish, before anything is polled.

Environment variables are fields of `Config`.
- Five of them have no default: the two monitored lists, the namespace, the target and the integration-tests resource. For these, an unset variable and an empty one read alike, as the empty string. The code tests each for truthiness before it splits or parses it.
- The others hold their value after defaults are applied: the condition reason and types, and the three timeouts. `StatusProvisioner.DefaultsApplied` states the defaults.

Two behaviours of the code are easy to misread; the model follows the code:

- The reference of a monitored custom resource is `entry.split(expression)[0]`, the text before the first occurrence of the JSONPath expression (`docker/status_provisioner.py:65`). It is not the re-joined first four tokens.
  - The two agree whenever the expression does not occur inside `group version plural name` (`StatusProvisioner.ParseCustomResourceCheckRoundTrip`).
  - Otherwise the cut falls earlier. For example, a plural `statuses` with the expression `status` leaves only `group version`. The entry is then rejected although its four tokens name a custom resource (`StatusProvisioner.ExpressionInsideReferenceRejected`).
- The expression is applied to the whole custom object that `get_custom_resource` returns, not only to its status document.

## Model

| member | source | states |
|---|---|---|
| `Strings.TrimStart` | docker/libraries.py:30 | `lstrip()` removes only leading whitespace and leaves a suffix that does not start with whitespace |
| `Strings.TrimEnd` | docker/libraries.py:30 | `rstrip()` removes only trailing whitespace and leaves a prefix that does not end with whitespace |
| `Strings.Split` | docker/libraries.py:30 | every piece `split()` returns is a non-empty token without whitespace |
| `Strings.SplitAllSpace` | docker/libraries.py:30 | text made only of whitespace has no pieces |
| `Strings.SplitToken` | docker/libraries.py:30 | a token is its own only piece |
| `Strings.SplitConcat` | docker/libraries.py:30 | text cut at a whitespace character splits into the pieces of its two parts; with the two lemmas above this fixes the pieces of every text as its maximal non-whitespace runs, in order |
| `Strings.Strip` | docker/libraries.py:30 | `strip()`: `TrimEnd` after `TrimStart`; `StripUntrimmed` and `StripJoinTokens` state which texts it leaves unchanged |
| `Strings.Join` | docker/status_provisioner.py:149 | `sep.join(words)`; `JoinSplitOnRoundTrip`, `SplitJoinRoundTrip`, `JoinAppend` and `JoinContains` state its properties |
| `Strings.Lower` | docker/status_provisioner.py:40 | `lower()` on ASCII letters; the length is kept |
| `Strings.IntToString` | docker/status_provisioner.py:68 | `str(int)` for the timeouts in the time-out messages, a `-` then the digits for a negative number |
| `Strings.SplitJoinRoundTrip` | docker/libraries.py:30 | splitting tokens joined by single spaces gives exactly those tokens back |
| `Strings.SplitOn` | docker/status_provisioner.py:33 | `split(',')` returns at least one piece, and no piece holds the separator |
| `Strings.JoinSplitOnRoundTrip` | docker/status_provisioner.py:33 | re-joining the pieces of `split(sep)` with `sep` gives the original text |
| `Strings.IndexOfFrom` | docker/status_provisioner.py:65 | finds the first occurrence of the separator at or after a position, or reports that there is none |
| `Strings.BeforeFirst` | docker/status_provisioner.py:65 | `resource.split(expression)[0]`: the text before the first occurrence of the expression, or the whole text when it does not occur; `BeforeFirstAt` and `BeforeFirstAfterSpace` pin it down |
| `Strings.BeforeFirstAt` | docker/status_provisioner.py:65 | `s.split(sep)[0]` is the text before the first occurrence of `sep` |
| `Strings.BeforeFirstAfterSpace` | docker/status_provisioner.py:65 | an entry `prefix word rest` whose token `word` does not occur in `prefix` is cut to `prefix` followed by the space |
| `Libraries.ParseCustomResource` | docker/libraries.py:29-37 | succeeds exactly when the stripped description has four tokens, which become group, version, plural and name in order; otherwise raises with the description as received |
| `Libraries.ParsedCustomResourceValid` | docker/libraries.py:30-37 | every part of a parsed reference is a whitespace-free, non-empty token |
| `Libraries.ParseCustomResourceRoundTrip` | docker/libraries.py:29-37 | four tokens joined by spaces parse back to the same reference |
| `Libraries.ParseCustomResourceTrailingSpace` | docker/libraries.py:30 | a trailing space before parsing does not change the reference |
| `Libraries.CustomResource.ToString` | docker/libraries.py:39-40 | `__str__`, `group/version plural name`; `ToStringTokens` states its tokens |
| `Libraries.ToStringTokens` | docker/libraries.py:39-40 | the display form `group/version plural name` has three tokens, so parsing it again raises |
| `Libraries.ReadinessByCounters` | docker/libraries.py:88-105 | the readiness predicates compare counters that may be absent (`None`): daemon set desired = ready = updated, replicas = ready = updated, job succeeded = 1 |
| `Libraries.IsDaemonSetReady` | docker/libraries.py:88-91 | a daemon set is ready when desired, ready and updated counters are equal (`ReadinessByCounters` spells out the `None` cases) |
| `Libraries.AreReplicasReady` | docker/libraries.py:93-105 | a deployment or stateful set is ready when replicas, ready and updated counters are equal |
| `Libraries.IsJobSucceeded` | docker/libraries.py:98-100 | a job is done when its succeeded counter is exactly 1 |
| `Libraries.IsResourceReady` | docker/libraries.py:76-86 | raises "not supported" exactly for a kind other than the four; raises "not found" exactly when the named workload of a supported kind is missing |
| `Libraries.IsResourceReadyDispatch` | docker/libraries.py:76-105 | a workload that exists is judged only by the predicate of its kind |
| `Libraries.ConditionFactory.GetCondition` | docker/libraries.py:194-201 | all five keys are set; status is "True" exactly when the type is the successful type, else "False"; reason, type, message and timestamp are the ones given |
| `Libraries.FirstMatch` | docker/libraries.py:117-119 | the index found matches and no earlier condition matches; no index means no condition matches |
| `Libraries.FirstMatchAt` | docker/libraries.py:136-141 | a matching condition with no matching one before it is the one the scan stops at |
| `Libraries.Matches` | docker/libraries.py:136-141 | the three matching rules of the scans: `reason` equal to the key (the lookup, line 118); `reason` equal to the key, or no `reason` and `message` equal to it (the list form, lines 137-138); `message` equal to the key (the field form, line 171); `MatchesOneKey`, `FirstMatch` and `UpsertReplacesFirstMatch` state what the scans make of it |
| `Libraries.Upsert` | docker/libraries.py:136-143 | replace the first matching condition, or append; `UpsertReplacesFirstMatch`, `UpsertAppends`, `UpsertOverwrites`, `UpsertCounts` and `UpsertKeepsKeysUnique` state what it does |
| `Libraries.UpsertReplacesFirstMatch` | docker/libraries.py:136-141 | with a match, only the first matching position is replaced by the new condition, and the length is kept |
| `Libraries.UpsertAppends` | docker/libraries.py:142-143 | without a match, the new condition is appended and every other condition is kept in order |
| `Libraries.UpsertOverwrites` | docker/libraries.py:136-143 | a second upsert under the same key lands where the first did and leaves no trace of it, so upserting is idempotent |
| `Libraries.MatchesOneKey` | docker/libraries.py:137-138 | a stored condition matches at most one key under each matching rule |
| `Libraries.UpsertCounts` | docker/libraries.py:136-143 | upserting leaves the number of matches for every other key unchanged; for its own key the count becomes one when it was zero and is kept otherwise |
| `Libraries.UpsertKeepsKeysUnique` | docker/libraries.py:136-143 | if no key matched two conditions before, none does after, and the key matches exactly one |
| `Libraries.StatusConditionLookup` | docker/libraries.py:111-120 | raises exactly when the resource or its status is missing; a condition that is found carries the requested reason |
| `Libraries.StatusConditionLookupFindsFirst` | docker/libraries.py:115-120 | finds nothing exactly when no stored condition has the reason; otherwise finds the first one that has it |
| `Libraries.GetCustomResourceStatusCondition` | docker/libraries.py:111-120 | the scanning loop returns what the lookup specifies |
| `Libraries.AsComponentCondition` | docker/libraries.py:165-169 | the component condition keeps type and status, carries the reason as its message, and has no reason and no timestamp |
| `Libraries.ListFormStatus` | docker/libraries.py:128-145 | the status the list form writes back; `PublishIntoEmpty`, `PublishKeepsOrDropsOtherFields` and `PublishOverwrites` state what it does |
| `Libraries.FieldFormStatus` | docker/libraries.py:159-179 | the status the field form writes back, conditions only; the same three lemmas state what it does |
| `Libraries.PublishIntoEmpty` | docker/libraries.py:128-143 | a target without a status, or without conditions, receives exactly the one new condition (in either form) |
| `Libraries.PublishKeepsOrDropsOtherFields` | docker/libraries.py:145-179 | the list form keeps the status's other keys; the field form replaces the status with conditions only |
| `Libraries.PublishOverwrites` | docker/libraries.py:136-176 | publishing a second condition with the same reason, in either form, leaves the status as if only the second had been published |
| `Libraries.StatusTarget.UpdateCustomResourceStatusCondition` | docker/libraries.py:122-151 | a missing target raises "not found" and nothing is written. Otherwise the new status is the old one, with a missing status or condition list read as empty, and with the new condition upserted. It replaces the first stored condition that has its reason, or that has no reason and a message equal to it; otherwise it is appended. All other keys of the status are kept |
| `Libraries.StatusTarget.UpdateCustomResourceStatusAsField` | docker/libraries.py:153-185 | a missing target raises "not found" and nothing is written. Otherwise the new status holds only the conditions, with the component condition upserted by message |
| `Polling.Poll` | docker/status_provisioner.py:42-48 | the outcome shared by the three loops (also lines 70-82 and 96-104); the lemmas below characterise it |
| `Polling.Attempts` | docker/status_provisioner.py:42-48 | the number of checks a loop makes; `PollRun`, `PollStopsAtFirstDecision`, `PollTimesOut` and `AttemptsWithinTimeout` bound it |
| `Polling.PollRetry` | docker/status_provisioner.py:44-48 | a check that retries before the deadline passes the rest of the run to the next loop test, with one more check counted |
| `Polling.PollRun` | docker/status_provisioner.py:44-48 | every check the loop makes comes before the deadline, and all but the last one retry; the loop stops after a decision or once the deadline has passed; its outcome is the last check's decision, else the time-out message |
| `Polling.PollStopsAtFirstDecision` | docker/status_provisioner.py:44-48 | the first decision before the deadline is the outcome, after exactly that many checks |
| `Polling.PollDecidesIff` | docker/status_provisioner.py:44-48 | the loop ends with a decided outcome exactly when some check before the deadline took that decision and every earlier check retried |
| `Polling.PollTimesOut` | docker/status_provisioner.py:43-48 | with no decision before the deadline, the outcome is the initial time-out message, after one check per loop test that passed |
| `Polling.PollIgnoresLaterTicks` | docker/status_provisioner.py:44-48 | once the loop has left, later observations change neither its outcome nor its number of checks |
| `Polling.AttemptsWithinTimeout` | docker/status_provisioner.py:42-48 | with a clock that advances by at least the 5-second sleep per retry, there is at most one check per 5 seconds of timeout, and none when the timeout is not positive |
| `StatusProvisioner.CollectStatusesInOrder` | docker/status_provisioner.py:34-50 | a list walk succeeds exactly when every entry does; it then holds one status per entry in input order; otherwise it raises the first entry's error |
| `StatusProvisioner.CollectStatuses` | docker/status_provisioner.py:32-50 | the list walk shared by both loops over entries (also lines 55-84): the statuses in order, or the first error; `CollectStatusesInOrder` pins it down |
| `StatusProvisioner.Entries` | docker/status_provisioner.py:33 | the entries of a list variable, also at line 56; `EntriesOfList` states what they are |
| `StatusProvisioner.EntriesOfList` | docker/status_provisioner.py:33 | an unset or empty list has no entries; a non-empty one is exactly its entries joined by commas, and no entry holds a comma |
| `StatusProvisioner.ParseMonitoredResource` | docker/status_provisioner.py:35-41 | succeeds exactly when the stripped entry has two tokens: the kind, lower-cased, then the name; otherwise raises with the stripped entry |
| `StatusProvisioner.ParseMonitoredResourceRoundTrip` | docker/status_provisioner.py:35-41 | `kind name` parses to the lower-cased kind and the name |
| `StatusProvisioner.NotReadyMessage` | docker/status_provisioner.py:43 | the initial value of the readiness loop, `[name] component is not ready.`; `NotReadyMessageNotEmpty` states it is never the empty ready status |
| `StatusProvisioner.NotReadyMessageNotEmpty` | docker/status_provisioner.py:43 | the not-ready message is never empty, so a workload that times out never reads as ready |
| `StatusProvisioner.ReadinessOutcome` | docker/status_provisioner.py:42-49 | the status one workload contributes: the poll outcome of the readiness checks under the deadline `start + timeout`, with the not-ready message on time-out; `ReadyAt`, `ReadyWitness`, `ReadyIffReadyWithinTimeout`, `UnsupportedKindRaisesOnFirstCheck` and `ReadinessChecksBounded` pin it down, and `WaitForResource` is proved equal to it |
| `StatusProvisioner.WaitForResource` | docker/status_provisioner.py:42-49 | the readiness loop returns the poll outcome: "" once ready, the not-ready message on time-out, or the readiness check's error |
| `StatusProvisioner.ReadinessStep` | docker/status_provisioner.py:44-48 | one round of the readiness loop; `ReadinessStepCases` states its three outcomes |
| `StatusProvisioner.ReadinessStepCases` | docker/status_provisioner.py:45-47 | a check retries exactly when the workload is not ready, stops with "" exactly when it is ready, and raises exactly when the readiness check raises |
| `StatusProvisioner.ReadyAt` | docker/status_provisioner.py:44-47 | a check before the deadline that finds the workload ready, after checks that all found it not ready, makes the resource report "" |
| `StatusProvisioner.ReadyWitness` | docker/status_provisioner.py:44-47 | a resource that reports "" was found ready by a check before the deadline, and every earlier check found it not ready |
| `StatusProvisioner.ReadyIffReadyWithinTimeout` | docker/status_provisioner.py:42-49 | a resource reports "" exactly when some check before the deadline found it ready and every earlier check found it not ready |
| `StatusProvisioner.UnsupportedKindRaisesOnFirstCheck` | docker/status_provisioner.py:43-45 | an unsupported kind raises at the first check, and only if a check happens; otherwise the resource is reported not ready |
| `StatusProvisioner.ReadinessChecksBounded` | docker/status_provisioner.py:42-48 | at most one readiness check per 5 seconds of timeout; a timeout that is not positive gives the not-ready message without any check |
| `StatusProvisioner.ResourceStatus` | docker/status_provisioner.py:34-49 | the status one monitored-resource entry contributes: the parse error, or the readiness outcome of the parsed kind and name; `ResourcesStatusesInOrder` states how the list uses it |
| `StatusProvisioner.ResourcesStatuses` | docker/status_provisioner.py:33-50 | `CollectStatuses` over the entries' `ResourceStatus` values; `ResourcesStatusesInOrder` states it, and `GetResourcesStatuses` is proved equal to it |
| `StatusProvisioner.ResourcesStatusesInOrder` | docker/status_provisioner.py:30-50 | the monitored resources succeed exactly when each entry does, and then give one status per entry, in order |
| `StatusProvisioner.GetResourcesStatuses` | docker/status_provisioner.py:30-50 | the list walk returns the statuses of all entries in order, or the first error |
| `StatusProvisioner.ParseCustomResourceCheck` | docker/status_provisioner.py:58-65 | six or seven tokens are required, else it raises with the stripped entry; the expression and the success and failure markers are tokens 4, 5 and 6; the reference is the parse of the text before the expression's first occurrence, and the entry parses exactly when that text does |
| `StatusProvisioner.ParseCustomResourceCheckRoundTrip` | docker/status_provisioner.py:58-65 | an entry written out with single spaces parses back to its check, provided the expression does not occur in the reference text before it |
| `StatusProvisioner.ExpressionInsideReferenceRejected` | docker/status_provisioner.py:65 | when the plural begins with the expression, the entry has six tokens and its first four name a valid reference, yet parsing raises because the cut leaves only `group version` |
| `StatusProvisioner.CustomResourceStep` | docker/status_provisioner.py:72-82 | one round of the custom-resource loop; `CustomResourceStepByLastMatch` and `CheckCustomResource` state its outcomes |
| `StatusProvisioner.CustomResourceStepByLastMatch` | docker/status_provisioner.py:73-81 | only the last JSONPath match counts, and success is compared first. A last match equal to a set failure marker, and not to the success marker, reports the failed-state message. No match, or a value equal to neither marker, retries |
| `StatusProvisioner.CustomResourceStepSucceedsIff` | docker/status_provisioner.py:72-82 | a check stops with "" exactly when the object exists and the last JSONPath match is the success marker |
| `StatusProvisioner.CheckCustomResource` | docker/status_provisioner.py:72-81 | one check of a custom resource has four outcomes:<br>• a missing object raises "not found";<br>• a last match equal to the success marker gives "";<br>• a last match equal to a set failure marker, and not to the success marker, gives the failed-state message;<br>• otherwise, including no match, it retries |
| `StatusProvisioner.WaitForCustomResource` | docker/status_provisioner.py:68-83 | the custom-resource loop returns the poll outcome: "" on the success marker, the failure message on the failure marker, the time-out message otherwise, or "not found" |
| `StatusProvisioner.CustomResourceTimeoutMessage` | docker/status_provisioner.py:68 | the initial value of the custom-resource loop, `[reference] custom resource does not have successful condition after N seconds.`; `TimeoutMessageNotEmpty` states it is never empty |
| `StatusProvisioner.TimeoutMessageNotEmpty` | docker/status_provisioner.py:68 | the custom-resource time-out message is never empty, so a time-out never reads as success |
| `StatusProvisioner.CustomResourceFailedMessage` | docker/status_provisioner.py:79-80 | the failed-state message, `Processing status of [reference] custom resource is X. For more details, check custom resource status.`; `FailedMessageNotEmpty` states it is never empty |
| `StatusProvisioner.FailedMessageNotEmpty` | docker/status_provisioner.py:79-80 | the failed-state message is never empty, so a failure marker never reads as success |
| `StatusProvisioner.CustomResourceOutcome` | docker/status_provisioner.py:68-83 | the status one custom resource contributes: the poll outcome of its checks under the deadline `start + timeout`, with the time-out message on time-out; `CustomResourceSucceedsAt`, `CustomResourceFailsAt`, `CustomResourceSuccessWitness` and `CustomResourceSucceedsIff` pin it down, and `WaitForCustomResource` is proved equal to it |
| `StatusProvisioner.CustomResourceSucceedsAt` | docker/status_provisioner.py:71-77 | a check before the deadline whose last match is the success marker, after checks that all retried, makes the resource report "" |
| `StatusProvisioner.CustomResourceFailsAt` | docker/status_provisioner.py:71-81 | a check before the deadline whose last match is the failure marker, and not the success marker, after checks that all retried, makes the resource report the "Processing status of [...] custom resource is X" message |
| `StatusProvisioner.CustomResourceSuccessWitness` | docker/status_provisioner.py:71-77 | a custom resource that reports "" had a check before the deadline that stopped with "", and every earlier check retried; by `CustomResourceStepSucceedsIff` that check found the object with the success marker as its last match |
| `StatusProvisioner.CustomResourceSucceedsIff` | docker/status_provisioner.py:68-83 | a custom resource reports "" exactly when a check before the deadline stopped with "", after checks that all retried; `CustomResourceStepSucceedsIff` states that such a check is one that found the object with the success marker as its last match |
| `StatusProvisioner.CustomResourceStatus` | docker/status_provisioner.py:57-83 | the status one custom-resource entry contributes: the parse error, or the outcome of the parsed check; `CustomResourcesStatusesInOrder` states how the list uses it |
| `StatusProvisioner.CustomResourcesStatuses` | docker/status_provisioner.py:56-84 | `CollectStatuses` over the entries' `CustomResourceStatus` values; `CustomResourcesStatusesInOrder` states it, and `GetCustomResourcesStatuses` is proved equal to it |
| `StatusProvisioner.CustomResourcesStatusesInOrder` | docker/status_provisioner.py:53-84 | the monitored custom resources succeed exactly when each entry does, and then give one status per entry, in order |
| `StatusProvisioner.GetCustomResourcesStatuses` | docker/status_provisioner.py:53-84 | the list walk returns the statuses of all entries in order, or the first error |
| `StatusProvisioner.GetIntegrationTestsStatus` | docker/status_provisioner.py:87-104 | raises when the description does not parse as a reference, else returns the integration-tests poll outcome |
| `StatusProvisioner.WaitForIntegrationTests` | docker/status_provisioner.py:96-104 | the loop returns the poll outcome: the first condition that is present and not "In Progress" decides; otherwise the time-out message, or the lookup's error |
| `StatusProvisioner.IntegrationTestsTimeoutMessage` | docker/status_provisioner.py:104 | the status when the tests have not finished in time, `Integration tests have not completed in N seconds.`; `IntegrationTestsTimeoutMessageNotEmpty` states it is never empty |
| `StatusProvisioner.IntegrationTestsTimeoutMessageNotEmpty` | docker/status_provisioner.py:104 | the integration-tests time-out message is never empty, so a time-out is reported as a failure |
| `StatusProvisioner.IntegrationTestsPoll` | docker/status_provisioner.py:96-104 | the poll outcome of the integration-tests checks under the deadline `start + timeout`, with the time-out message on time-out; `IntegrationTestsDecidedByFirstFinishedCondition` pins it down, and `WaitForIntegrationTests` is proved equal to it |
| `StatusProvisioner.IntegrationTestsOutcome` | docker/status_provisioner.py:94-104 | the status the integration tests contribute: the parse error of the description, raised before any check, or the poll outcome; `GetIntegrationTestsStatus` is proved equal to it |
| `StatusProvisioner.IntegrationTestsStep` | docker/status_provisioner.py:97-103 | one round of the integration-tests loop: absent or "In Progress" retries, anything else decides; `IntegrationTestsDecidedByFirstFinishedCondition` states the outcome |
| `StatusProvisioner.IntegrationTestsDecidedByFirstFinishedCondition` | docker/status_provisioner.py:97-102 | when the first finished condition is found before the deadline, the status is "" for the successful type, else that condition's (possibly absent) message |
| `StatusProvisioner.FilterTruthy` | docker/status_provisioner.py:146 | `filter(None, …)` keeps no empty message, keeps every truthy status, adds nothing that was not received, and is no longer than its input; it is empty exactly when no status is truthy |
| `StatusProvisioner.FilterTruthyAppend` | docker/status_provisioner.py:133-146 | filtering a concatenation is the concatenation of the filtered parts |
| `StatusProvisioner.Aggregate` | docker/status_provisioner.py:146-149 | with a truthy status, the final condition is the failed type with the truthy statuses joined by spaces; otherwise it is the successful type with the success message, extended when integration tests are configured |
| `StatusProvisioner.AggregateNamesEveryFailure` | docker/status_provisioner.py:146-149 | a failed final condition names every truthy status in its message |
| `StatusProvisioner.FailuresInOrder` | docker/status_provisioner.py:133-146 | failures are reported in this order: resources, then custom resources, then integration tests |
| `StatusProvisioner.ProvisionPublishesAggregate` | docker/status_provisioner.py:124-154 | a completed run publishes the aggregate condition with the configured reason. It replaces the "In Progress" condition in place, leaving the target as if only the final condition had been published. The condition is failed, naming the failures, exactly when some status is truthy; otherwise it is successful with status "True" |
| `StatusProvisioner.Provision` | docker/status_provisioner.py:107-154 | the entry point's outcome and the target's new status are those of `ProvisionRun`:<br>• nothing happens without something to monitor, a namespace and a target;<br>• an unparsable target description raises;<br>• a missing target raises at the first publish and is left untouched;<br>• an error after the first publish leaves the "In Progress" condition;<br>• otherwise the final condition is published |
| `StatusProvisioner.ProvisionRun` | docker/status_provisioner.py:107-154 | the run as the entry point performs it: parse the target, publish "In Progress", collect the three kinds of statuses, publish the aggregate; `ProvisionPublishesAggregate`, `MissingTargetAbortsBeforePolling` and `DefaultsReportFailureAsFalse` state what it does |
| `StatusProvisioner.MissingTargetAbortsBeforePolling` | docker/status_provisioner.py:124-130 | when the target does not exist, the run raises "not found" at the first publish; no observation is used and the target's status is unchanged |
| `StatusProvisioner.DefaultsApplied` | docker/status_provisioner.py:111-117 | the configuration with every optional variable unset (these lines, the timeouts at lines 31 and 54, and lines 88-92): timeouts 300, reason `ServiceReadinessStatus`, condition types `Successful` and `Failed`, integration tests reason `IntegrationTestsExecutionStatus` with type `Ready`, list form |
| `StatusProvisioner.DefaultsReportFailureAsFalse` | docker/status_provisioner.py:115-154 | under the defaults a completed run publishes in list form under the default reason, and the condition's status is "False" exactly when some status is truthy |
| `StatusProvisioner.IsTruthy` | docker/status_provisioner.py:146 | Python truthiness of a collected status: neither `None` nor empty; `FilterTruthy`, `Aggregate` and `AggregateNamesEveryFailure` state how the filter and aggregation use it |
| `StatusProvisioner.SuccessMessage` | docker/status_provisioner.py:141 | `All components are in ready status.`, with ` Integration tests are successfully completed.` appended when integration tests are configured (the message is set at line 122); `Aggregate` states when it is published |
| `StatusProvisioner.ShouldRun` | docker/status_provisioner.py:114 | something to monitor, a namespace and a target are all set; `SkippedIffNotConfigured` states the run does nothing exactly without them |
| `StatusProvisioner.SkippedIffNotConfigured` | docker/status_provisioner.py:114 | the run is skipped exactly when nothing is monitored, or the namespace or target is unset, and a skipped run leaves the target's status as it was |
| `StatusProvisioner.CollectedStatuses` | docker/status_provisioner.py:133-143 | the received list: the resources' statuses, then the custom resources', then the integration tests' when configured, or the first error; `CollectedStatusesSucceedIff` and `CollectedStatusesInOrder` pin it down |
| `StatusProvisioner.CollectedStatusesSucceedIff` | docker/status_provisioner.py:133-143 | collecting succeeds exactly when every monitored resource and custom resource succeeds and, when configured, the integration tests do |
| `StatusProvisioner.CollectedStatusesInOrder` | docker/status_provisioner.py:133-143 | a successful collection holds each resource's status at its entry's place, then each custom resource's, then the integration tests' outcome when configured, and nothing else |
| `StatusProvisioner.PublishedStatus` | docker/status_provisioner.py:151-154 | the target's status after a publish: the field form when status-as-field is set, else the list form (also lines 127-130); `ProvisionPublishesAggregate` states what the final publish leaves |

## Left out

- Kubernetes client construction, in-cluster or kubeconfig loading, and the TLS-warning switch (`docker/libraries.py:43-68`): the model has no network.
- `delete_job` (`docker/libraries.py:73-74`): the modelled core never calls it.
- The cluster reads of the polling loops: they are reads of a `Cluster` snapshot.
  - A missing monitored object raises `NotFound`.
  - Other API failures (HTTP errors, timeouts, permission errors) are not modelled, for these reads or for the target.
- `get_custom_resource` (`docker/libraries.py:107-109`): it is the `customObjects` map of the snapshot.
- `patch_namespaced_custom_object[_status]`: the status sent becomes the stored status. Server-side merge-patch semantics are not modelled.
- The monitored objects and the target are read independently: the polling loops never observe the provisioner's own "In Progress" write.
- `Libraries.StatusTarget`: no other writer changes the target, and the target does not appear or vanish during a run, because the model has no concurrency. Each update's read, change and write-back is one step.
- `StatusProvisioner.ProvisionPublishesAggregate`: "as if only the final condition had been published" relies on that single-writer assumption.
- `time.time()` and `time.sleep(5)`: they are the clock readings of a `Schedule`, as integers.
  - Fractional seconds are not modelled.
  - The number of readings bounds each loop (fuel). A loop that exhausts them is treated as timed out.
- `jsonpath_ng` parsing and evaluation are the `find` parameter. An expression that fails to parse (an exception in the source) is not modelled.
- `os.getenv` and `int(...)`: the values are fields of `Config`.
  - A non-numeric timeout, which raises in the source, is not modelled.
  - `TREAT_STATUS_AS_FIELD` is a `bool` that stands for "set to any non-empty text". Python treats even `"false"` as true.
- `datetime.utcnow().isoformat()[:-3] + 'Z'`: the formatted timestamps are given as text.
- `print` output.
- Exception message texts: each `Error` carries the offending text or name, not the full sentence.
- `Strings.Lower`: models `str.lower()` for ASCII letters only, because Unicode case mapping has no counterpart here.
- `Libraries.StatusTarget.UpdateCustomResourceStatusAsField`: does not model the error for a stored status whose `conditions` key holds `null` (the source then iterates over `None` and raises). Such a status reads as having no conditions.
- `Libraries.StatusTarget.UpdateCustomResourceStatusAsField`: requires the type, status and reason keys. Their absence raises `KeyError` in the source, which the model leaves out because `get_condition` always writes them.
- `Libraries.StatusTarget.UpdateCustomResourceStatusCondition`: requires the reason key, for the same reason.
- `Libraries.StatusTarget.UpdateCustomResourceStatusAsField`: the kubernetes client's `V1ComponentCondition`/`V1ComponentStatus` objects are plain `Condition`/`Status` values.
- The three loop methods return no count of checks, because the source keeps none. `Polling.Attempts` is the specification-level count that the bound lemmas speak about.
