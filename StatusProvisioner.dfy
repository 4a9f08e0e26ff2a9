/**
 * The provisioner's run: parse the monitored resources and custom resources,
 * poll each until it is ready, decided or out of time, poll the integration
 * tests, and publish one aggregate condition on the target resource.
 *
 * Environment variables are fields of `Config`, holding the value after
 * defaults are applied.  The clock and the cluster are
 * given per loop as a `Schedule` of observations; JSONPath evaluation is the
 * `find` function of `Observations`.
 */
module StatusProvisioner {
  import opened Wrappers
  import opened Strings
  import opened Libraries
  import opened Polling

  /** One polling loop's view of time and cluster: the clock at its start, and each evaluation of its loop test. */
  datatype Schedule = Schedule(start: int, ticks: seq<Tick<Cluster>>)

  /** The statuses gathered so far, in front of the ones that follow, or the error that ends the list. */
  function Prepend<T>(prefix: seq<T>, rest: Result<seq<T>, Error>): Result<seq<T>, Error> {
    match rest
    case Ok(ts) => Ok(prefix + ts)
    case Err(e) => Err(e)
  }

  lemma {:induction false} PrependNothing<T>(rest: Result<seq<T>, Error>)
    ensures Prepend([], rest) == rest
  {
    match rest
    case Ok(ts) => assert [] + ts == ts;
    case Err(_) =>
  }

  lemma {:induction false} PrependTwice<T>(a: seq<T>, b: seq<T>, rest: Result<seq<T>, Error>)
    ensures Prepend(a, Prepend(b, rest)) == Prepend(a + b, rest)
  {
    match rest
    case Ok(ts) => assert a + (b + ts) == (a + b) + ts;
    case Err(_) =>
  }

  /** The statuses of a list's entries, in order; the first error ends the list. */
  function CollectStatuses(outcomes: seq<Result<string, Error>>): Result<seq<string>, Error> {
    if |outcomes| == 0 then Ok([])
    else match outcomes[0]
      case Err(e) => Err(e)
      case Ok(message) => Prepend([message], CollectStatuses(outcomes[1..]))
  }

  /** The list succeeds exactly when every entry does, and then holds every entry's status in input order. */
  lemma {:induction false} CollectStatusesInOrder(outcomes: seq<Result<string, Error>>)
    ensures CollectStatuses(outcomes).Ok? <==> forall i :: 0 <= i < |outcomes| ==> outcomes[i].Ok?
    ensures var r := CollectStatuses(outcomes);
      r.Ok? ==> |r.value| == |outcomes| && forall i :: 0 <= i < |outcomes| ==> outcomes[i] == Ok(r.value[i])
    ensures var r := CollectStatuses(outcomes);
      r.Err? ==> exists k :: 0 <= k < |outcomes| && outcomes[k] == Err(r.error)
                            && forall i :: 0 <= i < k ==> outcomes[i].Ok?
  {
    if |outcomes| > 0 {
      CollectStatusesInOrder(outcomes[1..]);
      assert forall i :: 1 <= i < |outcomes| ==> outcomes[1..][i - 1] == outcomes[i];
      var r := CollectStatuses(outcomes);
      if r.Err? && outcomes[0].Ok? {
        var k :| 0 <= k < |outcomes[1..]| && outcomes[1..][k] == Err(r.error)
                 && forall i :: 0 <= i < k ==> outcomes[1..][i].Ok?;
        assert outcomes[k + 1] == Err(r.error);
        assert forall i :: 0 <= i < k + 1 ==> outcomes[i].Ok? by {
          forall i | 0 <= i < k + 1 ensures outcomes[i].Ok? {
            if i > 0 { assert outcomes[i] == outcomes[1..][i - 1]; }
          }
        }
      }
    }
  }

  /** The loop that walks a list keeps the statuses gathered so far in front of the rest. */
  lemma {:induction false} CollectStatusesStep(outcomes: seq<Result<string, Error>>, collected: seq<string>, i: nat, message: string)
    requires i < |outcomes| && outcomes[i] == Ok(message)
    ensures Prepend(collected, CollectStatuses(outcomes[i..]))
            == Prepend(collected + [message], CollectStatuses(outcomes[i + 1..]))
  {
    assert outcomes[i..][0] == outcomes[i] && outcomes[i..][1..] == outcomes[i + 1..];
    PrependTwice(collected, [message], CollectStatuses(outcomes[i + 1..]));
  }

  /** The entries of a comma-separated list variable; an unset or empty one has none. */
  function Entries(list: string): seq<string> {
    if list == "" then [] else SplitOn(list, ',')
  }

  /** A non-empty list is exactly its entries joined by commas, and no entry holds a comma. */
  lemma {:induction false} EntriesOfList(list: string)
    ensures Entries(list) == [] <==> list == ""
    ensures list != "" ==> Join(Entries(list), ",") == list
    ensures forall i, j :: 0 <= i < |Entries(list)| && 0 <= j < |Entries(list)[i]| ==> Entries(list)[i][j] != ','
  {
    if list != "" {
      JoinSplitOnRoundTrip(list, ',');
    }
  }

  // ---------------------------------------------------------------------------
  // Monitored resources

  /** One entry of the monitored-resources list: a lower-cased kind and a name. */
  datatype MonitoredResource = MonitoredResource(kind: string, name: string)

  /** An entry must have exactly two tokens once stripped: the kind, lower-cased, then the name. */
  function ParseMonitoredResource(entry: string): (r: Result<MonitoredResource, Error>)
    ensures r.Ok? <==> |Split(Strip(entry))| == 2
    ensures r.Err? ==> r.error == MalformedResource(Strip(entry))
    ensures r.Ok? ==> r.value.kind == Lower(Split(Strip(entry))[0]) && r.value.name == Split(Strip(entry))[1]
  {
    var resource := Strip(entry);
    var parts := Split(resource);
    if |parts| != 2 then Err(MalformedResource(resource))
    else Ok(MonitoredResource(Lower(parts[0]), parts[1]))
  }

  /** `kind name` parses back to the kind lower-cased and the name. */
  lemma {:induction false} ParseMonitoredResourceRoundTrip(kind: string, name: string)
    requires IsToken(kind) && IsToken(name)
    ensures ParseMonitoredResource(kind + " " + name) == Ok(MonitoredResource(Lower(kind), name))
  {
    assert [kind, name][1..] == [name];
    assert Join([kind, name], " ") == kind + " " + name;
    SplitStripJoin([kind, name]);
  }

  function NotReadyMessage(name: string): string {
    "[" + name + "] component is not ready."
  }

  /** The not-ready message is never the empty status that means ready. */
  lemma NotReadyMessageNotEmpty(name: string)
    ensures NotReadyMessage(name) != ""
  {
    assert NotReadyMessage(name)[0] == '[';
  }

  /** One readiness check: an error ends the run, a ready workload ends the loop, anything else retries. */
  function ReadinessStep(kind: string, name: string, cluster: Cluster): Step<Result<string, Error>> {
    match IsResourceReady(kind, name, cluster)
    case Err(e) => Stop(Err(e))
    case Ok(ready) => if ready then Stop(Ok("")) else Retry
  }

  /** What the readiness loop makes of each observation of the cluster. */
  function ReadinessProbe(kind: string, name: string): Cluster -> Step<Result<string, Error>> {
    cluster => ReadinessStep(kind, name, cluster)
  }

  /** The status one resource contributes: empty when ready in time, else the not-ready message. */
  function ReadinessOutcome(kind: string, name: string, timeout: int, schedule: Schedule): Result<string, Error> {
    Poll(schedule.start + timeout, schedule.ticks, ReadinessProbe(kind, name), Ok(NotReadyMessage(name)))
  }

  /** The readiness loop of `get_resources_statuses`, for one resource. */
  method WaitForResource(kind: string, name: string, timeout: int, schedule: Schedule)
    returns (message: Result<string, Error>)
    ensures message == ReadinessOutcome(kind, name, timeout, schedule)
  {
    var startTime := schedule.start;
    ghost var deadline := startTime + timeout;
    ghost var probe := ReadinessProbe(kind, name);
    ghost var timedOut: Result<string, Error> := Ok(NotReadyMessage(name));
    message := Ok(NotReadyMessage(name));
    var k := 0;
    while k < |schedule.ticks| && startTime + timeout > schedule.ticks[k].now
      invariant 0 <= k <= |schedule.ticks| && message == timedOut
      invariant Poll(deadline, schedule.ticks, probe, timedOut) == Poll(deadline, schedule.ticks[k..], probe, timedOut)
    {
      assert schedule.ticks[k..][0] == schedule.ticks[k];
      assert probe(schedule.ticks[k].observed) == ReadinessStep(kind, name, schedule.ticks[k].observed);
      var ready := IsResourceReady(kind, name, schedule.ticks[k].observed);
      if ready.Err? {
        message := Err(ready.error);
        return;
      }
      if ready.value {
        message := Ok("");
        break;
      }
      PollRetry(deadline, schedule.ticks, probe, timedOut, k);
      k := k + 1;
    }
  }

  /** A check retries exactly on a workload that is not ready, and stops the loop with "" exactly on a ready one. */
  lemma {:induction false} ReadinessStepCases(kind: string, name: string, cluster: Cluster)
    ensures ReadinessStep(kind, name, cluster) == Retry <==> IsResourceReady(kind, name, cluster) == Ok(false)
    ensures ReadinessStep(kind, name, cluster) == Stop(Ok("")) <==> IsResourceReady(kind, name, cluster) == Ok(true)
    ensures ReadinessStep(kind, name, cluster).Stop? && ReadinessStep(kind, name, cluster).outcome.Err?
            <==> IsResourceReady(kind, name, cluster).Err?
  {
  }

  /** A check before the deadline that finds the workload ready, after checks that all found it not ready, makes it report "". */
  lemma {:induction false} ReadyAt(kind: string, name: string, timeout: int, schedule: Schedule, j: nat)
    requires j < |schedule.ticks|
    requires forall i :: 0 <= i <= j ==> schedule.ticks[i].now < schedule.start + timeout
    requires forall i :: 0 <= i < j ==> IsResourceReady(kind, name, schedule.ticks[i].observed) == Ok(false)
    requires IsResourceReady(kind, name, schedule.ticks[j].observed) == Ok(true)
    ensures ReadinessOutcome(kind, name, timeout, schedule) == Ok("")
  {
    var ticks := schedule.ticks;
    var probe := ReadinessProbe(kind, name);
    forall i | 0 <= i < j ensures probe(ticks[i].observed).Retry? {
      ReadinessStepCases(kind, name, ticks[i].observed);
    }
    ReadinessStepCases(kind, name, ticks[j].observed);
    PollStopsAtFirstDecision(schedule.start + timeout, ticks, probe, Ok(NotReadyMessage(name)), j);
  }

  /** A resource that reports "" had such a check: the last one its loop made. */
  lemma {:induction false} ReadyWitness(kind: string, name: string, timeout: int, schedule: Schedule)
    requires ReadinessOutcome(kind, name, timeout, schedule) == Ok("")
    ensures var ticks := schedule.ticks;
      exists j :: 0 <= j < |ticks|
             && (forall i :: 0 <= i <= j ==> ticks[i].now < schedule.start + timeout)
             && (forall i :: 0 <= i < j ==> IsResourceReady(kind, name, ticks[i].observed) == Ok(false))
             && IsResourceReady(kind, name, ticks[j].observed) == Ok(true)
  {
    var ticks := schedule.ticks;
    var deadline := schedule.start + timeout;
    var probe := ReadinessProbe(kind, name);
    assert NotReadyMessage(name)[0] == '[';
    PollRun(deadline, ticks, probe, Ok(NotReadyMessage(name)));
    var n := Attempts(deadline, ticks, probe);
    assert n > 0 && probe(ticks[n - 1].observed) == Stop(Ok(""));
    var j := n - 1;
    forall i | 0 <= i < j ensures IsResourceReady(kind, name, ticks[i].observed) == Ok(false) {
      assert probe(ticks[i].observed).Retry?;
      ReadinessStepCases(kind, name, ticks[i].observed);
    }
    ReadinessStepCases(kind, name, ticks[j].observed);
  }

  /** A resource reports "" exactly when a check before the deadline found it ready, all earlier checks having found it not ready. */
  lemma {:induction false} ReadyIffReadyWithinTimeout(kind: string, name: string, timeout: int, schedule: Schedule)
    ensures var ticks := schedule.ticks;
      ReadinessOutcome(kind, name, timeout, schedule) == Ok("")
      <==> exists j :: 0 <= j < |ticks|
             && (forall i :: 0 <= i <= j ==> ticks[i].now < schedule.start + timeout)
             && (forall i :: 0 <= i < j ==> IsResourceReady(kind, name, ticks[i].observed) == Ok(false))
             && IsResourceReady(kind, name, ticks[j].observed) == Ok(true)
  {
    var ticks := schedule.ticks;
    forall j | 0 <= j < |ticks|
             && (forall i :: 0 <= i <= j ==> ticks[i].now < schedule.start + timeout)
             && (forall i :: 0 <= i < j ==> IsResourceReady(kind, name, ticks[i].observed) == Ok(false))
             && IsResourceReady(kind, name, ticks[j].observed) == Ok(true)
      ensures ReadinessOutcome(kind, name, timeout, schedule) == Ok("")
    {
      ReadyAt(kind, name, timeout, schedule, j);
    }
    if ReadinessOutcome(kind, name, timeout, schedule) == Ok("") {
      ReadyWitness(kind, name, timeout, schedule);
    }
  }

  /**
   * An unsupported kind raises at the first check, and only if a check
   * happens: when the deadline has passed at the first loop test, the
   * resource is reported not ready instead.
   */
  lemma {:induction false} UnsupportedKindRaisesOnFirstCheck(kind: string, name: string, timeout: int, schedule: Schedule)
    requires !IsSupportedKind(kind)
    ensures var ticks := schedule.ticks;
      ReadinessOutcome(kind, name, timeout, schedule)
        == if |ticks| > 0 && ticks[0].now < schedule.start + timeout then Err(UnsupportedKind(kind))
           else Ok(NotReadyMessage(name))
  {
    if |schedule.ticks| > 0 {
      assert ReadinessProbe(kind, name)(schedule.ticks[0].observed) == Stop(Err(UnsupportedKind(kind)));
    }
  }

  /**
   * With a clock that advances by at least the poll interval per retry, a
   * resource gets at most one check per interval of its timeout, and a
   * timeout that is not positive gives no check and the not-ready message.
   */
  lemma {:induction false} ReadinessChecksBounded(kind: string, name: string, timeout: int, schedule: Schedule)
    requires ClockAdvances(schedule.start, schedule.ticks)
    ensures var n := Attempts(schedule.start + timeout, schedule.ticks, ReadinessProbe(kind, name));
      n == 0 || PollIntervalSeconds * (n - 1) < timeout
    ensures timeout <= 0 ==> ReadinessOutcome(kind, name, timeout, schedule) == Ok(NotReadyMessage(name))
  {
    AttemptsWithinTimeout(schedule.start, timeout, schedule.ticks, ReadinessProbe(kind, name));
  }

  /** The status one entry contributes, or the error that ends the run. */
  function ResourceStatus(entry: string, timeout: int, schedule: Schedule): Result<string, Error> {
    match ParseMonitoredResource(entry)
    case Err(e) => Err(e)
    case Ok(resource) => ReadinessOutcome(resource.kind, resource.name, timeout, schedule)
  }

  /** The statuses of the monitored resources, in order; the first error ends the list. */
  function ResourcesStatuses(entries: seq<string>, timeout: int, schedules: seq<Schedule>): Result<seq<string>, Error>
    requires |schedules| == |entries|
  {
    CollectStatuses(seq(|entries|, i requires 0 <= i < |entries| => ResourceStatus(entries[i], timeout, schedules[i])))
  }

  /** Succeeds exactly when every entry does, and then lists one status per entry, in input order. */
  lemma {:induction false} ResourcesStatusesInOrder(entries: seq<string>, timeout: int, schedules: seq<Schedule>)
    requires |schedules| == |entries|
    ensures ResourcesStatuses(entries, timeout, schedules).Ok?
            <==> forall i :: 0 <= i < |entries| ==> ResourceStatus(entries[i], timeout, schedules[i]).Ok?
    ensures var r := ResourcesStatuses(entries, timeout, schedules);
      r.Ok? ==> |r.value| == |entries|
                && forall i :: 0 <= i < |entries| ==> ResourceStatus(entries[i], timeout, schedules[i]) == Ok(r.value[i])
  {
    var outcomes := seq(|entries|, i requires 0 <= i < |entries| => ResourceStatus(entries[i], timeout, schedules[i]));
    CollectStatusesInOrder(outcomes);
    assert ResourcesStatuses(entries, timeout, schedules) == CollectStatuses(outcomes);
    assert forall i :: 0 <= i < |entries| ==> outcomes[i] == ResourceStatus(entries[i], timeout, schedules[i]);
  }

  /** `get_resources_statuses`. */
  method GetResourcesStatuses(resources: string, timeout: int, schedules: seq<Schedule>)
    returns (statuses: Result<seq<string>, Error>)
    requires |schedules| == |Entries(resources)|
    ensures statuses == ResourcesStatuses(Entries(resources), timeout, schedules)
  {
    var list := Entries(resources);
    ghost var outcomes := seq(|list|, i requires 0 <= i < |list| => ResourceStatus(list[i], timeout, schedules[i]));
    var collected: seq<string> := [];
    assert outcomes[0..] == outcomes;
    PrependNothing(CollectStatuses(outcomes));
    for i := 0 to |list|
      invariant CollectStatuses(outcomes) == Prepend(collected, CollectStatuses(outcomes[i..]))
    {
      assert outcomes[i..][0] == outcomes[i] == ResourceStatus(list[i], timeout, schedules[i]);
      var parsed := ParseMonitoredResource(list[i]);
      if parsed.Err? {
        return Err(parsed.error);
      }
      var message := WaitForResource(parsed.value.kind, parsed.value.name, timeout, schedules[i]);
      if message.Err? {
        return Err(message.error);
      }
      CollectStatusesStep(outcomes, collected, i, message.value);
      collected := collected + [message.value];
    }
    assert outcomes[|list|..] == [];
    assert collected + [] == collected;
    return Ok(collected);
  }

  // ---------------------------------------------------------------------------
  // Monitored custom resources

  /** A value a JSONPath match holds: a string, or a value of another JSON type. */
  datatype MatchValue = Text(text: string) | NonText

  /** One entry of the monitored-custom-resources list. */
  datatype CustomResourceCheck = CustomResourceCheck(
    resource: CustomResource, expression: string, successfulCondition: string, failedCondition: Option<string>)

  /**
   * An entry must have 6 or 7 tokens once stripped: token 4 is the JSONPath
   * expression, token 5 the success marker, token 6 (if present) the failure
   * marker.  The reference is the text before the first occurrence of the
   * expression, which must parse as four tokens.
   */
  function ParseCustomResourceCheck(entry: string): (r: Result<CustomResourceCheck, Error>)
    ensures var parts := Split(Strip(entry));
      |parts| != 6 && |parts| != 7 ==> r == Err(MalformedCustomResourceCheck(Strip(entry)))
    ensures var parts := Split(Strip(entry));
      r.Ok? ==> && (|parts| == 6 || |parts| == 7)
                && r.value.expression == parts[4]
                && r.value.successfulCondition == parts[5]
                && r.value.failedCondition == (if |parts| == 7 then Some(parts[6]) else None)
                && ParseCustomResource(BeforeFirst(Strip(entry), parts[4])) == Ok(r.value.resource)
    ensures var parts := Split(Strip(entry));
      (|parts| == 6 || |parts| == 7) ==>
        (r.Ok? <==> ParseCustomResource(BeforeFirst(Strip(entry), parts[4])).Ok?)
  {
    var resource := Strip(entry);
    var parts := Split(resource);
    if |parts| != 6 && |parts| != 7 then Err(MalformedCustomResourceCheck(resource))
    else
      var expression := parts[4];
      match ParseCustomResource(BeforeFirst(resource, expression))
      case Err(e) => Err(e)
      case Ok(cr) => Ok(CustomResourceCheck(cr, expression, parts[5], if |parts| == 7 then Some(parts[6]) else None))
  }

  /** The tokens of a check, in the order its entry lists them. */
  function CheckTokens(check: CustomResourceCheck): seq<string> {
    var r := check.resource;
    [r.group, r.version, r.plural, r.name, check.expression, check.successfulCondition]
      + (if check.failedCondition.Some? then [check.failedCondition.value] else [])
  }

  predicate ValidCheck(check: CustomResourceCheck) {
    && check.resource.Valid()
    && IsToken(check.expression)
    && IsToken(check.successfulCondition)
    && (check.failedCondition.Some? ==> IsToken(check.failedCondition.value))
  }

  /** The text of a check written out with single spaces: its tokens, and what comes before the expression. */
  lemma {:induction false} CheckEntryText(check: CustomResourceCheck)
    requires ValidCheck(check)
    requires var r := check.resource;
      forall j: nat :: !OccursAt(Join([r.group, r.version, r.plural, r.name], " "), check.expression, j)
    ensures var entry := Join(CheckTokens(check), " ");
      var r := check.resource;
      && Strip(entry) == entry
      && Split(entry) == CheckTokens(check)
      && BeforeFirst(entry, check.expression) == Join([r.group, r.version, r.plural, r.name], " ") + " "
  {
    var r := check.resource;
    var e := check.expression;
    var head := [r.group, r.version, r.plural, r.name];
    var ts := CheckTokens(check);
    var tail := ts[4..];
    assert ts == head + tail && tail == [e] + tail[1..];
    assert forall i :: 0 <= i < |ts| ==> IsToken(ts[i]);
    StripJoinTokens(ts);
    SplitJoinRoundTrip(ts);
    JoinAppend(head, tail, " ");
    var rest := " " + Join(tail[1..], " ");
    assert Join(tail, " ") == e + " " + Join(tail[1..], " ");
    ConcatAssoc(e, " ", Join(tail[1..], " "));
    ConcatAssoc(Join(head, " ") + " ", e, rest);
    BeforeFirstAfterSpace(Join(head, " "), e, rest);
  }

  /**
   * An entry written out with single spaces parses back to its check, as
   * long as the expression does not occur inside the `group version plural
   * name` text that comes before it.
   */
  lemma {:induction false} ParseCustomResourceCheckRoundTrip(check: CustomResourceCheck)
    requires ValidCheck(check)
    requires var r := check.resource;
      forall j: nat :: !OccursAt(Join([r.group, r.version, r.plural, r.name], " "), check.expression, j)
    ensures ParseCustomResourceCheck(Join(CheckTokens(check), " ")) == Ok(check)
  {
    CheckEntryText(check);
    var r := check.resource;
    ParseCustomResourceTrailingSpace(r);
    var entry := Join(CheckTokens(check), " ");
    var parts := Split(Strip(entry));
    assert parts == CheckTokens(check) && parts[4] == check.expression && parts[5] == check.successfulCondition;
    assert (|parts| == 7) == check.failedCondition.Some?;
    assert check.failedCondition.Some? ==> parts[6] == check.failedCondition.value;
    assert ParseCustomResource(BeforeFirst(Strip(entry), parts[4])) == Ok(r);
  }

  /** An entry whose plural begins with its expression: its tokens, and the text before the expression's first occurrence. */
  lemma {:induction false} PluralBeginsWithExpression(group: string, version: string, pluralSuffix: string, name: string,
                                                      expression: string, successfulCondition: string)
    requires IsToken(group) && IsToken(version) && IsToken(name) && IsToken(expression) && IsToken(successfulCondition)
    requires forall i :: 0 <= i < |pluralSuffix| ==> !IsSpace(pluralSuffix[i])
    requires forall j: nat :: !OccursAt(group + " " + version, expression, j)
    ensures var ts := [group, version, expression + pluralSuffix, name, expression, successfulCondition];
      && (forall i :: 0 <= i < |ts| ==> IsToken(ts[i]))
      && Strip(Join(ts, " ")) == Join(ts, " ")
      && Split(Join(ts, " ")) == ts
      && BeforeFirst(Join(ts, " "), expression) == group + " " + version + " "
  {
    var plural := expression + pluralSuffix;
    assert IsToken(plural) by {
      forall i | 0 <= i < |plural| ensures !IsSpace(plural[i]) {
        if i < |expression| {
          assert plural[i] == expression[i];
        } else {
          assert plural[i] == pluralSuffix[i - |expression|];
        }
      }
    }
    var ts := [group, version, plural, name, expression, successfulCondition];
    assert forall i :: 0 <= i < |ts| ==> IsToken(ts[i]);
    var pre := [group, version];
    var post := [plural, name, expression, successfulCondition];
    assert ts == pre + post && pre[1..] == [version];
    assert Join(pre, " ") == group + " " + version;
    JoinAppend(pre, post, " ");
    var rest := pluralSuffix + " " + Join(post[1..], " ");
    assert Join(post, " ") == plural + " " + Join(post[1..], " ");
    ConcatAssoc(expression, pluralSuffix, " ");
    ConcatAssoc(expression, pluralSuffix + " ", Join(post[1..], " "));
    ConcatAssoc(group + " " + version + " ", expression, rest);
    BeforeFirstAfterSpace(group + " " + version, expression, rest);
    SplitJoinRoundTrip(ts);
    StripJoinTokens(ts);
  }

  /**
   * The reference is cut at the first occurrence of the expression, not after
   * the fourth token.  When the plural begins with the expression (`statuses`
   * and `status`), the cut falls inside the plural and leaves only `group
   * version`, so the entry is rejected although its first four tokens name a
   * custom resource.
   */
  lemma {:induction false} ExpressionInsideReferenceRejected(group: string, version: string, pluralSuffix: string, name: string,
                                                             expression: string, successfulCondition: string)
    requires IsToken(group) && IsToken(version) && IsToken(name) && IsToken(expression) && IsToken(successfulCondition)
    requires forall i :: 0 <= i < |pluralSuffix| ==> !IsSpace(pluralSuffix[i])
    requires forall j: nat :: !OccursAt(group + " " + version, expression, j)
    ensures var ts := [group, version, expression + pluralSuffix, name, expression, successfulCondition];
      && |Split(Strip(Join(ts, " ")))| == 6
      && ParseCustomResource(Join(ts[..4], " ")) == Ok(CustomResource(group, version, expression + pluralSuffix, name))
      && ParseCustomResourceCheck(Join(ts, " ")) == Err(MalformedCustomResource(group + " " + version + " "))
  {
    PluralBeginsWithExpression(group, version, pluralSuffix, name, expression, successfulCondition);
    var ts := [group, version, expression + pluralSuffix, name, expression, successfulCondition];
    ParseCustomResourceRoundTrip(CustomResource(group, version, expression + pluralSuffix, name));
    assert ts[..4] == [group, version, expression + pluralSuffix, name];
    var pre := [group, version];
    assert forall i :: 0 <= i < |pre| ==> IsToken(pre[i]);
    assert pre[1..] == [version] && Join(pre, " ") == group + " " + version;
    SplitStripJoinSpace(pre);
  }

  /** Pieces of the messages a custom-resource check reports. */
  const FailedPrefix: string := "Processing status of ["
  const FailedInfix: string := "] custom resource is "
  const FailedSuffix: string := ". For more details, check custom resource status."
  const TimeoutInfix: string := "] custom resource does not have successful condition after "
  const SecondsSuffix: string := " seconds."

  function CustomResourceFailedMessage(resource: CustomResource, failed: string): string {
    FailedPrefix + resource.ToString() + FailedInfix + failed + FailedSuffix
  }

  function CustomResourceTimeoutMessage(resource: CustomResource, timeout: int): string {
    "[" + resource.ToString() + TimeoutInfix + IntToString(timeout) + SecondsSuffix
  }

  /**
   * One check of a custom resource: read it, evaluate the expression, and
   * compare the LAST match with the success marker, then with the failure
   * marker; no match or any other value retries.
   */
  function CustomResourceStep(check: CustomResourceCheck, find: (string, CustomObject) -> seq<MatchValue>, cluster: Cluster)
    : Step<Result<string, Error>>
  {
    if check.resource !in cluster.customObjects then Stop(Err(NotFound(check.resource.name)))
    else
      var matches := find(check.expression, cluster.customObjects[check.resource]);
      if |matches| == 0 then Retry
      else if matches[|matches| - 1] == Text(check.successfulCondition) then Stop(Ok(""))
      else if check.failedCondition.Some? && check.failedCondition.value != ""
              && matches[|matches| - 1] == Text(check.failedCondition.value)
      then Stop(Ok(CustomResourceFailedMessage(check.resource, check.failedCondition.value)))
      else Retry
  }

  /**
   * Only the last match counts, and the success marker is compared first: a
   * value equal to both markers is success, and a value equal to neither, or
   * no match at all, retries.
   */
  lemma {:induction false} CustomResourceStepByLastMatch(check: CustomResourceCheck, find: (string, CustomObject) -> seq<MatchValue>,
                                      other: (string, CustomObject) -> seq<MatchValue>, cluster: Cluster)
    requires check.resource in cluster.customObjects
    ensures var obj := cluster.customObjects[check.resource];
      var m := find(check.expression, obj);
      var n := other(check.expression, obj);
      (|m| > 0 && |n| > 0 && m[|m| - 1] == n[|n| - 1]) || (|m| == 0 && |n| == 0)
      ==> CustomResourceStep(check, find, cluster) == CustomResourceStep(check, other, cluster)
    ensures var m := find(check.expression, cluster.customObjects[check.resource]);
      |m| > 0 && m[|m| - 1] == Text(check.successfulCondition) ==> CustomResourceStep(check, find, cluster) == Stop(Ok(""))
    ensures var m := find(check.expression, cluster.customObjects[check.resource]);
      |m| > 0 && m[|m| - 1] != Text(check.successfulCondition)
      && check.failedCondition.Some? && check.failedCondition.value != ""
      && m[|m| - 1] == Text(check.failedCondition.value)
      ==> CustomResourceStep(check, find, cluster)
          == Stop(Ok(CustomResourceFailedMessage(check.resource, check.failedCondition.value)))
    ensures var m := find(check.expression, cluster.customObjects[check.resource]);
      (|m| == 0 || (m[|m| - 1] != Text(check.successfulCondition)
                    && (check.failedCondition.None? || m[|m| - 1] != Text(check.failedCondition.value))))
      ==> CustomResourceStep(check, find, cluster) == Retry
  {
  }

  /** What the custom-resource loop makes of each observation of the cluster. */
  function CustomResourceProbe(check: CustomResourceCheck, find: (string, CustomObject) -> seq<MatchValue>)
    : Cluster -> Step<Result<string, Error>>
  {
    cluster => CustomResourceStep(check, find, cluster)
  }

  /** The timeout message is never the empty success status. */
  lemma TimeoutMessageNotEmpty(resource: CustomResource, timeout: int)
    ensures CustomResourceTimeoutMessage(resource, timeout) != ""
  {
    assert CustomResourceTimeoutMessage(resource, timeout)[0] == '[';
  }

  /** The failed-state message is never the empty success status. */
  lemma FailedMessageNotEmpty(resource: CustomResource, failed: string)
    ensures CustomResourceFailedMessage(resource, failed) != ""
  {
    assert CustomResourceFailedMessage(resource, failed)[0] == FailedPrefix[0] == 'P';
  }

  /** A check stops with "" exactly when the object exists and its last match is the success marker. */
  lemma CustomResourceStepSucceedsIff(check: CustomResourceCheck, find: (string, CustomObject) -> seq<MatchValue>, cluster: Cluster)
    ensures CustomResourceStep(check, find, cluster) == Stop(Ok(""))
            <==> (check.resource in cluster.customObjects
                  && var m := find(check.expression, cluster.customObjects[check.resource]);
                     |m| > 0 && m[|m| - 1] == Text(check.successfulCondition))
  {
    if check.failedCondition.Some? {
      FailedMessageNotEmpty(check.resource, check.failedCondition.value);
    }
  }

  /** The status one custom resource contributes. */
  function CustomResourceOutcome(check: CustomResourceCheck, timeout: int, find: (string, CustomObject) -> seq<MatchValue>, schedule: Schedule)
    : Result<string, Error>
  {
    Poll(schedule.start + timeout, schedule.ticks, CustomResourceProbe(check, find),
         Ok(CustomResourceTimeoutMessage(check.resource, timeout)))
  }

  /** One check of the loop of `get_custom_resources_statuses`: read the resource and compare the last match. */
  method CheckCustomResource(check: CustomResourceCheck, find: (string, CustomObject) -> seq<MatchValue>, cluster: Cluster)
    returns (step: Step<Result<string, Error>>)
    ensures check.resource !in cluster.customObjects ==> step == Stop(Err(NotFound(check.resource.name)))
    ensures check.resource in cluster.customObjects ==>
      var m := find(check.expression, cluster.customObjects[check.resource]);
      && (|m| > 0 && m[|m| - 1] == Text(check.successfulCondition) ==> step == Stop(Ok("")))
      && (|m| > 0 && m[|m| - 1] != Text(check.successfulCondition)
          && check.failedCondition.Some? && check.failedCondition.value != ""
          && m[|m| - 1] == Text(check.failedCondition.value)
          ==> step == Stop(Ok(CustomResourceFailedMessage(check.resource, check.failedCondition.value))))
      && (|m| == 0 || (m[|m| - 1] != Text(check.successfulCondition)
                       && (check.failedCondition.None? || check.failedCondition.value == ""
                           || m[|m| - 1] != Text(check.failedCondition.value)))
          ==> step == Retry)
    ensures step == CustomResourceStep(check, find, cluster)
  {
    if check.resource !in cluster.customObjects {
      return Stop(Err(NotFound(check.resource.name)));
    }
    var matches := find(check.expression, cluster.customObjects[check.resource]);
    if |matches| > 0 {
      if matches[|matches| - 1] == Text(check.successfulCondition) {
        return Stop(Ok(""));
      }
      if check.failedCondition.Some? && check.failedCondition.value != ""
         && matches[|matches| - 1] == Text(check.failedCondition.value) {
        return Stop(Ok(CustomResourceFailedMessage(check.resource, check.failedCondition.value)));
      }
    }
    return Retry;
  }

  /** The polling loop of `get_custom_resources_statuses`, for one custom resource. */
  method WaitForCustomResource(check: CustomResourceCheck, timeout: int, find: (string, CustomObject) -> seq<MatchValue>, schedule: Schedule)
    returns (message: Result<string, Error>)
    ensures message == CustomResourceOutcome(check, timeout, find, schedule)
  {
    message := Ok(CustomResourceTimeoutMessage(check.resource, timeout));
    var startTime := schedule.start;
    ghost var deadline := startTime + timeout;
    ghost var probe := CustomResourceProbe(check, find);
    ghost var timedOut := message;
    var k := 0;
    while k < |schedule.ticks| && startTime + timeout > schedule.ticks[k].now
      invariant 0 <= k <= |schedule.ticks| && message == timedOut
      invariant Poll(deadline, schedule.ticks, probe, timedOut) == Poll(deadline, schedule.ticks[k..], probe, timedOut)
    {
      assert schedule.ticks[k..][0] == schedule.ticks[k];
      var step := CheckCustomResource(check, find, schedule.ticks[k].observed);
      assert probe(schedule.ticks[k].observed) == step;
      if step.Stop? {
        message := step.outcome;
        break;
      }
      PollRetry(deadline, schedule.ticks, probe, timedOut, k);
      k := k + 1;
    }
  }

  /** A check before the deadline that sees the success marker last, after checks that all retried, makes the resource report "". */
  lemma {:induction false} CustomResourceSucceedsAt(check: CustomResourceCheck, timeout: int, find: (string, CustomObject) -> seq<MatchValue>,
                                                   schedule: Schedule, j: nat)
    requires j < |schedule.ticks|
    requires forall i :: 0 <= i <= j ==> schedule.ticks[i].now < schedule.start + timeout
    requires forall i :: 0 <= i < j ==> CustomResourceStep(check, find, schedule.ticks[i].observed) == Retry
    requires CustomResourceStep(check, find, schedule.ticks[j].observed) == Stop(Ok(""))
    ensures CustomResourceOutcome(check, timeout, find, schedule) == Ok("")
  {
    var ticks := schedule.ticks;
    var probe := CustomResourceProbe(check, find);
    forall i | 0 <= i < j ensures probe(ticks[i].observed).Retry? {
      assert probe(ticks[i].observed) == CustomResourceStep(check, find, ticks[i].observed);
    }
    assert probe(ticks[j].observed) == CustomResourceStep(check, find, ticks[j].observed);
    PollStopsAtFirstDecision(schedule.start + timeout, ticks, probe, Ok(CustomResourceTimeoutMessage(check.resource, timeout)), j);
  }

  /**
   * A check before the deadline whose last match is the failure marker (and
   * not the success marker), after checks that all retried, makes the
   * resource report that it is in the failed state.
   */
  lemma {:induction false} CustomResourceFailsAt(check: CustomResourceCheck, timeout: int, find: (string, CustomObject) -> seq<MatchValue>,
                                                schedule: Schedule, j: nat)
    requires j < |schedule.ticks|
    requires forall i :: 0 <= i <= j ==> schedule.ticks[i].now < schedule.start + timeout
    requires forall i :: 0 <= i < j ==> CustomResourceStep(check, find, schedule.ticks[i].observed) == Retry
    requires check.resource in schedule.ticks[j].observed.customObjects
    requires check.failedCondition.Some? && check.failedCondition.value != ""
    requires var m := find(check.expression, schedule.ticks[j].observed.customObjects[check.resource]);
      |m| > 0 && m[|m| - 1] != Text(check.successfulCondition) && m[|m| - 1] == Text(check.failedCondition.value)
    ensures CustomResourceOutcome(check, timeout, find, schedule)
            == Ok(CustomResourceFailedMessage(check.resource, check.failedCondition.value))
  {
    var ticks := schedule.ticks;
    var probe := CustomResourceProbe(check, find);
    forall i | 0 <= i < j ensures probe(ticks[i].observed).Retry? {
      assert probe(ticks[i].observed) == CustomResourceStep(check, find, ticks[i].observed);
    }
    assert probe(ticks[j].observed) == CustomResourceStep(check, find, ticks[j].observed);
    PollStopsAtFirstDecision(schedule.start + timeout, ticks, probe, Ok(CustomResourceTimeoutMessage(check.resource, timeout)), j);
  }

  /** A resource that reports "" had such a check: the last one its loop made. */
  lemma {:induction false} CustomResourceSuccessWitness(check: CustomResourceCheck, timeout: int, find: (string, CustomObject) -> seq<MatchValue>,
                                                       schedule: Schedule)
    requires CustomResourceOutcome(check, timeout, find, schedule) == Ok("")
    ensures var ticks := schedule.ticks;
      exists j :: 0 <= j < |ticks|
             && (forall i :: 0 <= i <= j ==> ticks[i].now < schedule.start + timeout)
             && (forall i :: 0 <= i < j ==> CustomResourceStep(check, find, ticks[i].observed) == Retry)
             && CustomResourceStep(check, find, ticks[j].observed) == Stop(Ok(""))
  {
    var ticks := schedule.ticks;
    var deadline := schedule.start + timeout;
    var probe := CustomResourceProbe(check, find);
    TimeoutMessageNotEmpty(check.resource, timeout);
    PollRun(deadline, ticks, probe, Ok(CustomResourceTimeoutMessage(check.resource, timeout)));
    var n := Attempts(deadline, ticks, probe);
    assert n > 0 && probe(ticks[n - 1].observed) == Stop(Ok(""));
    var j := n - 1;
    forall i | 0 <= i < j ensures CustomResourceStep(check, find, ticks[i].observed) == Retry {
      assert probe(ticks[i].observed).Retry?;
    }
    assert CustomResourceStep(check, find, ticks[j].observed) == Stop(Ok(""));
  }

  /** A custom resource reports "" exactly when a check before the deadline saw the success marker last, with no decision before it. */
  lemma {:induction false} CustomResourceSucceedsIff(check: CustomResourceCheck, timeout: int, find: (string, CustomObject) -> seq<MatchValue>, schedule: Schedule)
    ensures var ticks := schedule.ticks;
      CustomResourceOutcome(check, timeout, find, schedule) == Ok("")
      <==> exists j :: 0 <= j < |ticks|
             && (forall i :: 0 <= i <= j ==> ticks[i].now < schedule.start + timeout)
             && (forall i :: 0 <= i < j ==> CustomResourceStep(check, find, ticks[i].observed) == Retry)
             && CustomResourceStep(check, find, ticks[j].observed) == Stop(Ok(""))
  {
    var ticks := schedule.ticks;
    forall j | 0 <= j < |ticks|
             && (forall i :: 0 <= i <= j ==> ticks[i].now < schedule.start + timeout)
             && (forall i :: 0 <= i < j ==> CustomResourceStep(check, find, ticks[i].observed) == Retry)
             && CustomResourceStep(check, find, ticks[j].observed) == Stop(Ok(""))
      ensures CustomResourceOutcome(check, timeout, find, schedule) == Ok("")
    {
      CustomResourceSucceedsAt(check, timeout, find, schedule, j);
    }
    if CustomResourceOutcome(check, timeout, find, schedule) == Ok("") {
      CustomResourceSuccessWitness(check, timeout, find, schedule);
    }
  }

  /** The status one custom-resource entry contributes, or the error that ends the run. */
  function CustomResourceStatus(entry: string, timeout: int, find: (string, CustomObject) -> seq<MatchValue>, schedule: Schedule)
    : Result<string, Error>
  {
    match ParseCustomResourceCheck(entry)
    case Err(e) => Err(e)
    case Ok(check) => CustomResourceOutcome(check, timeout, find, schedule)
  }

  /** The statuses of the monitored custom resources, in order; the first error ends the list. */
  function CustomResourcesStatuses(entries: seq<string>, timeout: int, find: (string, CustomObject) -> seq<MatchValue>, schedules: seq<Schedule>)
    : Result<seq<string>, Error>
    requires |schedules| == |entries|
  {
    CollectStatuses(seq(|entries|, i requires 0 <= i < |entries| => CustomResourceStatus(entries[i], timeout, find, schedules[i])))
  }

  /** Succeeds exactly when every entry does, and then lists one status per entry, in input order. */
  lemma {:induction false} CustomResourcesStatusesInOrder(entries: seq<string>, timeout: int,
                                       find: (string, CustomObject) -> seq<MatchValue>, schedules: seq<Schedule>)
    requires |schedules| == |entries|
    ensures CustomResourcesStatuses(entries, timeout, find, schedules).Ok?
            <==> forall i :: 0 <= i < |entries| ==> CustomResourceStatus(entries[i], timeout, find, schedules[i]).Ok?
    ensures var r := CustomResourcesStatuses(entries, timeout, find, schedules);
      r.Ok? ==> |r.value| == |entries|
                && forall i :: 0 <= i < |entries| ==> CustomResourceStatus(entries[i], timeout, find, schedules[i]) == Ok(r.value[i])
  {
    var outcomes := seq(|entries|, i requires 0 <= i < |entries| => CustomResourceStatus(entries[i], timeout, find, schedules[i]));
    CollectStatusesInOrder(outcomes);
    assert CustomResourcesStatuses(entries, timeout, find, schedules) == CollectStatuses(outcomes);
    assert forall i :: 0 <= i < |entries| ==> outcomes[i] == CustomResourceStatus(entries[i], timeout, find, schedules[i]);
  }

  /** `get_custom_resources_statuses`. */
  method GetCustomResourcesStatuses(customResources: string, timeout: int, find: (string, CustomObject) -> seq<MatchValue>, schedules: seq<Schedule>)
    returns (statuses: Result<seq<string>, Error>)
    requires |schedules| == |Entries(customResources)|
    ensures statuses == CustomResourcesStatuses(Entries(customResources), timeout, find, schedules)
  {
    var list := Entries(customResources);
    ghost var outcomes := seq(|list|, i requires 0 <= i < |list| => CustomResourceStatus(list[i], timeout, find, schedules[i]));
    var collected: seq<string> := [];
    assert outcomes[0..] == outcomes;
    PrependNothing(CollectStatuses(outcomes));
    for i := 0 to |list|
      invariant CollectStatuses(outcomes) == Prepend(collected, CollectStatuses(outcomes[i..]))
    {
      assert outcomes[i..][0] == outcomes[i] == CustomResourceStatus(list[i], timeout, find, schedules[i]);
      var parsed := ParseCustomResourceCheck(list[i]);
      if parsed.Err? {
        return Err(parsed.error);
      }
      var message := WaitForCustomResource(parsed.value, timeout, find, schedules[i]);
      if message.Err? {
        return Err(message.error);
      }
      CollectStatusesStep(outcomes, collected, i, message.value);
      collected := collected + [message.value];
    }
    assert outcomes[|list|..] == [];
    assert collected + [] == collected;
    return Ok(collected);
  }

  // ---------------------------------------------------------------------------
  // Integration tests

  function IntegrationTestsTimeoutMessage(timeout: int): string {
    "Integration tests have not completed in " + IntToString(timeout) + " seconds."
  }

  /** The integration-tests time-out message is never the empty success status. */
  lemma IntegrationTestsTimeoutMessageNotEmpty(timeout: int)
    ensures IntegrationTestsTimeoutMessage(timeout) != ""
  {
    assert IntegrationTestsTimeoutMessage(timeout)[0] == 'I';
  }

  /**
   * One check of the integration tests: look up the condition with the
   * configured reason; while it is absent or "In Progress" keep polling;
   * otherwise leave with "" for the success type, else with its message
   * (which may be absent).
   */
  function IntegrationTestsStep(resource: CustomResource, reason: string, successfulType: string, cluster: Cluster)
    : Step<Result<Option<string>, Error>>
  {
    match StatusConditionLookup(cluster, resource, reason)
    case Err(e) => Stop(Err(e))
    case Ok(found) =>
      if found.None? || found.value.conditionType == Some(InProgressConditionType) then Retry
      else Stop(Ok(if found.value.conditionType == Some(successfulType) then Some("") else found.value.message))
  }

  /** What the integration-tests loop makes of each observation of the cluster. */
  function IntegrationTestsProbe(resource: CustomResource, reason: string, successfulType: string)
    : Cluster -> Step<Result<Option<string>, Error>>
  {
    cluster => IntegrationTestsStep(resource, reason, successfulType, cluster)
  }

  /** The outcome of the integration-tests loop on a parsed resource (`None` when the deciding condition has no message). */
  function IntegrationTestsPoll(resource: CustomResource, reason: string, successfulType: string, timeout: int, schedule: Schedule)
    : Result<Option<string>, Error>
  {
    Poll(schedule.start + timeout, schedule.ticks, IntegrationTestsProbe(resource, reason, successfulType),
         Ok(Some(IntegrationTestsTimeoutMessage(timeout))))
  }

  /** The status the integration tests contribute: a description that does not parse raises before any check. */
  function IntegrationTestsOutcome(description: string, reason: string, successfulType: string, timeout: int, schedule: Schedule)
    : Result<Option<string>, Error>
  {
    match ParseCustomResource(description)
    case Err(e) => Err(e)
    case Ok(resource) => IntegrationTestsPoll(resource, reason, successfulType, timeout, schedule)
  }

  /** `get_integration_tests_status`: parse the description, then poll. */
  method GetIntegrationTestsStatus(description: string, reason: string, successfulType: string, timeout: int, schedule: Schedule)
    returns (status: Result<Option<string>, Error>)
    ensures status == IntegrationTestsOutcome(description, reason, successfulType, timeout, schedule)
  {
    var parsed := ParseCustomResource(description);
    if parsed.Err? {
      return Err(parsed.error);
    }
    status := WaitForIntegrationTests(parsed.value, reason, successfulType, timeout, schedule);
  }

  /** The polling loop of `get_integration_tests_status`. */
  method WaitForIntegrationTests(resource: CustomResource, reason: string, successfulType: string, timeout: int, schedule: Schedule)
    returns (status: Result<Option<string>, Error>)
    ensures status == IntegrationTestsPoll(resource, reason, successfulType, timeout, schedule)
  {
    var startTime := schedule.start;
    ghost var deadline := startTime + timeout;
    ghost var probe := IntegrationTestsProbe(resource, reason, successfulType);
    ghost var timedOut: Result<Option<string>, Error> := Ok(Some(IntegrationTestsTimeoutMessage(timeout)));
    var k := 0;
    while k < |schedule.ticks| && startTime + timeout > schedule.ticks[k].now
      invariant 0 <= k <= |schedule.ticks|
      invariant Poll(deadline, schedule.ticks, probe, timedOut) == Poll(deadline, schedule.ticks[k..], probe, timedOut)
    {
      assert schedule.ticks[k..][0] == schedule.ticks[k];
      assert probe(schedule.ticks[k].observed) == IntegrationTestsStep(resource, reason, successfulType, schedule.ticks[k].observed);
      var condition := GetCustomResourceStatusCondition(schedule.ticks[k].observed, resource, reason);
      if condition.Err? {
        return Err(condition.error);
      }
      if condition.value.Some? && condition.value.value.conditionType != Some(InProgressConditionType) {
        var c := condition.value.value;
        return Ok(if c.conditionType == Some(successfulType) then Some("") else c.message);
      }
      PollRetry(deadline, schedule.ticks, probe, timedOut, k);
      k := k + 1;
    }
    return Ok(Some(IntegrationTestsTimeoutMessage(timeout)));
  }

  /**
   * The first condition that is neither missing nor "In Progress", found
   * before the deadline, decides: "" for the successful type, else the
   * condition's message.
   */
  lemma {:induction false} IntegrationTestsDecidedByFirstFinishedCondition(resource: CustomResource, reason: string,
                                                                          successfulType: string, timeout: int, schedule: Schedule,
                                                                          j: nat, c: Condition)
    requires j < |schedule.ticks|
    requires forall i :: 0 <= i <= j ==> schedule.ticks[i].now < schedule.start + timeout
    requires forall i :: 0 <= i < j ==>
      match StatusConditionLookup(schedule.ticks[i].observed, resource, reason)
      case Err(_) => false
      case Ok(found) => found.None? || found.value.conditionType == Some(InProgressConditionType)
    requires StatusConditionLookup(schedule.ticks[j].observed, resource, reason) == Ok(Some(c))
    requires c.conditionType != Some(InProgressConditionType)
    ensures IntegrationTestsPoll(resource, reason, successfulType, timeout, schedule)
            == Ok(if c.conditionType == Some(successfulType) then Some("") else c.message)
  {
    var ticks := schedule.ticks;
    var probe := IntegrationTestsProbe(resource, reason, successfulType);
    forall i | 0 <= i < j ensures probe(ticks[i].observed).Retry? {
      assert probe(ticks[i].observed) == IntegrationTestsStep(resource, reason, successfulType, ticks[i].observed);
    }
    assert probe(ticks[j].observed) == IntegrationTestsStep(resource, reason, successfulType, ticks[j].observed);
    PollStopsAtFirstDecision(schedule.start + timeout, ticks, probe, Ok(Some(IntegrationTestsTimeoutMessage(timeout))), j);
  }

  // ---------------------------------------------------------------------------
  // Aggregation

  const SuccessfulStatusMessage: string := "All components are in ready status."
  const IntegrationTestsCompletedSuffix: string := " Integration tests are successfully completed."
  const InProgressMessage: string := "Computing of cluster state is in progress"

  /** Python truthiness of a status: neither `None` nor the empty string. */
  predicate IsTruthy(s: Option<string>) {
    s.Some? && s.value != ""
  }

  /** `filter(None, statuses)`: the truthy statuses, in order. */
  function FilterTruthy(ss: seq<Option<string>>): (r: seq<string>)
    ensures forall i :: 0 <= i < |r| ==> r[i] != ""
    ensures |r| == 0 <==> forall i :: 0 <= i < |ss| ==> !IsTruthy(ss[i])
    ensures forall i :: 0 <= i < |ss| && IsTruthy(ss[i]) ==> ss[i].value in r
    ensures |r| <= |ss|
    ensures forall k :: 0 <= k < |r| ==> Some(r[k]) in ss
  {
    if |ss| == 0 then []
    else (if IsTruthy(ss[0]) then [ss[0].value] else []) + FilterTruthy(ss[1..])
  }

  /** Filtering keeps the order: the statuses of a list, then those of the next. */
  lemma {:induction false} FilterTruthyAppend(a: seq<Option<string>>, b: seq<Option<string>>)
    ensures FilterTruthy(a + b) == FilterTruthy(a) + FilterTruthy(b)
  {
    if |a| > 0 {
      assert (a + b)[0] == a[0] && (a + b)[1..] == a[1..] + b;
      FilterTruthyAppend(a[1..], b);
      var head := if IsTruthy(a[0]) then [a[0].value] else [];
      ConcatAssoc(head, FilterTruthy(a[1..]), FilterTruthy(b));
    } else {
      assert a + b == b;
    }
  }

  /** The statuses the loops hand over, as entries of the received list. */
  function AsReceived(ss: seq<string>): seq<Option<string>> {
    seq(|ss|, i requires 0 <= i < |ss| => Some(ss[i]))
  }

  /** The condition type and message of the final condition. */
  datatype FinalCondition = FinalCondition(conditionType: string, message: string)

  function SuccessMessage(integrationTestsConfigured: bool): string {
    if integrationTestsConfigured then SuccessfulStatusMessage + IntegrationTestsCompletedSuffix else SuccessfulStatusMessage
  }

  /**
   * The final condition: failed with the failures joined by single spaces
   * when any status is truthy, else successful with the "all ready" message,
   * extended when integration tests are configured.
   */
  function Aggregate(received: seq<Option<string>>, integrationTestsConfigured: bool, successfulType: string, failedType: string)
    : (f: FinalCondition)
    ensures (exists i :: 0 <= i < |received| && IsTruthy(received[i]))
            ==> f == FinalCondition(failedType, Join(FilterTruthy(received), " "))
    ensures (forall i :: 0 <= i < |received| ==> !IsTruthy(received[i]))
            ==> f == FinalCondition(successfulType, SuccessMessage(integrationTestsConfigured))
  {
    var failures := FilterTruthy(received);
    if |failures| > 0 then FinalCondition(failedType, Join(failures, " "))
    else FinalCondition(successfulType, SuccessMessage(integrationTestsConfigured))
  }

  /** A failed final condition names every failure in its message. */
  lemma {:induction false} AggregateNamesEveryFailure(received: seq<Option<string>>, integrationTestsConfigured: bool, successfulType: string, failedType: string, i: nat)
    requires i < |received| && IsTruthy(received[i])
    ensures var f := Aggregate(received, integrationTestsConfigured, successfulType, failedType);
      f.conditionType == failedType && exists pre, post :: f.message == pre + received[i].value + post
  {
    var failures := FilterTruthy(received);
    var k :| 0 <= k < |failures| && failures[k] == received[i].value;
    JoinContains(failures, " ", k);
  }

  /** The failures appear resources first, then custom resources, then integration tests. */
  lemma {:induction false} FailuresInOrder(resources: seq<string>, customResources: seq<string>, integrationTests: seq<Option<string>>)
    ensures FilterTruthy(AsReceived(resources) + AsReceived(customResources) + integrationTests)
            == FilterTruthy(AsReceived(resources)) + FilterTruthy(AsReceived(customResources)) + FilterTruthy(integrationTests)
  {
    FilterTruthyAppend(AsReceived(resources) + AsReceived(customResources), integrationTests);
    FilterTruthyAppend(AsReceived(resources), AsReceived(customResources));
  }

  // ---------------------------------------------------------------------------
  // The run

  /**
   * The environment the entry point reads.  The five variables the code only
   * tests for truthiness (the two monitored lists, the namespace, the target
   * and the integration-tests resource) are "" when unset or empty.  The
   * others hold their value after defaults are applied: the reason and the
   * condition types default to the `Libraries` constants, and the timeouts
   * to `DefaultTimeout`.  `treatStatusAsField` is true exactly when that
   * variable is set to non-empty text.
   */
  datatype Config = Config(
    monitoredResources: string,
    monitoredCustomResources: string,
    namespace: string,
    resourceToSetStatus: string,
    treatStatusAsField: bool,
    podReadinessTimeout: int,
    crProcessingTimeout: int,
    conditionReason: string,
    successfulConditionType: string,
    failedConditionType: string,
    integrationTestsResource: string,
    integrationTestsConditionReason: string,
    integrationTestsSuccessfulConditionType: string,
    integrationTestsTimeout: int)

  /** Everything the run observes: one schedule per polling loop, JSONPath evaluation, and the two timestamps. */
  datatype Observations = Observations(
    resourceSchedules: seq<Schedule>,
    customResourceSchedules: seq<Schedule>,
    integrationTestsSchedule: Schedule,
    find: (string, CustomObject) -> seq<MatchValue>,
    inProgressTimestamp: string,
    finalTimestamp: string)

  /** One schedule for each entry of each list. */
  predicate WellSized(cfg: Config, obs: Observations) {
    |obs.resourceSchedules| == |Entries(cfg.monitoredResources)|
    && |obs.customResourceSchedules| == |Entries(cfg.monitoredCustomResources)|
  }

  /** The entry point does anything only with something to monitor, a namespace and a target. */
  predicate ShouldRun(cfg: Config) {
    (cfg.monitoredResources != "" || cfg.monitoredCustomResources != "")
    && cfg.namespace != "" && cfg.resourceToSetStatus != ""
  }

  /** A received list that begins with two lists' statuses holds each of them at its place. */
  lemma ReceivedPartsAt(a: seq<string>, b: seq<string>, r: seq<Option<string>>, i: nat)
    requires |a| + |b| <= |r| && r[..|a| + |b|] == AsReceived(a) + AsReceived(b)
    ensures i < |a| ==> r[i] == Some(a[i])
    ensures i < |b| ==> r[|a| + i] == Some(b[i])
  {
    var both := AsReceived(a) + AsReceived(b);
    if i < |a| {
      assert r[i] == r[..|a| + |b|][i] == both[i] == AsReceived(a)[i];
    }
    if i < |b| {
      assert r[|a| + i] == r[..|a| + |b|][|a| + i] == both[|a| + i] == AsReceived(b)[i];
    }
  }

  /** Every status the run collects, in order, or the error that aborts it. */
  function CollectedStatuses(cfg: Config, obs: Observations): Result<seq<Option<string>>, Error>
    requires WellSized(cfg, obs)
  {
    match ResourcesStatuses(Entries(cfg.monitoredResources), cfg.podReadinessTimeout, obs.resourceSchedules)
    case Err(e) => Err(e)
    case Ok(rs) =>
      match CustomResourcesStatuses(Entries(cfg.monitoredCustomResources), cfg.crProcessingTimeout, obs.find, obs.customResourceSchedules)
      case Err(e) => Err(e)
      case Ok(cs) =>
        if cfg.integrationTestsResource == "" then Ok(AsReceived(rs) + AsReceived(cs))
        else
          match IntegrationTestsOutcome(cfg.integrationTestsResource, cfg.integrationTestsConditionReason,
                                        cfg.integrationTestsSuccessfulConditionType, cfg.integrationTestsTimeout,
                                        obs.integrationTestsSchedule)
          case Err(e) => Err(e)
          case Ok(it) => Ok(AsReceived(rs) + AsReceived(cs) + [it])
  }

  /**
   * The run collects its statuses exactly when no monitored resource, no
   * monitored custom resource and, when configured, not the integration
   * tests raise.
   */
  lemma {:induction false} CollectedStatusesSucceedIff(cfg: Config, obs: Observations)
    requires WellSized(cfg, obs)
    ensures var rs := Entries(cfg.monitoredResources);
      var cs := Entries(cfg.monitoredCustomResources);
      CollectedStatuses(cfg, obs).Ok?
      <==> (&& (forall i :: 0 <= i < |rs| ==> ResourceStatus(rs[i], cfg.podReadinessTimeout, obs.resourceSchedules[i]).Ok?)
            && (forall i :: 0 <= i < |cs| ==>
                  CustomResourceStatus(cs[i], cfg.crProcessingTimeout, obs.find, obs.customResourceSchedules[i]).Ok?)
            && (cfg.integrationTestsResource != "" ==>
                  IntegrationTestsOutcome(cfg.integrationTestsResource, cfg.integrationTestsConditionReason,
                                          cfg.integrationTestsSuccessfulConditionType, cfg.integrationTestsTimeout,
                                          obs.integrationTestsSchedule).Ok?))
  {
    ResourcesStatusesInOrder(Entries(cfg.monitoredResources), cfg.podReadinessTimeout, obs.resourceSchedules);
    CustomResourcesStatusesInOrder(Entries(cfg.monitoredCustomResources), cfg.crProcessingTimeout, obs.find, obs.customResourceSchedules);
  }

  /**
   * The statuses the run collects: the monitored resources' statuses `rv`,
   * then the monitored custom resources' `cv`, each at its entry's place,
   * then the integration tests' when configured.
   * `ResourcesStatusesInOrder` and `CustomResourcesStatusesInOrder` say what
   * each of `rv` and `cv` holds.
   */
  lemma {:induction false} CollectedStatusesInOrder(cfg: Config, obs: Observations) returns (rv: seq<string>, cv: seq<string>)
    requires WellSized(cfg, obs) && CollectedStatuses(cfg, obs).Ok?
    ensures ResourcesStatuses(Entries(cfg.monitoredResources), cfg.podReadinessTimeout, obs.resourceSchedules) == Ok(rv)
    ensures CustomResourcesStatuses(Entries(cfg.monitoredCustomResources), cfg.crProcessingTimeout, obs.find, obs.customResourceSchedules) == Ok(cv)
    ensures |rv| == |Entries(cfg.monitoredResources)| && |cv| == |Entries(cfg.monitoredCustomResources)|
    ensures var r := CollectedStatuses(cfg, obs).value;
      |r| == |rv| + |cv| + (if cfg.integrationTestsResource == "" then 0 else 1)
    ensures var r := CollectedStatuses(cfg, obs).value;
      forall i :: 0 <= i < |rv| ==> r[i] == Some(rv[i])
    ensures var r := CollectedStatuses(cfg, obs).value;
      forall i :: 0 <= i < |cv| ==> r[|rv| + i] == Some(cv[i])
    ensures var r := CollectedStatuses(cfg, obs).value;
      cfg.integrationTestsResource != "" ==>
        IntegrationTestsOutcome(cfg.integrationTestsResource, cfg.integrationTestsConditionReason,
                                cfg.integrationTestsSuccessfulConditionType, cfg.integrationTestsTimeout,
                                obs.integrationTestsSchedule) == Ok(r[|rv| + |cv|])
  {
    var r := CollectedStatuses(cfg, obs).value;
    rv, cv := CollectedStatusesShape(cfg, obs);
    forall i | 0 <= i < |rv|
      ensures r[i] == Some(rv[i])
    {
      ReceivedPartsAt(rv, cv, r, i);
    }
    forall i | 0 <= i < |cv|
      ensures r[|rv| + i] == Some(cv[i])
    {
      ReceivedPartsAt(rv, cv, r, i);
    }
  }

  /** The collected statuses are the two lists' statuses, then the integration tests' when configured. */
  lemma CollectedStatusesShape(cfg: Config, obs: Observations) returns (rv: seq<string>, cv: seq<string>)
    requires WellSized(cfg, obs) && CollectedStatuses(cfg, obs).Ok?
    ensures |rv| == |Entries(cfg.monitoredResources)| && |cv| == |Entries(cfg.monitoredCustomResources)|
    ensures ResourcesStatuses(Entries(cfg.monitoredResources), cfg.podReadinessTimeout, obs.resourceSchedules) == Ok(rv)
    ensures CustomResourcesStatuses(Entries(cfg.monitoredCustomResources), cfg.crProcessingTimeout, obs.find,
                                    obs.customResourceSchedules) == Ok(cv)
    ensures var r := CollectedStatuses(cfg, obs).value;
      |AsReceived(rv)| + |AsReceived(cv)| <= |r| && r[..|AsReceived(rv)| + |AsReceived(cv)|] == AsReceived(rv) + AsReceived(cv)
    ensures var r := CollectedStatuses(cfg, obs).value;
      if cfg.integrationTestsResource == "" then |r| == |rv| + |cv|
      else |r| == |rv| + |cv| + 1
           && IntegrationTestsOutcome(cfg.integrationTestsResource, cfg.integrationTestsConditionReason,
                                      cfg.integrationTestsSuccessfulConditionType, cfg.integrationTestsTimeout,
                                      obs.integrationTestsSchedule) == Ok(r[|rv| + |cv|])
  {
    rv := ResourcesStatuses(Entries(cfg.monitoredResources), cfg.podReadinessTimeout, obs.resourceSchedules).value;
    cv := CustomResourcesStatuses(Entries(cfg.monitoredCustomResources), cfg.crProcessingTimeout, obs.find,
                                  obs.customResourceSchedules).value;
    ResourcesStatusesInOrder(Entries(cfg.monitoredResources), cfg.podReadinessTimeout, obs.resourceSchedules);
    CustomResourcesStatusesInOrder(Entries(cfg.monitoredCustomResources), cfg.crProcessingTimeout, obs.find, obs.customResourceSchedules);
    var r := CollectedStatuses(cfg, obs).value;
    var both := AsReceived(rv) + AsReceived(cv);
    if cfg.integrationTestsResource == "" {
      assert r == both;
    } else {
      assert r == both + [r[|both|]];
    }
    assert r[..|both|] == both;
  }

  /** The target's status after publishing `c` in the configured form. */
  function PublishedStatus(status: Option<Status>, asField: bool, c: Condition): Status
    requires c.reason.Some?
  {
    if asField then FieldFormStatus(status, c) else ListFormStatus(status, c)
  }

  datatype RunOutcome = Skipped | Aborted(error: Error) | Published(condition: Condition)

  /** What the run reports and the status it leaves on the target. */
  datatype Run = Run(outcome: RunOutcome, status: Option<Status>)

  /**
   * The run on a target that is `present` or not: publish "In Progress",
   * collect the statuses, publish the final condition.  A missing target
   * makes the first publish fail, before anything is polled; an error after
   * the first publish leaves "In Progress" in place.
   */
  function ProvisionRun(cfg: Config, obs: Observations, present: bool, initial: Option<Status>): Run
    requires WellSized(cfg, obs)
  {
    if !ShouldRun(cfg) then Run(Skipped, initial)
    else match ParseCustomResource(cfg.resourceToSetStatus)
      case Err(e) => Run(Aborted(e), initial)
      case Ok(_) =>
        if !present then Run(Aborted(TargetNotFound), initial)
        else
          var factory := ConditionFactory(cfg.conditionReason, cfg.successfulConditionType);
          var inProgress := factory.GetCondition(InProgressConditionType, InProgressMessage, obs.inProgressTimestamp);
          var afterInProgress := PublishedStatus(initial, cfg.treatStatusAsField, inProgress);
          match CollectedStatuses(cfg, obs)
          case Err(e) => Run(Aborted(e), Some(afterInProgress))
          case Ok(received) =>
            var final := Aggregate(received, cfg.integrationTestsResource != "",
                                   cfg.successfulConditionType, cfg.failedConditionType);
            var c := factory.GetCondition(final.conditionType, final.message, obs.finalTimestamp);
            Run(Published(c), Some(PublishedStatus(Some(afterInProgress), cfg.treatStatusAsField, c)))
  }

  /** The run does nothing, and leaves the target alone, exactly when the configuration names nothing to monitor, no namespace or no target. */
  lemma SkippedIffNotConfigured(cfg: Config, obs: Observations, present: bool, initial: Option<Status>)
    requires WellSized(cfg, obs)
    ensures ProvisionRun(cfg, obs, present, initial).outcome == Skipped <==> !ShouldRun(cfg)
    ensures !ShouldRun(cfg) ==> ProvisionRun(cfg, obs, present, initial).status == initial
  {
  }

  /**
   * A completed run leaves the target as if only the final condition had
   * been published (the "In Progress" condition is replaced in place), and
   * that condition is failed, naming the failures, exactly when some status
   * is truthy.
   */
  lemma {:induction false} ProvisionPublishesAggregate(cfg: Config, obs: Observations, initial: Option<Status>)
    requires WellSized(cfg, obs) && ShouldRun(cfg)
    requires ParseCustomResource(cfg.resourceToSetStatus).Ok? && CollectedStatuses(cfg, obs).Ok?
    ensures var received := CollectedStatuses(cfg, obs).value;
      var run := ProvisionRun(cfg, obs, true, initial);
      && run.outcome.Published?
      && run.status == Some(PublishedStatus(initial, cfg.treatStatusAsField, run.outcome.condition))
      && run.outcome.condition.reason == Some(cfg.conditionReason)
      && ((exists i :: 0 <= i < |received| && IsTruthy(received[i]))
          ==> run.outcome.condition.conditionType == Some(cfg.failedConditionType)
              && run.outcome.condition.message == Some(Join(FilterTruthy(received), " ")))
      && ((forall i :: 0 <= i < |received| ==> !IsTruthy(received[i]))
          ==> run.outcome.condition.conditionType == Some(cfg.successfulConditionType)
              && run.outcome.condition.status == Some(ConditionStatusTrue)
              && run.outcome.condition.message == Some(SuccessMessage(cfg.integrationTestsResource != "")))
  {
    var factory := ConditionFactory(cfg.conditionReason, cfg.successfulConditionType);
    var inProgress := factory.GetCondition(InProgressConditionType, InProgressMessage, obs.inProgressTimestamp);
    var received := CollectedStatuses(cfg, obs).value;
    var final := Aggregate(received, cfg.integrationTestsResource != "", cfg.successfulConditionType, cfg.failedConditionType);
    var c := factory.GetCondition(final.conditionType, final.message, obs.finalTimestamp);
    PublishOverwrites(initial, inProgress, c);
  }

  /** A missing target aborts the run at the first publish: nothing is polled and the target is untouched. */
  lemma MissingTargetAbortsBeforePolling(cfg: Config, obs: Observations, initial: Option<Status>)
    requires WellSized(cfg, obs) && ShouldRun(cfg)
    requires ParseCustomResource(cfg.resourceToSetStatus).Ok?
    ensures ProvisionRun(cfg, obs, false, initial) == Run(Aborted(TargetNotFound), initial)
  {
  }

  /**
   * The optional variables unset: every field that `os.getenv` defaults
   * holds its default.
   */
  predicate DefaultsApplied(cfg: Config) {
    && !cfg.treatStatusAsField
    && cfg.podReadinessTimeout == DefaultTimeout && cfg.crProcessingTimeout == DefaultTimeout
    && cfg.conditionReason == DefaultConditionReason
    && cfg.successfulConditionType == SuccessfulConditionType && cfg.failedConditionType == FailedConditionType
    && cfg.integrationTestsConditionReason == IntegrationTestsDefaultConditionReason
    && cfg.integrationTestsSuccessfulConditionType == ReadyConditionType
    && cfg.integrationTestsTimeout == DefaultTimeout
  }

  /**
   * Under the defaults, a completed run publishes in the list form under the
   * default reason, and since the default condition types differ, the final
   * condition's status is "False" exactly when some status is truthy.
   */
  lemma {:induction false} DefaultsReportFailureAsFalse(cfg: Config, obs: Observations, initial: Option<Status>)
    requires WellSized(cfg, obs) && ShouldRun(cfg) && DefaultsApplied(cfg)
    requires ParseCustomResource(cfg.resourceToSetStatus).Ok? && CollectedStatuses(cfg, obs).Ok?
    ensures var received := CollectedStatuses(cfg, obs).value;
      var run := ProvisionRun(cfg, obs, true, initial);
      && run.outcome.Published?
      && run.outcome.condition.reason == Some(DefaultConditionReason)
      && run.status == Some(ListFormStatus(initial, run.outcome.condition))
      && (run.outcome.condition.status == Some(ConditionStatusFalse)
          <==> exists i :: 0 <= i < |received| && IsTruthy(received[i]))
  {
    ProvisionPublishesAggregate(cfg, obs, initial);
    var factory := ConditionFactory(cfg.conditionReason, cfg.successfulConditionType);
    var received := CollectedStatuses(cfg, obs).value;
    var final := Aggregate(received, cfg.integrationTestsResource != "", cfg.successfulConditionType, cfg.failedConditionType);
    var c := factory.GetCondition(final.conditionType, final.message, obs.finalTimestamp);
    assert ProvisionRun(cfg, obs, true, initial).outcome.condition == c;
  }

  /** The entry point (`__main__`). */
  method Provision(cfg: Config, obs: Observations, target: StatusTarget) returns (outcome: RunOutcome)
    requires WellSized(cfg, obs)
    modifies target
    ensures target.present == old(target.present)
    ensures Run(outcome, target.status) == ProvisionRun(cfg, obs, old(target.present), old(target.status))
  {
    if !ShouldRun(cfg) {
      return Skipped;
    }
    var statusResource := ParseCustomResource(cfg.resourceToSetStatus);
    if statusResource.Err? {
      return Aborted(statusResource.error);
    }
    var factory := ConditionFactory(cfg.conditionReason, cfg.successfulConditionType);
    var statusCondition := factory.GetCondition(InProgressConditionType, InProgressMessage, obs.inProgressTimestamp);
    var failure: Option<Error>;
    if cfg.treatStatusAsField {
      failure := target.UpdateCustomResourceStatusAsField(statusCondition);
    } else {
      failure := target.UpdateCustomResourceStatusCondition(statusCondition);
    }
    if failure.Some? {
      return Aborted(failure.value);
    }

    var resourceStatuses := GetResourcesStatuses(cfg.monitoredResources, cfg.podReadinessTimeout, obs.resourceSchedules);
    if resourceStatuses.Err? {
      return Aborted(resourceStatuses.error);
    }
    var receivedStatuses := AsReceived(resourceStatuses.value);

    var customResourceStatuses := GetCustomResourcesStatuses(cfg.monitoredCustomResources, cfg.crProcessingTimeout,
                                                             obs.find, obs.customResourceSchedules);
    if customResourceStatuses.Err? {
      return Aborted(customResourceStatuses.error);
    }
    receivedStatuses := receivedStatuses + AsReceived(customResourceStatuses.value);

    if cfg.integrationTestsResource != "" {
      var integrationTestsStatus := GetIntegrationTestsStatus(
        cfg.integrationTestsResource, cfg.integrationTestsConditionReason,
        cfg.integrationTestsSuccessfulConditionType, cfg.integrationTestsTimeout, obs.integrationTestsSchedule);
      if integrationTestsStatus.Err? {
        return Aborted(integrationTestsStatus.error);
      }
      receivedStatuses := receivedStatuses + [integrationTestsStatus.value];
    }

    var final := Aggregate(receivedStatuses, cfg.integrationTestsResource != "",
                           cfg.successfulConditionType, cfg.failedConditionType);
    statusCondition := factory.GetCondition(final.conditionType, final.message, obs.finalTimestamp);
    // The first publish found the target, so this one succeeds.
    if cfg.treatStatusAsField {
      failure := target.UpdateCustomResourceStatusAsField(statusCondition);
    } else {
      failure := target.UpdateCustomResourceStatusCondition(statusCondition);
    }
    return Published(statusCondition);
  }
}
