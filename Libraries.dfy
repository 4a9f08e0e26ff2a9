/**
 * The Kubernetes-facing library of the provisioner: custom-resource
 * references, the readiness predicates of the four workload kinds, status
 * conditions, and the two ways the final condition is upserted into the
 * status of the target custom resource.  Reads from the cluster are a
 * `Cluster` snapshot handed in by the caller; the target resource, whose
 * status the library rewrites, is the class `StatusTarget`.
 */
module Libraries {
  import opened Wrappers
  import opened Strings

  const DefaultTimeout: int := 300

  const DefaultConditionReason: string := "ServiceReadinessStatus"
  const IntegrationTestsDefaultConditionReason: string := "IntegrationTestsExecutionStatus"

  const FailedConditionType: string := "Failed"
  const InProgressConditionType: string := "In Progress"
  const ReadyConditionType: string := "Ready"
  const SuccessfulConditionType: string := "Successful"

  const ConditionStatusFalse: string := "False"
  const ConditionStatusTrue: string := "True"

  /** What the modelled code raises. */
  datatype Error =
    | MalformedCustomResource(description: string)       // not 4 tokens
    | MalformedResource(description: string)             // not 2 tokens
    | MalformedCustomResourceCheck(description: string)  // not 6 or 7 tokens
    | UnsupportedKind(kind: string)
    | NotFound(name: string)                             // the cluster has no such object
    | StatusMissing(name: string)                        // the object has no status to look into
    | TargetNotFound                                     // the resource that receives the status does not exist

  // ---------------------------------------------------------------------------
  // Custom resource references

  /** A custom resource, addressed by API group, version, plural and name. */
  datatype CustomResource = CustomResource(group: string, version: string, plural: string, name: string)
  {
    /** Every part is one whitespace-free, non-empty token. */
    predicate Valid() {
      IsToken(group) && IsToken(version) && IsToken(plural) && IsToken(name)
    }

    /** The display form `group/version plural name`. */
    function ToString(): string {
      group + "/" + version + " " + plural + " " + name
    }
  }

  /** The `CustomResource` constructor: exactly four whitespace-separated tokens, in order. */
  function ParseCustomResource(description: string): (r: Result<CustomResource, Error>)
    ensures r.Ok? <==> |Split(Strip(description))| == 4
    ensures r.Ok? ==> Split(Strip(description))
                      == [r.value.group, r.value.version, r.value.plural, r.value.name]
    ensures r.Err? ==> r.error == MalformedCustomResource(description)
  {
    var parts := Split(Strip(description));
    if |parts| != 4 then Err(MalformedCustomResource(description))
    else
      Ok(CustomResource(parts[0], parts[1], parts[2], parts[3]))
  }

  /** A parsed reference is valid: each of its parts is a token `split()` produced. */
  lemma ParsedCustomResourceValid(description: string)
    requires ParseCustomResource(description).Ok?
    ensures ParseCustomResource(description).value.Valid()
  {
    var parts := Split(Strip(description));
    assert IsToken(parts[0]) && IsToken(parts[1]) && IsToken(parts[2]) && IsToken(parts[3]);
  }

  /** Four tokens written out with single spaces parse back to the reference they name. */
  lemma ParseCustomResourceRoundTrip(cr: CustomResource)
    requires cr.Valid()
    ensures ParseCustomResource(Join([cr.group, cr.version, cr.plural, cr.name], " ")) == Ok(cr)
  {
    SplitStripJoin([cr.group, cr.version, cr.plural, cr.name]);
  }

  /** A trailing space does not change the reference four tokens name. */
  lemma ParseCustomResourceTrailingSpace(cr: CustomResource)
    requires cr.Valid()
    ensures ParseCustomResource(Join([cr.group, cr.version, cr.plural, cr.name], " ") + " ") == Ok(cr)
  {
    SplitStripJoinSpace([cr.group, cr.version, cr.plural, cr.name]);
  }

  /**
   * The display form has three tokens, `group/version`, `plural` and `name`,
   * so it is not itself a description the constructor accepts.
   */
  lemma ToStringTokens(cr: CustomResource)
    requires cr.Valid()
    ensures Split(cr.ToString()) == [cr.group + "/" + cr.version, cr.plural, cr.name]
    ensures ParseCustomResource(cr.ToString()).Err?
  {
    var head := cr.group + "/" + cr.version;
    assert IsToken(head) by {
      forall i | 0 <= i < |head| ensures !IsSpace(head[i]) {
        if i < |cr.group| {
          assert head[i] == cr.group[i];
        } else if i > |cr.group| {
          assert head[i] == cr.version[i - |cr.group| - 1];
        }
      }
    }
    var ts := [head, cr.plural, cr.name];
    assert ts[1..] == [cr.plural, cr.name] && ts[1..][1..] == [cr.name];
    assert Join(ts[1..], " ") == cr.plural + " " + cr.name;
    assert Join(ts, " ") == cr.ToString();
    SplitJoinRoundTrip(ts);
    SplitStripJoin(ts);
  }

  // ---------------------------------------------------------------------------
  // Workload statuses and readiness

  /** The counters of a daemon set status; `None` is a counter the API left out. */
  datatype DaemonSetStatus = DaemonSetStatus(
    desiredNumberScheduled: Option<int>, numberReady: Option<int>, updatedNumberScheduled: Option<int>)

  /** The counters of a deployment or stateful set status. */
  datatype ReplicaStatus = ReplicaStatus(
    replicas: Option<int>, readyReplicas: Option<int>, updatedReplicas: Option<int>)

  /** The counter of a job status. */
  datatype JobStatus = JobStatus(succeeded: Option<int>)

  /** One condition of a status: each field may be absent, as in the stored JSON. */
  datatype Condition = Condition(
    conditionType: Option<string>,
    status: Option<string>,
    reason: Option<string>,
    message: Option<string>,
    lastTransitionTime: Option<string>)

  /** A status object: its `conditions` list, if any, and the other keys it holds. */
  datatype Status = Status(conditions: Option<seq<Condition>>, otherFields: map<string, string>)

  /** A custom object as read from the cluster: its status and its other top-level keys. */
  datatype CustomObject = CustomObject(status: Option<Status>, fields: map<string, string>)

  /** What the cluster answers, at one moment, to the reads the library makes. */
  datatype Cluster = Cluster(
    daemonSets: map<string, DaemonSetStatus>,
    deployments: map<string, ReplicaStatus>,
    jobs: map<string, JobStatus>,
    statefulSets: map<string, ReplicaStatus>,
    customObjects: map<CustomResource, CustomObject>)

  /** A daemon set is ready when every desired pod is scheduled, ready and updated. */
  predicate IsDaemonSetReady(s: DaemonSetStatus) {
    s.desiredNumberScheduled == s.numberReady && s.desiredNumberScheduled == s.updatedNumberScheduled
  }

  /** A deployment or stateful set is ready when all its replicas are ready and updated. */
  predicate AreReplicasReady(s: ReplicaStatus) {
    s.replicas == s.readyReplicas && s.replicas == s.updatedReplicas
  }

  /** A job is done when exactly one pod has succeeded. */
  predicate IsJobSucceeded(s: JobStatus) {
    s.succeeded == Some(1)
  }

  /**
   * The comparisons are Python equalities on int-or-None: an absent counter
   * equals only another absent counter.
   */
  lemma ReadinessByCounters(d: DaemonSetStatus, s: ReplicaStatus, j: JobStatus)
    ensures IsDaemonSetReady(d) <==>
      match d.desiredNumberScheduled
      case None => d.numberReady.None? && d.updatedNumberScheduled.None?
      case Some(n) => d.numberReady == Some(n) && d.updatedNumberScheduled == Some(n)
    ensures AreReplicasReady(s) <==>
      match s.replicas
      case None => s.readyReplicas.None? && s.updatedReplicas.None?
      case Some(n) => s.readyReplicas == Some(n) && s.updatedReplicas == Some(n)
    ensures IsJobSucceeded(j) <==> j.succeeded.Some? && j.succeeded.value == 1
  {
  }

  /** The kinds `is_resource_ready` dispatches on; the caller has lower-cased the kind. */
  predicate IsSupportedKind(kind: string) {
    kind == "daemonset" || kind == "deployment" || kind == "job" || kind == "statefulset"
  }

  /** `is_resource_ready`: read the named workload of the given kind and apply its predicate. */
  function IsResourceReady(kind: string, name: string, cluster: Cluster): (r: Result<bool, Error>)
    ensures r == Err(UnsupportedKind(kind)) <==> !IsSupportedKind(kind)
    ensures r == Err(NotFound(name)) <==>
      (kind == "daemonset" && name !in cluster.daemonSets)
      || (kind == "deployment" && name !in cluster.deployments)
      || (kind == "job" && name !in cluster.jobs)
      || (kind == "statefulset" && name !in cluster.statefulSets)
    ensures r.Err? ==> r.error.UnsupportedKind? || r.error.NotFound?
  {
    if kind == "daemonset" then
      if name in cluster.daemonSets then Ok(IsDaemonSetReady(cluster.daemonSets[name])) else Err(NotFound(name))
    else if kind == "deployment" then
      if name in cluster.deployments then Ok(AreReplicasReady(cluster.deployments[name])) else Err(NotFound(name))
    else if kind == "job" then
      if name in cluster.jobs then Ok(IsJobSucceeded(cluster.jobs[name])) else Err(NotFound(name))
    else if kind == "statefulset" then
      if name in cluster.statefulSets then Ok(AreReplicasReady(cluster.statefulSets[name])) else Err(NotFound(name))
    else
      Err(UnsupportedKind(kind))
  }

  /** A workload that exists is judged by the predicate of its kind, and by nothing else in the snapshot. */
  lemma IsResourceReadyDispatch(kind: string, name: string, cluster: Cluster)
    ensures kind == "daemonset" && name in cluster.daemonSets ==>
      IsResourceReady(kind, name, cluster) == Ok(IsDaemonSetReady(cluster.daemonSets[name]))
    ensures kind == "deployment" && name in cluster.deployments ==>
      IsResourceReady(kind, name, cluster) == Ok(AreReplicasReady(cluster.deployments[name]))
    ensures kind == "job" && name in cluster.jobs ==>
      IsResourceReady(kind, name, cluster) == Ok(IsJobSucceeded(cluster.jobs[name]))
    ensures kind == "statefulset" && name in cluster.statefulSets ==>
      IsResourceReady(kind, name, cluster) == Ok(AreReplicasReady(cluster.statefulSets[name]))
  {
  }

  // ---------------------------------------------------------------------------
  // Building a condition

  /** Every key `get_condition` writes is present. */
  predicate IsComplete(c: Condition) {
    c.conditionType.Some? && c.status.Some? && c.reason.Some? && c.message.Some? && c.lastTransitionTime.Some?
  }

  /** The `Condition` helper: a fixed reason and the condition type that counts as success. */
  datatype ConditionFactory = ConditionFactory(reason: string, successfulType: string)
  {
    /** `get_condition`; `timestamp` is the already formatted UTC time. */
    function GetCondition(conditionType: string, message: string, timestamp: string): (c: Condition)
      ensures IsComplete(c)
      ensures c.status == Some(ConditionStatusTrue) <==> conditionType == successfulType
      ensures c.status == Some(ConditionStatusFalse) <==> conditionType != successfulType
      ensures c.conditionType == Some(conditionType) && c.reason == Some(reason)
      ensures c.message == Some(message) && c.lastTransitionTime == Some(timestamp)
    {
      Condition(
        Some(conditionType),
        Some(if conditionType == successfulType then ConditionStatusTrue else ConditionStatusFalse),
        Some(reason),
        Some(message),
        Some(timestamp))
    }
  }

  // ---------------------------------------------------------------------------
  // Finding and upserting conditions

  /** How a stored condition is matched against a key. */
  datatype MatchRule =
    | Reason                  // the lookup: `reason` equals the key
    | ReasonOrLegacyMessage   // the list form: `reason` equals the key, or no `reason` and `message` equals it
    | Message                 // the field form: `message` equals the key

  predicate Matches(rule: MatchRule, c: Condition, key: string) {
    match rule
    case Reason => c.reason == Some(key)
    case ReasonOrLegacyMessage => c.reason == Some(key) || (c.reason.None? && c.message == Some(key))
    case Message => c.message == Some(key)
  }

  /** The index of the first condition matching `key`, if any. */
  function FirstMatch(rule: MatchRule, cs: seq<Condition>, key: string): (r: Option<nat>)
    ensures r.Some? ==> r.value < |cs| && Matches(rule, cs[r.value], key)
    ensures r.Some? ==> forall j :: 0 <= j < r.value ==> !Matches(rule, cs[j], key)
    ensures r.None? ==> forall j :: 0 <= j < |cs| ==> !Matches(rule, cs[j], key)
  {
    if |cs| == 0 then None
    else if Matches(rule, cs[0], key) then Some(0)
    else match FirstMatch(rule, cs[1..], key)
      case Some(i) => Some(i + 1)
      case None => None
  }

  /** A matching condition is the first one exactly when nothing before it matches. */
  lemma FirstMatchAt(rule: MatchRule, cs: seq<Condition>, key: string, i: nat)
    requires i < |cs| && Matches(rule, cs[i], key)
    requires forall j :: 0 <= j < i ==> !Matches(rule, cs[j], key)
    ensures FirstMatch(rule, cs, key) == Some(i)
  {
    var r := FirstMatch(rule, cs, key);
  }

  /** Replace the first condition matching `key` by `incoming`, or append `incoming` if none matches. */
  function Upsert(rule: MatchRule, cs: seq<Condition>, key: string, incoming: Condition): seq<Condition> {
    if |cs| == 0 then [incoming]
    else if Matches(rule, cs[0], key) then [incoming] + cs[1..]
    else [cs[0]] + Upsert(rule, cs[1..], key, incoming)
  }

  /** With a match, only the first matching position changes, to `incoming`; the length is kept. */
  lemma {:induction false} UpsertReplacesFirstMatch(rule: MatchRule, cs: seq<Condition>, key: string, incoming: Condition)
    requires FirstMatch(rule, cs, key).Some?
    ensures Upsert(rule, cs, key, incoming) == cs[FirstMatch(rule, cs, key).value := incoming]
  {
    if !Matches(rule, cs[0], key) {
      UpsertReplacesFirstMatch(rule, cs[1..], key, incoming);
    }
  }

  /** Without a match, `incoming` is appended and everything else is kept in order. */
  lemma {:induction false} UpsertAppends(rule: MatchRule, cs: seq<Condition>, key: string, incoming: Condition)
    requires FirstMatch(rule, cs, key).None?
    ensures Upsert(rule, cs, key, incoming) == cs + [incoming]
  {
    if |cs| > 0 {
      UpsertAppends(rule, cs[1..], key, incoming);
      assert cs == [cs[0]] + cs[1..];
    }
  }

  /**
   * A second upsert under the same key lands where the first one did and
   * leaves no trace of it; with the same condition twice, upserting is idempotent.
   */
  lemma UpsertOverwrites(rule: MatchRule, cs: seq<Condition>, key: string, first: Condition, second: Condition)
    requires Matches(rule, first, key)
    ensures Upsert(rule, Upsert(rule, cs, key, first), key, second) == Upsert(rule, cs, key, second)
  {
    var once := Upsert(rule, cs, key, first);
    match FirstMatch(rule, cs, key)
    case Some(i) =>
      UpsertReplacesFirstMatch(rule, cs, key, first);
      UpsertReplacesFirstMatch(rule, cs, key, second);
      FirstMatchAt(rule, once, key, i);
      UpsertReplacesFirstMatch(rule, once, key, second);
    case None =>
      UpsertAppends(rule, cs, key, first);
      UpsertAppends(rule, cs, key, second);
      FirstMatchAt(rule, once, key, |cs|);
      UpsertReplacesFirstMatch(rule, once, key, second);
  }

  /** A condition matches at most one key under every rule. */
  lemma MatchesOneKey(rule: MatchRule, c: Condition, key: string, other: string)
    requires Matches(rule, c, key) && other != key
    ensures !Matches(rule, c, other)
  {
  }

  /** The number of conditions matching `key`. */
  function CountMatches(rule: MatchRule, cs: seq<Condition>, key: string): nat {
    if |cs| == 0 then 0
    else (if Matches(rule, cs[0], key) then 1 else 0) + CountMatches(rule, cs[1..], key)
  }

  /**
   * Upserting a condition that matches `key` leaves exactly as many matches
   * for every other key, and at least one and no more than before (or one)
   * for `key` itself.
   */
  lemma {:induction false} UpsertCounts(rule: MatchRule, cs: seq<Condition>, key: string, incoming: Condition, k: string)
    requires Matches(rule, incoming, key)
    ensures CountMatches(rule, Upsert(rule, cs, key, incoming), k)
         == if k == key then (if CountMatches(rule, cs, k) == 0 then 1 else CountMatches(rule, cs, k))
            else CountMatches(rule, cs, k)
  {
    if k != key {
      MatchesOneKey(rule, incoming, key, k);
    }
    if |cs| > 0 {
      var up := Upsert(rule, cs, key, incoming);
      if Matches(rule, cs[0], key) {
        assert up[1..] == cs[1..];
        if k != key {
          MatchesOneKey(rule, cs[0], key, k);
        }
      } else {
        assert up[1..] == Upsert(rule, cs[1..], key, incoming);
        UpsertCounts(rule, cs[1..], key, incoming, k);
      }
    }
  }

  /** No key matches two conditions. */
  ghost predicate KeysUnique(rule: MatchRule, cs: seq<Condition>) {
    forall k :: CountMatches(rule, cs, k) <= 1
  }

  /** Upserting keeps the invariant that no key matches two conditions, and the key then matches once. */
  lemma UpsertKeepsKeysUnique(rule: MatchRule, cs: seq<Condition>, key: string, incoming: Condition)
    requires Matches(rule, incoming, key)
    requires KeysUnique(rule, cs)
    ensures KeysUnique(rule, Upsert(rule, cs, key, incoming))
    ensures CountMatches(rule, Upsert(rule, cs, key, incoming), key) == 1
  {
    forall k ensures CountMatches(rule, Upsert(rule, cs, key, incoming), k) <= 1 {
      UpsertCounts(rule, cs, key, incoming, k);
    }
    UpsertCounts(rule, cs, key, incoming, key);
  }

  // ---------------------------------------------------------------------------
  // Reading a status condition

  /** `get_custom_resource_status_condition`: the first condition with the given reason, if any. */
  function StatusConditionLookup(cluster: Cluster, resource: CustomResource, reason: string): (r: Result<Option<Condition>, Error>)
    ensures r.Err? <==> resource !in cluster.customObjects || cluster.customObjects[resource].status.None?
    ensures r.Ok? && r.value.Some? ==> r.value.value.reason == Some(reason)
  {
    if resource !in cluster.customObjects then Err(NotFound(resource.name))
    else match cluster.customObjects[resource].status
      case None => Err(StatusMissing(resource.name))
      case Some(status) =>
        var cs := status.conditions.GetOr([]);
        match FirstMatch(Reason, cs, reason)
        case Some(i) => Ok(Some(cs[i]))
        case None => Ok(None)
  }

  /** The lookup finds a condition exactly when one with that reason is stored, and it is the first. */
  lemma StatusConditionLookupFindsFirst(cluster: Cluster, resource: CustomResource, reason: string)
    requires resource in cluster.customObjects && cluster.customObjects[resource].status.Some?
    ensures var cs := cluster.customObjects[resource].status.value.conditions.GetOr([]);
      && (StatusConditionLookup(cluster, resource, reason) == Ok(None)
          <==> forall j :: 0 <= j < |cs| ==> cs[j].reason != Some(reason))
      && forall i :: 0 <= i < |cs| && cs[i].reason == Some(reason)
           && (forall j :: 0 <= j < i ==> cs[j].reason != Some(reason))
           ==> StatusConditionLookup(cluster, resource, reason) == Ok(Some(cs[i]))
  {
    var cs := cluster.customObjects[resource].status.value.conditions.GetOr([]);
    forall i | 0 <= i < |cs| && cs[i].reason == Some(reason) && (forall j :: 0 <= j < i ==> cs[j].reason != Some(reason))
      ensures StatusConditionLookup(cluster, resource, reason) == Ok(Some(cs[i]))
    {
      FirstMatchAt(Reason, cs, reason, i);
    }
  }

  /** The lookup as the library runs it: a scan that returns at the first condition with the reason. */
  method GetCustomResourceStatusCondition(cluster: Cluster, resource: CustomResource, reason: string)
    returns (r: Result<Option<Condition>, Error>)
    ensures r == StatusConditionLookup(cluster, resource, reason)
  {
    if resource !in cluster.customObjects {
      return Err(NotFound(resource.name));
    }
    var resourceStatus := cluster.customObjects[resource].status;
    if resourceStatus.None? {
      return Err(StatusMissing(resource.name));
    }
    var conditions := resourceStatus.value.conditions.GetOr([]);
    var i := 0;
    while i < |conditions|
      invariant 0 <= i <= |conditions|
      invariant forall j :: 0 <= j < i ==> !Matches(Reason, conditions[j], reason)
    {
      if conditions[i].reason == Some(reason) {
        FirstMatchAt(Reason, conditions, reason, i);
        return Ok(Some(conditions[i]));
      }
      i := i + 1;
    }
    return Ok(None);
  }

  // ---------------------------------------------------------------------------
  // Publishing a condition

  /** The conditions stored in a status; a missing status or list reads as empty. */
  function ConditionsOf(status: Option<Status>): seq<Condition> {
    match status
    case None => []
    case Some(s) => s.conditions.GetOr([])
  }

  /** The status the list form writes: the old status, with `incoming` upserted by reason. */
  function ListFormStatus(status: Option<Status>, incoming: Condition): (s: Status)
    requires incoming.reason.Some?
  {
    var kept := if status.Some? then status.value.otherFields else map[];
    Status(Some(Upsert(ReasonOrLegacyMessage, ConditionsOf(status), incoming.reason.value, incoming)), kept)
  }

  /** The component condition the field form stores: type and status kept, the reason as its message. */
  function AsComponentCondition(c: Condition): (r: Condition)
    requires c.reason.Some?
    ensures r.conditionType == c.conditionType && r.status == c.status && r.message == c.reason
    ensures r.reason.None? && r.lastTransitionTime.None?
  {
    Condition(c.conditionType, c.status, None, c.reason, None)
  }

  /** The status the field form writes: only the conditions, with the component condition upserted by message. */
  function FieldFormStatus(status: Option<Status>, incoming: Condition): (s: Status)
    requires incoming.reason.Some?
  {
    Status(Some(Upsert(Message, ConditionsOf(status), incoming.reason.value, AsComponentCondition(incoming))), map[])
  }

  /** A target with no status, or no conditions, receives exactly the one new condition. */
  lemma PublishIntoEmpty(status: Option<Status>, incoming: Condition)
    requires incoming.reason.Some? && ConditionsOf(status) == []
    ensures ListFormStatus(status, incoming).conditions == Some([incoming])
    ensures FieldFormStatus(status, incoming).conditions == Some([AsComponentCondition(incoming)])
  {
  }

  /** The list form keeps the other keys of the status; the field form drops them. */
  lemma PublishKeepsOrDropsOtherFields(status: Status, incoming: Condition)
    requires incoming.reason.Some?
    ensures ListFormStatus(Some(status), incoming).otherFields == status.otherFields
    ensures FieldFormStatus(Some(status), incoming).otherFields == map[]
  {
  }

  /**
   * Publishing a second condition with the same reason replaces the first
   * one in place: the result is as if only the second had been published.
   * Publishing the same condition twice therefore changes nothing the second time.
   */
  lemma PublishOverwrites(status: Option<Status>, first: Condition, second: Condition)
    requires first.reason.Some? && second.reason == first.reason
    ensures ListFormStatus(Some(ListFormStatus(status, first)), second) == ListFormStatus(status, second)
    ensures FieldFormStatus(Some(FieldFormStatus(status, first)), second) == FieldFormStatus(status, second)
  {
    var key := first.reason.value;
    UpsertOverwrites(ReasonOrLegacyMessage, ConditionsOf(status), key, first, second);
    UpsertOverwrites(Message, ConditionsOf(status), key, AsComponentCondition(first), AsComponentCondition(second));
  }

  /**
   * The custom resource whose status receives the aggregate condition.  When
   * it does not exist, each update's first read fails (the API answers 404)
   * and nothing is written.
   */
  class StatusTarget {
    var present: bool
    var status: Option<Status>

    constructor (isPresent: bool, initial: Option<Status>)
      ensures present == isPresent && status == initial
    {
      present := isPresent;
      status := initial;
    }

    /** `update_custom_resource_status_condition`: read the status, upsert by reason, write the status back. */
    method UpdateCustomResourceStatusCondition(newCondition: Condition) returns (error: Option<Error>)
      requires newCondition.reason.Some?
      modifies this
      ensures present == old(present)
      ensures !old(present) ==> error == Some(TargetNotFound) && status == old(status)
      ensures old(present) ==> error == None && status == Some(ListFormStatus(old(status), newCondition))
    {
      if !present {
        return Some(TargetNotFound);
      }
      error := None;
      var current := if status.None? then Status(None, map[]) else status.value;
      var conditions := current.conditions.GetOr([]);
      ghost var before := conditions;
      var key := newCondition.reason.value;
      var isConditionFound := false;
      var i := 0;
      while i < |conditions|
        invariant 0 <= i <= |conditions| && conditions == before
        invariant forall j :: 0 <= j < i ==> !Matches(ReasonOrLegacyMessage, before[j], key)
      {
        var c := conditions[i];
        if c.reason == Some(key) || (c.reason.None? && c.message == Some(key)) {
          FirstMatchAt(ReasonOrLegacyMessage, before, key, i);
          UpsertReplacesFirstMatch(ReasonOrLegacyMessage, before, key, newCondition);
          conditions := conditions[i := newCondition];
          isConditionFound := true;
          break;
        }
        i := i + 1;
      }
      if !isConditionFound {
        UpsertAppends(ReasonOrLegacyMessage, before, key, newCondition);
        conditions := conditions + [newCondition];
      }
      status := Some(current.(conditions := Some(conditions)));
    }

    /** `update_custom_resource_status_as_field`: upsert the component condition by message, write only the conditions. */
    method UpdateCustomResourceStatusAsField(newCondition: Condition) returns (error: Option<Error>)
      requires newCondition.conditionType.Some? && newCondition.status.Some? && newCondition.reason.Some?
      modifies this
      ensures present == old(present)
      ensures !old(present) ==> error == Some(TargetNotFound) && status == old(status)
      ensures old(present) ==> error == None && status == Some(FieldFormStatus(old(status), newCondition))
    {
      if !present {
        return Some(TargetNotFound);
      }
      error := None;
      var conditions := if status.Some? then status.value.conditions.GetOr([]) else [];
      ghost var before := conditions;
      var componentCondition := AsComponentCondition(newCondition);
      var key := newCondition.reason.value;
      var isConditionFound := false;
      var i := 0;
      while i < |conditions|
        invariant 0 <= i <= |conditions| && conditions == before
        invariant forall j :: 0 <= j < i ==> !Matches(Message, before[j], key)
      {
        if conditions[i].message == componentCondition.message {
          FirstMatchAt(Message, before, key, i);
          UpsertReplacesFirstMatch(Message, before, key, componentCondition);
          conditions := conditions[i := componentCondition];
          isConditionFound := true;
          break;
        }
        i := i + 1;
      }
      if !isConditionFound {
        UpsertAppends(Message, before, key, componentCondition);
        conditions := conditions + [componentCondition];
      }
      status := Some(Status(Some(conditions), map[]));
    }
  }
}
