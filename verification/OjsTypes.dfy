/**
 The custom resources of the operator: the spec fields its controllers read, and the
 status block both of them write (api/v1alpha1).  Go pointers that may be nil are Options.
 */
module OjsTypes {

  datatype Option<+T> = None | Some(value: T)

  /** Namespace and name of a custom resource. */
  datatype Name = Name(ns: string, name: string)

  type Labels = map<string, string>

  datatype SecretKeyRef = SecretKeyRef(name: string, key: string)

  datatype Backend = Backend(engine: string, url: string, urlSecretRef: Option<SecretKeyRef>, embedded: bool)

  datatype AutoScaling = AutoScaling(enabled: bool, minReplicas: int, maxReplicas: int)

  datatype Monitoring = Monitoring(enabled: bool, serviceMonitor: bool)

  datatype PodSecurity = PodSecurity(
    runAsNonRoot: Option<bool>, runAsUser: Option<int>, runAsGroup: Option<int>,
    fsGroup: Option<int>, readOnlyRootFilesystem: Option<bool>)

  datatype DisruptionBudget = DisruptionBudget(
    enabled: Option<bool>, minAvailable: Option<int>, maxUnavailable: Option<int>)

  datatype Resources = Resources(limits: Option<Labels>, requests: Option<Labels>)

  datatype Spread = Spread(maxSkew: int, topologyKey: string, scheduleAnyway: bool, matchLabels: Labels)

  datatype ClusterSpec = ClusterSpec(
    backend: Backend,
    replicas: Option<int>,
    image: string,
    autoScaling: Option<AutoScaling>,
    resources: Resources,
    monitoring: Option<Monitoring>,
    securityContext: Option<PodSecurity>,
    podDisruptionBudget: Option<DisruptionBudget>,
    topologySpread: seq<Spread>,
    serviceAccountName: string)

  datatype EnvSource = Literal(value: string) | FromConfigMap(map_: string, mapKey: string) | FromSecret(ref: SecretKeyRef)

  datatype EnvVar = EnvVar(name: string, source: EnvSource)

  datatype WorkerAutoScaling = WorkerAutoScaling(enabled: bool, minReplicas: int, maxReplicas: int, pollingInterval: string)

  datatype WorkerSpec = WorkerSpec(
    clusterRef: string,
    jobTypes: seq<string>,
    queues: seq<string>,
    concurrency: int,
    replicas: Option<int>,
    image: string,
    command: seq<string>,
    env: seq<EnvVar>,
    resources: Resources,
    autoScaling: Option<WorkerAutoScaling>,
    gracefulTimeout: Option<int>)

  // ---------------------------------------------------------------- status

  datatype Phase = Unset | Pending | Running | Scaling | Error

  datatype ConditionType = Ready | Available | Progressing | Degraded | BackendReady

  /** `observed` is observedGeneration, `since` is lastTransitionTime. */
  datatype Condition = Condition(ctype: ConditionType, status: bool, observed: nat, since: nat)

  datatype Status = Status(phase: Phase, replicas: int, readyReplicas: int, conditions: seq<Condition>)

  const NO_STATUS := Status(Unset, 0, 0, [])

  /** The condition of type `t`, if there is one (meta.FindStatusCondition). */
  function Find(cs: seq<Condition>, t: ConditionType): (r: Option<Condition>)
    ensures r.Some? ==> r.value in cs && r.value.ctype == t
    ensures r.None? ==> forall c :: c in cs ==> c.ctype != t
  {
    if cs == [] then None
    else if cs[0].ctype == t then Some(cs[0])
    else Find(cs[1..], t)
  }

  predicate IsTrue(cs: seq<Condition>, t: ConditionType) {
    Find(cs, t).Some? && Find(cs, t).value.status
  }

  /** At most one condition per type: none is repeated behind its first occurrence. */
  predicate Unique(cs: seq<Condition>) {
    cs == [] || (Find(cs[1..], cs[0].ctype).None? && Unique(cs[1..]))
  }

  /**
   meta.SetStatusCondition: update the condition of that type in place, or append it.  The
   transition time moves only when the status flips.
   */
  function SetCondition(cs: seq<Condition>, t: ConditionType, status: bool, gen: nat, now: nat): (r: seq<Condition>)
    ensures Find(r, t) == Some(Condition(t, status, gen,
      if Find(cs, t).Some? && Find(cs, t).value.status == status then Find(cs, t).value.since else now))
    ensures forall t' :: t' != t ==> Find(r, t') == Find(cs, t')
  {
    if cs == [] then [Condition(t, status, gen, now)]
    else if cs[0].ctype == t then
      [Condition(t, status, gen, if cs[0].status == status then cs[0].since else now)] + cs[1..]
    else
      [cs[0]] + SetCondition(cs[1..], t, status, gen, now)
  }

  /** SetCondition adds no second condition of a type that is already there. */
  lemma {:induction false} SetConditionKeepsUnique(cs: seq<Condition>, t: ConditionType, status: bool, gen: nat, now: nat)
    requires Unique(cs)
    ensures Unique(SetCondition(cs, t, status, gen, now))
  {
    if cs != [] && cs[0].ctype != t {
      SetConditionKeepsUnique(cs[1..], t, status, gen, now);
    }
  }

  /** Unique says what it should: no two positions hold the same type, and Find sees every condition. */
  lemma {:induction false} UniqueMeansDistinct(cs: seq<Condition>)
    ensures Unique(cs) <==> forall i, j :: 0 <= i < j < |cs| ==> cs[i].ctype != cs[j].ctype
    ensures Unique(cs) ==> forall c :: c in cs ==> Find(cs, c.ctype) == Some(c)
  {
    if cs != [] {
      var rest := cs[1..];
      UniqueMeansDistinct(rest);
      assert forall i :: 0 <= i < |rest| ==> rest[i] == cs[i + 1] && rest[i] in rest;
      if Unique(cs) {
        forall c | c in cs ensures Find(cs, c.ctype) == Some(c) {
          if c != cs[0] { assert c in rest; }
        }
      } else if Unique(rest) {
        var d := Find(rest, cs[0].ctype).value;
        var k :| 0 <= k < |rest| && rest[k] == d;
        assert cs[0].ctype == cs[k + 1].ctype;
      } else {
        var i, j :| 0 <= i < j < |rest| && rest[i].ctype == rest[j].ctype;
        assert cs[i + 1].ctype == cs[j + 1].ctype;
      }
    }
  }
}
