/** No order ever runs beside an old Pod, and only a finished runner is put to sleep. */
module PodSafety {
  import opened Api
  import opened SessionController
  import opened Protocol
  import opened Invariants
  import opened Preservation
  import opened Writes
  import opened Runs

  /** A live Sandbox in Running mode and a Pod it owns have the same generation behind
      them. */
  lemma OwnedPodIsCurrent(cfg: Config, s: State, n: string, id: nat)
    requires Inv(cfg, s) && n in s.sandboxes && s.sandboxes[n].IsRunning()
    requires id in s.pods && s.pods[id].owner == s.sandboxes[n].uid
    ensures s.pods[id].annotations == s.sandboxes[n].spec.template.annotations
    ensures s.pods[id].volumes == s.sandboxes[n].spec.template.volumes
    ensures s.pods[id].labels == s.sandboxes[n].spec.template.labels
    ensures PodOk(s, s.pods[id]) && Generation(s, s.pods[id]) == s.sandboxes[n].generation
  {
    hide EveryVersionOk, SecretsOk, ConditionsOk, HooksOk, RequestsOk, VersionsOk, HistoryOk, SeenOk, PodsOk,
         PodGenerationsOk;
    var sb, p := s.sandboxes[n], s.pods[id];
    PodIsOk(s, id);
    NewestOfUid(s, n, p.madeFrom);
    NoLaterRunning(s, id, sb.rv);
    if p.madeFrom < sb.rv {
      GrowsTo(s, p.madeFrom, sb.rv);
    }
  }

  lemma PodIsOk(s: State, id: nat)
    requires PodsOk(s) && id in s.pods
    ensures PodOk(s, s.pods[id]) && s.pods[id] in s.podsEver
  {
    hide PodOk;
  }

  lemma NewestOfUid(s: State, n: string, i: nat)
    requires VersionsOk(s) && n in s.sandboxes && i < |s.versions| && s.versions[i].uid == s.sandboxes[n].uid
    ensures i <= s.sandboxes[n].rv && IsVersion(s, s.sandboxes[n])
  {
  }

  lemma NoLaterRunning(s: State, id: nat, i: nat)
    requires PodGenerationsOk(s) && id in s.pods && i < |s.versions|
    requires s.versions[i].IsRunning() && s.versions[i].uid == s.pods[id].owner
    ensures s.versions[i].generation <= Generation(s, s.pods[id])
  {
    hide Live, Generation;
  }

  lemma GrowsTo(s: State, i: nat, j: nat)
    requires HistoryOk(s) && i < j < |s.versions| && s.versions[i].uid == s.versions[j].uid
    ensures AttemptsGrow(s.versions[i], s.versions[j]) && GenerationsGrow(s.versions[i], s.versions[j])
  {
    hide AttemptsGrow, GenerationsGrow;
  }

  lemma LiveFacts(cfg: Config, s: State, n: string) returns (h: nat)
    requires Inv(cfg, s) && n in s.sandboxes
    ensures LiveIn(s, s.sandboxes[n]) && VersionOk(cfg, s, s.sandboxes[n])
    ensures h in s.hooks && CarriesOrder(cfg, s, s.sandboxes[n], s.hooks[h].req) && ValidRequest(s.hooks[h].req)
    ensures InPhase(s.sandboxes[n])
  {
    hide HistoryOk, SecretsOk, SeenOk, ConditionsOk, PodsOk, PodGenerationsOk, HooksOk, AcceptedAttempt,
         CarriesOrder, InPhase, NamedVolume, Selected, Contracted, SameOrder;
    assert IsVersion(s, s.sandboxes[n]);
    LiveVersionOk(cfg, s, s.sandboxes[n]);
    h := AcceptedRequest(cfg, s, s.sandboxes[n]);
  }

  /** Suspended=True for the current generation means the spec asks for suspension and
      no owned Pod exists, however far behind the sandbox controller's view was. */
  lemma ConfirmedSuspensionMeansNoPod(cfg: Config, run: seq<State>, steps: seq<Step>, k: nat, n: string, id: nat)
    requires ConfigOk(cfg) && IsRun(cfg, run, steps) && k < |run|
    requires n in run[k].sandboxes && CurrentGenerationTrue(run[k].sandboxes[n], SuspendedCondition)
    requires id in run[k].pods
    ensures !run[k].sandboxes[n].IsRunning()
    ensures run[k].pods[id].owner != run[k].sandboxes[n].uid
  {
    hide IsRun, ConfigOk, Inv;
    RunInv(cfg, run, steps, k);
    var h := LiveFacts(cfg, run[k], n);
    ConfirmedSuspension(cfg, run[k], run[k].sandboxes[n]);
  }

  /** In Running mode every owned Pod carries the applied order and its Secret. */
  lemma RunningPodsCarryTheAppliedOrder(cfg: Config, run: seq<State>, steps: seq<Step>, k: nat, n: string, id: nat)
    returns (req: Request)
    requires ConfigOk(cfg) && IsRun(cfg, run, steps) && k < |run|
    requires n in run[k].sandboxes && run[k].sandboxes[n].IsRunning()
    requires id in run[k].pods && run[k].pods[id].owner == run[k].sandboxes[n].uid
    ensures exists h :: h in run[k].hooks && run[k].hooks[h].req == req
    ensures var sb, p := run[k].sandboxes[n], run[k].pods[id];
            && sb.Annotation(AppliedSpawn) == req.order == sb.Annotation(LastOrderId)
            && Get(p.annotations, OrderId) == req.order
            && WorkOrderSecretOf(p.volumes) == cfg.names.secret(req.session, sb.uid, req.order)
            && (sb.Annotation(PendingSecret) != "" ==> WorkOrderSecretOf(p.volumes) == sb.Annotation(PendingSecret))
  {
    hide IsRun, ConfigOk, Inv, VersionOk, WorkOrderSecretOf;
    RunInv(cfg, run, steps, k);
    var h := LiveFacts(cfg, run[k], n);
    req := run[k].hooks[h].req;
    OwnedPodIsCurrent(cfg, run[k], n, id);
  }

  /** At most one Pod per Sandbox uid. */
  lemma AtMostOnePod(cfg: Config, run: seq<State>, steps: seq<Step>, k: nat, id: nat, jd: nat)
    requires ConfigOk(cfg) && IsRun(cfg, run, steps) && k < |run|
    requires id in run[k].pods && jd in run[k].pods && run[k].pods[id].owner == run[k].pods[jd].owner
    ensures id == jd
  {
    hide IsRun, ConfigOk, PodOk;
    RunInv(cfg, run, steps, k);
  }

  // ---- What a committed pass found

  predicate IsPass(step: Step) {
    step.ControllerPass?
  }

  /** The write step k's pass decides on, from the version it read. */
  function PassWrite(cfg: Config, s: State, step: Step): Write
    requires IsPass(step) && step.at < |s.versions|
  {
    Decide(cfg, s.versions[step.at], step.pods, step.secret, step.list, step.now)
  }

  /** Step k is a pass whose write takes effect. */
  ghost predicate Commits(cfg: Config, run: seq<State>, steps: seq<Step>, k: nat) {
    && k < |steps| && |run| == |steps| + 1
    && IsPass(steps[k]) && steps[k].at < |run[k].versions|
    && PassWrite(cfg, run[k], steps[k]) != Nothing
    && Current(run[k], run[k].versions[steps[k].at])
  }

  /** The Sandbox a committed pass acted on is the live one. */
  lemma CommitsOnLive(cfg: Config, run: seq<State>, steps: seq<Step>, k: nat) returns (sb: Sandbox)
    requires ConfigOk(cfg) && IsRun(cfg, run, steps) && Commits(cfg, run, steps, k)
    ensures sb == run[k].versions[steps[k].at] && LiveIn(run[k], sb) && Inv(cfg, run[k])
  {
    hide Inv, IsRun, ConfigOk, Decide;
    RunInv(cfg, run, steps, k);
    sb := run[k].versions[steps[k].at];
    Safety.InvVersions(cfg, run[k]);
    CurrentIsLive(run[k], sb);
  }

  /** Wake never installs an order while a Pod of its Sandbox exists. */
  lemma WakeFindsNoPod(cfg: Config, run: seq<State>, steps: seq<Step>, k: nat, id: nat)
    requires ConfigOk(cfg) && IsRun(cfg, run, steps) && Commits(cfg, run, steps, k)
    requires PassWrite(cfg, run[k], steps[k]).Awoke? && id in run[k].pods
    ensures run[k].pods[id].owner != run[k].versions[steps[k].at].uid
  {
    hide Inv, IsRun, ConfigOk, Observe, Sleep, ValidWorkOrderSecret;
    var sb := CommitsOnLive(cfg, run, steps, k);
    ConfirmedSuspension(cfg, run[k], sb);
  }

  /** Sleep suspends only a Sandbox whose one Pod exists and has terminated. */
  lemma SleepFindsFinishedPod(cfg: Config, run: seq<State>, steps: seq<Step>, k: nat)
    requires ConfigOk(cfg) && IsRun(cfg, run, steps) && Commits(cfg, run, steps, k)
    requires PassWrite(cfg, run[k], steps[k]).Slept?
    ensures HasPod(run[k].pods, run[k].versions[steps[k].at].uid)
    ensures forall id :: id in run[k].pods && run[k].pods[id].owner == run[k].versions[steps[k].at].uid ==>
              run[k].pods[id].terminal
  {
    hide Inv, IsRun, ConfigOk, Observe, Wake, GcDue;
    var sb := CommitsOnLive(cfg, run, steps, k);
    FinishedIsTrue(cfg, run[k], sb);
  }

  lemma FinishedIsTrue(cfg: Config, s: State, sb: Sandbox)
    requires Inv(cfg, s) && LiveIn(s, sb) && CurrentGenerationTrue(sb, FinishedCondition)
    ensures HasPod(s.pods, sb.uid)
    ensures forall id :: id in s.pods && s.pods[id].owner == sb.uid ==> s.pods[id].terminal
  {
    hide EveryVersionOk, SecretsOk, HooksOk, RequestsOk, VersionsOk, HistoryOk, PodsOk, PodGenerationsOk, HasPod;
    assert ConditionOk(s, sb.uid, FinishedCondition, sb.conditions[FinishedCondition]);
    SeenBehind(cfg, s, sb);
  }

  /** Spawn observation commits only in Running mode, on the applied order, while a
      Pod of this uid carrying that order and that Secret stands in the cluster, even
      though the Pod list it read may have been stale. */
  lemma ObservationFindsThePod(cfg: Config, run: seq<State>, steps: seq<Step>, k: nat) returns (id: nat)
    requires ConfigOk(cfg) && IsRun(cfg, run, steps) && Commits(cfg, run, steps, k)
    requires PassWrite(cfg, run[k], steps[k]).Observed?
    ensures var sb := run[k].versions[steps[k].at];
            && Starting(sb) && id in run[k].pods && run[k].pods[id].owner == sb.uid
            && !run[k].pods[id].deleting
            && Acknowledges(run[k].pods[id], sb.Annotation(PendingSpawn), sb.Annotation(PendingSecret))
  {
    hide Inv, IsRun, ConfigOk, Sleep, Wake, GcDue, Acknowledges, Enabled, Apply;
    var sb := CommitsOnLive(cfg, run, steps, k);
    var s, pods := run[k], OwnedPods(cfg, steps[k].pods, sb.uid);
    OwnedPodsMembers(cfg, steps[k].pods, sb.uid);
    ObserveSucceeds(cfg, s, sb, pods);
    var p :| p in pods && Acknowledges(p, sb.Annotation(PendingSpawn), sb.Annotation(PendingSecret));
    assert p in s.podsEver by { PassReadsPods(cfg, run, steps, k, p); }
    id := p.id;
    AcknowledgingPodStands(cfg, s, sb, p);
  }

  lemma PassReadsPods(cfg: Config, run: seq<State>, steps: seq<Step>, k: nat, p: Pod)
    requires IsRun(cfg, run, steps) && k < |steps| && IsPass(steps[k]) && p in steps[k].pods
    ensures p in run[k].podsEver
  {
    assert Enabled(cfg, run[k], steps[k]);
  }

  /** Orders installed in different generations of one uid differ, so a Pod carrying
      the applied order was made in the current one and is still there. */
  lemma AcknowledgingPodStands(cfg: Config, s: State, sb: Sandbox, p: Pod)
    requires Inv(cfg, s) && LiveIn(s, sb) && Starting(sb) && p in s.podsEver && p.owner == sb.uid
    requires Acknowledges(p, sb.Annotation(PendingSpawn), sb.Annotation(PendingSecret))
    ensures p.id in s.pods && !s.pods[p.id].deleting && s.pods[p.id].owner == sb.uid
    ensures Acknowledges(s.pods[p.id], sb.Annotation(PendingSpawn), sb.Annotation(PendingSecret))
  {
    hide HistoryOk, EveryVersionOk, SecretsOk, HooksOk, RequestsOk, ConditionsOk, InPhase, WorkOrderSecretOf,
         SeenOk, VersionsOk;
    SameOrderSameGeneration(cfg, s, sb, p);
    assert sb.uid in s.seen && s.seen[sb.uid].generation <= sb.generation by {
      assert PodOk(s, p);
      SeenBehind(cfg, s, sb);
    }
    assert Live(s.sandboxes, p.owner);
    assert PodOk(s, p) && PodOk(s, s.pods[p.id]);
  }

  lemma SameOrderSameGeneration(cfg: Config, s: State, sb: Sandbox, p: Pod)
    requires Inv(cfg, s) && LiveIn(s, sb) && Starting(sb) && p in s.podsEver && p.owner == sb.uid
    requires Get(p.annotations, OrderId) == sb.Annotation(PendingSpawn)
    ensures Generation(s, p) == sb.generation
  {
    hide EveryVersionOk, SecretsOk, HooksOk, ConditionsOk, PodGenerationsOk, AcceptedAttempt;
    var w := s.versions[p.madeFrom];
    assert PodOk(s, p) && IsVersion(s, sb);
    assert p.madeFrom <= sb.rv;
    RunningOrder(cfg, s, p.madeFrom);
    if p.madeFrom < sb.rv {
      assert AttemptsGrow(s.versions[p.madeFrom], s.versions[sb.rv]) &&
             GenerationsGrow(s.versions[p.madeFrom], s.versions[sb.rv]);
      SameOrderSameAttempt(cfg, s, w, sb);
    }
  }

  lemma RunningOrder(cfg: Config, s: State, i: nat)
    requires EveryVersionOk(cfg, s) && i < |s.versions| && s.versions[i].IsRunning()
    ensures Get(s.versions[i].spec.template.annotations, OrderId) == s.versions[i].Annotation(LastOrderId)
  {
    hide NamedVolume, Selected, AcceptedAttempt, HasSecret, WorkOrderSecretOf;
    assert VersionOk(cfg, s, s.versions[i]);
  }

  lemma SameOrderSameAttempt(cfg: Config, s: State, v: Sandbox, w: Sandbox)
    requires RequestsOk(cfg, s) && EveryVersionOk(cfg, s) && IsVersion(s, v) && IsVersion(s, w)
    requires v.Annotation(LastOrderId) == w.Annotation(LastOrderId)
    ensures AcceptedAttempt(v) == AcceptedAttempt(w)
  {
    hide VersionOk, AcceptedAttempt, EveryVersionOk, Contracted;
    HookSteps.SnapVersionOk(cfg, s, v);
    HookSteps.SnapVersionOk(cfg, s, w);
    var g := AcceptedRequest(cfg, s, v);
    var h := AcceptedRequest(cfg, s, w);
    assert SameOrder(s.hooks[g].req, s.hooks[h].req);
  }
}
