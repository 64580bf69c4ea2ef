/** A prepared order is observed in the end, and exit 0 promises as much. */
module Liveness {
  import opened Api
  import opened SessionController
  import opened Protocol
  import opened Invariants
  import opened Writes
  import opened Runs
  import opened PodSafety
  import opened Agreement
  import opened Progress
  import opened Safety

  // ---- The kinds of steps fairness speaks of

  /** What the sandbox controller, the kubelet and the session controller keep doing for
      one Sandbox. */
  datatype Kind = Sees | Deletes | Goes | Makes | Reports | Passes

  function StandingSecret(s: State, sb: Sandbox): Option<Secret> {
    var name := sb.Annotation(PendingSecret);
    if name in s.secrets then Some(s.secrets[name]) else None
  }

  /** A pass that reads the live Sandbox, all its Pods and its pending Secret; whatever
      else it reads. */
  predicate ReadsCurrent(s: State, step: Step, n: string)
    requires n in s.sandboxes
  {
    var sb := s.sandboxes[n];
    && step.ControllerPass? && step.at == sb.rv && step.secret == StandingSecret(s, sb)
    && forall id :: id in s.pods && s.pods[id].owner == sb.uid ==> s.pods[id] in step.pods
  }

  predicate OfKind(s: State, step: Step, n: string, kind: Kind) {
    n in s.sandboxes &&
    var sb := s.sandboxes[n];
    match kind
    case Sees => step == See(sb.rv)
    case Deletes => step.DeletePod? && step.id in s.pods && s.pods[step.id].owner == sb.uid
    case Goes => step.PodGone? && step.id in s.pods && s.pods[step.id].owner == sb.uid
    case Makes => step.CreatePod? && step.uid == sb.uid
    case Reports => step == Report(n)
    case Passes => ReadsCurrent(s, step, n)
  }

  ghost predicate CanStep(cfg: Config, s: State, n: string, kind: Kind) {
    exists step :: Enabled(cfg, s, step) && OfKind(s, step, n, kind)
  }

  /** The kind that is due while an order is pending. */
  function DueKind(v: View): Kind {
    if v.seen != Some(v.sb) then Sees
    else if v.pods != map[] then (if v.sb.IsRunning() then Passes else if AnyDeleting(v.pods) then Goes else Deletes)
    else if v.sb.IsRunning() then Makes
    else if v.sb.conditions != ReportedConditions(v.sb, v.pods) then Reports
    else Passes
  }

  predicate Moves(cfg: Config, s: State, step: Step, n: string)
    requires Enabled(cfg, s, step) && n in s.sandboxes
  {
    n in Apply(cfg, s, step).sandboxes && ViewOf(Apply(cfg, s, step), n) != ViewOf(s, n)
  }

  /** An enabled step, not a hook's, that changes what bears on the Sandbox. */
  ghost predicate Possible(cfg: Config, s: State, step: Step, n: string) {
    n in s.sandboxes && !step.HookCall? && Enabled(cfg, s, step) && Moves(cfg, s, step, n)
  }

  // ---- The due kind can step, and moves when it does

  lemma {:induction false} FreshPodId(pods: set<Pod>) returns (id: nat)
    ensures forall p :: p in pods ==> p.id < id
    decreases |pods|
  {
    if pods == {} {
      id := 0;
    } else {
      var p :| p in pods;
      id := FreshPodId(pods - {p});
      id := if p.id < id then id else p.id + 1;
    }
  }

  lemma SeeMoves(cfg: Config, s: State, n: string)
    requires Inv(cfg, s) && n in s.sandboxes && ViewOf(s, n).seen != Some(s.sandboxes[n])
    ensures Possible(cfg, s, See(s.sandboxes[n].rv), n)
  {
    hide Inv, PodsOf;
    LiveIsVersion(cfg, s, n);
    if s.sandboxes[n].uid in s.seen {
      SeenIsNoNewer(cfg, s, n);
    }
  }

  lemma SeenIsNoNewer(cfg: Config, s: State, n: string)
    requires Inv(cfg, s) && n in s.sandboxes && s.sandboxes[n].uid in s.seen
    ensures var seen := s.seen[s.sandboxes[n].uid]; seen == s.sandboxes[n] || seen.rv < s.sandboxes[n].rv
  {
    hide EveryVersionOk, HistoryOk, SecretsOk, ConditionsOk, PodsOk, PodGenerationsOk, HooksOk, RequestsOk;
    var sb := s.sandboxes[n];
    assert IsVersion(s, sb);
    assert IsVersion(s, s.seen[sb.uid]) && s.versions[s.seen[sb.uid].rv].uid == sb.uid;
  }

  lemma ReportMoves(cfg: Config, s: State, n: string)
    requires Inv(cfg, s) && n in s.sandboxes && Enabled(cfg, s, Report(n))
    ensures Possible(cfg, s, Report(n), n)
  {
    hide Inv, PodsOf, ReportedConditions;
    LiveIsVersion(cfg, s, n);
  }

  /** A Pod that is asked to go, or is gone. */
  lemma RemovalMoves(cfg: Config, s: State, n: string, id: nat, step: Step)
    requires Inv(cfg, s) && n in s.sandboxes && id in s.pods && s.pods[id].owner == s.sandboxes[n].uid
    requires Enabled(cfg, s, step) && step in {DeletePod(id), PodGone(id)}
    ensures Possible(cfg, s, step, n)
  {
    hide Inv, PodsOf;
    var p := s.pods[id];
    OnlyPod(cfg, s, id);
    ReplacedPod(s.pods, p.(deleting := true));
    assert map[id := p][id] == p && map[id := p.(deleting := true)][id].deleting;
    assert ViewOf(Apply(cfg, s, step), n).pods == if step.PodGone? then map[] else map[id := p.(deleting := true)];
  }

  lemma CreationMoves(cfg: Config, s: State, n: string, id: nat)
    requires Inv(cfg, s) && n in s.sandboxes && Enabled(cfg, s, CreatePod(s.sandboxes[n].uid, id))
    ensures Possible(cfg, s, CreatePod(s.sandboxes[n].uid, id), n)
  {
    hide Inv, HasPod;
    NewPod(cfg, s, s.sandboxes[n].uid, id);
    var t := Apply(cfg, s, CreatePod(s.sandboxes[n].uid, id));
    assert id in ViewOf(t, n).pods && id !in ViewOf(s, n).pods;
  }

  lemma WrittenMoves(s: State, n: string, mut: Sandbox)
    requires n in s.sandboxes && s.sandboxes[n].name == n
    requires mut == s.sandboxes[n].(annotations := mut.annotations, spec := mut.spec)
    requires mut.annotations != s.sandboxes[n].annotations || mut.spec != s.sandboxes[n].spec
    ensures var t := Patch(s, s.sandboxes[n], mut); n in t.sandboxes && ViewOf(t, n) != ViewOf(s, n)
  {
    hide PodsOf;
  }

  lemma LiveContent(cfg: Config, s: State, sb: Sandbox)
    requires VersionOk(cfg, s, sb)
    ensures Selected(cfg, sb.labels) && Selected(cfg, sb.spec.template.labels)
    ensures NamedVolume(sb.spec.template.volumes, WORK_ORDER_VOLUME).Some?
  {
  }

  /** With the suspension confirmed, a pass that reads the pending Secret wakes. */
  lemma PassWakes(cfg: Config, s: State, n: string, step: Step)
    requires ConfigOk(cfg) && Inv(cfg, s) && Pending(s, n) && ReadsCurrent(s, step, n)
    requires Preparing(s.sandboxes[n]) && CurrentGenerationTrue(s.sandboxes[n], SuspendedCondition)
    ensures step.secret.Some? && Wake(cfg, s.sandboxes[n], step.secret).Woken?
    ensures Decide(cfg, s.sandboxes[n], step.pods, step.secret, step.list, step.now) ==
            Awoke(Wake(cfg, s.sandboxes[n], step.secret).mut)
  {
    hide ConfigOk, ValidWorkOrderSecret, Inv, VersionOk, Installed, NamedVolume, Selected, CarriesOrder,
         CurrentGenerationTrue;
    var sb := s.sandboxes[n];
    var h := LiveFacts(cfg, s, n);
    SecretIsReady(cfg, s, n);
    LiveContent(cfg, s, sb);
  }

  /** With the Pod there, a pass that reads it acknowledges. */
  lemma PassObserves(cfg: Config, s: State, n: string, step: Step, id: nat)
    requires Inv(cfg, s) && Pending(s, n) && ReadsCurrent(s, step, n) && Starting(s.sandboxes[n])
    requires id in s.pods && s.pods[id].owner == s.sandboxes[n].uid
    ensures var sb, pods := s.sandboxes[n], OwnedPods(cfg, step.pods, s.sandboxes[n].uid);
            && Observe(sb, pods).Some?
            && Decide(cfg, sb, step.pods, step.secret, step.list, step.now) == Observed(Observe(sb, pods).value)
  {
    hide Inv, VersionOk, Selected, CarriesOrder, PodOk, WorkOrderSecretOf, InPhase, Sleep, Wake, GcDue, OwnedPods;
    var sb, p := s.sandboxes[n], s.pods[id];
    var h := LiveFacts(cfg, s, n);
    OwnedPodIsCurrent(cfg, s, n, id);
    LiveContent(cfg, s, sb);
    CarriedPod(cfg, s, sb, s.hooks[h].req, p);
    OwnedPodsMembers(cfg, step.pods, sb.uid);
    assert p in OwnedPods(cfg, step.pods, sb.uid);
  }

  lemma CarriedPod(cfg: Config, s: State, sb: Sandbox, req: Request, p: Pod)
    requires CarriesOrder(cfg, s, sb, req) && Starting(sb)
    requires p.annotations == sb.spec.template.annotations && p.volumes == sb.spec.template.volumes
    ensures Acknowledges(p, sb.Annotation(PendingSpawn), sb.Annotation(PendingSecret))
  {
    hide WorkOrderSecretOf, HasSecret;
  }

  lemma PassMoves(cfg: Config, s: State, n: string, step: Step)
    requires ConfigOk(cfg) && Inv(cfg, s) && Pending(s, n) && Enabled(cfg, s, step) && ReadsCurrent(s, step, n)
    requires DueKind(ViewOf(s, n)) == Passes
    ensures Possible(cfg, s, step, n)
  {
    hide Inv, ConfigOk, Preparing, Starting, Decide, Observe, Wake, PodsOf, ReportedConditions, ReadsCurrent;
    var sb := s.sandboxes[n];
    PendingPhase(cfg, s, n);
    LiveIsVersion(cfg, s, n);
    assert step.ControllerPass? && step.at == sb.rv by { CurrentIsPass(s, step, n); }
    OwnPodsDecide(s.pods, sb);
    PhaseMode(sb);
    if sb.IsRunning() {
      var id :| id in s.pods && s.pods[id].owner == sb.uid;
      PassObserves(cfg, s, n, step, id);
      ObservedKeeps(sb, OwnedPods(cfg, step.pods, sb.uid));
      WrittenMoves(s, n, Observe(sb, OwnedPods(cfg, step.pods, sb.uid)).value);
    } else {
      SuspensionReported(sb, s.pods);
      PassWakes(cfg, s, n, step);
      WokenKeeps(cfg, sb, step.secret);
      WrittenMoves(s, n, Wake(cfg, sb, step.secret).mut);
    }
  }

  lemma CurrentIsPass(s: State, step: Step, n: string)
    requires n in s.sandboxes && ReadsCurrent(s, step, n)
    ensures step.ControllerPass? && step.at == s.sandboxes[n].rv
  {
  }

  lemma PhaseMode(sb: Sandbox)
    ensures (Preparing(sb) ==> !sb.IsRunning()) && (Starting(sb) ==> sb.IsRunning())
  {
  }

  lemma SuspensionReported(sb: Sandbox, pods: map<nat, Pod>)
    requires !sb.IsRunning() && !HasPod(pods, sb.uid) && sb.conditions == ReportedConditions(sb, pods)
    ensures CurrentGenerationTrue(sb, SuspendedCondition)
  {
  }

  /** A step of the due kind bears on the Sandbox. */
  lemma DueKindMoves(cfg: Config, s: State, n: string, step: Step)
    requires ConfigOk(cfg) && Inv(cfg, s) && Pending(s, n) && Enabled(cfg, s, step)
    requires OfKind(s, step, n, DueKind(ViewOf(s, n)))
    ensures Possible(cfg, s, step, n)
  {
    hide Inv, ConfigOk, Possible, ReportedConditions, ReadsCurrent, Enabled, PodsOf;
    match DueKind(ViewOf(s, n)) {
      case Sees => SeeMoves(cfg, s, n);
      case Deletes => RemovalMoves(cfg, s, n, step.id, step);
      case Goes => RemovalMoves(cfg, s, n, step.id, step);
      case Makes => CreationMoves(cfg, s, n, step.id);
      case Reports => ReportMoves(cfg, s, n);
      case Passes => PassMoves(cfg, s, n, step);
    }
  }

  /** A step of the due kind can be taken. */
  lemma DueKindCanStep(cfg: Config, s: State, n: string) returns (step: Step)
    requires ConfigOk(cfg) && Inv(cfg, s) && Pending(s, n)
    ensures Enabled(cfg, s, step) && OfKind(s, step, n, DueKind(ViewOf(s, n)))
  {
    hide Inv, ConfigOk, Possible, ReportedConditions, HasPod, Enabled, ReadsCurrent;
    var sb := s.sandboxes[n];
    PendingPhase(cfg, s, n);
    OwnPodsDecide(s.pods, sb);
    match DueKind(ViewOf(s, n)) {
      case Sees =>
        step := See(sb.rv);
        SeeMoves(cfg, s, n);
        assert Enabled(cfg, s, step) by { PossibleIsEnabled(cfg, s, step, n); }
      case Deletes => step := RemovalStep(cfg, s, n);
      case Goes => step := RemovalStep(cfg, s, n);
      case Makes => step := CreationStep(cfg, s, n);
      case Reports =>
        step := Report(n);
        ReportStep(cfg, s, n);
      case Passes => step := CurrentPass(cfg, s, n);
    }
  }

  lemma PossibleIsEnabled(cfg: Config, s: State, step: Step, n: string)
    requires Possible(cfg, s, step, n)
    ensures Enabled(cfg, s, step)
  {
  }

  lemma RemovalStep(cfg: Config, s: State, n: string) returns (step: Step)
    requires Inv(cfg, s) && n in s.sandboxes && DueKind(ViewOf(s, n)) in {Deletes, Goes}
    ensures Enabled(cfg, s, step) && OfKind(s, step, n, DueKind(ViewOf(s, n)))
  {
    hide Inv, ReportedConditions;
    var pods := ViewOf(s, n).pods;
    var id :| id in pods && (AnyDeleting(pods) ==> pods[id].deleting);
    step := if pods[id].deleting then PodGone(id) else DeletePod(id);
  }

  lemma CreationStep(cfg: Config, s: State, n: string) returns (step: Step)
    requires Inv(cfg, s) && Pending(s, n) && DueKind(ViewOf(s, n)) == Makes
    ensures Enabled(cfg, s, step) && OfKind(s, step, n, Makes)
  {
    hide Inv, ReportedConditions, HasPod;
    OwnPodsDecide(s.pods, s.sandboxes[n]);
    var id := FreshPodId(s.podsEver);
    step := CreatePod(s.sandboxes[n].uid, id);
  }

  lemma ReportStep(cfg: Config, s: State, n: string)
    requires n in s.sandboxes && DueKind(ViewOf(s, n)) == Reports
    ensures Enabled(cfg, s, Report(n))
  {
    hide ReportedConditions;
    OwnPodsDecide(s.pods, s.sandboxes[n]);
  }

  lemma CurrentPass(cfg: Config, s: State, n: string) returns (step: Step)
    requires ConfigOk(cfg) && Inv(cfg, s) && Pending(s, n)
    ensures Enabled(cfg, s, step) && OfKind(s, step, n, Passes)
  {
    hide Inv, ConfigOk, PodOk;
    var sb := s.sandboxes[n];
    LiveIsVersion(cfg, s, n);
    var pods := ListPods(s.pods);
    InvPodsEver(cfg, s);
    SecretsFit(cfg, s);
    step := ControllerPass(sb.rv, pods, StandingSecret(s, sb), [], 0);
  }

  lemma {:induction false} ListPods(pods: map<nat, Pod>) returns (list: seq<Pod>)
    ensures forall p :: p in list <==> exists id :: id in pods && pods[id] == p
    decreases |pods|
  {
    if pods == map[] {
      list := [];
    } else {
      var id :| id in pods;
      var rest := ListPods(pods - {id});
      list := rest + [pods[id]];
      forall p ensures p in list <==> exists jd :: jd in pods && pods[jd] == p {
        if p in rest {
          var jd :| jd in pods - {id} && (pods - {id})[jd] == p;
          assert jd in pods && pods[jd] == p;
        }
        if exists jd :: jd in pods && pods[jd] == p {
          var jd :| jd in pods && pods[jd] == p;
          if jd != id {
            assert jd in pods - {id} && (pods - {id})[jd] == p;
          }
        }
      }
    }
  }

  lemma InvPodsEver(cfg: Config, s: State)
    requires Inv(cfg, s)
    ensures forall id :: id in s.pods ==> s.pods[id] in s.podsEver
  {
    hide EveryVersionOk, VersionsOk, HistoryOk, SecretsOk, SeenOk, ConditionsOk, PodGenerationsOk, HooksOk,
         RequestsOk, PodOk;
  }

  lemma SecretsFit(cfg: Config, s: State)
    requires Inv(cfg, s)
    ensures forall name :: name in s.secrets ==> s.secrets[name] in s.secretsEver && s.secrets[name].name == name
  {
    hide EveryVersionOk, VersionsOk, HistoryOk, SeenOk, ConditionsOk, PodsOk, PodGenerationsOk, HooksOk, RequestsOk;
  }

  /** As long as an order is pending, a step of the controllers or the cluster that
      bears on it can be taken, and it lowers the rank. */
  lemma SomeStepIsPossible(cfg: Config, run: seq<State>, steps: seq<Step>, k: nat, n: string) returns (step: Step)
    requires ConfigOk(cfg) && IsRun(cfg, run, steps) && k < |run| && Pending(run[k], n)
    ensures Possible(cfg, run[k], step, n)
    ensures Lower(RankOf(ViewOf(Apply(cfg, run[k], step), n)), RankOf(ViewOf(run[k], n)))
  {
    hide IsRun, ConfigOk, Inv, RankOf, ReportedConditions, PodsOf, Apply, Enabled, Lower, DueKind, OfKind;
    RunInv(cfg, run, steps, k);
    step := DueKindCanStep(cfg, run[k], n);
    DueKindMoves(cfg, run[k], n, step);
    EveryStepAdvances(cfg, run[k], step, n);
  }

  // ---- Runs without end

  /** A run without end. */
  ghost predicate IsEndless(cfg: Config, run: nat -> State, steps: nat -> Step) {
    run(0) == INIT && forall k: nat :: StepsAt(cfg, run, steps, k)
  }

  ghost predicate StepsAt(cfg: Config, run: nat -> State, steps: nat -> Step, k: nat) {
    Enabled(cfg, run(k), steps(k)) && run(k + 1) == Apply(cfg, run(k), steps(k))
  }

  predicate UndisturbedAt(run: nat -> State, steps: nat -> Step, k: nat, n: string) {
    Undisturbed(run(k), run(k + 1), steps(k), n)
  }

  /** Step m is one that bears on the Sandbox. */
  predicate MovesAt(run: nat -> State, m: nat, n: string) {
    n in run(m).sandboxes && n in run(m + 1).sandboxes && ViewOf(run(m + 1), n) != ViewOf(run(m), n)
  }

  /** From step k on no hook writes the Sandbox. */
  predicate LeftAloneAt(run: nat -> State, steps: nat -> Step, k: nat, j: nat, n: string) {
    j >= k ==> UndisturbedAt(run, steps, j, n)
  }

  ghost predicate LeftAlone(run: nat -> State, steps: nat -> Step, k: nat, n: string) {
    forall j: nat :: LeftAloneAt(run, steps, k, j, n)
  }

  /** Weak fairness, kind by kind: a kind of step that can be taken from some point on
      without interruption is taken at some later point. */
  ghost predicate WeaklyFair(cfg: Config, run: nat -> State, steps: nat -> Step, n: string) {
    forall kind, k: nat :: IsFairTo(cfg, run, steps, n, kind, k)
  }

  ghost predicate IsFairTo(cfg: Config, run: nat -> State, steps: nat -> Step, n: string, kind: Kind, k: nat) {
    (forall j: nat :: j >= k ==> CanStep(cfg, run(j), n, kind)) ==>
      exists m: nat :: m >= k && OfKind(run(m), steps(m), n, kind)
  }

  lemma {:induction false} EndlessInv(cfg: Config, run: nat -> State, steps: nat -> Step, k: nat)
    requires ConfigOk(cfg) && IsEndless(cfg, run, steps)
    ensures Inv(cfg, run(k))
  {
    hide Inv, ConfigOk, Apply, Enabled;
    if k == 0 {
      InitInv(cfg);
    } else {
      EndlessInv(cfg, run, steps, k - 1);
      assert StepsAt(cfg, run, steps, k - 1);
      StepKeepsInv(cfg, run(k - 1), steps(k - 1));
    }
  }

  lemma EndlessAdvances(cfg: Config, run: nat -> State, steps: nat -> Step, k: nat, n: string)
    requires ConfigOk(cfg) && IsEndless(cfg, run, steps) && UndisturbedAt(run, steps, k, n) && Pending(run(k), n)
    ensures Advances(run(k), run(k + 1), n)
  {
    hide Inv, ConfigOk, Apply, Enabled, Undisturbed, Advances, Pending;
    EndlessInv(cfg, run, steps, k);
    assert StepsAt(cfg, run, steps, k);
    EveryStepAdvances(cfg, run(k), steps(k), n);
  }

  /** As long as nothing bears on the Sandbox, all that bears on it stays as it is. */
  lemma {:induction false} NothingMoved(cfg: Config, run: nat -> State, steps: nat -> Step, k: nat, j: nat, n: string)
    requires ConfigOk(cfg) && IsEndless(cfg, run, steps) && LeftAlone(run, steps, k, n) && Pending(run(k), n) && k <= j
    requires forall m: nat :: m >= k ==> !MovesAt(run, m, n)
    ensures Pending(run(j), n) && ViewOf(run(j), n) == ViewOf(run(k), n)
    decreases j - k
  {
    hide IsEndless, ConfigOk, ViewOf, UndisturbedAt, Working, Lower;
    if k < j {
      NothingMoved(cfg, run, steps, k, j - 1, n);
      assert LeftAloneAt(run, steps, k, j - 1, n);
      EndlessAdvances(cfg, run, steps, j - 1, n);
      assert !MovesAt(run, j - 1, n);
      SameViewPending(run(j - 1), run(j), n);
    }
  }

  /** While an order is pending, weak fairness brings a step that bears on it: its due
      kind can step as long as nothing happens. */
  lemma SomethingMoves(cfg: Config, run: nat -> State, steps: nat -> Step, k: nat, n: string) returns (m: nat)
    requires ConfigOk(cfg) && IsEndless(cfg, run, steps) && WeaklyFair(cfg, run, steps, n) &&
             LeftAlone(run, steps, k, n)
    requires Pending(run(k), n)
    ensures m >= k && MovesAt(run, m, n)
  {
    hide IsEndless, ConfigOk, LeftAlone, DueKind, OfKind, MovesAt, Inv, Enabled;
    if j: nat :| j >= k && MovesAt(run, j, n) {
      m := j;
    } else {
      var kind := DueKind(ViewOf(run(k), n));
      forall j: nat | j >= k ensures CanStep(cfg, run(j), n, kind) {
        NothingMoved(cfg, run, steps, k, j, n);
        EndlessInv(cfg, run, steps, j);
        var step := DueKindCanStep(cfg, run(j), n);
      }
      assert IsFairTo(cfg, run, steps, n, kind, k);
      m :| m >= k && OfKind(run(m), steps(m), n, kind);
      NothingMoved(cfg, run, steps, k, m, n);
      TakenMoves(cfg, run, steps, m, n);
    }
  }

  lemma TakenMoves(cfg: Config, run: nat -> State, steps: nat -> Step, m: nat, n: string)
    requires ConfigOk(cfg) && IsEndless(cfg, run, steps) && Pending(run(m), n)
    requires OfKind(run(m), steps(m), n, DueKind(ViewOf(run(m), n)))
    ensures MovesAt(run, m, n)
  {
    hide ConfigOk, Inv, DueKind, OfKind, Enabled, Apply, ViewOf;
    EndlessInv(cfg, run, steps, m);
    assert StepsAt(cfg, run, steps, m);
    DueKindMoves(cfg, run(m), n, steps(m));
  }

  /** Each pending order is observed: from any point on, if no hook interferes and the
      controllers and the cluster are weakly fair to its Sandbox. */
  lemma {:induction false} PendingIsObserved(cfg: Config, run: nat -> State, steps: nat -> Step, k: nat, n: string)
    returns (m: nat)
    requires ConfigOk(cfg) && IsEndless(cfg, run, steps) && WeaklyFair(cfg, run, steps, n) &&
             LeftAlone(run, steps, k, n)
    requires Pending(run(k), n)
    ensures m > k && n in run(m).sandboxes && Working(run(m).sandboxes[n])
    ensures run(m).sandboxes[n].uid == run(k).sandboxes[n].uid
    ensures run(m).sandboxes[n].Annotation(AppliedSpawn) == run(k).sandboxes[n].Annotation(LastOrderId)
    decreases RankOf(ViewOf(run(k), n)).writes, RankOf(ViewOf(run(k), n)).lag, RankOf(ViewOf(run(k), n)).pod,
              RankOf(ViewOf(run(k), n)).report, RankOf(ViewOf(run(k), n)).unseen
  {
    hide IsEndless, ConfigOk, WeaklyFair, LeftAlone, RankOf, ViewOf, MovesAt, Pending;
    assert n in run(k).sandboxes by { PendingIsThere(run(k), n); }
    var j := SomethingMoves(cfg, run, steps, k, n);
    var next := FirstMove(cfg, run, steps, k, j, n);
    StillLeftAlone(run, steps, k, next, n);
    if Pending(run(next), n) {
      m := PendingIsObserved(cfg, run, steps, next, n);
    } else {
      m := next;
    }
  }

  lemma StillLeftAlone(run: nat -> State, steps: nat -> Step, k: nat, j: nat, n: string)
    requires LeftAlone(run, steps, k, n) && k <= j
    ensures LeftAlone(run, steps, j, n)
  {
    hide UndisturbedAt;
    forall i: nat ensures LeftAloneAt(run, steps, j, i, n) {
      assert LeftAloneAt(run, steps, k, i, n);
    }
  }

  lemma PendingIsThere(s: State, n: string)
    requires Pending(s, n)
    ensures n in s.sandboxes
  {
  }

  /** Exit 0 is a promise: once an invocation whose order was accepted has exited 0, and
      if its Sandbox is neither deleted nor written by another hook, then the accepted
      order, this one or one of a higher attempt, is started and its Pod observed. */
  lemma ExitZeroIsObserved(cfg: Config, run: nat -> State, steps: nat -> Step, k: nat, h: nat, n: string)
    returns (m: nat)
    requires ConfigOk(cfg) && IsEndless(cfg, run, steps) && WeaklyFair(cfg, run, steps, n) &&
             LeftAlone(run, steps, k, n)
    requires h in run(k).hooks && run(k).hooks[h].pc.Done? && run(k).hooks[h].pc.at < |run(k).versions|
    requires var v := run(k).versions[run(k).hooks[h].pc.at];
             && v.Annotation(LastOrderId) == run(k).hooks[h].req.order
             && n in run(k).sandboxes && run(k).sandboxes[n].uid == v.uid && !run(k).sandboxes[n].deleting
    ensures m >= k && n in run(m).sandboxes && run(m).sandboxes[n].uid == run(k).sandboxes[n].uid
    ensures Working(run(m).sandboxes[n]) || Asleep(run(m).sandboxes[n])
    ensures run(m).sandboxes[n].Annotation(AppliedSpawn) == run(k).sandboxes[n].Annotation(LastOrderId)
    ensures AcceptedAttempt(run(k).sandboxes[n]) > run(k).hooks[h].req.attempt ||
            run(m).sandboxes[n].Annotation(AppliedSpawn) == run(k).hooks[h].req.order
  {
    hide IsEndless, ConfigOk, Inv, WeaklyFair, LeftAlone, AcceptedAttempt;
    EndlessInv(cfg, run, steps, k);
    ExitZeroIsPrepared(cfg, run(k), h, n);
    if Pending(run(k), n) {
      m := PendingIsObserved(cfg, run, steps, k, n);
    } else {
      m := k;
    }
  }

  lemma ExitZeroIsPrepared(cfg: Config, s: State, h: nat, n: string)
    requires Inv(cfg, s) && h in s.hooks && s.hooks[h].pc.Done? && s.hooks[h].pc.at < |s.versions| && n in s.sandboxes
    requires s.versions[s.hooks[h].pc.at].Annotation(LastOrderId) == s.hooks[h].req.order
    requires s.sandboxes[n].uid == s.versions[s.hooks[h].pc.at].uid && !s.sandboxes[n].deleting
    ensures Pending(s, n) || Working(s.sandboxes[n]) || Asleep(s.sandboxes[n])
    ensures AcceptedAttempt(s.sandboxes[n]) > s.hooks[h].req.attempt ||
            s.sandboxes[n].Annotation(LastOrderId) == s.hooks[h].req.order
  {
    hide Inv, VersionOk, AcceptedAttempt, CarriesOrder;
    var g := LiveFacts(cfg, s, n);
    DoneAttempt(cfg, s, h);
    DonePrepared(cfg, s, h);
    GrewSince(cfg, s, s.hooks[h].pc.at, n);
  }

  lemma GrewSince(cfg: Config, s: State, at: nat, n: string)
    requires Inv(cfg, s) && n in s.sandboxes && at < |s.versions| && s.versions[at].uid == s.sandboxes[n].uid
    ensures s.versions[at] == s.sandboxes[n] || AttemptsGrow(s.versions[at], s.sandboxes[n])
  {
    hide RequestsOk, EveryVersionOk, HistoryOk, SecretsOk, SeenOk, ConditionsOk, PodsOk, PodGenerationsOk, HooksOk,
         AttemptsGrow, GenerationsGrow;
    var sb := s.sandboxes[n];
    assert IsVersion(s, sb) && at <= sb.rv;
    if at < sb.rv {
      GrowsTo(s, at, sb.rv);
    }
  }

  lemma DonePrepared(cfg: Config, s: State, h: nat)
    requires Inv(cfg, s) && h in s.hooks && s.hooks[h].pc.Done? && s.hooks[h].pc.at < |s.versions|
    requires AcceptedAttempt(s.versions[s.hooks[h].pc.at]) == s.hooks[h].req.attempt
    ensures !Unprepared(s.versions[s.hooks[h].pc.at])
  {
    hide RequestsOk, VersionsOk, EveryVersionOk, HistoryOk, SecretsOk, SeenOk, ConditionsOk, PodsOk, PodGenerationsOk,
         AcceptedAttempt, Unprepared;
    assert HookOk(cfg, s, s.hooks[h]);
  }

  lemma DoneAttempt(cfg: Config, s: State, h: nat)
    requires Inv(cfg, s) && h in s.hooks && s.hooks[h].pc.Done? && s.hooks[h].pc.at < |s.versions|
    requires s.versions[s.hooks[h].pc.at].Annotation(LastOrderId) == s.hooks[h].req.order
    ensures AcceptedAttempt(s.versions[s.hooks[h].pc.at]) == s.hooks[h].req.attempt
  {
    hide VersionOk, HistoryOk, SecretsOk, SeenOk, ConditionsOk, PodsOk, PodGenerationsOk, HooksOk, AcceptedAttempt,
         Contracted;
    var v := s.versions[s.hooks[h].pc.at];
    assert EveryVersionOk(cfg, s);
    var g := AcceptedRequest(cfg, s, v);
    assert SameOrder(s.hooks[g].req, s.hooks[h].req);
  }

  /** Up to the first step that bears on the Sandbox nothing changes; that step lowers
      the rank. */
  lemma {:induction false} FirstMove(cfg: Config, run: nat -> State, steps: nat -> Step, k: nat, j: nat, n: string)
    returns (next: nat)
    requires ConfigOk(cfg) && IsEndless(cfg, run, steps) && k <= j && Pending(run(k), n)
    requires LeftAlone(run, steps, k, n)
    requires MovesAt(run, j, n)
    ensures next > k && KeepsOrder(run(k), run(next), n)
    ensures Lower(RankOf(ViewOf(run(next), n)), RankOf(ViewOf(run(k), n)))
    decreases j - k
  {
    hide IsEndless, ConfigOk, RankOf, ViewOf, UndisturbedAt, Lower, Working;
    assert LeftAloneAt(run, steps, k, k, n);
    StillLeftAlone(run, steps, k, k + 1, n);
    EndlessAdvances(cfg, run, steps, k, n);
    if ViewOf(run(k + 1), n) != ViewOf(run(k), n) {
      next := k + 1;
    } else {
      SameViewPending(run(k), run(k + 1), n);
      next := FirstMove(cfg, run, steps, k + 1, j, n);
    }
  }

  lemma SameViewPending(s: State, t: State, n: string)
    requires Pending(s, n) && n in t.sandboxes && ViewOf(s, n) == ViewOf(t, n)
    ensures Pending(t, n) && s.sandboxes[n] == t.sandboxes[n]
  {
    hide PodsOf;
  }
}
