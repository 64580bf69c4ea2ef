/** A prepared order is started and observed: some step of the controllers or the
    cluster can always be taken, and none can be taken forever. */
module Progress {
  import opened Api
  import opened Hook
  import opened SessionController
  import opened Protocol
  import opened Invariants
  import opened Preservation
  import opened Writes
  import opened PodSafety
  import opened Safety

  /** The order of a live Sandbox is prepared, its Pod not observed yet. */
  predicate Pending(s: State, n: string) {
    n in s.sandboxes && !s.sandboxes[n].deleting && s.sandboxes[n].Annotation(PendingSecret) != ""
  }

  /** What bears on one Sandbox's progress: the object, what the sandbox controller has
      seen of it, and its Pods. */
  datatype View = View(sb: Sandbox, seen: Option<Sandbox>, pods: map<nat, Pod>)

  function PodsOf(pods: map<nat, Pod>, uid: string): map<nat, Pod> {
    map id | id in pods && pods[id].owner == uid :: pods[id]
  }

  function ViewOf(s: State, n: string): View
    requires n in s.sandboxes
  {
    var sb := s.sandboxes[n];
    View(sb, if sb.uid in s.seen then Some(s.seen[sb.uid]) else None, PodsOf(s.pods, sb.uid))
  }

  // ---- The rank

  /** How many writes the order still needs, how many generations the sandbox controller
      is behind, how much can still happen to the Pod, whether a report is due, and how
      many versions the sandbox controller has not seen. */
  datatype Rank = Rank(writes: nat, lag: nat, pod: nat, report: nat, unseen: nat)

  predicate Lower(a: Rank, b: Rank) {
    || a.writes < b.writes
    || (a.writes == b.writes && a.lag < b.lag)
    || (a.writes == b.writes && a.lag == b.lag && a.pod < b.pod)
    || (a.writes == b.writes && a.lag == b.lag && a.pod == b.pod && a.report < b.report)
    || (a.writes == b.writes && a.lag == b.lag && a.pod == b.pod && a.report == b.report && a.unseen < b.unseen)
  }

  predicate AnyDeleting(pods: map<nat, Pod>) {
    exists id :: id in pods && pods[id].deleting
  }

  predicate AnyTerminal(pods: map<nat, Pod>) {
    exists id :: id in pods && pods[id].terminal
  }

  /** What can still happen to the Pod while the sandbox controller's view stands: it
      may finish, be deleted if that view is Suspended, go, and be made again if that
      view is Running. */
  function PodRank(running: bool, pods: map<nat, Pod>): nat {
    var finish := if AnyTerminal(pods) then 0 else 1;
    if pods == map[] then (if running then 2 else 0)
    else if AnyDeleting(pods) then (if running then 3 + finish else 1 + finish)
    else if running then finish
    else 3 + finish
  }

  function RankOf(v: View): Rank {
    Rank(if v.sb.Annotation(PendingSecret) == "" then 0 else if v.sb.IsRunning() then 1 else 2,
         if v.seen.None? then v.sb.generation + 1
         else if v.seen.value.generation <= v.sb.generation then v.sb.generation - v.seen.value.generation
         else 0,
         PodRank(v.seen.Some? && v.seen.value.IsRunning(), v.pods),
         if v.seen.Some? && v.sb.conditions != ReportedConditions(v.seen.value, v.pods) then 1 else 0,
         if v.seen.None? then v.sb.rv + 1
         else if v.seen.value.rv <= v.sb.rv then v.sb.rv - v.seen.value.rv
         else 0)
  }

  lemma OwnPodsDecide(pods: map<nat, Pod>, sb: Sandbox)
    ensures ReportedConditions(sb, PodsOf(pods, sb.uid)) == ReportedConditions(sb, pods)
    ensures HasPod(pods, sb.uid) <==> PodsOf(pods, sb.uid) != map[]
  {
    var own := PodsOf(pods, sb.uid);
    if HasPod(pods, sb.uid) {
      var id :| id in pods && pods[id].owner == sb.uid;
      assert id in own;
    }
    if HasTerminalPod(pods, sb.uid) {
      var id :| id in pods && pods[id].owner == sb.uid && pods[id].terminal;
      assert id in own;
    }
    assert own != map[] ==> exists id :: id in own;
  }

  // ---- Every step that matters lowers the rank

  /** The step leaves the Sandbox pending the same order, or observed. */
  ghost predicate KeepsOrder(s: State, t: State, n: string)
    requires n in s.sandboxes
  {
    && n in t.sandboxes && t.sandboxes[n].uid == s.sandboxes[n].uid
    && t.sandboxes[n].Annotation(LastOrderId) == s.sandboxes[n].Annotation(LastOrderId)
    && (Pending(t, n) || Working(t.sandboxes[n]))
  }

  ghost predicate Advances(s: State, t: State, n: string)
    requires n in s.sandboxes
  {
    && KeepsOrder(s, t, n)
    && (ViewOf(t, n) == ViewOf(s, n) || Lower(RankOf(ViewOf(t, n)), RankOf(ViewOf(s, n))))
  }

  lemma PendingPhase(cfg: Config, s: State, n: string)
    requires Inv(cfg, s) && Pending(s, n)
    ensures LiveIn(s, s.sandboxes[n]) && (Preparing(s.sandboxes[n]) || Starting(s.sandboxes[n]))
    ensures s.sandboxes[n].Annotation(PendingSpawn) != ""
  {
    hide Inv;
    var h := LiveFacts(cfg, s, n);
  }

  lemma PassAdvances(cfg: Config, s: State, step: Step, n: string)
    requires ConfigOk(cfg) && Inv(cfg, s) && Enabled(cfg, s, step) && IsPass(step) && Pending(s, n)
    ensures Advances(s, Apply(cfg, s, step), n)
  {
    hide Inv, ConfigOk, Decide, Advances, InPhase, Preparing, Starting, Working, CommitPass;
    var snap := s.versions[step.at];
    InvVersions(cfg, s);
    PendingPhase(cfg, s, n);
    if Current(s, snap) && snap.name == n {
      CurrentIsLive(s, snap);
      OwnPass(cfg, s, n, step.pods, step.secret, step.list, step.now);
    } else {
      PassWriteName(cfg, snap, step.pods, step.secret, step.list, step.now);
      OtherPass(s, snap, PassWrite(cfg, s, step), n);
    }
  }

  lemma OtherPass(s: State, snap: Sandbox, write: Write, n: string)
    requires Pending(s, n) && WritesTo(write, snap.name) && !(Current(s, snap) && snap.name == n)
    ensures Advances(s, CommitPass(s, snap, write), n)
  {
    hide PodsOf, RankOf, Lower;
  }

  predicate WritesTo(write: Write, name: string) {
    match write
    case Observed(mut) => mut.name == name
    case Slept(mut) => mut.name == name
    case Awoke(mut) => mut.name == name
    case _ => true
  }

  /** A pass writes the Sandbox it read. */
  lemma PassWriteName(cfg: Config, sb: Sandbox, pods: seq<Pod>, secret: Option<Secret>, list: seq<Sandbox>, now: int)
    ensures WritesTo(Decide(cfg, sb, pods, secret, list, now), sb.name)
  {
    hide ValidWorkOrderSecret, NamedVolume, Installed, GcDue, CurrentGenerationTrue;
  }

  lemma OwnPass(cfg: Config, s: State, n: string, pods: seq<Pod>, secret: Option<Secret>, list: seq<Sandbox>, now: int)
    requires Inv(cfg, s) && Pending(s, n) && s.sandboxes[n].name == n
    ensures Advances(s, CommitPass(s, s.sandboxes[n], Decide(cfg, s.sandboxes[n], pods, secret, list, now)), n)
  {
    hide Inv, PodsOf, ReportedConditions, Observe, Sleep, Wake, GcDue, CurrentGenerationTrue, InPhase, PodRank;
    var sb := s.sandboxes[n];
    PendingPhase(cfg, s, n);
    NoSleepNoCollection(cfg, sb, list, now);
    var h := LiveFacts(cfg, s, n);
    match Decide(cfg, sb, pods, secret, list, now) {
      case Observed(mut) =>
        ObserveContent(sb, OwnedPods(cfg, pods, sb.uid));
        ObservedKeeps(sb, OwnedPods(cfg, pods, sb.uid));
        WrittenAdvances(s, n, mut);
      case Awoke(mut) =>
        WakeContent(cfg, sb, secret);
        WokenKeeps(cfg, sb, secret);
        WrittenAdvances(s, n, mut);
      case _ =>
    }
  }

  /** A write that takes the order one phase on. */
  lemma WrittenAdvances(s: State, n: string, mut: Sandbox)
    requires Pending(s, n) && s.sandboxes[n].name == n
    requires mut == s.sandboxes[n].(annotations := mut.annotations, spec := mut.spec)
    requires mut.Annotation(LastOrderId) == s.sandboxes[n].Annotation(LastOrderId)
    requires if mut.Annotation(PendingSecret) == "" then Working(mut)
             else mut.IsRunning() && !s.sandboxes[n].IsRunning()
    ensures Advances(s, Patch(s, s.sandboxes[n], mut), n)
  {
    hide PodsOf, ReportedConditions, PodRank;
    var t := Patch(s, s.sandboxes[n], mut);
    assert t.sandboxes[n].annotations == mut.annotations && t.sandboxes[n].spec == mut.spec;
  }

  lemma NoSleepNoCollection(cfg: Config, sb: Sandbox, list: seq<Sandbox>, now: int)
    requires sb.Annotation(PendingSpawn) != ""
    ensures Sleep(sb, now).None? && !GcDue(cfg, sb, list, now)
  {
  }

  lemma ObservedKeeps(sb: Sandbox, pods: seq<Pod>)
    requires Observe(sb, pods).Some?
    ensures var mut := Observe(sb, pods).value;
            mut == sb.(annotations := mut.annotations) && mut.Annotation(PendingSecret) == ""
            && mut.Annotation(LastOrderId) == sb.Annotation(LastOrderId)
  {
  }

  lemma WokenKeeps(cfg: Config, sb: Sandbox, secret: Option<Secret>)
    requires Wake(cfg, sb, secret).Woken?
    ensures var mut := Wake(cfg, sb, secret).mut;
            mut == sb.(annotations := mut.annotations, spec := mut.spec) && mut.IsRunning() && !sb.IsRunning()
            && mut.Annotation(PendingSecret) == sb.Annotation(PendingSecret)
            && mut.Annotation(LastOrderId) == sb.Annotation(LastOrderId)
  {
    hide ValidWorkOrderSecret, NamedVolume, CurrentGenerationTrue;
  }

  lemma SeeAdvances(cfg: Config, s: State, at: nat, n: string)
    requires Inv(cfg, s) && Enabled(cfg, s, See(at)) && Pending(s, n)
    ensures Advances(s, Apply(cfg, s, See(at)), n)
  {
    hide Inv, PodsOf, ReportedConditions, PodRank;
    PendingPhase(cfg, s, n);
    var sb, w := s.sandboxes[n], s.versions[at];
    if w.uid == sb.uid {
      SeenMovesOn(cfg, s, at, sb);
      if sb.uid in s.seen && s.seen[sb.uid].generation == w.generation {
        SameReport(s.seen[sb.uid], w, PodsOf(s.pods, sb.uid));
      }
    }
  }

  lemma SeenMovesOn(cfg: Config, s: State, at: nat, sb: Sandbox)
    requires Inv(cfg, s) && LiveIn(s, sb) && at < |s.versions| && s.versions[at].uid == sb.uid
    requires sb.uid in s.seen ==> s.seen[sb.uid].rv < at
    ensures s.versions[at].rv == at <= sb.rv && s.versions[at].generation <= sb.generation
    ensures sb.uid in s.seen ==>
              var v := s.seen[sb.uid];
              && v.uid == sb.uid && v.generation <= s.versions[at].generation
              && (v.generation == s.versions[at].generation ==> v.spec == s.versions[at].spec)
  {
    hide EveryVersionOk, SecretsOk, ConditionsOk, PodsOk, PodGenerationsOk, HooksOk, RequestsOk, AttemptsGrow;
    assert IsVersion(s, sb);
    if at < sb.rv {
      assert GenerationsGrow(s.versions[at], s.versions[sb.rv]);
    }
    if sb.uid in s.seen {
      var v := s.seen[sb.uid];
      assert IsVersion(s, v);
      assert GenerationsGrow(s.versions[v.rv], s.versions[at]);
    }
  }

  /** A view of the same generation reports the same. */
  lemma SameReport(v: Sandbox, w: Sandbox, pods: map<nat, Pod>)
    requires v.uid == w.uid && v.generation == w.generation && v.spec == w.spec
    ensures ReportedConditions(v, pods) == ReportedConditions(w, pods)
  {
  }

  /** Changes to the Pods of one Sandbox. */
  lemma PodChangeAdvances(s: State, t: State, n: string)
    requires Pending(s, n) && t.sandboxes == s.sandboxes && t.seen == s.seen
    requires var v, w := ViewOf(s, n), ViewOf(t, n);
             var running := v.seen.Some? && v.seen.value.IsRunning();
             w.pods == v.pods || PodRank(running, w.pods) < PodRank(running, v.pods)
    ensures Advances(s, t, n)
  {
    hide PodsOf, ReportedConditions, PodRank;
  }

  lemma OnlyPod(cfg: Config, s: State, id: nat)
    requires Inv(cfg, s) && id in s.pods
    ensures s.pods[id].id == id && PodsOf(s.pods, s.pods[id].owner) == map[id := s.pods[id]]
  {
    hide VersionsOk, EveryVersionOk, HistoryOk, SecretsOk, SeenOk, ConditionsOk, PodGenerationsOk, HooksOk,
         RequestsOk, PodOk;
    var own := PodsOf(s.pods, s.pods[id].owner);
    assert id in own;
    assert forall jd :: jd in own ==> jd == id;
  }

  lemma PodsElsewhere(s: State, p: Pod, uid: string)
    requires p.owner != uid && (p.id in s.pods ==> s.pods[p.id].owner == p.owner)
    ensures PodsOf(s.pods[p.id := p], uid) == PodsOf(s.pods, uid) == PodsOf(s.pods - {p.id}, uid)
  {
  }

  /** One Pod's change, where the Pod is the Sandbox's only one. */
  lemma OnePodRank(running: bool, p: Pod, q: Pod)
    requires p.id == q.id
    ensures var was, to := map[p.id := p], map[p.id := q];
            PodRank(running, was) ==
              (if p.deleting then (if running then 3 else 1) else if running then 0 else 3) +
                  (if p.terminal then 0 else 1)
            && PodRank(running, to) ==
              (if q.deleting then (if running then 3 else 1) else if running then 0 else 3) +
                  (if q.terminal then 0 else 1)
  {
    var was, to := map[p.id := p], map[p.id := q];
    assert p.id in was && was[p.id] == p && p.id in to && to[p.id] == q;
  }

  lemma PodWriteAdvances(cfg: Config, s: State, q: Pod, n: string)
    requires Inv(cfg, s) && Pending(s, n) && q.id in s.pods && q.owner == s.pods[q.id].owner
    requires var p := s.pods[q.id];
             (q == p.(terminal := true) && !p.terminal) || (q == p.(deleting := true) && !p.deleting)
    requires var p, uid := s.pods[q.id], s.sandboxes[n].uid;
             p.owner == uid && q.deleting && !p.deleting ==> uid in s.seen && !s.seen[uid].IsRunning()
    ensures Advances(s, SetPod(s, q), n)
  {
    hide Inv, PodRank, ReportedConditions, PodsOf, Advances;
    var p, uid := s.pods[q.id], s.sandboxes[n].uid;
    if p.owner == uid {
      OnlyPod(cfg, s, q.id);
      ReplacedPod(s.pods, q);
      OnePodRank(uid in s.seen && s.seen[uid].IsRunning(), p, q);
    } else {
      PodsElsewhere(s, q, uid);
    }
    PodChangeAdvances(s, SetPod(s, q), n);
  }

  lemma ReplacedPod(pods: map<nat, Pod>, q: Pod)
    requires q.id in pods && pods[q.id].owner == q.owner && PodsOf(pods, q.owner) == map[q.id := pods[q.id]]
    ensures PodsOf(pods[q.id := q], q.owner) == map[q.id := q]
    ensures PodsOf(pods - {q.id}, q.owner) == map[]
  {
    forall id | id in pods && pods[id].owner == q.owner ensures id == q.id {
      assert id in PodsOf(pods, q.owner);
    }
  }

  lemma PodGoneAdvances(cfg: Config, s: State, id: nat, n: string)
    requires Inv(cfg, s) && Enabled(cfg, s, PodGone(id)) && Pending(s, n)
    ensures Advances(s, Apply(cfg, s, PodGone(id)), n)
  {
    hide Inv, ReportedConditions, PodsOf, Advances;
    var p, uid := s.pods[id], s.sandboxes[n].uid;
    OnlyPod(cfg, s, id);
    if p.owner == uid {
      ReplacedPod(s.pods, p);
      OnePodRank(uid in s.seen && s.seen[uid].IsRunning(), p, p);
    } else {
      PodsElsewhere(s, p, uid);
    }
    PodChangeAdvances(s, Apply(cfg, s, PodGone(id)), n);
  }

  lemma CreatePodAdvances(cfg: Config, s: State, uid: string, id: nat, n: string)
    requires Inv(cfg, s) && Enabled(cfg, s, CreatePod(uid, id)) && Pending(s, n)
    ensures Advances(s, Apply(cfg, s, CreatePod(uid, id)), n)
  {
    hide Inv, ReportedConditions, Advances, HasPod;
    var t := Apply(cfg, s, CreatePod(uid, id));
    var p := PodOf(s.seen[uid], id);
    NewPod(cfg, s, uid, id);
    if uid == s.sandboxes[n].uid {
      OwnPodsDecide(s.pods, s.seen[uid]);
      assert PodsOf(t.pods, uid) == map[id := p] by {
        assert forall jd :: jd in s.pods ==> s.pods[jd].owner != uid by { NoOwn(s.pods, uid); }
      }
      OnePodRank(true, p, p);
    } else {
      PodsElsewhere(s, p, s.sandboxes[n].uid);
    }
    PodChangeAdvances(s, t, n);
  }

  lemma NoOwn(pods: map<nat, Pod>, uid: string)
    requires !HasPod(pods, uid)
    ensures forall jd :: jd in pods ==> pods[jd].owner != uid
  {
  }

  lemma NewPod(cfg: Config, s: State, uid: string, id: nat)
    requires Inv(cfg, s) && Enabled(cfg, s, CreatePod(uid, id))
    ensures s.seen[uid].uid == uid && id !in s.pods
  {
    hide VersionsOk, EveryVersionOk, HistoryOk, SecretsOk, ConditionsOk, PodGenerationsOk, HooksOk, RequestsOk, PodOk;
  }

  lemma ReportAdvances(cfg: Config, s: State, name: string, n: string)
    requires Inv(cfg, s) && Enabled(cfg, s, Report(name)) && Pending(s, n)
    ensures Advances(s, Apply(cfg, s, Report(name)), n)
  {
    hide Inv, ReportedConditions, PodsOf, PodRank, InPhase, Preparing, Starting;
    PendingPhase(cfg, s, n);
    var sb := s.sandboxes[name];
    NamesFit(cfg, s);
    if name == n {
      SeenUid(cfg, s, sb.uid);
      OwnPodsDecide(s.pods, s.seen[sb.uid]);
    }
  }

  /** A hook step that leaves the Sandbox alone. */
  predicate Undisturbed(s: State, t: State, step: Step, n: string) {
    step.HookCall? && n in s.sandboxes ==> n in t.sandboxes && t.sandboxes[n] == s.sandboxes[n]
  }

  lemma HookCallFrame(cfg: Config, s: State, step: Step)
    requires Enabled(cfg, s, step) && step.HookCall?
    ensures Apply(cfg, s, step).pods == s.pods && Apply(cfg, s, step).seen == s.seen
  {
    hide Classified, Secured, VerifySecret, Mutated, Created, DesiredSecret, Holders, Stored;
  }

  /** While no hook writes the Sandbox, every step leaves its order pending or observed,
      and either does not touch what bears on it or lowers the rank. */
  lemma EveryStepAdvances(cfg: Config, s: State, step: Step, n: string)
    requires ConfigOk(cfg) && Inv(cfg, s) && Enabled(cfg, s, step) && Pending(s, n)
    requires Undisturbed(s, Apply(cfg, s, step), step, n)
    ensures Advances(s, Apply(cfg, s, step), n)
  {
    hide Inv, ConfigOk, Call, CommitPass, ReportedConditions, PodsOf, RankOf, Contracted, Lower, Live, HasPod;
    match step {
      case HookCall(_, _, _, _) => HookCallFrame(cfg, s, step);
      case ControllerPass(_, _, _, _, _) => PassAdvances(cfg, s, step, n);
      case See(at) => SeeAdvances(cfg, s, at, n);
      case CreatePod(uid, id) => CreatePodAdvances(cfg, s, uid, id, n);
      case DeletePod(id) =>
        OnlyPod(cfg, s, id);
        if s.pods[id].owner == s.sandboxes[n].uid {
          OwnerLives(s, n, id);
        }
        PodWriteAdvances(cfg, s, s.pods[id].(deleting := true), n);
      case Report(name) => ReportAdvances(cfg, s, name, n);
      case PodFinishes(id) =>
        OnlyPod(cfg, s, id);
        PodWriteAdvances(cfg, s, s.pods[id].(terminal := true), n);
      case PodGone(id) => PodGoneAdvances(cfg, s, id, n);
      case _ =>
    }
  }

  lemma OwnerLives(s: State, n: string, id: nat)
    requires n in s.sandboxes && id in s.pods && s.pods[id].owner == s.sandboxes[n].uid
    ensures Live(s.sandboxes, s.pods[id].owner)
  {
  }
}
