/** What holds of every reachable state. */
module Invariants {
  import opened Api
  import opened Decimal
  import opened Hook
  import opened SessionController
  import opened Protocol

  // ---- The four phases of a Sandbox

  predicate Accepted(v: Sandbox) {
    v.Annotation(LastOrderId) != ""
  }

  /** Order accepted, its runner not started. */
  predicate Preparing(v: Sandbox) {
    && Accepted(v) && !v.IsRunning()
    && v.Annotation(PendingSpawn) == v.Annotation(LastOrderId)
    && v.Annotation(AppliedSpawn) != v.Annotation(LastOrderId)
  }

  /** Order installed, its Pod not observed yet. */
  predicate Starting(v: Sandbox) {
    && Accepted(v) && v.IsRunning()
    && v.Annotation(PendingSpawn) == v.Annotation(AppliedSpawn) == v.Annotation(LastOrderId)
    && v.Annotation(PendingSecret) != ""
  }

  /** The order's Pod has been observed. */
  predicate Working(v: Sandbox) {
    && Accepted(v) && v.IsRunning()
    && v.Annotation(PendingSpawn) == "" && v.Annotation(PendingSecret) == ""
    && v.Annotation(AppliedSpawn) == v.Annotation(LastOrderId)
  }

  /** The runner has exited and the Sandbox was put to sleep. */
  predicate Asleep(v: Sandbox) {
    && Accepted(v) && !v.IsRunning()
    && v.Annotation(PendingSpawn) == "" && v.Annotation(PendingSecret) == ""
    && v.Annotation(AppliedSpawn) == v.Annotation(LastOrderId)
    && Dated(v)
  }

  /** The time it went to sleep is there and readable. */
  predicate Dated(v: Sandbox) {
    v.Annotation(LastSuspendedAt) != "" && ParseInt(v.Annotation(LastSuspendedAt)).Some?
  }

  /** Accepted, but without its Secret: created, and its creator not back yet. */
  predicate Unprepared(v: Sandbox) {
    !v.IsRunning() && v.Annotation(PendingSpawn) != "" && v.Annotation(PendingSecret) == ""
  }

  predicate InPhase(v: Sandbox) {
    Preparing(v) || Starting(v) || Working(v) || Asleep(v)
  }

  /** The accepted attempt, as the hook reads it. */
  function AcceptedAttempt(v: Sandbox): int {
    match ParseAttempt(v.Annotation(LastOrderAttempt))
    case Some(n) => n
    case None => -1
  }

  // ---- Facts about one version

  /** The Sandbox's accepted order is the one `req` asks for. */
  predicate AcceptedFrom(cfg: Config, v: Sandbox, req: Request) {
    && v.Annotation(LastOrderId) == req.order
    && v.Annotation(LastOrderAttempt) == FormatInt(req.attempt)
    && Get(v.labels, SessionLabel) == cfg.names.labelValue(req.session)
  }

  /** `k` is what an invocation for `req` creates on the Sandbox `uid`. */
  predicate IsSecretOf(cfg: Config, k: Secret, uid: string, req: Request) {
    && k.name == cfg.names.secret(req.session, uid, req.order)
    && k.immutable
    && k.annotations == map[OrderId := req.order, OrderAttempt := FormatInt(req.attempt), SessionId := req.session]
    && k.owners == [uid]
    && k.workOrder == req.workOrder
  }

  ghost predicate HasSecret(cfg: Config, s: State, uid: string, req: Request) {
    exists k :: k in s.secretsEver && IsSecretOf(cfg, k, uid, req)
  }

  /** The order some invocation was started with, that `v` has accepted, and how
      far `v` has taken it. */
  ghost predicate CarriesOrder(cfg: Config, s: State, v: Sandbox, req: Request) {
    && AcceptedFrom(cfg, v, req)
    && (v.Annotation(PendingSecret) != "" ==>
          && v.Annotation(PendingSecret) == cfg.names.secret(req.session, v.uid, req.order)
          && v.Annotation(LastOrderSecret) != ""
          && HasSecret(cfg, s, v.uid, req))
    && (v.IsRunning() ==>
          && Get(v.spec.template.annotations, OrderId) == req.order
          && WorkOrderSecretOf(v.spec.template.volumes) == cfg.names.secret(req.session, v.uid, req.order))
  }

  ghost predicate VersionOk(cfg: Config, s: State, v: Sandbox) {
    && Selected(cfg, v.labels) && Selected(cfg, v.spec.template.labels)
    && NamedVolume(v.spec.template.volumes, WORK_ORDER_VOLUME).Some?
    && InPhase(v)
    && (exists h :: h in s.hooks && CarriesOrder(cfg, s, v, s.hooks[h].req))
    && (v.Annotation(AppliedSpawn) != "" ==> exists h :: h in s.hooks && HasApplied(v, s.hooks[h].req))
  }

  /** The order last installed was requested, at an attempt not above the accepted. */
  predicate HasApplied(v: Sandbox, req: Request) {
    v.Annotation(AppliedSpawn) == req.order && req.attempt <= AcceptedAttempt(v)
  }

  // ---- The invariant, part by part

  predicate RequestsOk(cfg: Config, s: State) {
    && (forall h :: h in s.hooks ==> ValidRequest(s.hooks[h].req) && Contracted(cfg, s.hooks[h].tmpl, s.hooks[h].req))
    && (forall h, k :: h in s.hooks && k in s.hooks ==> SameOrder(s.hooks[h].req, s.hooks[k].req))
  }

  /** The live Sandbox of a name is a version, and the newest of its uid. */
  ghost predicate VersionsOk(s: State) {
    && (forall i :: 0 <= i < |s.versions| ==> s.versions[i].rv == i && s.versions[i].uid != "")
    && (forall n :: n in s.sandboxes ==> s.sandboxes[n].name == n && IsVersion(s, s.sandboxes[n]))
    && (forall n, i :: n in s.sandboxes && 0 <= i < |s.versions| && s.versions[i].uid == s.sandboxes[n].uid ==>
          i <= s.sandboxes[n].rv && s.versions[i].name == n)
  }

  predicate IsVersion(s: State, sb: Sandbox) {
    sb.rv < |s.versions| && s.versions[sb.rv] == sb
  }

  ghost predicate EveryVersionOk(cfg: Config, s: State) {
    forall i :: 0 <= i < |s.versions| ==> VersionOk(cfg, s, s.versions[i])
  }

  /** Accepted attempts only grow, an order changes only with its attempt, a started
      order is never prepared or started again, and what was prepared stays so. */
  predicate AttemptsGrow(v: Sandbox, w: Sandbox) {
    && AcceptedAttempt(v) <= AcceptedAttempt(w)
    && (AcceptedAttempt(v) == AcceptedAttempt(w) ==> v.Annotation(LastOrderId) == w.Annotation(LastOrderId))
    && (v.IsRunning() && (Preparing(w) || (w.IsRunning() && v.generation < w.generation)) ==>
          AcceptedAttempt(v) < AcceptedAttempt(w))
    && (Unprepared(w) ==> Unprepared(v))
  }

  /** Generations only grow, equal generations have equal specs, and Running never
      follows Running. */
  predicate GenerationsGrow(v: Sandbox, w: Sandbox) {
    && v.generation <= w.generation
    && (v.generation == w.generation ==> v.spec == w.spec)
    && (v.IsRunning() && w.generation == v.generation + 1 ==> !w.IsRunning())
  }

  ghost predicate HistoryOk(s: State) {
    forall i, j :: 0 <= i < j < |s.versions| && s.versions[i].uid == s.versions[j].uid ==>
      AttemptsGrow(s.versions[i], s.versions[j]) && GenerationsGrow(s.versions[i], s.versions[j])
  }

  /** Every Secret is some request's, owned by one Sandbox uid that has existed, and
      stays while that Sandbox lives. */
  ghost predicate SecretsOk(cfg: Config, s: State) {
    && (forall k :: k in s.secretsEver ==>
          && |k.owners| == 1
          && (exists h :: h in s.hooks && IsSecretOf(cfg, k, k.owners[0], s.hooks[h].req))
          && (exists i :: 0 <= i < |s.versions| && s.versions[i].uid == k.owners[0])
          && (Live(s.sandboxes, k.owners[0]) ==> k.name in s.secrets))
    && (forall n :: n in s.secrets ==> s.secrets[n].name == n && s.secrets[n] in s.secretsEver)
  }

  /** The sandbox controller works from versions, and never reports beyond them. */
  ghost predicate SeenOk(s: State) {
    && (forall u :: u in s.seen ==> s.seen[u].uid == u && IsVersion(s, s.seen[u]))
    && (forall i :: 0 <= i < |s.versions| && s.versions[i].IsRunning() ==>
          && s.versions[i].uid in s.seen
          && s.versions[i].generation <= s.seen[s.versions[i].uid].generation + 1)
  }

  /** What a condition says is true as long as the sandbox controller still works
      from the generation it names. */
  ghost predicate ConditionOk(s: State, uid: string, c: ConditionType, cond: Condition) {
    && uid in s.seen
    && cond.observedGeneration <= s.seen[uid].generation
    && (cond.status && cond.observedGeneration == s.seen[uid].generation ==>
          match c
          case SuspendedCondition => !s.seen[uid].IsRunning() && !HasPod(s.pods, uid)
          case FinishedCondition =>
            s.seen[uid].IsRunning() && HasPod(s.pods, uid) &&
            forall id :: id in s.pods && s.pods[id].owner == uid ==> s.pods[id].terminal)
  }

  ghost predicate ConditionsOk(s: State) {
    forall n, c :: n in s.sandboxes && c in s.sandboxes[n].conditions ==>
      ConditionOk(s, s.sandboxes[n].uid, c, s.sandboxes[n].conditions[c])
  }

  /** A Pod was made from a Running version its Sandbox's controller has seen, and
      no later Running version exists while the Pod does. */
  ghost predicate PodOk(s: State, p: Pod) {
    && p.owner in s.seen
    && p.madeFrom < |s.versions|
    && var w := s.versions[p.madeFrom];
       && w.uid == p.owner && w.IsRunning() && w.generation <= s.seen[p.owner].generation
       && p.template == w.spec.template
  }

  ghost predicate PodsOk(s: State) {
    && (forall p :: p in s.podsEver ==> PodOk(s, p))
    && (forall id :: id in s.pods ==> s.pods[id].id == id && s.pods[id] in s.podsEver)
    && (forall p :: p in s.podsEver && p.id in s.pods ==>
        p.madeFrom == s.pods[p.id].madeFrom && p.owner == s.pods[p.id].owner)
    && (forall id, jd :: id in s.pods && jd in s.pods && s.pods[id].owner == s.pods[jd].owner ==> id == jd)
  }

  /** No Running version of its Sandbox is of a later generation than a Pod. */
  ghost predicate NothingOutruns(s: State) {
    forall id, i ::
      id in s.pods && 0 <= i < |s.versions| && s.versions[i].IsRunning() && s.versions[i].uid == s.pods[id].owner ==>
        s.versions[i].generation <= Generation(s, s.pods[id])
  }

  /** A Pod that is going or gone is of a generation the sandbox controller has left. */
  ghost predicate LeftBehind(s: State) {
    forall p :: p in s.podsEver && Leaves(s, p) ==> Generation(s, p) < s.seen[p.owner].generation
  }

  predicate Leaves(s: State, p: Pod) {
    Live(s.sandboxes, p.owner) && p.owner in s.seen && (p.id in s.pods ==> s.pods[p.id].deleting)
  }

  ghost predicate PodGenerationsOk(s: State) {
    NothingOutruns(s) && LeftBehind(s)
  }

  ghost function Generation(s: State, p: Pod): nat {
    if p.madeFrom < |s.versions| then s.versions[p.madeFrom].generation else 0
  }

  /** What an invocation holds on to between calls. */
  ghost predicate HookOk(cfg: Config, s: State, inv: Invocation) {
    match inv.pc
    case AdmittingNewer(_, snap) => SnapOk(s, inv, snap) && Evaluate(cfg, snap, inv.req) == Newer && !HoldsSlot(snap)
    case Securing(_, snap, newer) =>
      SnapOk(s, inv, snap) && Evaluate(cfg, snap, inv.req) == if newer then Newer else Redelivery
    case Verifying(_, snap, newer) =>
      SnapOk(s, inv, snap) && Evaluate(cfg, snap, inv.req) == if newer then Newer else Redelivery
    case Patching(_, snap, newer) =>
      && SnapOk(s, inv, snap)
      && Evaluate(cfg, snap, inv.req) == (if newer then Newer else Redelivery)
      && HasSecret(cfg, s, snap.uid, inv.req)
      && (!newer ==> Repair(snap, inv.req, cfg.names.secret(inv.req.session, snap.uid, inv.req.order)).Repaired?)
    case Done(at) =>
      && at < |s.versions| && s.versions[at].name == inv.tmpl.name
      && AcceptedAttempt(s.versions[at]) >= inv.req.attempt
      && (AcceptedAttempt(s.versions[at]) == inv.req.attempt ==> 
            s.versions[at].Annotation(LastOrderId) == inv.req.order && !Unprepared(s.versions[at]))
    case _ => true
  }

  ghost predicate SnapOk(s: State, inv: Invocation, snap: Sandbox) {
    IsVersion(s, snap) && snap.name == inv.tmpl.name
  }

  ghost predicate HooksOk(cfg: Config, s: State) {
    forall h :: h in s.hooks ==> HookOk(cfg, s, s.hooks[h])
  }

  ghost predicate Inv(cfg: Config, s: State) {
    && RequestsOk(cfg, s)
    && VersionsOk(s)
    && EveryVersionOk(cfg, s)
    && HistoryOk(s)
    && SecretsOk(cfg, s)
    && SeenOk(s)
    && ConditionsOk(s)
    && PodsOk(s)
    && PodGenerationsOk(s)
    && HooksOk(cfg, s)
  }

  /** What is assumed of the configuration: ConfigFromEnv refuses an empty release,
      and Secret names are injective and never empty. */
  ghost predicate ConfigOk(cfg: Config) {
    cfg.release != "" && cfg.names.SecretNamesInjective() && cfg.names.SecretNamesNonEmpty()
  }
}
