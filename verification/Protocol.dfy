/** The sleep/wake/spawn protocol as a transition system: hook invocations,
    controller passes, the sandbox controller and the API server take turns on one
    store. Nothing is locked. A hook works from a Sandbox it read earlier; a
    controller pass from any Sandbox version that ever existed and any mixture of
    Pods and Secrets that ever existed. */
module Protocol {
  import opened Api
  import opened Decimal
  import opened Hook
  import opened SessionController

  /** Where an invocation is: the API call it makes next. `tries` counts attempts
      of its loop. `Done` (exit 0) remembers the version it answered for. */
  datatype Pc =
    | Reading(tries: nat)
    | Admitting(tries: nat)
    | Creating(tries: nat)
    | AdmittingNewer(tries: nat, snap: Sandbox)
    | Securing(tries: nat, snap: Sandbox, newer: bool)
    | Verifying(tries: nat, snap: Sandbox, newer: bool)
    | Patching(tries: nat, snap: Sandbox, newer: bool)
    | Done(at: nat)
    | Failed(code: nat)
    | Crashed

  predicate Active(pc: Pc) {
    !pc.Done? && !pc.Failed? && !pc.Crashed?
  }

  datatype Invocation = Invocation(req: Request, tmpl: Sandbox, pc: Pc)

  /** `versions[rv]` is the Sandbox written with resourceVersion rv, so its length
      is the next resourceVersion. `seen` is the Sandbox version, by uid, that the
      sandbox controller works from. */
  datatype State = State(
    sandboxes: map<string, Sandbox>,
    secrets: map<string, Secret>,
    pods: map<nat, Pod>,
    seen: map<string, Sandbox>,
    hooks: map<nat, Invocation>,
    versions: seq<Sandbox>,
    secretsEver: set<Secret>,
    podsEver: set<Pod>)

  const INIT := State(map[], map[], map[], map[], map[], [], {}, {})

  // ---- API server

  /** A written Sandbox: a fresh resourceVersion, and a new generation exactly when
      the spec changed. */
  function Stored(cur: Sandbox, mut: Sandbox, rv: nat): Sandbox {
    mut.(rv := rv, generation := if mut.spec == cur.spec then cur.generation else cur.generation + 1)
  }

  function Put(s: State, sb: Sandbox): State {
    s.(sandboxes := s.sandboxes[sb.name := sb], versions := s.versions + [sb])
  }

  /** The pins of a patch computed from `snap` hold. */
  predicate Current(s: State, snap: Sandbox) {
    snap.name in s.sandboxes && s.sandboxes[snap.name].uid == snap.uid && s.sandboxes[snap.name].rv == snap.rv
  }

  /** A pinned patch from `snap` to `mut`: commits only on the version it was
      computed from. */
  function Patch(s: State, snap: Sandbox, mut: Sandbox): State {
    if Current(s, snap) then Put(s, Stored(s.sandboxes[snap.name], mut, |s.versions|)) else s
  }

  /** A uid the API server has never given out. */
  predicate NewUid(s: State, uid: string) {
    uid != "" && forall i :: 0 <= i < |s.versions| ==> s.versions[i].uid != uid
  }

  /** One, longer than any before. */
  function FreshUid(versions: seq<Sandbox>): (uid: string)
    ensures uid != "" && forall i :: 0 <= i < |versions| ==> |versions[i].uid| < |uid|
  {
    if versions == [] then "x"
    else FreshUid(versions[..|versions| - 1]) + versions[|versions| - 1].uid + "x"
  }

  predicate Live(sandboxes: map<string, Sandbox>, uid: string) {
    exists n :: n in sandboxes && sandboxes[n].uid == uid
  }

  /** The names other than `own` that hold a slot. */
  function Holders(sandboxes: map<string, Sandbox>): set<string> {
    set n | n in sandboxes && HoldsSlot(sandboxes[n])
  }

  // ---- Hook invocations

  /** What ApplyContract guarantees of the template an invocation works with. */
  predicate Contracted(cfg: Config, tmpl: Sandbox, req: Request) {
    && tmpl.name == cfg.names.sandbox(req.session)
    && Selected(cfg, tmpl.labels)
    && Get(tmpl.labels, SessionLabel) == cfg.names.labelValue(req.session)
    && Selected(cfg, tmpl.spec.template.labels)
    && NamedVolume(tmpl.spec.template.volumes, WORK_ORDER_VOLUME).Some?
  }

  /** What RequestFromEnv guarantees. */
  predicate ValidRequest(req: Request) {
    req.order != "" && 0 <= req.attempt <= MAX_INT64 && req.workOrder != ""
  }

  /** An order id determines its attempt, session and work order. */
  predicate SameOrder(a: Request, b: Request) {
    a.order == b.order ==> a.attempt == b.attempt && a.session == b.session && a.workOrder == b.workOrder
  }

  /** Seconds since the epoch, as a clock gives them. */
  predicate IsTime(now: int) {
    MIN_INT64 <= now <= MAX_INT64
  }

  /** The loop goes round again, or gives up. */
  function Retry(cfg: Config, tries: nat): Pc {
    if tries + 1 < cfg.maxAttempts then Reading(tries + 1) else Failed(EXIT_RETRYABLE)
  }

  /** reconcileExisting up to its first API call. */
  function Classified(cfg: Config, req: Request, tries: nat, sb: Sandbox): Pc {
    match Evaluate(cfg, sb, req)
    case Refuse(code) => Failed(code)
    case Superseded => Done(sb.rv)
    case Redelivery => Securing(tries, sb, false)
    case Newer =>
      if cfg.maxActiveSessions <= 0 || HoldsSlot(sb) then Securing(tries, sb, true) else AdmittingNewer(tries, sb)
  }

  /** What follows once the order's Secret is known to be right. */
  function Secured(cfg: Config, req: Request, tries: nat, snap: Sandbox, newer: bool): Pc {
    if newer then Patching(tries, snap, true)
    else
      match Repair(snap, req, cfg.names.secret(req.session, snap.uid, req.order))
      case Mismatch => Failed(EXIT_NON_RETRYABLE)
      case Complete => Done(snap.rv)
      case Repaired(_) => Patching(tries, snap, false)
  }

  /** The object a Patching invocation sends. */
  function Mutated(cfg: Config, inv: Invocation, now: int): Sandbox
    requires inv.pc.Patching?
  {
    var snap := inv.pc.snap;
    var secretName := cfg.names.secret(inv.req.session, snap.uid, inv.req.order);
    if inv.pc.newer then Publish(snap, inv.tmpl, inv.req, now, secretName)
    else
      match Repair(snap, inv.req, secretName)
      case Repaired(mut) => mut
      case _ => snap
  }

  function Created(cfg: Config, inv: Invocation, now: int, uid: string, rv: nat): Sandbox {
    CreateBody(inv.tmpl, inv.req, now).(uid := uid, rv := rv, generation := 1, deleting := false, conditions := map[])
  }

  function DesiredSecret(cfg: Config, inv: Invocation, uid: string): Secret {
    WorkOrderSecret(cfg, uid, inv.tmpl.labels, inv.req)
  }

  /** The order's Secret stands and is the right one. */
  predicate SecretStands(cfg: Config, s: State, inv: Invocation, uid: string) {
    var desired := DesiredSecret(cfg, inv, uid);
    desired.name in s.secrets && VerifySecret(s.secrets[desired.name], desired)
  }

  /** An invocation's next API call: its effect on the store and where it leads. */
  datatype Reply = Reply(state: State, pc: Pc)

  function Call(cfg: Config, s: State, inv: Invocation, now: int, uid: string): Reply
    requires Active(inv.pc)
  {
    var name := inv.tmpl.name;
    match inv.pc
    case Reading(t) =>
      if name in s.sandboxes then Reply(s, Classified(cfg, inv.req, t, s.sandboxes[name]))
      else Reply(s, if cfg.maxActiveSessions <= 0 then Creating(t) else Admitting(t))
    case Admitting(t) =>
      Reply(s, if |Holders(s.sandboxes) - {name}| < cfg.maxActiveSessions then Creating(t) else Failed(EXIT_RETRYABLE))
    case Creating(t) =>
      if name in s.sandboxes then Reply(s, Retry(cfg, t))
      else
        var sb := Created(cfg, inv, now, uid, |s.versions|);
        Reply(Put(s, sb), Classified(cfg, inv.req, t, sb))
    case AdmittingNewer(t, snap) =>
      Reply(s, if |Holders(s.sandboxes) - {name}| < cfg.maxActiveSessions then Securing(t, snap, true)
            else Failed(EXIT_RETRYABLE))
    case Securing(t, snap, newer) =>
      var desired := DesiredSecret(cfg, inv, snap.uid);
      if desired.name in s.secrets then Reply(s, Verifying(t, snap, newer))
      else Reply(s.(secrets := s.secrets[desired.name := desired], secretsEver := s.secretsEver + {desired}),
                 Secured(cfg, inv.req, t, snap, newer))
    case Verifying(t, snap, newer) =>
      var desired := DesiredSecret(cfg, inv, snap.uid);
      if desired.name !in s.secrets then Reply(s, Failed(EXIT_RETRYABLE))
      else if !VerifySecret(s.secrets[desired.name], desired) then Reply(s, Failed(EXIT_NON_RETRYABLE))
      else Reply(s, Secured(cfg, inv.req, t, snap, newer))
    case Patching(t, snap, newer) =>
      if Current(s, snap) then Reply(Patch(s, snap, Mutated(cfg, inv, now)), Done(|s.versions|))
      else Reply(s, Retry(cfg, t))
  }

  // ---- The sandbox controller

  predicate HasPod(pods: map<nat, Pod>, uid: string) {
    exists id :: id in pods && pods[id].owner == uid
  }

  predicate HasTerminalPod(pods: map<nat, Pod>, uid: string) {
    exists id :: id in pods && pods[id].owner == uid && pods[id].terminal
  }

  function PodOf(sb: Sandbox, id: nat): Pod {
    Pod(id, sb.uid, sb.spec.template, false, false, sb.rv)
  }

  /** The conditions it reports: Suspended is True once no Pod is left; Finished is
      present only while a terminal Pod is. */
  function ReportedConditions(sb: Sandbox, pods: map<nat, Pod>): map<ConditionType, Condition> {
    var suspended := Condition(!sb.IsRunning() && !HasPod(pods, sb.uid), sb.generation);
    if sb.IsRunning() && HasTerminalPod(pods, sb.uid)
    then map[SuspendedCondition := suspended, FinishedCondition := Condition(true, sb.generation)]
    else map[SuspendedCondition := suspended]
  }

  // ---- Steps

  datatype Step =
    | Start(h: nat, req: Request, tmpl: Sandbox)
    | HookCall(h: nat, now: int, uid: string, lost: bool) // lost: the call took effect, the invocation never learnt
    | HookError(h: nat, code: nat)                        // any other API error
    | HookStale(h: nat)                                   // a patch refused as invalid, whatever the reason
    | HookCrash(h: nat)
    | ControllerPass(at: nat, pods: seq<Pod>, secret: Option<Secret>, list: seq<Sandbox>, now: int)
    | See(at: nat)
    | CreatePod(uid: string, id: nat)
    | DeletePod(id: nat)
    | Report(name: string)
    | PodFinishes(id: nat)
    | PodGone(id: nat)
    | Finalize(name: string)
    | CascadeSecret(name: string)

  predicate Enabled(cfg: Config, s: State, step: Step) {
    match step
    case Start(h, req, tmpl) =>
      && h !in s.hooks && ValidRequest(req) && Contracted(cfg, tmpl, req)
      && forall k :: k in s.hooks ==> SameOrder(req, s.hooks[k].req) && SameOrder(s.hooks[k].req, req)
    case HookCall(h, now, uid, lost) =>
      h in s.hooks && Active(s.hooks[h].pc) && (s.hooks[h].pc.Creating? ==> NewUid(s, uid))
    case HookError(h, code) => h in s.hooks && Active(s.hooks[h].pc) && code in {EXIT_RETRYABLE, EXIT_NON_RETRYABLE}
    case HookStale(h) => h in s.hooks && s.hooks[h].pc.Patching?
    case HookCrash(h) => h in s.hooks && Active(s.hooks[h].pc)
    case ControllerPass(at, pods, secret, list, now) =>
      && at < |s.versions| && IsTime(now)
      && (forall p :: p in pods ==> p in s.podsEver)
      && (secret.Some? ==>
          secret.value in s.secretsEver && secret.value.name == s.versions[at].Annotation(PendingSecret))
    case See(at) =>
      at < |s.versions| && (s.versions[at].uid in s.seen ==> s.seen[s.versions[at].uid].rv < at)
    case CreatePod(uid, id) =>
      && uid in s.seen && s.seen[uid].IsRunning() && !s.seen[uid].deleting && !HasPod(s.pods, uid)
      && forall p :: p in s.podsEver ==> p.id != id
    case DeletePod(id) =>
      && id in s.pods && !s.pods[id].deleting
      && (Live(s.sandboxes, s.pods[id].owner) ==> s.pods[id].owner in s.seen && !s.seen[s.pods[id].owner].IsRunning())
    case Report(name) =>
      && name in s.sandboxes && s.sandboxes[name].uid in s.seen
      && s.sandboxes[name].conditions != ReportedConditions(s.seen[s.sandboxes[name].uid], s.pods)
    case PodFinishes(id) => id in s.pods && !s.pods[id].terminal
    case PodGone(id) => id in s.pods && s.pods[id].deleting
    case Finalize(name) => name in s.sandboxes && s.sandboxes[name].deleting
    case CascadeSecret(name) =>
      name in s.secrets && forall u :: u in s.secrets[name].owners ==> !Live(s.sandboxes, u)
  }

  function SetPc(s: State, h: nat, pc: Pc): State
    requires h in s.hooks
  {
    s.(hooks := s.hooks[h := s.hooks[h].(pc := pc)])
  }

  function SetPod(s: State, p: Pod): State {
    s.(pods := s.pods[p.id := p], podsEver := s.podsEver + {p})
  }

  /** The write a pass decided on, sent with the pins of the version it read. */
  function CommitPass(s: State, snap: Sandbox, write: Write): State {
    match write
    case Nothing => s
    case Observed(mut) => Patch(s, snap, mut)
    case Slept(mut) => Patch(s, snap, mut)
    case Awoke(mut) => Patch(s, snap, mut)
    case Collect => Patch(s, snap, snap.(deleting := true))
  }

  function Apply(cfg: Config, s: State, step: Step): State
    requires Enabled(cfg, s, step)
  {
    match step
    case Start(h, req, tmpl) => s.(hooks := s.hooks[h := Invocation(req, tmpl, Reading(0))])
    case HookCall(h, now, uid, lost) =>
      var reply := Call(cfg, s, s.hooks[h], now, uid);
      SetPc(reply.state, h, if lost then Crashed else reply.pc)
    case HookError(h, code) => SetPc(s, h, Failed(code))
    case HookStale(h) => SetPc(s, h, Retry(cfg, s.hooks[h].pc.tries))
    case HookCrash(h) => SetPc(s, h, Crashed)
    case ControllerPass(at, pods, secret, list, now) =>
      var snap := s.versions[at];
      CommitPass(s, snap, Decide(cfg, snap, pods, secret, list, now))
    case See(at) => s.(seen := s.seen[s.versions[at].uid := s.versions[at]])
    case CreatePod(uid, id) => SetPod(s, PodOf(s.seen[uid], id))
    case DeletePod(id) => SetPod(s, s.pods[id].(deleting := true))
    case Report(name) =>
      var sb := s.sandboxes[name];
      Put(s, Stored(sb, sb.(conditions := ReportedConditions(s.seen[sb.uid], s.pods)), |s.versions|))
    case PodFinishes(id) => SetPod(s, s.pods[id].(terminal := true))
    case PodGone(id) => s.(pods := s.pods - {id})
    case Finalize(name) => s.(sandboxes := s.sandboxes - {name})
    case CascadeSecret(name) => s.(secrets := s.secrets - {name})
  }

  // ---- Runs

  /** The states reachable in any number of steps. */
  ghost predicate IsRun(cfg: Config, run: seq<State>, steps: seq<Step>) {
    && |run| == |steps| + 1
    && run[0] == INIT
    && forall k :: 0 <= k < |steps| ==> Enabled(cfg, run[k], steps[k]) && run[k + 1] == Apply(cfg, run[k], steps[k])
  }
}
