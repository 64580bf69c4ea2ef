/** internal/sessioncontroller/reconciler.go: what one pass decides from a Sandbox,
    a Pod list and a Secret it has read. */
module SessionController {
  import opened Api
  import opened Decimal
  import opened IdleCap

  /** The Pods the API returns for the release's runner selector, narrowed to those
      this Sandbox's uid controls. */
  function OwnedPods(cfg: Config, list: seq<Pod>, uid: string): seq<Pod> {
    if list == [] then []
    else
      var last := list[|list| - 1];
      var init := OwnedPods(cfg, list[..|list| - 1], uid);
      if Selected(cfg, last.labels) && last.owner == uid then init + [last] else init
  }

  predicate Selected(cfg: Config, labels: Labels) {
    Get(labels, ComponentLabel) == COMPONENT_RUNNER && Get(labels, InstanceLabel) == cfg.release
  }

  lemma {:induction false} OwnedPodsMembers(cfg: Config, list: seq<Pod>, uid: string)
    ensures forall p :: p in OwnedPods(cfg, list, uid) <==> p in list && Selected(cfg, p.labels) && p.owner == uid
  {
    if list != [] {
      OwnedPodsMembers(cfg, list[..|list| - 1], uid);
      assert list == list[..|list| - 1] + [list[|list| - 1]];
    }
  }

  method ListOwnedPods(cfg: Config, list: seq<Pod>, uid: string) returns (out: seq<Pod>)
    ensures out == OwnedPods(cfg, list, uid)
  {
    out := [];
    for i := 0 to |list|
      invariant out == OwnedPods(cfg, list[..i], uid)
    {
      assert list[..i + 1][..i] == list[..i];
      if Selected(cfg, list[i].labels) && list[i].owner == uid {
        out := out + [list[i]];
      }
    }
    assert list[..|list|] == list;
  }

  /** Condition True, and observed for the current generation. */
  predicate CurrentGenerationTrue(sb: Sandbox, c: ConditionType) {
    c in sb.conditions && sb.conditions[c].status && sb.conditions[c].observedGeneration == sb.generation
  }

  /** A Pod that acknowledges the pending order. */
  predicate Acknowledges(p: Pod, pending: string, pendingSecret: string) {
    Get(p.annotations, OrderId) == pending && pendingSecret != "" && WorkOrderSecretOf(p.volumes) == pendingSecret
  }

  /** spawnObservation: clears the pending intent once the applied order's Pod exists. */
  function Observe(sb: Sandbox, pods: seq<Pod>): Option<Sandbox> {
    var pending := sb.Annotation(PendingSpawn);
    if pending == "" || sb.Annotation(AppliedSpawn) != pending then None
    else if !(exists p :: p in pods && Acknowledges(p, pending, sb.Annotation(PendingSecret))) then None
    else Some(sb.(annotations := sb.annotations - {PendingSpawn} - {PendingSpawnAt} - {PendingSecret}))
  }

  method SpawnObservation(sb: SandboxObject, pods: seq<Pod>) returns (write: Option<Sandbox>)
    ensures write == Observe(sb.Value(), pods)
  {
    var pending := Get(sb.annotations, PendingSpawn);
    if pending == "" || Get(sb.annotations, AppliedSpawn) != pending {
      return None;
    }
    var pendingSecret := Get(sb.annotations, PendingSecret);
    var found := false;
    for i := 0 to |pods|
      invariant !found && forall j :: 0 <= j < i ==> !Acknowledges(pods[j], pending, pendingSecret)
    {
      if Acknowledges(pods[i], pending, pendingSecret) {
        assert pods[i] in pods;
        found := true;
        break;
      }
    }
    if !found {
      return None;
    }
    var mut := sb.DeepCopy();
    mut.annotations := mut.annotations - {PendingSpawn} - {PendingSpawnAt} - {PendingSecret};
    return Some(mut.Value());
  }

  /** sleep: suspends a Sandbox whose runner has exited for the current generation. */
  function Sleep(sb: Sandbox, now: int): Option<Sandbox> {
    if !sb.IsRunning() || sb.Annotation(PendingSpawn) != "" || !CurrentGenerationTrue(sb, FinishedCondition) then None
    else Some(sb.(annotations := sb.annotations[LastSuspendedAt := FormatInt(now)],
                  spec := sb.spec.(mode := Suspended)))
  }

  method SleepPass(sb: SandboxObject, now: int) returns (write: Option<Sandbox>)
    ensures write == Sleep(sb.Value(), now)
  {
    if sb.mode != Running || Get(sb.annotations, PendingSpawn) != "" ||
       !CurrentGenerationTrue(sb.Value(), FinishedCondition) {
      return None;
    }
    var mut := sb.DeepCopy();
    mut.annotations, mut.mode := mut.annotations[LastSuspendedAt := FormatInt(now)], Suspended;
    return Some(mut.Value());
  }

  /** The Secret belongs to this Sandbox's accepted order. */
  predicate ValidWorkOrderSecret(cfg: Config, secret: Secret, sb: Sandbox, order: string) {
    var session := Get(secret.annotations, SessionId);
    && secret.immutable
    && secret.workOrder != ""
    && Get(secret.annotations, OrderId) == order
    && Get(secret.annotations, OrderAttempt) == sb.Annotation(LastOrderAttempt)
    && cfg.names.labelValue(session) == Get(sb.labels, SessionLabel)
    && secret.name == cfg.names.secret(session, sb.uid, order)
    && sb.uid in secret.owners
  }

  datatype WakeError = NoPendingSecret | NotLastOrder | SecretUnreadable | SecretRejected | NoVolume
  datatype WakeResult = NotDue | Blocked(error: WakeError) | Woken(mut: Sandbox)

  /** Every work-order volume made a Secret volume naming `secretName`. */
  function Installed(volumes: seq<Volume>, secretName: string): (r: seq<Volume>)
    ensures |r| == |volumes|
    ensures forall i :: 0 <= i < |r| ==> r[i] == InstalledVolume(volumes[i], secretName)
  {
    if volumes == [] then []
    else [InstalledVolume(volumes[0], secretName)] + Installed(volumes[1..], secretName)
  }

  function InstalledVolume(v: Volume, secretName: string): Volume {
    if v.name != WORK_ORDER_VOLUME then v
    else if v.source.SecretSource? then v.(source := v.source.(secretName := secretName))
    else v.(source := SecretSource(secretName, ""))
  }

  /** The loop of wake over the template's volumes, in place. */
  method InstallSecret(volumes: array<Volume>, secretName: string) returns (installed: bool)
    modifies volumes
    ensures volumes[..] == Installed(old(volumes[..]), secretName)
    ensures installed <==> NamedVolume(old(volumes[..]), WORK_ORDER_VOLUME).Some?
  {
    installed := false;
    for i := 0 to volumes.Length
      invariant forall j :: 0 <= j < i ==> volumes[j] == InstalledVolume(old(volumes[j]), secretName)
      invariant forall j :: i <= j < volumes.Length ==> volumes[j] == old(volumes[j])
      invariant installed <==> exists j :: 0 <= j < i && old(volumes[j]).name == WORK_ORDER_VOLUME
    {
      if volumes[i].name == WORK_ORDER_VOLUME {
        volumes[i] := InstalledVolume(volumes[i], secretName);
        installed := true;
      }
    }
    assert volumes[..] == Installed(old(volumes[..]), secretName);
    if installed {
      ghost var j :| 0 <= j < volumes.Length && old(volumes[j]).name == WORK_ORDER_VOLUME;
      assert old(volumes[..])[j] in old(volumes[..]);
    }
  }

  /** Once installed, a Pod made from the template names the Secret. */
  lemma {:induction false} InstalledSecret(volumes: seq<Volume>, secretName: string)
    requires NamedVolume(volumes, WORK_ORDER_VOLUME).Some?
    ensures WorkOrderSecretOf(Installed(volumes, secretName)) == secretName
    ensures NamedVolume(Installed(volumes, secretName), WORK_ORDER_VOLUME).Some?
  {
    if volumes[0].name != WORK_ORDER_VOLUME {
      InstalledSecret(volumes[1..], secretName);
    }
  }

  /** wake: installs the pending order once suspension is confirmed and the Secret
      validates. `secret` is what reading the pending Secret returned. */
  function Wake(cfg: Config, sb: Sandbox, secret: Option<Secret>): WakeResult {
    var pending := sb.Annotation(PendingSpawn);
    var secretName := sb.Annotation(PendingSecret);
    if sb.IsRunning() || pending == "" || !CurrentGenerationTrue(sb, SuspendedCondition) then NotDue
    else if secretName == "" then Blocked(NoPendingSecret)
    else if sb.Annotation(LastOrderId) != pending then Blocked(NotLastOrder)
    else if secret.None? then Blocked(SecretUnreadable)
    else if !ValidWorkOrderSecret(cfg, secret.value, sb, pending) then Blocked(SecretRejected)
    else if NamedVolume(sb.spec.template.volumes, WORK_ORDER_VOLUME).None? then Blocked(NoVolume)
    else Woken(Awake(sb, pending, secretName))
  }

  /** The Sandbox with one order installed. */
  function Awake(sb: Sandbox, order: string, secretName: string): Sandbox {
    sb.(annotations := sb.annotations[AppliedSpawn := order] - {LastSuspendedAt},
        spec := sb.spec.(mode := Running, template := OrderInstalled(sb.spec.template, order, secretName)))
  }

  function OrderInstalled(template: PodTemplate, order: string, secretName: string): PodTemplate {
    template.(annotations := template.annotations[OrderId := order],
              volumes := Installed(template.volumes, secretName))
  }

  method InstallOrder(template: PodTemplate, order: string, secretName: string) returns (pt: Option<PodTemplate>)
    ensures pt == if NamedVolume(template.volumes, WORK_ORDER_VOLUME).None? then None
                  else Some(OrderInstalled(template, order, secretName))
  {
    var volumes := template.volumes;
    var buffer := new Volume[|volumes|](i requires 0 <= i < |volumes| => volumes[i]);
    assert buffer[..] == volumes;
    var installed := InstallSecret(buffer, secretName);
    return if installed
      then Some(template.(annotations := template.annotations[OrderId := order], volumes := buffer[..]))
      else None;
  }

  method RequestRunning(sb: SandboxObject, order: string, template: PodTemplate) returns (mut: SandboxObject)
    ensures mut.Value() == sb.Value().(annotations := sb.annotations[AppliedSpawn := order] - {LastSuspendedAt},
                                       spec := sb.Value().spec.(mode := Running, template := template))
  {
    mut := sb.DeepCopy();
    var annotations := mut.annotations[AppliedSpawn := order] - {LastSuspendedAt};
    mut.annotations, mut.mode, mut.template := annotations, Running, template;
  }

  method WakePass(cfg: Config, sb: SandboxObject, secret: Option<Secret>) returns (result: WakeResult)
    ensures result == Wake(cfg, sb.Value(), secret)
  {
    if sb.mode != Suspended {
      return NotDue;
    }
    var pending := Get(sb.annotations, PendingSpawn);
    if pending == "" || !CurrentGenerationTrue(sb.Value(), SuspendedCondition) {
      return NotDue;
    }
    var secretName := Get(sb.annotations, PendingSecret);
    if secretName == "" {
      return Blocked(NoPendingSecret);
    }
    if Get(sb.annotations, LastOrderId) != pending {
      return Blocked(NotLastOrder);
    }
    if secret.None? {
      return Blocked(SecretUnreadable);
    }
    if !ValidWorkOrderSecret(cfg, secret.value, sb.Value(), pending) {
      return Blocked(SecretRejected);
    }
    var template := InstallOrder(sb.template, pending, secretName);
    if template.None? {
      return Blocked(NoVolume);
    }
    var mut := RequestRunning(sb, pending, template.value);
    return Woken(mut.Value());
  }

  datatype Idleness = NotIdle | Unreadable | IdleAt(at: int)

  /** When an asleep Sandbox was suspended. */
  function IdleSince(sb: Sandbox): Idleness {
    if sb.deleting || sb.IsRunning() || sb.Annotation(PendingSpawn) != "" ||
       !CurrentGenerationTrue(sb, SuspendedCondition) then NotIdle
    else if sb.Annotation(LastSuspendedAt) == "" then NotIdle
    else
      match ParseInt(sb.Annotation(LastSuspendedAt))
      case None => Unreadable
      case Some(t) => IdleAt(t)
  }

  /** The asleep Sandboxes of a list, in list order. */
  function IdleEntries(list: seq<Sandbox>): seq<Entry> {
    if list == [] then []
    else
      var last := list[|list| - 1];
      var init := IdleEntries(list[..|list| - 1]);
      match IdleSince(last)
      case IdleAt(t) => init + [Entry(last.name, last.uid, t)]
      case _ => init
  }

  predicate DistinctSandboxNames(list: seq<Sandbox>) {
    forall i, j :: 0 <= i < j < |list| ==> list[i].name != list[j].name
  }

  lemma {:induction false} IdleEntriesMembers(list: seq<Sandbox>)
    ensures forall e :: e in IdleEntries(list) <==>
              exists sb :: sb in list && e == Entry(sb.name, sb.uid, e.at) && IdleSince(sb) == IdleAt(e.at)
  {
    if list != [] {
      var init, last := list[..|list| - 1], list[|list| - 1];
      IdleEntriesMembers(init);
      assert list == init + [last];
    }
  }

  lemma {:induction false} IdleEntriesDistinct(list: seq<Sandbox>)
    requires DistinctSandboxNames(list)
    ensures DistinctNames(IdleEntries(list))
  {
    if list != [] {
      var init := list[..|list| - 1];
      IdleEntriesDistinct(init);
      IdleEntriesMembers(init);
      var entries := IdleEntries(init);
      forall k | 0 <= k < |entries| ensures entries[k].name != list[|list| - 1].name {
        assert entries[k] in entries;
      }
    }
  }

  /** idleVictims: the loop over the List, then the sort and the cut. */
  method IdleVictims(list: seq<Sandbox>, keep: int) returns (victims: seq<Entry>)
    requires keep > 0 && DistinctSandboxNames(list)
    ensures forall e :: e in victims <==> IsVictim(e, SetOf(IdleEntries(list)), keep)
  {
    var idle: seq<Entry> := [];
    for i := 0 to |list|
      invariant idle == IdleEntries(list[..i])
    {
      assert list[..i + 1][..i] == list[..i];
      match IdleSince(list[i]) {
        case IdleAt(t) => idle := idle + [Entry(list[i].name, list[i].uid, t)];
        case _ =>
      }
    }
    assert list[..|list|] == list;
    IdleEntriesDistinct(list);
    victims := SelectVictims(idle, keep);
  }

  /** gc: due past the age limit, or as one of the oldest beyond the idle cap. */
  predicate GcDue(cfg: Config, sb: Sandbox, list: seq<Sandbox>, now: int) {
    cfg.gcEnabled && IdleSince(sb).IdleAt? &&
    (now - IdleSince(sb).at >= cfg.gcMaxIdleAge ||
     (cfg.gcMaxIdleSessions > 0 &&
      exists e :: e in SetOf(IdleEntries(list)) && e.uid == sb.uid &&
                  IsVictim(e, SetOf(IdleEntries(list)), cfg.gcMaxIdleSessions)))
  }

  method Gc(cfg: Config, sb: SandboxObject, list: seq<Sandbox>, now: int) returns (delete: bool)
    requires DistinctSandboxNames(list)
    ensures delete == GcDue(cfg, sb.Value(), list, now)
  {
    if !cfg.gcEnabled {
      return false;
    }
    var idle := IdleSince(sb.Value());
    if !idle.IdleAt? {
      return false;
    }
    delete := false;
    if now - idle.at >= cfg.gcMaxIdleAge {
      delete := true;
    } else if cfg.gcMaxIdleSessions > 0 {
      var victims := IdleVictims(list, cfg.gcMaxIdleSessions);
      for i := 0 to |victims|
        invariant delete <==> exists j :: 0 <= j < i && victims[j].uid == sb.uid
      {
        if victims[i].uid == sb.uid {
          delete := true;
        }
      }
      if delete {
        var j :| 0 <= j < |victims| && victims[j].uid == sb.uid;
        assert victims[j] in victims;
      }
    }
  }

  /** What a pass sends to the API server, if anything. */
  datatype Write = Nothing | Observed(mut: Sandbox) | Slept(mut: Sandbox) | Awoke(mut: Sandbox) | Collect

  function Decide(cfg: Config, sb: Sandbox, pods: seq<Pod>, secret: Option<Secret>, list: seq<Sandbox>, now: int): Write
  {
    if sb.deleting || !Selected(cfg, sb.labels) then Nothing
    else
      match Observe(sb, OwnedPods(cfg, pods, sb.uid))
      case Some(mut) => Observed(mut)
      case None =>
        match Sleep(sb, now)
        case Some(mut) => Slept(mut)
        case None =>
          match Wake(cfg, sb, secret)
          case Woken(mut) => Awoke(mut)
          case Blocked(_) => Nothing
          case NotDue => if GcDue(cfg, sb, list, now) then Collect else Nothing
  }

  /** Reconcile: the predicates in order, returning after the first write. */
  method Reconcile(cfg: Config, sb: SandboxObject, pods: seq<Pod>, secret: Option<Secret>, list: seq<Sandbox>, now: int)
    returns (write: Write)
    requires DistinctSandboxNames(list)
    ensures write == Decide(cfg, sb.Value(), pods, secret, list, now)
  {
    if sb.deleting || !Selected(cfg, sb.labels) {
      return Nothing;
    }
    var owned := ListOwnedPods(cfg, pods, sb.uid);
    var observed := SpawnObservation(sb, owned);
    if observed.Some? {
      return Observed(observed.value);
    }
    var slept := SleepPass(sb, now);
    if slept.Some? {
      return Slept(slept.value);
    }
    var woken := WakePass(cfg, sb, secret);
    match woken {
      case Woken(mut) => return Awoke(mut);
      case Blocked(_) => return Nothing;
      case NotDue =>
    }
    var due := Gc(cfg, sb, list, now);
    return if due then Collect else Nothing;
  }
}
