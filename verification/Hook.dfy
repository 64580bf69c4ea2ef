/** internal/hook/hook.go: what one spawn-runner invocation decides from a Sandbox
    it has read. The functions are the decisions, the methods the edits of a deep
    copy that carry them out. */
module Hook {
  import opened Api
  import opened Decimal

  const EXIT_SUBMITTED: nat := 0
  const EXIT_RETRYABLE: nat := 1
  const EXIT_NON_RETRYABLE: nat := 2

  datatype Decision = Redelivery | Superseded | Newer | Refuse(code: nat)

  /** The accepted attempt as text; absent counts as zero. */
  function ParseAttempt(s: string): Option<int> {
    if s == "" then Some(0) else ParseInt(s)
  }

  /** Classifies a request against the Sandbox's accepted order. */
  function Evaluate(cfg: Config, sb: Sandbox, req: Request): Decision {
    if sb.deleting then Refuse(EXIT_RETRYABLE)
    else if Get(sb.labels, PartOfLabel) != PART_OF then Refuse(EXIT_NON_RETRYABLE)
    else if Get(sb.labels, InstanceLabel) != cfg.release then Refuse(EXIT_NON_RETRYABLE)
    else if Get(sb.labels, SessionLabel) != cfg.names.labelValue(req.session) then Refuse(EXIT_NON_RETRYABLE)
    else
      match ParseAttempt(sb.Annotation(LastOrderAttempt))
      case None => Refuse(EXIT_NON_RETRYABLE)
      case Some(lastAttempt) =>
        if req.order == sb.Annotation(LastOrderId) then Redelivery
        else if req.attempt < lastAttempt then Superseded
        else if req.attempt == lastAttempt then Refuse(EXIT_NON_RETRYABLE)
        else Newer
  }

  /** Whether a Sandbox counts against the active-session cap. */
  predicate HoldsSlot(sb: Sandbox) {
    !sb.deleting && (sb.IsRunning() || sb.Annotation(PendingSpawn) != "")
  }

  /** How many listed Sandboxes other than `own` hold a slot. */
  function CountHolders(list: seq<Sandbox>, own: string): nat {
    if list == [] then 0
    else
      var last := list[|list| - 1];
      CountHolders(list[..|list| - 1], own) + if last.name != own && HoldsSlot(last) then 1 else 0
  }

  /** A live session that runs, or is about to. */
  predicate IsActive(sb: Sandbox) {
    !sb.deleting && (sb.spec.mode == Running || (PendingSpawn in sb.annotations && sb.annotations[PendingSpawn] != ""))
  }

  lemma HoldersAreActive(sb: Sandbox)
    ensures HoldsSlot(sb) <==> IsActive(sb)
  {
  }

  /** The places of a list with an active session other than `own`. */
  function Counted(list: seq<Sandbox>, own: string): set<int> {
    set i | 0 <= i < |list| && list[i].name != own && IsActive(list[i])
  }

  lemma {:induction false} CountIs(list: seq<Sandbox>, own: string)
    ensures CountHolders(list, own) == |Counted(list, own)|
  {
    hide IsActive, HoldsSlot;
    if list != [] {
      var init, last := list[..|list| - 1], list[|list| - 1];
      CountIs(init, own);
      HoldersAreActive(last);
      OneMoreCounted(init, last, own);
      assert init + [last] == list;
    }
  }

  lemma OneMoreCounted(init: seq<Sandbox>, last: Sandbox, own: string)
    ensures |Counted(init + [last], own)| ==
            |Counted(init, own)| + if last.name != own && IsActive(last) then 1 else 0
  {
    hide IsActive;
    var more := if last.name != own && IsActive(last) then {|init|} else {};
    assert Counted(init + [last], own) == Counted(init, own) + more;
  }

  /** checkCapacity after its early return: the counting loop over the List. */
  method CheckCapacity(limit: int, list: seq<Sandbox>, own: string) returns (admitted: bool)
    ensures admitted <==> |Counted(list, own)| < limit
    ensures admitted <==> CountHolders(list, own) < limit
  {
    var active := 0;
    for i := 0 to |list|
      invariant active == CountHolders(list[..i], own)
    {
      assert list[..i + 1][..i] == list[..i];
      if list[i].name != own && HoldsSlot(list[i]) {
        active := active + 1;
      }
    }
    assert list[..|list|] == list;
    CountIs(list, own);
    return active < limit;
  }

  /** The create body: Suspended, carrying the pending order and no pointer. */
  function CreateBody(tmpl: Sandbox, req: Request, now: int): Sandbox {
    var pending := tmpl.annotations[PendingSpawn := req.order][PendingSpawnAt := FormatInt(now)]
                   [LastOrderId := req.order][LastOrderAttempt := FormatInt(req.attempt)];
    tmpl.(annotations := pending - {AppliedSpawn} - {PendingSecret} - {LastOrderSecret} - {LastSuspendedAt},
          spec := tmpl.spec.(mode := Suspended))
  }

  method CreateSandbox(tmpl: SandboxObject, req: Request, now: int) returns (sb: SandboxObject)
    ensures fresh(sb) && sb.Value() == CreateBody(tmpl.Value(), req, now)
  {
    sb := tmpl.DeepCopy();
    var annotations := sb.annotations;
    annotations := annotations[PendingSpawn := req.order];
    annotations := annotations[PendingSpawnAt := FormatInt(now)];
    annotations := annotations[LastOrderId := req.order];
    annotations := annotations[LastOrderAttempt := FormatInt(req.attempt)];
    annotations := annotations - {AppliedSpawn};
    annotations := annotations - {PendingSecret};
    annotations := annotations - {LastOrderSecret};
    annotations := annotations - {LastSuspendedAt};
    sb.annotations, sb.mode := annotations, Suspended;
  }

  datatype RepairResult = Mismatch | Complete | Repaired(mut: Sandbox)

  /** What a redelivery of the accepted order still has to write. */
  function Repair(sb: Sandbox, req: Request, secretName: string): RepairResult {
    var pending := sb.Annotation(PendingSpawn) == req.order;
    var cur := sb.Annotation(PendingSecret);
    if pending && cur != "" && cur != secretName then Mismatch
    else
      var a1 := if pending && cur == "" then sb.annotations[PendingSecret := secretName] else sb.annotations;
      var a2 := if Get(a1, LastOrderId) == req.order && Get(a1, LastOrderSecret) == ""
                then a1[LastOrderSecret := secretName] else a1;
      if (pending && cur == "") || (Get(a1, LastOrderId) == req.order && Get(a1, LastOrderSecret) == "")
      then Repaired(sb.(annotations := a2)) else Complete
  }

  method RepairRedelivery(sb: SandboxObject, req: Request, secretName: string)
    returns (result: RepairResult)
    ensures result == Repair(sb.Value(), req, secretName)
  {
    var mut := sb.DeepCopy();
    var changed := false;
    if Get(mut.annotations, PendingSpawn) == req.order {
      var cur := Get(mut.annotations, PendingSecret);
      if cur == "" {
        mut.annotations := mut.annotations[PendingSecret := secretName];
        changed := true;
      } else if cur != secretName {
        return Mismatch;
      }
    }
    if Get(mut.annotations, LastOrderId) == req.order && Get(mut.annotations, LastOrderSecret) == "" {
      mut.annotations := mut.annotations[LastOrderSecret := secretName];
      changed := true;
    }
    return if changed then Repaired(mut.Value()) else Complete;
  }

  /** The first work-order volume's Secret reference set to `secretName`. */
  function Reinstall(volumes: seq<Volume>, secretName: string): seq<Volume> {
    if volumes == [] then []
    else if volumes[0].name != WORK_ORDER_VOLUME then [volumes[0]] + Reinstall(volumes[1..], secretName)
    else if volumes[0].source.SecretSource? then
      [volumes[0].(source := volumes[0].source.(secretName := secretName))] + volumes[1..]
    else volumes
  }

  /** The chart's template with the installed order-id and Secret carried over. */
  function RefreshTemplate(cur: PodTemplate, tmpl: PodTemplate): PodTemplate {
    var order := Get(cur.annotations, OrderId);
    var annotations := if order != "" then tmpl.annotations[OrderId := order] else tmpl.annotations;
    var volume := NamedVolume(cur.volumes, WORK_ORDER_VOLUME);
    var volumes := if volume.Some? && volume.value.source.SecretSource?
                   then Reinstall(tmpl.volumes, volume.value.source.secretName) else tmpl.volumes;
    tmpl.(annotations := annotations, volumes := volumes, labels := cur.labels + tmpl.labels)
  }

  /** A newer order accepted: pointers moved, suspension requested and the
      template refreshed, in one object. */
  function Publish(sb: Sandbox, tmpl: Sandbox, req: Request, now: int, secretName: string): Sandbox {
    sb.(annotations := sb.annotations[PendingSpawn := req.order][PendingSpawnAt := FormatInt(now)]
                       [PendingSecret := secretName][LastOrderId := req.order]
                       [LastOrderAttempt := FormatInt(req.attempt)][LastOrderSecret := secretName],
        spec := sb.spec.(mode := Suspended,
                         template := RefreshTemplate(sb.spec.template, tmpl.spec.template)))
  }

  lemma ReinstallAt(volumes: seq<Volume>, i: nat, secretName: string)
    requires i < |volumes| && volumes[i].name == WORK_ORDER_VOLUME && volumes[i].source.SecretSource?
    requires forall j :: 0 <= j < i ==> volumes[j].name != WORK_ORDER_VOLUME
    ensures Reinstall(volumes, secretName) ==
            volumes[i := volumes[i].(source := volumes[i].source.(secretName := secretName))]
  {
    if i > 0 {
      ReinstallAt(volumes[1..], i - 1, secretName);
    }
  }

  lemma ReinstallNothing(volumes: seq<Volume>, secretName: string)
    requires forall v :: v in volumes ==> v.name != WORK_ORDER_VOLUME
    ensures Reinstall(volumes, secretName) == volumes
  {
    if volumes != [] {
      ReinstallNothing(volumes[1..], secretName);
    }
  }

  /** workOrderVolume: the index of the first such volume, or |volumes|. */
  method WorkOrderVolume(volumes: seq<Volume>) returns (i: nat)
    ensures i <= |volumes|
    ensures forall j :: 0 <= j < i ==> volumes[j].name != WORK_ORDER_VOLUME
    ensures i < |volumes| ==> volumes[i].name == WORK_ORDER_VOLUME
    ensures NamedVolume(volumes, WORK_ORDER_VOLUME) == if i < |volumes| then Some(volumes[i]) else None
  {
    i := 0;
    while i < |volumes| && volumes[i].name != WORK_ORDER_VOLUME
      invariant i <= |volumes|
      invariant forall j :: 0 <= j < i ==> volumes[j].name != WORK_ORDER_VOLUME
      invariant NamedVolume(volumes, WORK_ORDER_VOLUME) == NamedVolume(volumes[i..], WORK_ORDER_VOLUME)
    {
      i := i + 1;
    }
  }

  /** The first work-order volume, if there is one, has a Secret source. */
  predicate VolumeIsSecret(template: PodTemplate) {
    var v := NamedVolume(template.volumes, WORK_ORDER_VOLUME); v.Some? ==> v.value.source.SecretSource?
  }

  /** The template half of publishNewer. `requires`: ApplyContract has given the
      template's first work-order volume a Secret source, without which the
      original dereferences a nil pointer. */
  method RefreshPodTemplate(cur: PodTemplate, tmpl: PodTemplate) returns (newPT: PodTemplate)
    requires VolumeIsSecret(tmpl)
    ensures newPT == RefreshTemplate(cur, tmpl)
  {
    newPT := tmpl;
    var order := Get(cur.annotations, OrderId);
    if order != "" {
      newPT := newPT.(annotations := newPT.annotations[OrderId := order]);
    }
    var at := WorkOrderVolume(cur.volumes);
    if at < |cur.volumes| && cur.volumes[at].source.SecretSource? {
      var name := cur.volumes[at].source.secretName;
      var i := WorkOrderVolume(newPT.volumes);
      if i < |newPT.volumes| {
        var v := newPT.volumes[i];
        ReinstallAt(newPT.volumes, i, name);
        newPT := newPT.(volumes := newPT.volumes[i := v.(source := v.source.(secretName := name))]);
      } else {
        ReinstallNothing(newPT.volumes, name);
      }
    }
    newPT := newPT.(labels := cur.labels + newPT.labels);
  }

  method PublishNewer(sb: SandboxObject, tmpl: SandboxObject, req: Request, now: int, secretName: string)
    returns (mut: SandboxObject)
    requires VolumeIsSecret(tmpl.template)
    ensures fresh(mut) && mut.Value() == Publish(sb.Value(), tmpl.Value(), req, now, secretName)
  {
    mut := sb.DeepCopy();
    var annotations := mut.annotations;
    annotations := annotations[PendingSpawn := req.order];
    annotations := annotations[PendingSpawnAt := FormatInt(now)];
    annotations := annotations[PendingSecret := secretName];
    annotations := annotations[LastOrderId := req.order];
    annotations := annotations[LastOrderAttempt := FormatInt(req.attempt)];
    annotations := annotations[LastOrderSecret := secretName];
    var newPT := RefreshPodTemplate(sb.template, tmpl.template);
    mut.annotations, mut.mode, mut.template := annotations, Suspended, newPT;
  }

  /** The immutable Secret of one order, owned by the Sandbox uid. */
  function WorkOrderSecret(cfg: Config, uid: string, labels: Labels, req: Request): Secret {
    Secret(cfg.names.secret(req.session, uid, req.order),
           true,
           labels[SessionLabel := cfg.names.labelValue(req.session)][AccountLabel := cfg.names.labelValue(req.account)],
           map[OrderId := req.order, OrderAttempt := FormatInt(req.attempt), SessionId := req.session],
           [uid],
           req.workOrder)
  }

  /** Whether an existing Secret is the one this invocation would have created. */
  predicate VerifySecret(existing: Secret, desired: Secret)
    requires desired.owners != []
  {
    && existing.immutable
    && existing.workOrder == desired.workOrder
    && Get(existing.annotations, OrderId) == Get(desired.annotations, OrderId)
    && Get(existing.annotations, SessionId) == Get(desired.annotations, SessionId)
    && Get(existing.annotations, OrderAttempt) == Get(desired.annotations, OrderAttempt)
    && desired.owners[0] in existing.owners
  }
}
