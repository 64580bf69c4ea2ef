/** What each write touches, field by field and over whole runs: every version of a Sandbox
    differs from the one before it only as one of eight writes may make it. */
module Effects {
  import opened Api
  import opened Decimal
  import opened Hook
  import opened SessionController
  import opened Protocol
  import opened Invariants
  import opened Writes
  import opened Safety
  import opened Runs

  // ---- The writes, by what they change

  /** The same annotations but for these keys. */
  ghost predicate SameBut(a: Annotations, b: Annotations, keys: set<AnnotationKey>) {
    forall k :: k !in keys ==> (k in a <==> k in b) && (k in a ==> a[k] == b[k])
  }

  ghost predicate Reads(a: Annotations, k: AnnotationKey, value: string) {
    k in a && a[k] == value
  }

  /** The next version of the same object; its generation counts its specs. */
  ghost predicate Succeeding(v: Sandbox, w: Sandbox) {
    && w.name == v.name && w.namespace == v.namespace && w.uid == v.uid && w.labels == v.labels
    && (w.spec == v.spec ==> w.generation == v.generation)
    && (w.spec != v.spec ==> w.generation == v.generation + 1)
  }

  ghost predicate SameStatus(v: Sandbox, w: Sandbox) {
    w.deleting == v.deleting && w.conditions == v.conditions
  }

  /** The same spec but for the mode and the Pod template. */
  ghost predicate SameDisk(v: Spec, w: Spec) {
    w.shutdownTime == v.shutdownTime && w.shutdownPolicy == v.shutdownPolicy && w.claims == v.claims
  }

  /** A hook creates the Sandbox: the template, suspended, with the order accepted and
      pending, and with nothing left of an earlier life. */
  ghost predicate Creates(tmpl: Sandbox, req: Request, now: int, uid: string, w: Sandbox) {
    && w.name == tmpl.name && w.namespace == tmpl.namespace && w.uid == uid && w.labels == tmpl.labels
    && w.generation == 1 && !w.deleting && w.conditions == map[]
    && w.spec.mode == Suspended && SameDisk(tmpl.spec, w.spec) && w.spec.template == tmpl.spec.template
    && SameBut(tmpl.annotations, w.annotations,
               {PendingSpawn, PendingSpawnAt, LastOrderId, LastOrderAttempt, AppliedSpawn, PendingSecret,
                LastOrderSecret, LastSuspendedAt})
    && Reads(w.annotations, PendingSpawn, req.order) && Reads(w.annotations, PendingSpawnAt, FormatInt(now))
    && Reads(w.annotations, LastOrderId, req.order) && Reads(w.annotations, LastOrderAttempt, FormatInt(req.attempt))
    && AppliedSpawn !in w.annotations && PendingSecret !in w.annotations
    && LastOrderSecret !in w.annotations && LastSuspendedAt !in w.annotations
  }

  /** A redelivery fills in what is missing of the two pointers to the order's Secret. */
  ghost predicate Completes(v: Sandbox, req: Request, secretName: string, w: Sandbox) {
    && Succeeding(v, w) && SameStatus(v, w) && w.spec == v.spec
    && v.Annotation(LastOrderId) == req.order
    && SameBut(v.annotations, w.annotations, {PendingSecret, LastOrderSecret})
    && (if v.Annotation(PendingSpawn) == req.order then w.Annotation(PendingSecret) == secretName
        else w.Annotation(PendingSecret) == v.Annotation(PendingSecret))
    && (if v.Annotation(LastOrderSecret) == "" then w.Annotation(LastOrderSecret) == secretName
        else w.Annotation(LastOrderSecret) == v.Annotation(LastOrderSecret))
  }

  ghost predicate FirstWorkOrder(volumes: seq<Volume>, i: int) {
    && 0 <= i < |volumes| && volumes[i].name == WORK_ORDER_VOLUME
    && forall j :: 0 <= j < i ==> volumes[j].name != WORK_ORDER_VOLUME
  }

  /** The chart's volumes, with the Secret that is installed. */
  ghost predicate RefreshedVolumes(cur: seq<Volume>, tmpl: seq<Volume>, to: seq<Volume>) {
    && |to| == |tmpl|
    && (forall i :: 0 <= i < |tmpl| ==>
          to[i].name == tmpl[i].name &&
          (!(FirstWorkOrder(tmpl, i) && tmpl[i].source.SecretSource?) ==> to[i] == tmpl[i]))
    && (forall i, j :: FirstWorkOrder(tmpl, i) && tmpl[i].source.SecretSource? && FirstWorkOrder(cur, j) ==>
          to[i].source == if cur[j].source.SecretSource?
                          then SecretSource(cur[j].source.secretName, tmpl[i].source.extra) else tmpl[i].source)
    && ((forall v :: v in cur ==> v.name != WORK_ORDER_VOLUME) ==> to == tmpl)
  }

  /** The chart's template, with the order-id and Secret that are installed and the labels
      the chart does not set. */
  ghost predicate Refreshed(cur: PodTemplate, tmpl: PodTemplate, to: PodTemplate) {
    && to.restartPolicy == tmpl.restartPolicy && to.automountToken == tmpl.automountToken
    && to.gracePeriod == tmpl.gracePeriod && to.containers == tmpl.containers && to.extra == tmpl.extra
    && (forall k :: k in to.labels <==> k in tmpl.labels || k in cur.labels)
    && (forall k :: k in to.labels ==> to.labels[k] == if k in tmpl.labels then tmpl.labels[k] else Get(cur.labels, k))
    && SameBut(tmpl.annotations, to.annotations, {OrderId})
    && (if Get(cur.annotations, OrderId) != "" then Reads(to.annotations, OrderId, Get(cur.annotations, OrderId))
        else Get(to.annotations, OrderId) == Get(tmpl.annotations, OrderId))
    && RefreshedVolumes(cur.volumes, tmpl.volumes, to.volumes)
  }

  /** A newer order is accepted. */
  ghost predicate Publishes(v: Sandbox, tmpl: Sandbox, req: Request, now: int, secretName: string, w: Sandbox) {
    && Succeeding(v, w) && SameStatus(v, w) && SameDisk(v.spec, w.spec) && w.spec.mode == Suspended
    && Refreshed(v.spec.template, tmpl.spec.template, w.spec.template)
    && SameBut(v.annotations, w.annotations,
               {PendingSpawn, PendingSpawnAt, PendingSecret, LastOrderId, LastOrderAttempt, LastOrderSecret})
    && Reads(w.annotations, PendingSpawn, req.order) && Reads(w.annotations, PendingSpawnAt, FormatInt(now))
    && Reads(w.annotations, PendingSecret, secretName)
    && Reads(w.annotations, LastOrderId, req.order) && Reads(w.annotations, LastOrderAttempt, FormatInt(req.attempt))
    && Reads(w.annotations, LastOrderSecret, secretName)
  }

  /** The applied order's Pod is acknowledged. */
  ghost predicate Observes(v: Sandbox, w: Sandbox) {
    && Succeeding(v, w) && SameStatus(v, w) && w.spec == v.spec
    && v.Annotation(PendingSpawn) != "" && v.Annotation(AppliedSpawn) == v.Annotation(PendingSpawn)
    && SameBut(v.annotations, w.annotations, {PendingSpawn, PendingSpawnAt, PendingSecret})
    && PendingSpawn !in w.annotations && PendingSpawnAt !in w.annotations && PendingSecret !in w.annotations
  }

  ghost predicate Sleeps(v: Sandbox, now: int, w: Sandbox) {
    && Succeeding(v, w) && SameStatus(v, w) && SameDisk(v.spec, w.spec) && w.spec.template == v.spec.template
    && v.spec.mode == Running && w.spec.mode == Suspended && v.Annotation(PendingSpawn) == ""
    && SameBut(v.annotations, w.annotations, {LastSuspendedAt})
    && Reads(w.annotations, LastSuspendedAt, FormatInt(now))
  }

  /** The order and its Secret in the Pod template, and nothing else of it changed. */
  ghost predicate Installs(v: PodTemplate, order: string, secretName: string, w: PodTemplate) {
    && w.labels == v.labels && w.restartPolicy == v.restartPolicy && w.automountToken == v.automountToken
    && w.gracePeriod == v.gracePeriod && w.containers == v.containers && w.extra == v.extra
    && SameBut(v.annotations, w.annotations, {OrderId}) && Reads(w.annotations, OrderId, order)
    && |w.volumes| == |v.volumes|
    && (exists i :: 0 <= i < |v.volumes| && v.volumes[i].name == WORK_ORDER_VOLUME)
    && forall i :: 0 <= i < |v.volumes| ==>
         && w.volumes[i].name == v.volumes[i].name
         && (v.volumes[i].name != WORK_ORDER_VOLUME ==> w.volumes[i] == v.volumes[i])
         && (v.volumes[i].name == WORK_ORDER_VOLUME ==>
               w.volumes[i].source ==
               SecretSource(secretName, if v.volumes[i].source.SecretSource? then v.volumes[i].source.extra else ""))
  }

  /** The pending order is started. */
  ghost predicate Wakes(v: Sandbox, w: Sandbox) {
    && Succeeding(v, w) && SameStatus(v, w) && SameDisk(v.spec, w.spec)
    && v.spec.mode == Suspended && w.spec.mode == Running
    && v.Annotation(PendingSpawn) != "" && v.Annotation(PendingSecret) != ""
    && v.Annotation(LastOrderId) == v.Annotation(PendingSpawn)
    && SameBut(v.annotations, w.annotations, {AppliedSpawn, LastSuspendedAt})
    && Reads(w.annotations, AppliedSpawn, v.Annotation(PendingSpawn)) && LastSuspendedAt !in w.annotations
    && Installs(v.spec.template, v.Annotation(PendingSpawn), v.Annotation(PendingSecret), w.spec.template)
  }

  /** Deletion begins. */
  ghost predicate Collects(cfg: Config, v: Sandbox, w: Sandbox) {
    && Succeeding(v, w) && w.annotations == v.annotations && w.spec == v.spec && w.conditions == v.conditions
    && !v.deleting && w.deleting && cfg.gcEnabled
    && v.spec.mode == Suspended && v.Annotation(PendingSpawn) == ""
  }

  ghost predicate Reports(v: Sandbox, w: Sandbox) {
    Succeeding(v, w) && w.annotations == v.annotations && w.spec == v.spec && w.deleting == v.deleting
  }

  /** What the step may have written as `w`, given the store it found. */
  ghost predicate IsKnown(cfg: Config, s: State, step: Step, w: Sandbox) {
    match step
    case HookCall(h, now, uid, _) =>
      h in s.hooks &&
      var inv := s.hooks[h];
      if w.name in s.sandboxes then
        inv.pc.Patching? &&
        var v := s.sandboxes[w.name];
        var secretName := cfg.names.secret(inv.req.session, v.uid, inv.req.order);
        if inv.pc.newer then Publishes(v, inv.tmpl, inv.req, now, secretName, w)
        else Completes(v, inv.req, secretName, w)
      else inv.pc.Creating? && Creates(inv.tmpl, inv.req, now, uid, w)
    case ControllerPass(_, _, _, _, now) =>
      w.name in s.sandboxes &&
      var v := s.sandboxes[w.name];
      Observes(v, w) || Sleeps(v, now, w) || Wakes(v, w) || Collects(cfg, v, w)
    case Report(name) => w.name == name && name in s.sandboxes && Reports(s.sandboxes[name], w)
    case _ => false
  }

  /** The step writes no version, or one that is known. */
  ghost predicate WritesKnown(cfg: Config, s: State, step: Step, t: State) {
    t.versions == s.versions ||
    exists w :: t.versions == s.versions + [w] && w.name in t.sandboxes && t.sandboxes[w.name] == w &&
                IsKnown(cfg, s, step, w)
  }

  // ---- Each of them

  lemma CreationIsKnown(cfg: Config, inv: Invocation, now: int, uid: string, rv: nat)
    ensures Creates(inv.tmpl, inv.req, now, uid, Created(cfg, inv, now, uid, rv))
  {
    hide FormatInt;
  }

  lemma CompletionIsKnown(sb: Sandbox, req: Request, secretName: string, rv: nat)
    requires Repair(sb, req, secretName).Repaired? && sb.Annotation(LastOrderId) == req.order
    ensures Completes(sb, req, secretName, Stored(sb, Repair(sb, req, secretName).mut, rv))
  {
  }

  lemma RefreshIsKnown(cur: PodTemplate, tmpl: PodTemplate)
    ensures Refreshed(cur, tmpl, RefreshTemplate(cur, tmpl))
  {
    hide Reinstall, NamedVolume, RefreshedVolumes;
    VolumesAreRefreshed(cur, tmpl);
  }

  lemma VolumesAreRefreshed(cur: PodTemplate, tmpl: PodTemplate)
    ensures RefreshedVolumes(cur.volumes, tmpl.volumes, RefreshTemplate(cur, tmpl).volumes)
  {
    hide Reinstall, NamedVolume;
    var to := RefreshTemplate(cur, tmpl).volumes;
    var volume := NamedVolume(cur.volumes, WORK_ORDER_VOLUME);
    if volume.Some? && volume.value.source.SecretSource? {
      ReinstalledAt(tmpl.volumes, volume.value.source.secretName);
    }
    forall j | FirstWorkOrder(cur.volumes, j) ensures volume == Some(cur.volumes[j]) {
      NamedIsFirst(cur.volumes, j);
    }
  }

  lemma {:induction false} NamedIsFirst(volumes: seq<Volume>, i: nat)
    requires FirstWorkOrder(volumes, i)
    ensures NamedVolume(volumes, WORK_ORDER_VOLUME) == Some(volumes[i])
  {
    if i > 0 {
      NamedIsFirst(volumes[1..], i - 1);
    }
  }

  lemma {:induction false} ReinstalledAt(volumes: seq<Volume>, secretName: string)
    ensures var to := Reinstall(volumes, secretName);
            |to| == |volumes| &&
            forall i :: 0 <= i < |volumes| ==>
              to[i] == if FirstWorkOrder(volumes, i) && volumes[i].source.SecretSource?
                       then volumes[i].(source := SecretSource(secretName, volumes[i].source.extra)) else volumes[i]
  {
    if volumes != [] && volumes[0].name != WORK_ORDER_VOLUME {
      ReinstalledAt(volumes[1..], secretName);
      assert forall i :: 1 <= i < |volumes| ==> (FirstWorkOrder(volumes, i) <==> FirstWorkOrder(volumes[1..], i - 1));
    }
  }

  lemma PublicationIsKnown(sb: Sandbox, tmpl: Sandbox, req: Request, now: int, secretName: string, rv: nat)
    ensures Publishes(sb, tmpl, req, now, secretName, Stored(sb, Publish(sb, tmpl, req, now, secretName), rv))
  {
    hide RefreshTemplate, Refreshed, FormatInt;
    RefreshIsKnown(sb.spec.template, tmpl.spec.template);
  }

  lemma ObservationIsKnown(sb: Sandbox, pods: seq<Pod>, rv: nat)
    requires Observe(sb, pods).Some?
    ensures Observes(sb, Stored(sb, Observe(sb, pods).value, rv))
  {
    hide Acknowledges;
  }

  lemma SleepIsKnown(sb: Sandbox, now: int, rv: nat)
    requires Sleep(sb, now).Some?
    ensures Sleeps(sb, now, Stored(sb, Sleep(sb, now).value, rv))
  {
    hide FormatInt, CurrentGenerationTrue;
  }

  lemma InstallationIsKnown(template: PodTemplate, order: string, secretName: string)
    requires NamedVolume(template.volumes, WORK_ORDER_VOLUME).Some?
    ensures Installs(template, order, secretName, OrderInstalled(template, order, secretName))
  {
    hide NamedVolume, Installed;
  }

  lemma WakingIsKnown(cfg: Config, sb: Sandbox, secret: Option<Secret>, rv: nat)
    requires Wake(cfg, sb, secret).Woken?
    ensures Wakes(sb, Stored(sb, Wake(cfg, sb, secret).mut, rv))
  {
    hide ValidWorkOrderSecret, NamedVolume, OrderInstalled, Installs, CurrentGenerationTrue;
    InstallationIsKnown(sb.spec.template, sb.Annotation(PendingSpawn), sb.Annotation(PendingSecret));
  }

  lemma CollectionIsKnown(cfg: Config, sb: Sandbox, list: seq<Sandbox>, now: int, rv: nat)
    requires GcDue(cfg, sb, list, now)
    ensures Collects(cfg, sb, Stored(sb, sb.(deleting := true), rv))
  {
    hide IdleEntries;
  }

  // ---- Every step

  lemma DecisionIsKnown(cfg: Config, sb: Sandbox, step: Step, rv: nat)
    requires step.ControllerPass?
    requires Decide(cfg, sb, step.pods, step.secret, step.list, step.now) != Nothing
    ensures var w := Stored(sb, Written(sb, Decide(cfg, sb, step.pods, step.secret, step.list, step.now)), rv);
            Observes(sb, w) || Sleeps(sb, step.now, w) || Wakes(sb, w) || Collects(cfg, sb, w)
  {
    hide Observe, Sleep, Wake, GcDue, Stored, Observes, Sleeps, Wakes, Collects;
    match Decide(cfg, sb, step.pods, step.secret, step.list, step.now) {
      case Observed(_) => ObservationIsKnown(sb, OwnedPods(cfg, step.pods, sb.uid), rv);
      case Slept(_) => SleepIsKnown(sb, step.now, rv);
      case Awoke(_) => WakingIsKnown(cfg, sb, step.secret, rv);
      case Collect => CollectionIsKnown(cfg, sb, step.list, step.now, rv);
    }
  }

  lemma PutIsKnown(cfg: Config, s: State, step: Step, t: State, w: Sandbox)
    requires t.versions == s.versions + [w] && w.name in t.sandboxes && t.sandboxes[w.name] == w
    requires IsKnown(cfg, s, step, w)
    ensures WritesKnown(cfg, s, step, t)
  {
    hide IsKnown;
  }

  lemma PassIsKnown(cfg: Config, s: State, step: Step)
    requires Inv(cfg, s) && Enabled(cfg, s, step) && step.ControllerPass?
    ensures WritesKnown(cfg, s, step, Apply(cfg, s, step))
  {
    hide Inv, Decide, Stored, WritesKnown, Observes, Sleeps, Wakes, Collects;
    var snap := s.versions[step.at];
    var write := Decide(cfg, snap, step.pods, step.secret, step.list, step.now);
    InvVersions(cfg, s);
    if write != Nothing && Current(s, snap) {
      CurrentIsLive(s, snap);
      PassIdentity(cfg, snap, step.pods, step.secret, step.list, step.now);
      CommitIsPut(s, snap, write);
      var w := Stored(snap, Written(snap, write), |s.versions|);
      StoredName(snap, Written(snap, write), |s.versions|);
      DecisionIsKnown(cfg, snap, step, |s.versions|);
      PutIsKnown(cfg, s, step, Apply(cfg, s, step), w);
    } else {
      NothingCommitted(s, snap, write);
      Unwritten(cfg, s, step, Apply(cfg, s, step));
    }
  }

  lemma StoredName(cur: Sandbox, mut: Sandbox, rv: nat)
    ensures Stored(cur, mut, rv).name == mut.name
  {
  }

  lemma NothingCommitted(s: State, snap: Sandbox, write: Write)
    requires write == Nothing || !Current(s, snap)
    ensures CommitPass(s, snap, write) == s
  {
  }

  lemma Unwritten(cfg: Config, s: State, step: Step, t: State)
    requires t.versions == s.versions
    ensures WritesKnown(cfg, s, step, t)
  {
  }

  lemma CreatingIsKnown(cfg: Config, s: State, step: Step)
    requires Inv(cfg, s) && Enabled(cfg, s, step) && step.HookCall? && s.hooks[step.h].pc.Creating?
    ensures WritesKnown(cfg, s, step, Apply(cfg, s, step))
  {
    hide Inv, Created, Creates, WritesKnown, Classified, Retry, NewUid;
    var inv := s.hooks[step.h];
    if inv.tmpl.name in s.sandboxes {
      Unwritten(cfg, s, step, Apply(cfg, s, step));
    } else {
      var w := Created(cfg, inv, step.now, step.uid, |s.versions|);
      CreatedIdentity(cfg, inv, step.now, step.uid, |s.versions|);
      CreationIsKnown(cfg, inv, step.now, step.uid, |s.versions|);
      PutIsKnown(cfg, s, step, Apply(cfg, s, step), w);
    }
  }

  lemma PatchingIsKnown(cfg: Config, s: State, step: Step)
    requires Inv(cfg, s) && Enabled(cfg, s, step) && step.HookCall? && s.hooks[step.h].pc.Patching?
    ensures WritesKnown(cfg, s, step, Apply(cfg, s, step))
  {
    hide Inv, WritesKnown, Retry, Stored, Mutated, Publishes, Completes;
    var inv := s.hooks[step.h];
    InvVersions(cfg, s);
    if Current(s, inv.pc.snap) {
      HeldSnapshot(cfg, s, step.h);
      CurrentIsLive(s, inv.pc.snap);
      MutatedIdentity(cfg, inv, step.now);
      StoredName(inv.pc.snap, Mutated(cfg, inv, step.now), |s.versions|);
      MutationIsKnown(cfg, inv, step.now, |s.versions|);
      PutIsKnown(cfg, s, step, Apply(cfg, s, step), Stored(inv.pc.snap, Mutated(cfg, inv, step.now), |s.versions|));
    } else {
      Unwritten(cfg, s, step, Apply(cfg, s, step));
    }
  }

  /** What a Patching invocation holds is a version, and a repair has something to do. */
  lemma HeldSnapshot(cfg: Config, s: State, h: nat)
    requires Inv(cfg, s) && h in s.hooks && s.hooks[h].pc.Patching?
    ensures var inv := s.hooks[h];
            && IsVersion(s, inv.pc.snap)
            && (!inv.pc.newer ==>
                  && inv.pc.snap.Annotation(LastOrderId) == inv.req.order
                  && Repair(inv.pc.snap, inv.req,
                            cfg.names.secret(inv.req.session, inv.pc.snap.uid, inv.req.order)).Repaired?)
  {
    hide RequestsOk, VersionsOk, EveryVersionOk, HistoryOk, SecretsOk, SeenOk, ConditionsOk, PodsOk, PodGenerationsOk,
         Evaluate, Repair, HasSecret;
    assert HookOk(cfg, s, s.hooks[h]);
    OrderTells(cfg, s.hooks[h].pc.snap, s.hooks[h].req);
  }

  lemma MutationIsKnown(cfg: Config, inv: Invocation, now: int, rv: nat)
    requires inv.pc.Patching?
    requires var name := cfg.names.secret(inv.req.session, inv.pc.snap.uid, inv.req.order);
             !inv.pc.newer ==>
               inv.pc.snap.Annotation(LastOrderId) == inv.req.order && Repair(inv.pc.snap, inv.req, name).Repaired?
    ensures var snap := inv.pc.snap;
            var name := cfg.names.secret(inv.req.session, snap.uid, inv.req.order);
            var w := Stored(snap, Mutated(cfg, inv, now), rv);
            if inv.pc.newer then Publishes(snap, inv.tmpl, inv.req, now, name, w)
            else Completes(snap, inv.req, name, w)
  {
    hide Stored, Publish, Repair, Publishes, Completes;
    var name := cfg.names.secret(inv.req.session, inv.pc.snap.uid, inv.req.order);
    if inv.pc.newer {
      PublicationIsKnown(inv.pc.snap, inv.tmpl, inv.req, now, name, rv);
    } else {
      CompletionIsKnown(inv.pc.snap, inv.req, name, rv);
    }
  }

  lemma ReportIsKnown(cfg: Config, s: State, step: Step)
    requires Inv(cfg, s) && Enabled(cfg, s, step) && step.Report?
    ensures WritesKnown(cfg, s, step, Apply(cfg, s, step))
  {
    hide Inv, ReportedConditions, WritesKnown;
    NamesFit(cfg, s);
    var t := Apply(cfg, s, step);
    PutIsKnown(cfg, s, step, t, t.versions[|s.versions|]);
  }

  lemma OtherCallsWriteNothing(cfg: Config, s: State, step: Step)
    requires Enabled(cfg, s, step) && step.HookCall?
    requires !s.hooks[step.h].pc.Creating? && !s.hooks[step.h].pc.Patching?
    ensures Apply(cfg, s, step).versions == s.versions
  {
    hide Classified, Secured, VerifySecret, DesiredSecret, Holders, Retry;
  }

  lemma StepWritesKnown(cfg: Config, s: State, step: Step)
    requires Inv(cfg, s) && Enabled(cfg, s, step)
    ensures WritesKnown(cfg, s, step, Apply(cfg, s, step))
  {
    hide Inv, WritesKnown, Call, CommitPass, ReportedConditions, NewUid, Contracted;
    if step.HookCall? {
      if s.hooks[step.h].pc.Creating? {
        CreatingIsKnown(cfg, s, step);
      } else if s.hooks[step.h].pc.Patching? {
        PatchingIsKnown(cfg, s, step);
      } else {
        OtherCallsWriteNothing(cfg, s, step);
        Unwritten(cfg, s, step, Apply(cfg, s, step));
      }
    } else if step.ControllerPass? {
      PassIsKnown(cfg, s, step);
    } else if step.Report? {
      ReportIsKnown(cfg, s, step);
    } else {
      Unwritten(cfg, s, step, Apply(cfg, s, step));
    }
  }

  /** Over every run: whatever a step writes is the next version of the Sandbox that is
      live, or a new one, changed in the fields of one kind of write and in no other. */
  lemma EveryWriteIsKnown(cfg: Config, run: seq<State>, steps: seq<Step>, k: nat)
    requires ConfigOk(cfg) && IsRun(cfg, run, steps) && k < |steps|
    ensures WritesKnown(cfg, run[k], steps[k], run[k + 1])
  {
    hide Inv, ConfigOk, WritesKnown, Apply, Enabled;
    RunInv(cfg, run, steps, k);
    StepWritesKnown(cfg, run[k], steps[k]);
  }
}
