/** Each write the hook, the session controller and the sandbox controller make to a
    live Sandbox is a legal next version of it. */
module Writes {
  import opened Api
  import opened Decimal
  import opened Hook
  import opened SessionController
  import opened Protocol
  import opened Invariants
  import opened Preservation

  /** A patch commits only on the very version it was computed from. */
  lemma CurrentIsLive(s: State, snap: Sandbox)
    requires VersionsOk(s) && IsVersion(s, snap) && Current(s, snap)
    ensures LiveIn(s, snap)
  {
    assert IsVersion(s, s.sandboxes[snap.name]);
  }

  /** A version's validity does not depend on its bookkeeping. */
  predicate SameContent(v: Sandbox, w: Sandbox) {
    v.uid == w.uid && v.labels == w.labels && v.annotations == w.annotations && v.spec == w.spec
  }

  lemma SameContentOk(cfg: Config, s: State, v: Sandbox, w: Sandbox)
    requires VersionOk(cfg, s, v) && SameContent(v, w)
    ensures VersionOk(cfg, s, w) && AcceptedAttempt(w) == AcceptedAttempt(v) && Preparing(w) == Preparing(v)
    ensures NextPhase(v, w)
  {
    hide FormatInt, ParseAttempt;
    var h :| h in s.hooks && CarriesOrder(cfg, s, v, s.hooks[h].req);
    assert CarriesOrder(cfg, s, w, s.hooks[h].req);
    if v.Annotation(AppliedSpawn) != "" {
      var k :| k in s.hooks && HasApplied(v, s.hooks[k].req);
      assert HasApplied(w, s.hooks[k].req);
    }
  }

  lemma BookkeepingSucceeds(cfg: Config, s: State, sb: Sandbox, mut: Sandbox)
    requires Inv(cfg, s) && LiveIn(s, sb) && SameContent(sb, mut) && mut.name == sb.name
    requires mut.conditions == sb.conditions ||
             (sb.uid in s.seen && mut.conditions == ReportedConditions(s.seen[sb.uid], s.pods))
    ensures Succeeds(cfg, s, sb, Stored(sb, mut, |s.versions|))
  {
    hide AcceptedAttempt, VersionOk, HistoryOk, SecretsOk, SeenOk, ConditionsOk, PodsOk, PodGenerationsOk, HooksOk,
         RequestsOk;
    var w := Stored(sb, mut, |s.versions|);
    assert IsVersion(s, sb);
    SameContentOk(cfg, s, sb, w);
  }

  /** The request behind the accepted order, and all that is known of it. */
  lemma AcceptedRequest(cfg: Config, s: State, v: Sandbox) returns (h: nat)
    requires RequestsOk(cfg, s) && VersionOk(cfg, s, v)
    ensures h in s.hooks && CarriesOrder(cfg, s, v, s.hooks[h].req) && ValidRequest(s.hooks[h].req)
    ensures AcceptedAttempt(v) == s.hooks[h].req.attempt
  {
    hide FormatInt, ParseAttempt;
    h :| h in s.hooks && CarriesOrder(cfg, s, v, s.hooks[h].req);
    AttemptOf(cfg, v, s.hooks[h].req);
  }

  lemma LiveVersionOk(cfg: Config, s: State, sb: Sandbox)
    requires VersionsOk(s) && EveryVersionOk(cfg, s) && LiveIn(s, sb)
    ensures VersionOk(cfg, s, sb) && IsVersion(s, sb)
  {
    hide VersionOk;
    assert IsVersion(s, sb);
  }

  // ---- Putting a version's facts together

  /** Same accepted order on the same object. */
  predicate SameAccepted(v: Sandbox, w: Sandbox) {
    && v.name == w.name && v.uid == w.uid && v.labels == w.labels && v.conditions == w.conditions
    && v.Annotation(LastOrderId) == w.Annotation(LastOrderId)
    && v.Annotation(LastOrderAttempt) == w.Annotation(LastOrderAttempt)
    && v.Annotation(LastOrderSecret) == w.Annotation(LastOrderSecret)
  }

  lemma SameAttempt(v: Sandbox, w: Sandbox)
    requires v.Annotation(LastOrderAttempt) == w.Annotation(LastOrderAttempt)
    ensures AcceptedAttempt(v) == AcceptedAttempt(w)
  {
    hide ParseAttempt;
  }

  lemma SamePhase(v: Sandbox, w: Sandbox)
    requires v.annotations == w.annotations && v.spec == w.spec
    ensures InPhase(v) == InPhase(w) && Preparing(v) == Preparing(w)
    ensures forall u :: NextPhase(u, v) ==> NextPhase(u, w)
  {
  }

  lemma Assemble(cfg: Config, s: State, w: Sandbox, g: nat, k: nat)
    requires Selected(cfg, w.labels) && Selected(cfg, w.spec.template.labels)
    requires NamedVolume(w.spec.template.volumes, WORK_ORDER_VOLUME).Some? && InPhase(w)
    requires g in s.hooks && CarriesOrder(cfg, s, w, s.hooks[g].req)
    requires w.Annotation(AppliedSpawn) != "" ==> k in s.hooks && HasApplied(w, s.hooks[k].req)
    ensures VersionOk(cfg, s, w)
  {
    hide Selected, NamedVolume, InPhase, CarriesOrder, HasApplied;
  }

  /** The facts VersionOk gives about a live Sandbox, with their witnesses: `g` asked
      for the accepted order, `k` for the applied one. */
  lemma Disassemble(cfg: Config, s: State, sb: Sandbox) returns (g: nat, k: nat)
    requires RequestsOk(cfg, s) && VersionsOk(s) && EveryVersionOk(cfg, s) && LiveIn(s, sb)
    ensures IsVersion(s, sb) && InPhase(sb)
    ensures Selected(cfg, sb.labels) && Selected(cfg, sb.spec.template.labels)
    ensures NamedVolume(sb.spec.template.volumes, WORK_ORDER_VOLUME).Some?
    ensures g in s.hooks && CarriesOrder(cfg, s, sb, s.hooks[g].req)
    ensures AcceptedAttempt(sb) == s.hooks[g].req.attempt
    ensures sb.Annotation(AppliedSpawn) != "" ==> k in s.hooks && HasApplied(sb, s.hooks[k].req)
  {
    LiveVersionOk(cfg, s, sb);
    hide Selected, NamedVolume, InPhase, HasApplied, VersionsOk, EveryVersionOk;
    g := AcceptedRequest(cfg, s, sb);
    k := g;
    if sb.Annotation(AppliedSpawn) != "" {
      k :| k in s.hooks && HasApplied(sb, s.hooks[k].req);
    }
  }

  lemma CarriedOver(cfg: Config, s: State, sb: Sandbox, w: Sandbox, req: Request)
    requires CarriesOrder(cfg, s, sb, req) && SameAccepted(sb, w)
    requires w.Annotation(PendingSecret) in {"", sb.Annotation(PendingSecret)}
    requires w.IsRunning() ==> sb.IsRunning() && w.spec.template == sb.spec.template
    ensures CarriesOrder(cfg, s, w, req)
  {
    hide FormatInt, HasSecret, WorkOrderSecretOf;
  }

  /** A write that leaves the accepted order alone. */
  lemma SameAcceptedSucceeds(cfg: Config, s: State, sb: Sandbox, mut: Sandbox)
    requires IsVersion(s, sb) && SameAccepted(sb, mut) && VersionOk(cfg, s, Stored(sb, mut, |s.versions|))
    requires sb.IsRunning() && mut.IsRunning() ==> mut.spec == sb.spec
    requires !sb.IsRunning() && mut.IsRunning() ==> Preparing(sb) && CurrentGenerationTrue(sb, SuspendedCondition)
    requires (Preparing(mut) ==> Preparing(sb)) && (Unprepared(mut) ==> Unprepared(sb))
    requires NextPhase(sb, mut)
    ensures Succeeds(cfg, s, sb, Stored(sb, mut, |s.versions|))
  {
    hide VersionOk;
    SameAttempt(sb, mut);
    SameAttempt(sb, Stored(sb, mut, |s.versions|));
  }

  // ---- What a write cannot touch

  lemma CreatedIdentity(cfg: Config, inv: Invocation, now: int, uid: string, rv: nat)
    ensures var w := Created(cfg, inv, now, uid, rv);
            w.name == inv.tmpl.name && w.rv == rv && w.uid == uid && w.conditions == map[]
  {
  }

  lemma MutatedIdentity(cfg: Config, inv: Invocation, now: int)
    requires inv.pc.Patching?
    ensures var mut := Mutated(cfg, inv, now);
            mut.name == inv.pc.snap.name && mut.uid == inv.pc.snap.uid && mut.rv == inv.pc.snap.rv
  {
    hide RefreshTemplate, FormatInt;
  }

  lemma NameNotEmpty(cfg: Config, session: string, uid: string, order: string)
    requires ConfigOk(cfg)
    ensures cfg.names.secret(session, uid, order) != ""
  {
  }

  /** The order id alone tells a redelivery. */
  lemma OrderTells(cfg: Config, sb: Sandbox, req: Request)
    ensures Evaluate(cfg, sb, req) == Newer ==> sb.Annotation(LastOrderId) != req.order
    ensures Evaluate(cfg, sb, req) == Redelivery ==> sb.Annotation(LastOrderId) == req.order
  {
    hide ParseAttempt;
  }

  // ---- Session controller writes

  lemma ObserveContent(sb: Sandbox, pods: seq<Pod>)
    requires InPhase(sb) && Observe(sb, pods).Some?
    ensures Starting(sb) && Working(Observe(sb, pods).value) && SameAccepted(sb, Observe(sb, pods).value)
    ensures Observe(sb, pods).value.Annotation(AppliedSpawn) == sb.Annotation(AppliedSpawn)
    ensures Observe(sb, pods).value.spec == sb.spec
  {
  }

  lemma SleepContent(sb: Sandbox, now: int)
    requires InPhase(sb) && Sleep(sb, now).Some? && IsTime(now)
    ensures Working(sb) && Asleep(Sleep(sb, now).value) && SameAccepted(sb, Sleep(sb, now).value)
    ensures Sleep(sb, now).value.Annotation(AppliedSpawn) == sb.Annotation(AppliedSpawn)
    ensures Sleep(sb, now).value.spec == sb.spec.(mode := Suspended)
  {
    hide FormatInt, ParseInt;
    ParseFormatInt(now);
  }

  lemma WakeContent(cfg: Config, sb: Sandbox, secret: Option<Secret>)
    requires InPhase(sb) && Wake(cfg, sb, secret).Woken?
    ensures var w := Wake(cfg, sb, secret).mut;
            && Preparing(sb) && CurrentGenerationTrue(sb, SuspendedCondition)
            && Starting(w) && SameAccepted(sb, w)
            && w.Annotation(PendingSecret) == sb.Annotation(PendingSecret)
            && w.spec.template ==
               OrderInstalled(sb.spec.template, sb.Annotation(LastOrderId), sb.Annotation(PendingSecret))
  {
    hide ValidWorkOrderSecret, Installed, NamedVolume;
  }

  lemma ObserveSucceeds(cfg: Config, s: State, sb: Sandbox, pods: seq<Pod>)
    requires Inv(cfg, s) && LiveIn(s, sb) && Observe(sb, pods).Some?
    ensures Starting(sb)
    ensures Succeeds(cfg, s, sb, Stored(sb, Observe(sb, pods).value, |s.versions|))
  {
    hide AcceptedAttempt, HistoryOk, SecretsOk, SeenOk, ConditionsOk, PodsOk, PodGenerationsOk, HooksOk,
         VersionOk, VersionsOk, CarriesOrder, Selected, NamedVolume, RequestsOk;
    var g, k := Disassemble(cfg, s, sb);
    ObserveContent(sb, pods);
    var mut := Observe(sb, pods).value;
    var w := Stored(sb, mut, |s.versions|);
    CarriedOver(cfg, s, sb, w, s.hooks[g].req);
    SameAttempt(sb, w);
    Assemble(cfg, s, w, g, k);
    SameAcceptedSucceeds(cfg, s, sb, mut);
  }

  lemma SleepSucceeds(cfg: Config, s: State, sb: Sandbox, now: int)
    requires Inv(cfg, s) && LiveIn(s, sb) && Sleep(sb, now).Some? && IsTime(now)
    ensures Working(sb)
    ensures Succeeds(cfg, s, sb, Stored(sb, Sleep(sb, now).value, |s.versions|))
  {
    hide AcceptedAttempt, HistoryOk, SecretsOk, SeenOk, ConditionsOk, PodsOk, PodGenerationsOk, HooksOk,
         VersionOk, VersionsOk, CarriesOrder, Selected, NamedVolume, RequestsOk;
    var g, k := Disassemble(cfg, s, sb);
    SleepContent(sb, now);
    var mut := Sleep(sb, now).value;
    var w := Stored(sb, mut, |s.versions|);
    CarriedOver(cfg, s, sb, w, s.hooks[g].req);
    SameAttempt(sb, w);
    Assemble(cfg, s, w, g, k);
    SameAcceptedSucceeds(cfg, s, sb, mut);
  }

  lemma WakeSucceeds(cfg: Config, s: State, sb: Sandbox, secret: Option<Secret>)
    requires Inv(cfg, s) && LiveIn(s, sb) && Wake(cfg, sb, secret).Woken?
    ensures Preparing(sb) && CurrentGenerationTrue(sb, SuspendedCondition)
    ensures Succeeds(cfg, s, sb, Stored(sb, Wake(cfg, sb, secret).mut, |s.versions|))
  {
    hide AcceptedAttempt, HistoryOk, SecretsOk, SeenOk, ConditionsOk, PodsOk, PodGenerationsOk, HooksOk,
         VersionOk, VersionsOk, NamedVolume, Installed, WorkOrderSecretOf, ValidWorkOrderSecret, RequestsOk, HasSecret;
    var g, k := Disassemble(cfg, s, sb);
    WakeContent(cfg, sb, secret);
    InstalledSecret(sb.spec.template.volumes, sb.Annotation(PendingSecret));
    var mut := Wake(cfg, sb, secret).mut;
    var w := Stored(sb, mut, |s.versions|);
    SameAttempt(sb, w);
    assert CarriesOrder(cfg, s, w, s.hooks[g].req);
    assert HasApplied(w, s.hooks[g].req);
    Assemble(cfg, s, w, g, g);
    SameAcceptedSucceeds(cfg, s, sb, mut);
  }

  // ---- Hook writes

  lemma RepairContent(sb: Sandbox, req: Request, name: string)
    requires InPhase(sb) && name != "" && req.order == sb.Annotation(LastOrderId)
    requires Repair(sb, req, name).Repaired?
    ensures var w := Repair(sb, req, name).mut;
            && InPhase(w) && (Preparing(w) ==> Preparing(sb)) && NextPhase(sb, w) && w.spec == sb.spec
            && !Unprepared(w)
            && w == sb.(annotations := w.annotations)
            && w.Annotation(LastOrderId) == sb.Annotation(LastOrderId)
            && w.Annotation(LastOrderAttempt) == sb.Annotation(LastOrderAttempt)
            && w.Annotation(AppliedSpawn) == sb.Annotation(AppliedSpawn)
            && w.Annotation(LastOrderSecret) != ""
            && w.Annotation(PendingSecret) in {"", sb.Annotation(PendingSecret), name}
  {
  }

  /** Two requests for one order are after the same Secret. */
  lemma SameOrderSecret(cfg: Config, s: State, uid: string, req: Request, r: Request)
    requires SameOrder(req, r) && req.order == r.order
    ensures HasSecret(cfg, s, uid, req) ==> HasSecret(cfg, s, uid, r)
    ensures cfg.names.secret(req.session, uid, req.order) == cfg.names.secret(r.session, uid, r.order)
  {
    if HasSecret(cfg, s, uid, req) {
      var k :| k in s.secretsEver && IsSecretOf(cfg, k, uid, req);
      assert IsSecretOf(cfg, k, uid, r);
    }
  }

  lemma RepairSucceeds(cfg: Config, s: State, sb: Sandbox, req: Request, h: nat)
    requires Inv(cfg, s) && LiveIn(s, sb) && ConfigOk(cfg) && h in s.hooks && s.hooks[h].req == req
    requires Evaluate(cfg, sb, req) == Redelivery && HasSecret(cfg, s, sb.uid, req)
    requires Repair(sb, req, cfg.names.secret(req.session, sb.uid, req.order)).Repaired?
    ensures var mut := Repair(sb, req, cfg.names.secret(req.session, sb.uid, req.order)).mut;
            Succeeds(cfg, s, sb, Stored(sb, mut, |s.versions|))
  {
    hide AcceptedAttempt, ParseAttempt, HistoryOk, SecretsOk, SeenOk, ConditionsOk, PodsOk, PodGenerationsOk,
         HooksOk, VersionOk, VersionsOk, NamedVolume, WorkOrderSecretOf, HasSecret, FormatInt, InPhase, Repair,
         Selected, Contracted, NextPhase;
    var g, k := Disassemble(cfg, s, sb);
    var r := s.hooks[g].req;
    assert SameOrder(req, r);
    SameOrderSecret(cfg, s, sb.uid, req, r);
    var name := cfg.names.secret(req.session, sb.uid, req.order);
    RepairContent(sb, req, name);
    var mut := Repair(sb, req, name).mut;
    var w := Stored(sb, mut, |s.versions|);
    SameAttempt(sb, w);
    SamePhase(mut, w);
    assert CarriesOrder(cfg, s, w, r);
    Assemble(cfg, s, w, g, k);
  }

  lemma RefreshedTemplate(cfg: Config, cur: PodTemplate, tmpl: PodTemplate)
    requires cfg.release != "" && Selected(cfg, tmpl.labels) && NamedVolume(tmpl.volumes, WORK_ORDER_VOLUME).Some?
    ensures Selected(cfg, RefreshTemplate(cur, tmpl).labels)
    ensures NamedVolume(RefreshTemplate(cur, tmpl).volumes, WORK_ORDER_VOLUME).Some?
  {
    var volume := NamedVolume(cur.volumes, WORK_ORDER_VOLUME);
    if volume.Some? && volume.value.source.SecretSource? {
      ReinstalledVolume(tmpl.volumes, volume.value.source.secretName);
    }
  }

  lemma ReinstalledVolume(volumes: seq<Volume>, secretName: string)
    requires NamedVolume(volumes, WORK_ORDER_VOLUME).Some?
    ensures NamedVolume(Reinstall(volumes, secretName), WORK_ORDER_VOLUME).Some?
  {
  }

  lemma PublishContent(cfg: Config, s: State, sb: Sandbox, tmpl: Sandbox, req: Request, now: int)
    requires ConfigOk(cfg) && ValidRequest(req) && HasSecret(cfg, s, sb.uid, req)
    requires Get(sb.labels, SessionLabel) == cfg.names.labelValue(req.session)
    requires sb.Annotation(AppliedSpawn) != req.order
    ensures var w := Publish(sb, tmpl, req, now, cfg.names.secret(req.session, sb.uid, req.order));
            && Preparing(w) && !Unprepared(w) && CarriesOrder(cfg, s, w, req)
            && w.Annotation(AppliedSpawn) == sb.Annotation(AppliedSpawn)
            && w.spec.template == RefreshTemplate(sb.spec.template, tmpl.spec.template)
            && w == sb.(annotations := w.annotations, spec := w.spec)
  {
    hide FormatInt, ParseAttempt, RefreshTemplate, HasSecret;
  }

  /** The order a newer request brings was never installed here: an installed order
      was requested at an attempt no higher than the accepted one. */
  lemma NewerWasNotApplied(cfg: Config, s: State, sb: Sandbox, req: Request, h: nat, k: nat)
    requires RequestsOk(cfg, s) && h in s.hooks && s.hooks[h].req == req
    requires sb.Annotation(AppliedSpawn) != "" ==> k in s.hooks && HasApplied(sb, s.hooks[k].req)
    requires Evaluate(cfg, sb, req) == Newer
    ensures sb.Annotation(AppliedSpawn) != req.order && AcceptedAttempt(sb) < req.attempt
    ensures Get(sb.labels, SessionLabel) == cfg.names.labelValue(req.session)
  {
    hide ParseAttempt;
    if sb.Annotation(AppliedSpawn) != "" {
      assert SameOrder(req, s.hooks[k].req);
    }
  }

  lemma PublishSucceeds(cfg: Config, s: State, sb: Sandbox, h: nat, now: int)
    requires Inv(cfg, s) && LiveIn(s, sb) && ConfigOk(cfg) && h in s.hooks
    requires Evaluate(cfg, sb, s.hooks[h].req) == Newer && HasSecret(cfg, s, sb.uid, s.hooks[h].req)
    ensures var inv := s.hooks[h];
            var mut := Publish(sb, inv.tmpl, inv.req, now, cfg.names.secret(inv.req.session, sb.uid, inv.req.order));
            Succeeds(cfg, s, sb, Stored(sb, mut, |s.versions|))
  {
    hide AcceptedAttempt, Evaluate, HistoryOk, SecretsOk, SeenOk, ConditionsOk, PodsOk, PodGenerationsOk, HooksOk,
         VersionOk, VersionsOk, NamedVolume, WorkOrderSecretOf, HasSecret, FormatInt, Publish, Selected, CarriesOrder;
    var req, tmpl := s.hooks[h].req, s.hooks[h].tmpl;
    var g, k := Disassemble(cfg, s, sb);
    NewerWasNotApplied(cfg, s, sb, req, h, k);
    PublishContent(cfg, s, sb, tmpl, req, now);
    RefreshedTemplate(cfg, sb.spec.template, tmpl.spec.template);
    var mut := Publish(sb, tmpl, req, now, cfg.names.secret(req.session, sb.uid, req.order));
    PublishedSucceeds(cfg, s, sb, mut, h, k);
  }

  lemma PublishedSucceeds(cfg: Config, s: State, sb: Sandbox, mut: Sandbox, h: nat, k: nat)
    requires IsVersion(s, sb) && h in s.hooks && ValidRequest(s.hooks[h].req)
    requires Selected(cfg, sb.labels) && Selected(cfg, mut.spec.template.labels)
    requires NamedVolume(mut.spec.template.volumes, WORK_ORDER_VOLUME).Some?
    requires Preparing(mut) && !Unprepared(mut) && CarriesOrder(cfg, s, mut, s.hooks[h].req)
    requires mut.Annotation(AppliedSpawn) == sb.Annotation(AppliedSpawn)
    requires sb.Annotation(AppliedSpawn) != "" ==> k in s.hooks && HasApplied(sb, s.hooks[k].req)
    requires mut == sb.(annotations := mut.annotations, spec := mut.spec)
    requires AcceptedAttempt(sb) < s.hooks[h].req.attempt
    ensures Succeeds(cfg, s, sb, Stored(sb, mut, |s.versions|))
  {
    hide AcceptedAttempt, VersionOk, NamedVolume, WorkOrderSecretOf, HasSecret, FormatInt, Selected;
    var w := Stored(sb, mut, |s.versions|);
    var req := s.hooks[h].req;
    assert CarriesOrder(cfg, s, w, req);
    AttemptOf(cfg, w, req);
    Assemble(cfg, s, w, h, k);
  }
}
