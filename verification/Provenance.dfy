/** Where the parts of a stored object come from, over whole runs: a Sandbox's Pod template
    and Secret pointer from the invocation whose order it has accepted, a Pod's template
    from its Sandbox, a Secret's labels from its request. */
module Provenance {
  import opened Api
  import opened Decimal
  import opened Hook
  import opened SessionController
  import opened Protocol
  import opened Invariants
  import opened Safety
  import opened Runs
  import opened Effects
  import opened Template
  import Capacity

  // ---- Sandboxes

  /** The template is the chart's but for what the controller installs, the order-id and
      the work-order volumes' sources, and for labels the chart does not set. */
  ghost predicate FromChart(pt: PodTemplate, chart: PodTemplate) {
    && pt.restartPolicy == chart.restartPolicy && pt.automountToken == chart.automountToken
    && pt.gracePeriod == chart.gracePeriod && pt.containers == chart.containers && pt.extra == chart.extra
    && (forall k :: k in chart.labels ==> k in pt.labels && pt.labels[k] == chart.labels[k])
    && SameBut(chart.annotations, pt.annotations, {OrderId})
    && |pt.volumes| == |chart.volumes|
    && forall i :: 0 <= i < |chart.volumes| ==>
         pt.volumes[i].name == chart.volumes[i].name &&
         (chart.volumes[i].name != WORK_ORDER_VOLUME ==> pt.volumes[i] == chart.volumes[i])
  }

  /** The accepted order is this one's, and so are the template and the Secret pointer. */
  ghost predicate ComesFrom(cfg: Config, v: Sandbox, req: Request, tmpl: Sandbox) {
    && v.Annotation(LastOrderId) == req.order
    && v.Annotation(LastOrderSecret) in {"", cfg.names.secret(req.session, v.uid, req.order)}
    && FromChart(v.spec.template, tmpl.spec.template)
  }

  ghost predicate Traced(cfg: Config, s: State, v: Sandbox) {
    exists h :: h in s.hooks && ComesFrom(cfg, v, s.hooks[h].req, s.hooks[h].tmpl)
  }

  ghost predicate AllTraced(cfg: Config, s: State) {
    forall i :: 0 <= i < |s.versions| ==> Traced(cfg, s, s.versions[i])
  }

  lemma ChartIsFromItself(pt: PodTemplate)
    ensures FromChart(pt, pt)
  {
  }

  lemma RefreshedIsFromChart(cur: PodTemplate, chart: PodTemplate, to: PodTemplate)
    requires Refreshed(cur, chart, to)
    ensures FromChart(to, chart)
  {
    hide FirstWorkOrder;
    forall i | 0 <= i < |chart.volumes| && chart.volumes[i].name != WORK_ORDER_VOLUME
      ensures to.volumes[i] == chart.volumes[i]
    {
      assert !FirstWorkOrder(chart.volumes, i) by { OtherIsNotFirst(chart.volumes, i); }
    }
  }

  lemma OtherIsNotFirst(volumes: seq<Volume>, i: nat)
    requires i < |volumes| && volumes[i].name != WORK_ORDER_VOLUME
    ensures !FirstWorkOrder(volumes, i)
  {
  }

  lemma InstalledIsFromChart(cur: PodTemplate, chart: PodTemplate, order: string, secretName: string, to: PodTemplate)
    requires FromChart(cur, chart) && Installs(cur, order, secretName, to)
    ensures FromChart(to, chart)
  {
  }

  /** A write that leaves the accepted order and its pointer leaves them where they were. */
  lemma PassStaysTraced(cfg: Config, v: Sandbox, now: int, w: Sandbox, req: Request, tmpl: Sandbox)
    requires Observes(v, w) || Sleeps(v, now, w) || Wakes(v, w) || Collects(cfg, v, w) || Reports(v, w)
    requires ComesFrom(cfg, v, req, tmpl)
    ensures ComesFrom(cfg, w, req, tmpl)
  {
    hide FromChart, Installs;
    if Wakes(v, w) {
      InstalledIsFromChart(v.spec.template, tmpl.spec.template, v.Annotation(PendingSpawn), v.Annotation(PendingSecret),
                           w.spec.template);
    }
  }

  lemma CompletionStaysTraced(cfg: Config, v: Sandbox, w: Sandbox, later: Request, req: Request, tmpl: Sandbox)
    requires Completes(v, later, cfg.names.secret(later.session, v.uid, later.order), w) && SameOrder(later, req)
    requires ComesFrom(cfg, v, req, tmpl)
    ensures ComesFrom(cfg, w, req, tmpl)
  {
    hide FromChart;
  }

  lemma NewIsTraced(cfg: Config, inv: Invocation, now: int, uid: string, w: Sandbox)
    requires Creates(inv.tmpl, inv.req, now, uid, w)
    ensures ComesFrom(cfg, w, inv.req, inv.tmpl)
  {
    hide FromChart;
    ChartIsFromItself(inv.tmpl.spec.template);
  }

  lemma PublishedIsTraced(cfg: Config, inv: Invocation, now: int, v: Sandbox, w: Sandbox)
    requires Publishes(v, inv.tmpl, inv.req, now, cfg.names.secret(inv.req.session, v.uid, inv.req.order), w)
    ensures ComesFrom(cfg, w, inv.req, inv.tmpl)
  {
    hide FromChart, Refreshed;
    RefreshedIsFromChart(v.spec.template, inv.tmpl.spec.template, w.spec.template);
  }

  // ---- Over a step

  /** No invocation forgets its request or its template. */
  ghost predicate SameCharge(s: State, t: State) {
    forall h :: h in s.hooks ==> h in t.hooks && t.hooks[h].req == s.hooks[h].req && t.hooks[h].tmpl == s.hooks[h].tmpl
  }

  lemma StepKeepsCharge(cfg: Config, s: State, step: Step)
    requires Enabled(cfg, s, step)
    ensures SameCharge(s, Apply(cfg, s, step))
  {
    hide Apply, Enabled;
    if step.HookCall? || step.HookError? || step.HookStale? || step.HookCrash? || step.Start? {
      HookStepKeepsCharge(cfg, s, step);
    } else {
      OtherStepKeepsHooks(cfg, s, step);
    }
  }

  lemma HookStepKeepsCharge(cfg: Config, s: State, step: Step)
    requires Enabled(cfg, s, step)
    requires step.HookCall? || step.HookError? || step.HookStale? || step.HookCrash? || step.Start?
    ensures SameCharge(s, Apply(cfg, s, step))
  {
    hide Call, NewUid, Contracted, ValidRequest, SameOrder, Retry;
    if step.HookCall? {
      Capacity.CallKeepsHooks(cfg, s, step.h, step.now, step.uid);
    }
  }

  lemma OtherStepKeepsHooks(cfg: Config, s: State, step: Step)
    requires Enabled(cfg, s, step)
    requires !(step.HookCall? || step.HookError? || step.HookStale? || step.HookCrash? || step.Start?)
    ensures Apply(cfg, s, step).hooks == s.hooks
  {
    hide CommitPass, ReportedConditions, Live, HasPod, Decide, Stored;
    if step.ControllerPass? {
      Capacity.PassKeepsHooks(s, s.versions[step.at],
                              Decide(cfg, s.versions[step.at], step.pods, step.secret, step.list, step.now));
    }
  }

  lemma TracedStays(cfg: Config, s: State, t: State, v: Sandbox)
    requires SameCharge(s, t) && Traced(cfg, s, v)
    ensures Traced(cfg, t, v)
  {
    hide ComesFrom;
    var h :| h in s.hooks && ComesFrom(cfg, v, s.hooks[h].req, s.hooks[h].tmpl);
    assert ComesFrom(cfg, v, t.hooks[h].req, t.hooks[h].tmpl);
  }

  lemma TracedBy(cfg: Config, s: State, v: Sandbox, h: nat)
    requires h in s.hooks && ComesFrom(cfg, v, s.hooks[h].req, s.hooks[h].tmpl)
    ensures Traced(cfg, s, v)
  {
    hide ComesFrom;
  }

  lemma NextIsTraced(cfg: Config, s: State, step: Step, w: Sandbox)
    requires Inv(cfg, s) && AllTraced(cfg, s) && IsKnown(cfg, s, step, w)
    ensures Traced(cfg, s, w)
  {
    hide Inv, ComesFrom, Observes, Sleeps, Wakes, Collects, Reports, Creates, Publishes, Completes;
    if w.name !in s.sandboxes {
      NewIsTraced(cfg, s.hooks[step.h], step.now, step.uid, w);
      TracedBy(cfg, s, w, step.h);
    } else {
      var v := s.sandboxes[w.name];
      LiveIsVersion(cfg, s, w.name);
      assert Traced(cfg, s, s.versions[v.rv]);
      var g :| g in s.hooks && ComesFrom(cfg, v, s.hooks[g].req, s.hooks[g].tmpl);
      if step.HookCall? {
        if s.hooks[step.h].pc.newer {
          PublishedIsTraced(cfg, s.hooks[step.h], step.now, v, w);
          TracedBy(cfg, s, w, step.h);
        } else {
          RequestsAreOneOrder(cfg, s, step.h, g);
          CompletionStaysTraced(cfg, v, w, s.hooks[step.h].req, s.hooks[g].req, s.hooks[g].tmpl);
          TracedBy(cfg, s, w, g);
        }
      } else {
        PassStaysTraced(cfg, v, if step.ControllerPass? then step.now else 0, w, s.hooks[g].req, s.hooks[g].tmpl);
        TracedBy(cfg, s, w, g);
      }
    }
  }

  lemma RequestsAreOneOrder(cfg: Config, s: State, g: nat, h: nat)
    requires Inv(cfg, s) && g in s.hooks && h in s.hooks
    ensures SameOrder(s.hooks[g].req, s.hooks[h].req)
  {
    hide VersionsOk, EveryVersionOk, HistoryOk, SecretsOk, SeenOk, ConditionsOk, PodsOk, PodGenerationsOk, HooksOk,
         Contracted, ValidRequest, SameOrder;
  }

  lemma StepKeepsTraced(cfg: Config, s: State, step: Step)
    requires Inv(cfg, s) && Enabled(cfg, s, step) && AllTraced(cfg, s)
    ensures AllTraced(cfg, Apply(cfg, s, step))
  {
    hide Inv, Enabled, Apply, Traced, IsKnown, SameCharge;
    var t := Apply(cfg, s, step);
    StepWritesKnown(cfg, s, step);
    StepKeepsCharge(cfg, s, step);
    forall i | 0 <= i < |t.versions| ensures Traced(cfg, t, t.versions[i]) {
      if i < |s.versions| {
        assert t.versions[i] == s.versions[i];
      } else {
        NextIsTraced(cfg, s, step, t.versions[i]);
      }
      TracedStays(cfg, s, t, t.versions[i]);
    }
  }

  /** Every version of every Sandbox has the Pod template of the invocation whose order it
      has accepted, but for what is installed in it, and points at that order's Secret if
      at any. */
  lemma {:induction false} EveryVersionIsTraced(cfg: Config, run: seq<State>, steps: seq<Step>, k: nat, i: nat)
    requires ConfigOk(cfg) && IsRun(cfg, run, steps) && k < |run| && i < |run[k].versions|
    ensures Traced(cfg, run[k], run[k].versions[i])
  {
    hide Traced;
    RunIsTraced(cfg, run, steps, k);
  }

  lemma {:induction false} RunIsTraced(cfg: Config, run: seq<State>, steps: seq<Step>, k: nat)
    requires ConfigOk(cfg) && IsRun(cfg, run, steps) && k < |run|
    ensures AllTraced(cfg, run[k])
  {
    hide Inv, ConfigOk, Apply, Enabled, Traced;
    if k > 0 {
      RunIsTraced(cfg, run, steps, k - 1);
      RunInv(cfg, run, steps, k - 1);
      StepKeepsTraced(cfg, run[k - 1], steps[k - 1]);
    }
  }

  // ---- The contract

  /** Every invocation works with a template that meets the contract. */
  ghost predicate ChartsMeet(cfg: Config, s: State, c: Contract) {
    forall h :: h in s.hooks ==> ChartMeets(cfg, s.hooks[h], s.hooks[h].tmpl.spec.template, c)
  }

  /** The template meets the contract for the invocation's account. */
  ghost predicate ChartMeets(cfg: Config, inv: Invocation, pt: PodTemplate, c: Contract) {
    TemplateMeets(pt, Identity(cfg.release, inv.tmpl.namespace, inv.req.session, inv.req.account), c)
  }

  ghost predicate AllSourced(s: State) {
    forall i :: 0 <= i < |s.versions| ==> HasSecretSource(s.versions[i].spec.template.volumes)
  }

  lemma SourceIsFirst(volumes: seq<Volume>, i: nat)
    requires FirstWorkOrder(volumes, i)
    ensures HasSecretSource(volumes) <==> volumes[i].source.SecretSource? && volumes[i].source.secretName != ""
  {
    hide NamedVolume;
    NamedIsFirst(volumes, i);
  }

  lemma SourceHasFirst(volumes: seq<Volume>) returns (i: nat)
    requires HasSecretSource(volumes)
    ensures FirstWorkOrder(volumes, i)
  {
    i := VolumeIndex(volumes, WORK_ORDER_VOLUME);
  }

  lemma RefreshedIsSourced(cur: PodTemplate, chart: PodTemplate, to: PodTemplate)
    requires Refreshed(cur, chart, to) && HasSecretSource(cur.volumes) && HasSecretSource(chart.volumes)
    ensures HasSecretSource(to.volumes)
  {
    hide HasSecretSource;
    var i := SourceHasFirst(chart.volumes);
    var j := SourceHasFirst(cur.volumes);
    SourceIsFirst(chart.volumes, i);
    SourceIsFirst(cur.volumes, j);
    assert FirstWorkOrder(to.volumes, i);
    SourceIsFirst(to.volumes, i);
  }

  lemma InstalledIsSourced(cur: PodTemplate, order: string, secretName: string, to: PodTemplate)
    requires Installs(cur, order, secretName, to) && secretName != "" && HasSecretSource(cur.volumes)
    ensures HasSecretSource(to.volumes)
  {
    hide HasSecretSource;
    var i := SourceHasFirst(cur.volumes);
    assert FirstWorkOrder(to.volumes, i);
    SourceIsFirst(to.volumes, i);
  }

  lemma NextIsSourced(cfg: Config, s: State, step: Step, w: Sandbox, c: Contract)
    requires Inv(cfg, s) && AllSourced(s) && ChartsMeet(cfg, s, c) && IsKnown(cfg, s, step, w)
    ensures HasSecretSource(w.spec.template.volumes)
  {
    hide Inv, HasSecretSource, Refreshed, Installs, RunnerIndex, RunnerMeets;
    if step.HookCall? {
      assert ChartMeets(cfg, s.hooks[step.h], s.hooks[step.h].tmpl.spec.template, c);
    }
    if w.name in s.sandboxes {
      var v := s.sandboxes[w.name];
      LiveIsVersion(cfg, s, w.name);
      assert HasSecretSource(s.versions[v.rv].spec.template.volumes);
      if step.HookCall? && s.hooks[step.h].pc.newer {
        RefreshedIsSourced(v.spec.template, s.hooks[step.h].tmpl.spec.template, w.spec.template);
      } else if Wakes(v, w) {
        InstalledIsSourced(v.spec.template, v.Annotation(PendingSpawn), v.Annotation(PendingSecret), w.spec.template);
      }
    }
  }

  lemma ChartsMetBefore(cfg: Config, s: State, t: State, c: Contract)
    requires SameCharge(s, t) && ChartsMeet(cfg, t, c)
    ensures ChartsMeet(cfg, s, c)
  {
    hide TemplateMeets;
    forall h | h in s.hooks ensures ChartMeets(cfg, s.hooks[h], s.hooks[h].tmpl.spec.template, c) {
      assert ChartMeets(cfg, t.hooks[h], t.hooks[h].tmpl.spec.template, c);
    }
  }

  lemma {:induction false} RunIsSourced(cfg: Config, run: seq<State>, steps: seq<Step>, k: nat, c: Contract)
    requires ConfigOk(cfg) && IsRun(cfg, run, steps) && k < |run| && ChartsMeet(cfg, run[k], c)
    ensures AllSourced(run[k])
  {
    hide Inv, ConfigOk, Apply, Enabled, HasSecretSource, ChartsMeet, SameCharge, IsKnown;
    if k > 0 {
      var s, t := run[k - 1], run[k];
      StepKeepsCharge(cfg, s, steps[k - 1]);
      ChartsMetBefore(cfg, s, t, c);
      RunIsSourced(cfg, run, steps, k - 1, c);
      RunInv(cfg, run, steps, k - 1);
      StepWritesKnown(cfg, s, steps[k - 1]);
      forall i | 0 <= i < |t.versions| ensures HasSecretSource(t.versions[i].spec.template.volumes) {
        if i < |s.versions| {
          assert t.versions[i] == s.versions[i];
        } else {
          NextIsSourced(cfg, s, steps[k - 1], t.versions[i], c);
        }
      }
    }
  }

  lemma FromChartMeets(pt: PodTemplate, chart: PodTemplate, id: Identity, c: Contract)
    requires FromChart(pt, chart) && TemplateMeets(chart, id, c) && HasSecretSource(pt.volumes)
    ensures TemplateMeets(pt, id, c)
  {
    hide RunnerIndex, RunnerMeets, HasSecretSource;
    forall v | v in pt.volumes ensures v.name != WORKSPACE {
      var i :| 0 <= i < |pt.volumes| && pt.volumes[i] == v;
      assert chart.volumes[i] in chart.volumes;
    }
  }

  /** If every invocation works with a template that meets the contract, so does every
      version of every Sandbox, for the account whose order it has accepted: no write ever
      loses the runner, its mounts, its lock, the grace period or the workspace. */
  lemma EveryVersionMeetsTheContract(cfg: Config, run: seq<State>, steps: seq<Step>, k: nat, i: nat, c: Contract)
    returns (h: nat)
    requires ConfigOk(cfg) && IsRun(cfg, run, steps) && k < |run| && i < |run[k].versions|
    requires ChartsMeet(cfg, run[k], c)
    ensures h in run[k].hooks && run[k].versions[i].Annotation(LastOrderId) == run[k].hooks[h].req.order
    ensures ChartMeets(cfg, run[k].hooks[h], run[k].versions[i].spec.template, c)
  {
    hide IsRun, ConfigOk, TemplateMeets, FromChart, HasSecretSource;
    var s, v := run[k], run[k].versions[i];
    EveryVersionIsTraced(cfg, run, steps, k, i);
    RunIsSourced(cfg, run, steps, k, c);
    h :| h in s.hooks && ComesFrom(cfg, v, s.hooks[h].req, s.hooks[h].tmpl);
    assert ChartMeets(cfg, s.hooks[h], s.hooks[h].tmpl.spec.template, c);
    FromChartMeets(v.spec.template, s.hooks[h].tmpl.spec.template,
                   Identity(cfg.release, s.hooks[h].tmpl.namespace, s.hooks[h].req.session, s.hooks[h].req.account), c);
  }

  /** And so does every Pod there ever was, for the order it runs. */
  lemma EveryPodMeetsTheContract(cfg: Config, run: seq<State>, steps: seq<Step>, k: nat, p: Pod, c: Contract)
    returns (h: nat)
    requires ConfigOk(cfg) && IsRun(cfg, run, steps) && k < |run| && p in run[k].podsEver
    requires ChartsMeet(cfg, run[k], c)
    ensures h in run[k].hooks && Get(p.annotations, OrderId) == run[k].hooks[h].req.order
    ensures ChartMeets(cfg, run[k].hooks[h], p.template, c)
  {
    hide IsRun, ConfigOk, Inv, ChartMeets, ChartsMeet;
    RunInv(cfg, run, steps, k);
    var w := PodVersion(cfg, run[k], p);
    h := EveryVersionMeetsTheContract(cfg, run, steps, k, w, c);
    RunningVersionOrder(cfg, run[k], w);
  }

  lemma PodVersion(cfg: Config, s: State, p: Pod) returns (w: nat)
    requires Inv(cfg, s) && p in s.podsEver
    ensures w < |s.versions| && s.versions[w].IsRunning() && s.versions[w].spec.template == p.template
  {
    hide RequestsOk, VersionsOk, EveryVersionOk, HistoryOk, SecretsOk, SeenOk, ConditionsOk, PodGenerationsOk, HooksOk;
    assert PodOk(s, p);
    w := p.madeFrom;
  }

  lemma RunningVersionOrder(cfg: Config, s: State, i: nat)
    requires Inv(cfg, s) && i < |s.versions| && s.versions[i].IsRunning()
    ensures Get(s.versions[i].spec.template.annotations, OrderId) == s.versions[i].Annotation(LastOrderId)
  {
    hide VersionsOk, HistoryOk, SecretsOk, SeenOk, ConditionsOk, PodsOk, PodGenerationsOk, HooksOk, InPhase, RequestsOk,
         HasSecret, WorkOrderSecretOf;
    assert VersionOk(cfg, s, s.versions[i]);
    var h :| h in s.hooks && CarriesOrder(cfg, s, s.versions[i], s.hooks[h].req);
  }

  // ---- Secrets

  /** The Secret's labels are the template's, with the session's and the account's own. */
  ghost predicate Labelled(cfg: Config, labels: Labels, req: Request, tmpl: Sandbox) {
    && SessionLabel in labels && labels[SessionLabel] == cfg.names.labelValue(req.session)
    && AccountLabel in labels && labels[AccountLabel] == cfg.names.labelValue(req.account)
    && forall k :: k !in {SessionLabel, AccountLabel} ==>
         (k in labels <==> k in tmpl.labels) && (k in labels ==> labels[k] == tmpl.labels[k])
  }

  /** Some invocation made it, for its order. */
  ghost predicate MadeBy(cfg: Config, s: State, k: Secret) {
    exists h, uid :: h in s.hooks && IsSecretOf(cfg, k, uid, s.hooks[h].req) &&
                     Labelled(cfg, k.labels, s.hooks[h].req, s.hooks[h].tmpl)
  }

  lemma DesiredIsLabelled(cfg: Config, inv: Invocation, uid: string)
    ensures IsSecretOf(cfg, DesiredSecret(cfg, inv, uid), uid, inv.req)
    ensures Labelled(cfg, DesiredSecret(cfg, inv, uid).labels, inv.req, inv.tmpl)
  {
    hide FormatInt;
  }

  /** A step adds no Secret but the one its invocation is after. */
  lemma StepAddsSecret(cfg: Config, s: State, step: Step)
    requires Enabled(cfg, s, step)
    ensures var t := Apply(cfg, s, step);
            t.secretsEver == s.secretsEver ||
            (step.HookCall? && step.h in s.hooks && s.hooks[step.h].pc.Securing? &&
             t.secretsEver == s.secretsEver + {DesiredSecret(cfg, s.hooks[step.h], s.hooks[step.h].pc.snap.uid)})
  {
    hide Call, CommitPass, ReportedConditions, NewUid, Contracted, ValidRequest, Live, HasPod, Decide, Retry,
         DesiredSecret;
    if step.HookCall? {
      CallAddsSecret(cfg, s, s.hooks[step.h], step.now, step.uid);
    } else if step.ControllerPass? {
      PassAddsNoSecret(s, s.versions[step.at],
                       Decide(cfg, s.versions[step.at], step.pods, step.secret, step.list, step.now));
    }
  }

  lemma CallAddsSecret(cfg: Config, s: State, inv: Invocation, now: int, uid: string)
    requires Active(inv.pc)
    ensures var ever := Call(cfg, s, inv, now, uid).state.secretsEver;
            ever == s.secretsEver ||
            (inv.pc.Securing? && ever == s.secretsEver + {DesiredSecret(cfg, inv, inv.pc.snap.uid)})
  {
    hide Classified, Secured, VerifySecret, Mutated, Created, WorkOrderSecret, Holders, Retry, Stored;
  }

  lemma PassAddsNoSecret(s: State, snap: Sandbox, write: Write)
    ensures CommitPass(s, snap, write).secretsEver == s.secretsEver
  {
  }

  lemma MadeStays(cfg: Config, s: State, t: State, k: Secret)
    requires SameCharge(s, t) && MadeBy(cfg, s, k)
    ensures MadeBy(cfg, t, k)
  {
    hide IsSecretOf, Labelled;
    var h, uid :| h in s.hooks && IsSecretOf(cfg, k, uid, s.hooks[h].req) &&
                  Labelled(cfg, k.labels, s.hooks[h].req, s.hooks[h].tmpl);
    assert IsSecretOf(cfg, k, uid, t.hooks[h].req) && Labelled(cfg, k.labels, t.hooks[h].req, t.hooks[h].tmpl);
  }

  /** Every Secret there ever was carries the order, attempt, session and work order of an
      invocation that made it, immutable and owned by one Sandbox uid, and the labels by
      which the session's and the account's Secrets are found. */
  lemma {:induction false} EverySecretIsMade(cfg: Config, run: seq<State>, steps: seq<Step>, k: nat, secret: Secret)
    requires IsRun(cfg, run, steps) && k < |run| && secret in run[k].secretsEver
    ensures MadeBy(cfg, run[k], secret)
  {
    hide Apply, Enabled, MadeBy, DesiredSecret;
    if k > 0 {
      var s, step := run[k - 1], steps[k - 1];
      StepKeepsCharge(cfg, s, step);
      StepAddsSecret(cfg, s, step);
      if secret in s.secretsEver {
        EverySecretIsMade(cfg, run, steps, k - 1, secret);
      } else {
        DesiredIsMade(cfg, s, step.h, s.hooks[step.h].pc.snap.uid);
      }
      MadeStays(cfg, s, run[k], secret);
    }
  }

  lemma DesiredIsMade(cfg: Config, s: State, h: nat, uid: string)
    requires h in s.hooks
    ensures MadeBy(cfg, s, DesiredSecret(cfg, s.hooks[h], uid))
  {
    hide DesiredSecret, IsSecretOf, Labelled;
    DesiredIsLabelled(cfg, s.hooks[h], uid);
  }
}
