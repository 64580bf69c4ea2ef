/** Every interleaved run has the Sandbox history of a run in which each committed
    write reads, decides and writes in one atomic step. */
module Atomicity {
  import opened Api
  import opened Hook
  import opened SessionController
  import opened Protocol
  import opened Invariants
  import opened Preservation
  import opened Writes
  import opened HookSteps
  import opened Safety
  import opened Runs
  import opened PodSafety
  import opened Orders
  import opened Agreement

  /** One atomic action on the Sandboxes. It decides from the live store alone: no
      snapshot, no stale list (but for the idle list of ACollect, which the cap reads
      from a cache). */
  datatype Action =
    | Silent
    | ACreate(h: nat, now: int, uid: string)
    | ARepair(h: nat)
    | APublish(h: nat, now: int)
    | AObserve(name: string, id: nat)
    | ASleep(name: string, now: int)
    | AWake(name: string)
    | ACollect(name: string, list: seq<Sandbox>, now: int)
    | AReport(name: string)
    | AFinalize(name: string)

  predicate Collectable(cfg: Config, s: State, name: string) {
    name in s.sandboxes && !s.sandboxes[name].deleting && Selected(cfg, s.sandboxes[name].labels)
  }

  predicate ActionEnabled(cfg: Config, s: State, a: Action) {
    match a
    case Silent => true
    case ACreate(h, now, uid) => h in s.hooks && s.hooks[h].tmpl.name !in s.sandboxes
    case ARepair(h) =>
      h in s.hooks && s.hooks[h].tmpl.name in s.sandboxes &&
      var sb, inv := s.sandboxes[s.hooks[h].tmpl.name], s.hooks[h];
      && Evaluate(cfg, sb, inv.req) == Redelivery && SecretStands(cfg, s, inv, sb.uid)
      && Repair(sb, inv.req, cfg.names.secret(inv.req.session, sb.uid, inv.req.order)).Repaired?
    case APublish(h, now) =>
      h in s.hooks && s.hooks[h].tmpl.name in s.sandboxes &&
      var sb, inv := s.sandboxes[s.hooks[h].tmpl.name], s.hooks[h];
      Evaluate(cfg, sb, inv.req) == Newer && SecretStands(cfg, s, inv, sb.uid)
    case AObserve(name, id) =>
      && Collectable(cfg, s, name) && id in s.pods && s.pods[id].owner == s.sandboxes[name].uid
      && Observe(s.sandboxes[name], [s.pods[id]]).Some?
    case ASleep(name, now) => Collectable(cfg, s, name) && Sleep(s.sandboxes[name], now).Some?
    case AWake(name) =>
      && Collectable(cfg, s, name) && s.sandboxes[name].Annotation(PendingSecret) in s.secrets
      && Wake(cfg, s.sandboxes[name], Some(s.secrets[s.sandboxes[name].Annotation(PendingSecret)])).Woken?
    case ACollect(name, list, now) => Collectable(cfg, s, name) && GcDue(cfg, s.sandboxes[name], list, now)
    case AReport(name) => name in s.sandboxes && s.sandboxes[name].uid in s.seen
    case AFinalize(name) => name in s.sandboxes && s.sandboxes[name].deleting
  }

  function Rewritten(s: State, name: string, mut: Sandbox): map<string, Sandbox>
    requires name in s.sandboxes
  {
    s.sandboxes[name := Stored(s.sandboxes[name], mut, |s.versions|)]
  }

  /** The Sandboxes after an action. */
  function ActionEffect(cfg: Config, s: State, a: Action): map<string, Sandbox>
    requires ActionEnabled(cfg, s, a)
  {
    match a
    case Silent => s.sandboxes
    case ACreate(h, now, uid) =>
      var w := Created(cfg, s.hooks[h], now, uid, |s.versions|);
      s.sandboxes[w.name := w]
    case ARepair(h) =>
      var sb, inv := s.sandboxes[s.hooks[h].tmpl.name], s.hooks[h];
      Rewritten(s, inv.tmpl.name, Repair(sb, inv.req, cfg.names.secret(inv.req.session, sb.uid, inv.req.order)).mut)
    case APublish(h, now) =>
      var sb, inv := s.sandboxes[s.hooks[h].tmpl.name], s.hooks[h];
      Rewritten(s, inv.tmpl.name,
                Publish(sb, inv.tmpl, inv.req, now, cfg.names.secret(inv.req.session, sb.uid, inv.req.order)))
    case AObserve(name, id) => Rewritten(s, name, Observe(s.sandboxes[name], [s.pods[id]]).value)
    case ASleep(name, now) => Rewritten(s, name, Sleep(s.sandboxes[name], now).value)
    case AWake(name) =>
      Rewritten(s, name, Wake(cfg, s.sandboxes[name], Some(s.secrets[s.sandboxes[name].Annotation(PendingSecret)])).mut)
    case ACollect(name, _, _) => Rewritten(s, name, s.sandboxes[name].(deleting := true))
    case AReport(name) =>
      Rewritten(s, name, s.sandboxes[name].(conditions := ReportedConditions(s.seen[s.sandboxes[name].uid], s.pods)))
    case AFinalize(name) => s.sandboxes - {name}
  }

  ghost predicate IsAtomic(cfg: Config, s: State, t: State, a: Action) {
    ActionEnabled(cfg, s, a) && t.sandboxes == ActionEffect(cfg, s, a)
  }

  // ---- Hook calls

  /** The Secret an invocation once saw or created still stands while its Sandbox
      lives. */
  lemma SecretStillStands(cfg: Config, s: State, h: nat, sb: Sandbox)
    requires ConfigOk(cfg) && Inv(cfg, s) && h in s.hooks && LiveIn(s, sb) && HasSecret(cfg, s, sb.uid, s.hooks[h].req)
    ensures SecretStands(cfg, s, s.hooks[h], sb.uid)
  {
    hide EveryVersionOk, VersionsOk, HistoryOk, SeenOk, ConditionsOk, PodsOk, PodGenerationsOk, HooksOk, RequestsOk,
         IsSecretOf, ConfigOk, VerifySecret;
    var req := s.hooks[h].req;
    var k :| k in s.secretsEver && IsSecretOf(cfg, k, sb.uid, req);
    OwnerAndName(cfg, k, sb.uid, req);
    assert Live(s.sandboxes, k.owners[0]);
    assert k.name in s.secrets;
    ExistingSecretVerifies(cfg, s, h, sb.uid);
  }

  lemma PatchIsAtomic(cfg: Config, s: State, h: nat, now: int, uid: string) returns (a: Action)
    requires ConfigOk(cfg) && Inv(cfg, s) && h in s.hooks && s.hooks[h].pc.Patching?
    ensures IsAtomic(cfg, s, Call(cfg, s, s.hooks[h], now, uid).state, a)
  {
    hide EveryVersionOk, HistoryOk, SecretsOk, SeenOk, ConditionsOk, PodsOk, PodGenerationsOk, RequestsOk, ConfigOk,
         Evaluate, Repair, Publish, HasSecret, SecretStands;
    var inv := s.hooks[h];
    var snap := inv.pc.snap;
    a := Silent;
    assert HookOk(cfg, s, inv);
    if Current(s, snap) {
      CurrentIsLive(s, snap);
      SecretStillStands(cfg, s, h, snap);
      a := if inv.pc.newer then APublish(h, now) else ARepair(h);
      MutatedIdentity(cfg, inv, now);
    }
  }

  lemma CallIsAtomic(cfg: Config, s: State, h: nat, now: int, uid: string) returns (a: Action)
    requires ConfigOk(cfg) && Inv(cfg, s) && Enabled(cfg, s, HookCall(h, now, uid, false))
    ensures IsAtomic(cfg, s, Call(cfg, s, s.hooks[h], now, uid).state, a)
  {
    hide Inv, ConfigOk, Classified, Secured, VerifySecret, Mutated, Created, DesiredSecret, HoldsSlot;
    var inv := s.hooks[h];
    a := Silent;
    if inv.pc.Creating? && inv.tmpl.name !in s.sandboxes {
      a := ACreate(h, now, uid);
    } else if inv.pc.Patching? {
      a := PatchIsAtomic(cfg, s, h, now, uid);
    }
  }

  // ---- Controller passes

  lemma CommittedEffect(cfg: Config, run: seq<State>, steps: seq<Step>, k: nat, sb: Sandbox)
    requires ConfigOk(cfg) && IsRun(cfg, run, steps) && Commits(cfg, run, steps, k)
    requires sb == run[k].versions[steps[k].at] && LiveIn(run[k], sb) && Inv(cfg, run[k])
    ensures run[k + 1].sandboxes == Rewritten(run[k], sb.name, Written(sb, PassWrite(cfg, run[k], steps[k])))
    ensures Collectable(cfg, run[k], sb.name)
  {
    hide Inv, ConfigOk, Observe, Sleep, Wake, GcDue, Selected, Succeeds;
    assert Enabled(cfg, run[k], steps[k]) && run[k + 1] == Apply(cfg, run[k], steps[k]);
    DecidedSucceeds(cfg, run[k], sb, steps[k].pods, steps[k].secret, steps[k].list, steps[k].now);
  }

  /** The pass a controller commits from an old Sandbox, an old Pod list and an old
      Secret is what it would decide on the spot. */
  lemma PassIsAtomic(cfg: Config, run: seq<State>, steps: seq<Step>, k: nat) returns (a: Action)
    requires ConfigOk(cfg) && IsRun(cfg, run, steps) && k < |steps| && IsPass(steps[k])
    ensures IsAtomic(cfg, run[k], run[k + 1], a)
  {
    hide Inv, ConfigOk, Enabled, Observe, Sleep, Wake, GcDue, Selected, Collectable, Put, Stored;
    a := Silent;
    var s := run[k];
    if Commits(cfg, run, steps, k) {
      var sb := CommitsOnLive(cfg, run, steps, k);
      CommittedEffect(cfg, run, steps, k, sb);
      match PassWrite(cfg, s, steps[k]) {
        case Observed(mut) =>
          var id := ObservationFindsThePod(cfg, run, steps, k);
          a := AObserve(sb.name, id);
          ObserveOne(sb, OwnedPods(cfg, steps[k].pods, sb.uid), s.pods[id]);
        case Slept(mut) => a := ASleep(sb.name, steps[k].now);
        case Awoke(mut) =>
          a := AWake(sb.name);
          WakeOnTheSpot(cfg, run, steps, k, sb);
        case Collect => a := ACollect(sb.name, steps[k].list, steps[k].now);
      }
    } else {
      UncommittedPass(cfg, run, steps, k);
    }
  }

  lemma UncommittedPass(cfg: Config, run: seq<State>, steps: seq<Step>, k: nat)
    requires IsRun(cfg, run, steps) && k < |steps| && IsPass(steps[k]) && !Commits(cfg, run, steps, k)
    ensures run[k + 1] == run[k]
  {
    hide Decide;
    assert Enabled(cfg, run[k], steps[k]) && run[k + 1] == Apply(cfg, run[k], steps[k]);
  }

  lemma ObserveOne(sb: Sandbox, pods: seq<Pod>, p: Pod)
    requires Observe(sb, pods).Some? && Acknowledges(p, sb.Annotation(PendingSpawn), sb.Annotation(PendingSecret))
    ensures Observe(sb, [p]) == Observe(sb, pods)
  {
    assert p in [p];
  }

  lemma WakeOnTheSpot(cfg: Config, run: seq<State>, steps: seq<Step>, k: nat, sb: Sandbox)
    requires ConfigOk(cfg) && IsRun(cfg, run, steps) && k < |steps| < |run| && IsPass(steps[k]) && LiveIn(run[k], sb)
    requires Wake(cfg, sb, steps[k].secret).Woken?
    ensures sb.Annotation(PendingSecret) in run[k].secrets
    ensures Wake(cfg, sb, Some(run[k].secrets[sb.Annotation(PendingSecret)])) == Wake(cfg, sb, steps[k].secret)
  {
    hide IsRun, ConfigOk, ValidWorkOrderSecret, NamedVolume, Installed, Enabled, Apply;
    PendingSecretIsReady(cfg, run, steps, k, sb.name);
  }

  lemma StepIsAtomic(cfg: Config, run: seq<State>, steps: seq<Step>, k: nat) returns (a: Action)
    requires ConfigOk(cfg) && IsRun(cfg, run, steps) && k < |steps|
    ensures IsAtomic(cfg, run[k], run[k + 1], a)
  {
    hide Inv, ConfigOk, Apply;
    RunInv(cfg, run, steps, k);
    assert Enabled(cfg, run[k], steps[k]) && run[k + 1] == Apply(cfg, run[k], steps[k]);
    if IsPass(steps[k]) {
      a := PassIsAtomic(cfg, run, steps, k);
    } else {
      a := OtherStepIsAtomic(cfg, run[k], steps[k]);
    }
  }

  lemma OtherStepIsAtomic(cfg: Config, s: State, step: Step) returns (a: Action)
    requires ConfigOk(cfg) && Inv(cfg, s) && Enabled(cfg, s, step) && !IsPass(step)
    ensures IsAtomic(cfg, s, Apply(cfg, s, step), a)
  {
    hide Inv, ConfigOk, Call, CommitPass, ReportedConditions, Contracted, ValidRequest;
    match step {
      case HookCall(h, now, uid, lost) => a := CallIsAtomic(cfg, s, h, now, uid);
      case Report(name) =>
        a := AReport(name);
        ReportIsAtomic(cfg, s, name);
      case Finalize(name) => a := AFinalize(name);
      case _ => a := Silent;
    }
  }

  lemma ReportIsAtomic(cfg: Config, s: State, name: string)
    requires Inv(cfg, s) && Enabled(cfg, s, Report(name))
    ensures IsAtomic(cfg, s, Apply(cfg, s, Report(name)), AReport(name))
  {
    hide Inv, ReportedConditions;
    NamesFit(cfg, s);
  }

  /** Serialization: there is one atomic action for every step of the run, each enabled
      by the live store it finds and producing exactly the Sandboxes the run shows. */
  lemma {:induction false} EveryRunIsAtomic(cfg: Config, run: seq<State>, steps: seq<Step>, n: nat)
    returns (actions: seq<Action>)
    requires ConfigOk(cfg) && IsRun(cfg, run, steps) && n <= |steps|
    ensures |actions| == n
    ensures forall k :: 0 <= k < n ==> IsAtomic(cfg, run[k], run[k + 1], actions[k])
  {
    hide IsRun, ConfigOk, IsAtomic;
    if n == 0 {
      actions := [];
    } else {
      actions := EveryRunIsAtomic(cfg, run, steps, n - 1);
      var a := StepIsAtomic(cfg, run, steps, n - 1);
      actions := actions + [a];
    }
  }

  // ---- Stale writes

  /** Once step k has written a Sandbox uid, nothing computed from a version read before
      it ever commits: not a hook's patch, a wake, a sleep, an acknowledgement or a
      collection. */
  lemma StaleWritesNeverCommit(cfg: Config, run: seq<State>, steps: seq<Step>, k: nat, m: nat, snap: Sandbox)
    requires ConfigOk(cfg) && IsRun(cfg, run, steps) && k < m < |run|
    requires IsVersion(run[k], snap)
    requires |run[k + 1].versions| > |run[k].versions| && run[k + 1].versions[|run[k].versions|].uid == snap.uid
    ensures !Current(run[m], snap)
  {
    hide IsRun, ConfigOk, EveryVersionOk, HistoryOk, SecretsOk, SeenOk, ConditionsOk, PodsOk, PodGenerationsOk,
         RequestsOk, HooksOk;
    RunInv(cfg, run, steps, m);
    VersionsGrow(cfg, run, steps, k + 1, m);
    var j := |run[k].versions|;
    assert run[m].versions[j].uid == snap.uid;
    if snap.name in run[m].sandboxes {
      assert IsVersion(run[m], run[m].sandboxes[snap.name]);
    }
  }
}
