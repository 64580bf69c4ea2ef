/** An invocation that goes on undisturbed from wherever it stands, on whatever it read:
    exactly when it exits 0. */
module Continuing {
  import opened Api
  import opened Hook
  import opened Protocol
  import opened Invariants
  import opened Writes
  import opened HookSteps
  import opened Safety
  import opened Agreement
  import opened Recovery
  import opened Acceptance
  import opened Runs

  /** An attempt is left, and the request is welcome as things now stand. */
  predicate Again(cfg: Config, s: State, inv: Invocation, t: nat) {
    t + 1 < cfg.maxAttempts && Welcome(cfg, s, inv)
  }

  /** What the rest takes once the order's Secret is there: nothing left to write, or a
      snapshot still current, or another attempt. */
  predicate AfterSecret(cfg: Config, s: State, inv: Invocation, t: nat, snap: Sandbox, newer: bool) {
    || (!newer && Repair(snap, inv.req, cfg.names.secret(inv.req.session, snap.uid, inv.req.order)) == Complete)
    || Current(s, snap)
    || Again(cfg, s, inv, t)
  }

  predicate HasRoom(cfg: Config, s: State, name: string) {
    |Holders(s.sandboxes) - {name}| < cfg.maxActiveSessions
  }

  /** What the rest takes once the cap is passed: the name still free and a template the
      hook itself accepts, or another attempt. */
  predicate AfterRoom(cfg: Config, s: State, inv: Invocation, t: nat) {
    if inv.tmpl.name in s.sandboxes then Again(cfg, s, inv, t) else Get(inv.tmpl.labels, PartOfLabel) == PART_OF
  }

  /** What the invocation needs of the store from where it stands. */
  predicate Continues(cfg: Config, s: State, inv: Invocation)
    requires Active(inv.pc)
  {
    match inv.pc
    case Reading(t) => Welcome(cfg, s, inv)
    case Admitting(t) => HasRoom(cfg, s, inv.tmpl.name) && AfterRoom(cfg, s, inv, t)
    case Creating(t) => AfterRoom(cfg, s, inv, t)
    case AdmittingNewer(t, snap) => HasRoom(cfg, s, inv.tmpl.name) && AfterSecret(cfg, s, inv, t, snap, true)
    case Securing(t, snap, newer) => AfterSecret(cfg, s, inv, t, snap, newer)
    case Verifying(t, snap, newer) =>
      DesiredSecret(cfg, inv, snap.uid).name in s.secrets && AfterSecret(cfg, s, inv, t, snap, newer)
    case Patching(t, snap, newer) => Current(s, snap) || Again(cfg, s, inv, t)
  }

  /** Exit 0 exactly if `yes`; and then the order is in, or no Sandbox was written. */
  ghost predicate EndsWell(s: State, inv: Invocation, done: Reply, yes: bool) {
    && (done.pc.Done? <==> yes)
    && (yes ==> Accepts(done.state, inv) || done.state.versions == s.versions)
  }

  lemma ServedWell(s: State, inv: Invocation, uid: string, done: Reply)
    requires Serves(inv, uid, done)
    ensures EndsWell(s, inv, done, true)
  {
  }

  lemma FailedEnds(cfg: Config, s: State, inv: Invocation, now: int, uid: string, code: nat)
    ensures EndsWell(s, inv, Solo(cfg, s, inv.(pc := Failed(code)), now, uid), false)
  {
    hide Solo;
    SoloEnds(cfg, s, inv.(pc := Failed(code)), now, uid, now, uid);
  }

  lemma ReadingEnds(cfg: Config, s: State, h: nat, now: int, uid: string, t: nat)
    requires ConfigOk(cfg) && Inv(cfg, s) && h in s.hooks && NewUid(s, uid)
    ensures var inv := s.hooks[h];
            EndsWell(s, inv, Solo(cfg, s, inv.(pc := Reading(t)), now, uid), Welcome(cfg, s, inv))
  {
    hide Inv, ConfigOk, Solo, Welcome, Accepts, NewUid, Evaluate;
    if s.hooks[h].tmpl.name in s.sandboxes {
      FoundExits(cfg, s, h, now, uid, t);
    } else {
      CreatedExits(cfg, s, h, now, uid, t);
    }
  }

  lemma RetryEnds(cfg: Config, s: State, h: nat, now: int, uid: string, t: nat)
    requires ConfigOk(cfg) && Inv(cfg, s) && h in s.hooks && NewUid(s, uid)
    ensures var inv := s.hooks[h];
            EndsWell(s, inv, Solo(cfg, s, inv.(pc := Retry(cfg, t)), now, uid), Again(cfg, s, inv, t))
  {
    hide Inv, ConfigOk, Solo, Welcome, EndsWell, NewUid;
    if t + 1 < cfg.maxAttempts {
      ReadingEnds(cfg, s, h, now, uid, t + 1);
    } else {
      FailedEnds(cfg, s, s.hooks[h], now, uid, EXIT_RETRYABLE);
    }
  }

  // ---- Patching

  /** A version the invocation read, and what it made of it. */
  ghost predicate Holds(cfg: Config, s: State, inv: Invocation, snap: Sandbox, newer: bool) {
    && IsVersion(s, snap) && snap.name == inv.tmpl.name
    && Evaluate(cfg, snap, inv.req) == if newer then Newer else Redelivery
  }

  predicate HasToWrite(cfg: Config, inv: Invocation, snap: Sandbox, newer: bool) {
    newer || Repair(snap, inv.req, cfg.names.secret(inv.req.session, snap.uid, inv.req.order)).Repaired?
  }

  lemma SnapPhase(cfg: Config, s: State, snap: Sandbox)
    requires Inv(cfg, s) && IsVersion(s, snap)
    ensures VersionOk(cfg, s, snap) && InPhase(snap) && RequestsOk(cfg, s) && VersionsOk(s) && SecretsOk(cfg, s)
  {
    hide VersionOk, InPhase, VersionsOk, HistoryOk, SecretsOk, SeenOk, ConditionsOk, PodsOk, PodGenerationsOk,
         HooksOk, RequestsOk;
    SnapVersionOk(cfg, s, snap);
    PhaseOf(cfg, s, snap);
  }

  lemma CurrentPatchServes(cfg: Config, s: State, h: nat, now: int, uid: string, t: nat, snap: Sandbox, newer: bool)
    requires ConfigOk(cfg) && Inv(cfg, s) && h in s.hooks && Holds(cfg, s, s.hooks[h], snap, newer)
    requires HasToWrite(cfg, s.hooks[h], snap, newer) && Current(s, snap)
    ensures var inv := s.hooks[h];
            EndsWell(s, inv, Solo(cfg, s, inv.(pc := Patching(t, snap, newer)), now, uid), true)
  {
    hide Inv, ConfigOk, Solo, Evaluate, VersionOk, InPhase, RequestsOk, VersionsOk, SecretsOk, Repair, Publish, Current,
         IsVersion, AcceptedAttempt;
    var inv := s.hooks[h];
    SnapPhase(cfg, s, snap);
    CurrentIsLive(s, snap);
    InvRequests(cfg, s, h);
    var name := cfg.names.secret(inv.req.session, snap.uid, inv.req.order);
    NameNotEmpty(cfg, inv.req.session, snap.uid, inv.req.order);
    if newer {
      PublishedOrder(cfg, snap, inv.tmpl, inv.req, now, name);
    } else {
      OrderTells(cfg, snap, inv.req);
      RepairedOrder(snap, inv.req, name);
    }
    PatchingEnds(cfg, s, inv.(pc := Patching(t, snap, newer)), now, uid);
    ServedWell(s, inv, snap.uid, Solo(cfg, s, inv.(pc := Patching(t, snap, newer)), now, uid));
  }

  lemma PatchingContinues(cfg: Config, s: State, h: nat, now: int, uid: string, t: nat, snap: Sandbox, newer: bool)
    requires ConfigOk(cfg) && Inv(cfg, s) && h in s.hooks && NewUid(s, uid) && Holds(cfg, s, s.hooks[h], snap, newer)
    requires HasToWrite(cfg, s.hooks[h], snap, newer)
    ensures var inv := s.hooks[h];
            EndsWell(s, inv, Solo(cfg, s, inv.(pc := Patching(t, snap, newer)), now, uid),
                     Current(s, snap) || Again(cfg, s, inv, t))
  {
    hide Inv, ConfigOk, Solo, EndsWell, NewUid, Holds, HasToWrite, Again, Mutated, Current, Protocol.Patch;
    if Current(s, snap) {
      CurrentPatchServes(cfg, s, h, now, uid, t, snap, newer);
    } else {
      SoloStep(cfg, s, s.hooks[h].(pc := Patching(t, snap, newer)), now, uid);
      RetryEnds(cfg, s, h, now, uid, t);
    }
  }

  // ---- The Secret

  lemma SecuredContinues(cfg: Config, s: State, h: nat, now: int, uid: string, t: nat, snap: Sandbox, newer: bool)
    requires ConfigOk(cfg) && Inv(cfg, s) && h in s.hooks && NewUid(s, uid) && Holds(cfg, s, s.hooks[h], snap, newer)
    ensures var inv := s.hooks[h];
            EndsWell(s, inv, Solo(cfg, s, inv.(pc := Secured(cfg, inv.req, t, snap, newer)), now, uid),
                     AfterSecret(cfg, s, inv, t, snap, newer))
  {
    hide Inv, ConfigOk, Solo, NewUid, Again, Current, Repair, VersionOk, InPhase, RequestsOk, VersionsOk, SecretsOk,
         Evaluate, Accepts;
    var inv := s.hooks[h];
    var name := cfg.names.secret(inv.req.session, snap.uid, inv.req.order);
    SnapPhase(cfg, s, snap);
    if !newer {
      RepairNeverMismatches(cfg, s, snap, h);
    }
    if !newer && Repair(snap, inv.req, name) == Complete {
      SoloEnds(cfg, s, inv.(pc := Done(snap.rv)), now, uid, now, uid);
    } else {
      PatchingContinues(cfg, s, h, now, uid, t, snap, newer);
    }
  }

  /** The Secret changes nothing the rest depends on. */
  lemma SecretKeepsRest(cfg: Config, s: State, h: nat, uid: string, snap: Sandbox)
    requires ConfigOk(cfg) && Inv(cfg, s) && h in s.hooks && IsVersion(s, snap) && NewUid(s, uid)
    ensures var u := WithSecret(cfg, s, s.hooks[h], snap.uid);
            && Inv(cfg, u) && NewUid(u, uid) && u.hooks == s.hooks && u.versions == s.versions &&
               u.sandboxes == s.sandboxes
            && SecretStands(cfg, u, s.hooks[h], snap.uid)
  {
    hide Inv, ConfigOk, WorkOrderSecret, VerifySecret, HasSecret;
    SecretWillStand(cfg, s, h, snap.uid);
    if DesiredSecret(cfg, s.hooks[h], snap.uid).name !in s.secrets {
      AddSecretKeepsInv(cfg, s, h, snap);
    }
  }

  lemma SecuringContinues(cfg: Config, s: State, h: nat, now: int, uid: string, t: nat, snap: Sandbox, newer: bool)
    requires ConfigOk(cfg) && Inv(cfg, s) && h in s.hooks && NewUid(s, uid) && Holds(cfg, s, s.hooks[h], snap, newer)
    ensures var inv := s.hooks[h];
            EndsWell(s, inv, Solo(cfg, s, inv.(pc := Securing(t, snap, newer)), now, uid),
                     AfterSecret(cfg, s, inv, t, snap, newer))
  {
    hide Inv, ConfigOk, Solo, NewUid, WithSecret, Secured, Evaluate, Repair, HoldsSlot, SecretStands, Accepts;
    var inv := s.hooks[h];
    var u := WithSecret(cfg, s, inv, snap.uid);
    SecretKeepsRest(cfg, s, h, uid, snap);
    SecretEitherWay(cfg, s, inv, now, uid, t, snap, newer);
    SecuredContinues(cfg, u, h, now, uid, t, snap, newer);
  }

  lemma VerifyingContinues(cfg: Config, s: State, h: nat, now: int, uid: string, t: nat, snap: Sandbox, newer: bool)
    requires ConfigOk(cfg) && Inv(cfg, s) && h in s.hooks && NewUid(s, uid) && Holds(cfg, s, s.hooks[h], snap, newer)
    ensures var inv := s.hooks[h];
            EndsWell(s, inv, Solo(cfg, s, inv.(pc := Verifying(t, snap, newer)), now, uid),
                     DesiredSecret(cfg, inv, snap.uid).name in s.secrets && AfterSecret(cfg, s, inv, t, snap, newer))
  {
    hide Inv, ConfigOk, Solo, NewUid, EndsWell, Secured, VerifySecret, WorkOrderSecret, AfterSecret, Holds,
         RequestsOk, SecretsOk, VersionOk, InPhase, VersionsOk, HasSecret;
    var inv := s.hooks[h];
    SoloStep(cfg, s, inv.(pc := Verifying(t, snap, newer)), now, uid);
    if DesiredSecret(cfg, inv, snap.uid).name in s.secrets {
      assert IsVersion(s, snap) by { HeldIsVersion(cfg, s, inv, snap, newer); }
      SnapPhase(cfg, s, snap);
      ExistingSecretVerifies(cfg, s, h, snap.uid);
      SecuredContinues(cfg, s, h, now, uid, t, snap, newer);
    } else {
      FailedEnds(cfg, s, inv, now, uid, EXIT_RETRYABLE);
    }
  }

  lemma HeldIsVersion(cfg: Config, s: State, inv: Invocation, snap: Sandbox, newer: bool)
    requires Holds(cfg, s, inv, snap, newer)
    ensures IsVersion(s, snap)
  {
  }

  // ---- The cap

  lemma AdmittingNewerContinues(cfg: Config, s: State, h: nat, now: int, uid: string, t: nat, snap: Sandbox)
    requires ConfigOk(cfg) && Inv(cfg, s) && h in s.hooks && NewUid(s, uid) && Holds(cfg, s, s.hooks[h], snap, true)
    ensures var inv := s.hooks[h];
            EndsWell(s, inv, Solo(cfg, s, inv.(pc := AdmittingNewer(t, snap)), now, uid),
                     HasRoom(cfg, s, inv.tmpl.name) && AfterSecret(cfg, s, inv, t, snap, true))
  {
    hide Inv, ConfigOk, Solo, NewUid, EndsWell, AfterSecret, Holds, Holders;
    SoloStep(cfg, s, s.hooks[h].(pc := AdmittingNewer(t, snap)), now, uid);
    if HasRoom(cfg, s, s.hooks[h].tmpl.name) {
      SecuringContinues(cfg, s, h, now, uid, t, snap, true);
    } else {
      FailedEnds(cfg, s, s.hooks[h], now, uid, EXIT_RETRYABLE);
    }
  }

  lemma CreatingContinues(cfg: Config, s: State, h: nat, now: int, uid: string, t: nat)
    requires ConfigOk(cfg) && Inv(cfg, s) && h in s.hooks && NewUid(s, uid)
    ensures var inv := s.hooks[h];
            EndsWell(s, inv, Solo(cfg, s, inv.(pc := Creating(t)), now, uid), AfterRoom(cfg, s, inv, t))
  {
    hide Inv, ConfigOk, Solo, NewUid, Again, Accepts, Created, Classified;
    if s.hooks[h].tmpl.name in s.sandboxes {
      SoloStep(cfg, s, s.hooks[h].(pc := Creating(t)), now, uid);
      RetryEnds(cfg, s, h, now, uid, t);
    } else {
      CreatingExits(cfg, s, h, now, uid, t);
    }
  }

  lemma AdmittingContinues(cfg: Config, s: State, h: nat, now: int, uid: string, t: nat)
    requires ConfigOk(cfg) && Inv(cfg, s) && h in s.hooks && NewUid(s, uid)
    ensures var inv := s.hooks[h];
            EndsWell(s, inv, Solo(cfg, s, inv.(pc := Admitting(t)), now, uid),
                     HasRoom(cfg, s, inv.tmpl.name) && AfterRoom(cfg, s, inv, t))
  {
    hide Inv, ConfigOk, Solo, NewUid, EndsWell, AfterRoom, Holders;
    SoloStep(cfg, s, s.hooks[h].(pc := Admitting(t)), now, uid);
    if HasRoom(cfg, s, s.hooks[h].tmpl.name) {
      CreatingContinues(cfg, s, h, now, uid, t);
    } else {
      FailedEnds(cfg, s, s.hooks[h], now, uid, EXIT_RETRYABLE);
    }
  }

  // ---- From anywhere

  lemma InvHook(cfg: Config, s: State, h: nat)
    requires Inv(cfg, s) && h in s.hooks
    ensures HookOk(cfg, s, s.hooks[h])
  {
    hide RequestsOk, VersionsOk, EveryVersionOk, HistoryOk, SecretsOk, SeenOk, ConditionsOk, PodsOk,
         PodGenerationsOk, HookOk;
  }

  /** In any reachable state, an invocation about to make any of its calls, on a snapshot
      however old, and from then on undisturbed, exits 0 if and only if the store still
      gives it what it needs from there; and then its order is in, or it had no Sandbox to
      write. */
  lemma ContinuingExitsZeroIff(cfg: Config, run: seq<State>, steps: seq<Step>, h: nat, now: int, uid: string)
    requires ConfigOk(cfg) && IsRun(cfg, run, steps) && |run| == |steps| + 1 && NewUid(run[|steps|], uid)
    requires h in run[|steps|].hooks && Active(run[|steps|].hooks[h].pc)
    ensures var s := run[|steps|];
            var inv := s.hooks[h];
            var done := Solo(cfg, s, inv, now, uid);
            && (done.pc.Done? <==> Continues(cfg, s, inv))
            && (Continues(cfg, s, inv) ==> Accepts(done.state, inv) || done.state.versions == s.versions)
  {
    hide IsRun, ConfigOk, Inv, Solo, Welcome, Accepts, NewUid, Evaluate, AfterSecret, AfterRoom, HasRoom, Again,
         Current, Repair, WorkOrderSecret, HasSecret, AcceptedAttempt;
    RunInv(cfg, run, steps, |steps|);
    var s := run[|steps|];
    var inv := s.hooks[h];
    InvHook(cfg, s, h);
    assert inv.(pc := inv.pc) == inv;
    if inv.pc.Reading? {
      ReadingEnds(cfg, s, h, now, uid, inv.pc.tries);
    } else if inv.pc.Admitting? {
      AdmittingContinues(cfg, s, h, now, uid, inv.pc.tries);
    } else if inv.pc.Creating? {
      CreatingContinues(cfg, s, h, now, uid, inv.pc.tries);
    } else if inv.pc.AdmittingNewer? {
      AdmittingNewerContinues(cfg, s, h, now, uid, inv.pc.tries, inv.pc.snap);
    } else if inv.pc.Securing? {
      SecuringContinues(cfg, s, h, now, uid, inv.pc.tries, inv.pc.snap, inv.pc.newer);
    } else if inv.pc.Verifying? {
      VerifyingContinues(cfg, s, h, now, uid, inv.pc.tries, inv.pc.snap, inv.pc.newer);
    } else {
      PatchingContinues(cfg, s, h, now, uid, inv.pc.tries, inv.pc.snap, inv.pc.newer);
    }
  }

  // ---- A Sandbox replaced under its hook

  /** An invocation about to patch a Sandbox whose name another one has taken, with another
      uid, goes round and serves that one exactly when an attempt is left and the request
      is welcome to it. The design has the invocation end here. */
  lemma ReplacedSandboxIsServedIff(cfg: Config, run: seq<State>, steps: seq<Step>, h: nat, now: int, uid: string)
    requires ConfigOk(cfg) && IsRun(cfg, run, steps) && |run| == |steps| + 1 && NewUid(run[|steps|], uid)
    requires h in run[|steps|].hooks && run[|steps|].hooks[h].pc.Patching?
    requires var s, inv := run[|steps|], run[|steps|].hooks[h];
             inv.tmpl.name in s.sandboxes && s.sandboxes[inv.tmpl.name].uid != inv.pc.snap.uid
    ensures var s := run[|steps|];
            var inv := s.hooks[h];
            var there, done := s.sandboxes[inv.tmpl.name], Solo(cfg, s, inv, now, uid);
            && (done.pc.Done? <==> Again(cfg, s, inv, inv.pc.tries))
            && (done.pc.Done? ==>
                  if Evaluate(cfg, there, inv.req) == Superseded then done.state == s
                  else Accepts(done.state, inv) && done.state.sandboxes[inv.tmpl.name].uid == there.uid)
  {
    hide IsRun, ConfigOk, Inv, Solo, Welcome, Accepts, NewUid, Evaluate, Mutated, Repair, HasSecret, Protocol.Patch;
    RunInv(cfg, run, steps, |steps|);
    var s := run[|steps|];
    var inv := s.hooks[h];
    InvHook(cfg, s, h);
    SoloStep(cfg, s, inv, now, uid);
    if inv.pc.tries + 1 < cfg.maxAttempts {
      FoundExits(cfg, s, h, now, uid, inv.pc.tries + 1);
    } else {
      SoloEnds(cfg, s, inv.(pc := Failed(EXIT_RETRYABLE)), now, uid, now, uid);
    }
  }

  /** Delivered again, an invocation whose snapshot has gone stale comes to the same exit
      as going on, as long as it has an attempt left. */
  lemma StaleIsRedelivered(cfg: Config, run: seq<State>, steps: seq<Step>, h: nat, now: int, uid: string)
    requires ConfigOk(cfg) && IsRun(cfg, run, steps) && |run| == |steps| + 1 && NewUid(run[|steps|], uid)
    requires h in run[|steps|].hooks && run[|steps|].hooks[h].pc.Patching?
    requires !Current(run[|steps|], run[|steps|].hooks[h].pc.snap) &&
             run[|steps|].hooks[h].pc.tries + 1 < cfg.maxAttempts
    ensures var s := run[|steps|];
            Solo(cfg, s, s.hooks[h], now, uid).pc.Done? <==> Solo(cfg, s, Fresh(s.hooks[h]), now, uid).pc.Done?
  {
    hide IsRun, ConfigOk, Solo, Welcome, Accepts, NewUid, Evaluate, Current, Holders;
    ContinuingExitsZeroIff(cfg, run, steps, h, now, uid);
    ExitsZeroIffWelcome(cfg, run, steps, h, now, uid, 0);
  }
}
