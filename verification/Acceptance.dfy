/** What one undisturbed invocation achieves: exactly when it exits 0, and what the store
    then holds. Safety alone would be met by a hook that always refuses. */
module Acceptance {
  import opened Api
  import opened Hook
  import opened Protocol
  import opened Invariants
  import opened Preservation
  import opened Writes
  import opened HookSteps
  import opened Safety
  import opened Agreement
  import opened Recovery
  import opened Runs
  import Template

  /** The request can be served: its Sandbox does not refuse it, or can be created; and
      taking a slot, if it takes one, is within the cap. */
  predicate Welcome(cfg: Config, s: State, inv: Invocation) {
    var name := inv.tmpl.name;
    if name in s.sandboxes then
      !Evaluate(cfg, s.sandboxes[name], inv.req).Refuse? &&
      (Evaluate(cfg, s.sandboxes[name], inv.req) == Newer ==> Room(cfg, s, s.sandboxes[name]))
    else
      Get(inv.tmpl.labels, PartOfLabel) == PART_OF &&
      (cfg.maxActiveSessions <= 0 || |Holders(s.sandboxes) - {name}| < cfg.maxActiveSessions)
  }

  /** The accepted order is the request's, prepared or past that. */
  predicate Accepts(t: State, inv: Invocation) {
    inv.tmpl.name in t.sandboxes &&
    var w := t.sandboxes[inv.tmpl.name];
    w.Annotation(LastOrderId) == inv.req.order && !Unprepared(w)
  }

  lemma SecretWillStand(cfg: Config, s: State, h: nat, uid: string)
    requires ConfigOk(cfg) && Inv(cfg, s) && h in s.hooks
    ensures SecretStands(cfg, WithSecret(cfg, s, s.hooks[h], uid), s.hooks[h], uid)
  {
    hide EveryVersionOk, VersionsOk, HistoryOk, SeenOk, ConditionsOk, PodsOk, PodGenerationsOk, HooksOk, ConfigOk,
         VerifySecret, WorkOrderSecret, HasSecret, RequestsOk, SecretsOk;
    var desired := DesiredSecret(cfg, s.hooks[h], uid);
    if desired.name in s.secrets {
      ExistingSecretVerifies(cfg, s, h, uid);
    } else {
      DesiredVerifies(cfg, s.hooks[h], uid);
    }
  }

  /** The invocation ends well: exit 0, its order in, on the Sandbox of that uid. */
  ghost predicate Serves(inv: Invocation, uid: string, done: Reply) {
    done.pc.Done? && Accepts(done.state, inv) && done.state.sandboxes[inv.tmpl.name].uid == uid
  }

  /** From the point where the order's Secret is due, nothing can go wrong. */
  lemma SecuringSucceeds(cfg: Config, s: State, h: nat, now: int, uid: string, t: nat, newer: bool)
    requires ConfigOk(cfg) && Inv(cfg, s) && h in s.hooks && s.hooks[h].tmpl.name in s.sandboxes
    requires Evaluate(cfg, s.sandboxes[s.hooks[h].tmpl.name], s.hooks[h].req) == if newer then Newer else Redelivery
    ensures var inv := s.hooks[h];
            var snap := s.sandboxes[inv.tmpl.name];
            Serves(inv, snap.uid, Solo(cfg, s, inv.(pc := Securing(t, snap, newer)), now, uid))
  {
    hide Inv, ConfigOk, Solo, Evaluate, Serves, Secured, SecretStands;
    var inv := s.hooks[h];
    var snap := s.sandboxes[inv.tmpl.name];
    SecretWillStand(cfg, s, h, snap.uid);
    SecretEitherWay(cfg, s, inv, now, uid, t, snap, newer);
    LiveAndValid(cfg, s, h);
    if newer {
      PublishingSucceeds(cfg, WithSecret(cfg, s, inv, snap.uid), inv, now, uid, t, snap);
    } else {
      RepairingSucceeds(cfg, s, h, now, uid, t, snap);
    }
  }

  lemma PublishingSucceeds(cfg: Config, u: State, inv: Invocation, now: int, uid: string, t: nat, snap: Sandbox)
    requires ConfigOk(cfg) && ValidRequest(inv.req)
    requires snap.name == inv.tmpl.name && inv.tmpl.name in u.sandboxes && u.sandboxes[inv.tmpl.name] == snap
    ensures Serves(inv, snap.uid, Solo(cfg, u, inv.(pc := Secured(cfg, inv.req, t, snap, true)), now, uid))
  {
    hide Solo, Publish, ConfigOk, AcceptedAttempt;
    NameNotEmpty(cfg, inv.req.session, snap.uid, inv.req.order);
    PublishedOrder(cfg, snap, inv.tmpl, inv.req, now, cfg.names.secret(inv.req.session, snap.uid, inv.req.order));
    PatchingEnds(cfg, u, inv.(pc := Patching(t, snap, true)), now, uid);
  }

  lemma RepairingSucceeds(cfg: Config, s: State, h: nat, now: int, uid: string, t: nat, snap: Sandbox)
    requires ConfigOk(cfg) && RequestsOk(cfg, s) && h in s.hooks && VersionOk(cfg, s, snap) && InPhase(snap)
    requires var inv := s.hooks[h];
             && snap.name == inv.tmpl.name && inv.tmpl.name in s.sandboxes && s.sandboxes[inv.tmpl.name] == snap
             && Evaluate(cfg, snap, inv.req) == Redelivery
    ensures var inv := s.hooks[h];
            Serves(inv, snap.uid,
                   Solo(cfg, WithSecret(cfg, s, inv, snap.uid), inv.(pc := Secured(cfg, inv.req, t, snap, false)),
                        now, uid))
  {
    hide Solo, Repair, ConfigOk, RequestsOk, VersionOk, InPhase, Evaluate, WorkOrderSecret;
    var inv := s.hooks[h];
    var u, name := WithSecret(cfg, s, inv, snap.uid), cfg.names.secret(inv.req.session, snap.uid, inv.req.order);
    NameNotEmpty(cfg, inv.req.session, snap.uid, inv.req.order);
    RepairNeverMismatches(cfg, s, snap, h);
    OrderTells(cfg, snap, inv.req);
    if Repair(snap, inv.req, name).Repaired? {
      RepairedOrder(snap, inv.req, name);
      PatchingEnds(cfg, u, inv.(pc := Patching(t, snap, false)), now, uid);
    } else {
      CompleteIsPrepared(cfg, s, snap, inv.req);
      SoloEnds(cfg, u, inv.(pc := Done(snap.rv)), now, uid, now, uid);
    }
  }

  lemma LiveAndValid(cfg: Config, s: State, h: nat)
    requires Inv(cfg, s) && h in s.hooks && s.hooks[h].tmpl.name in s.sandboxes
    ensures var snap := s.sandboxes[s.hooks[h].tmpl.name];
            && snap.name == s.hooks[h].tmpl.name && VersionOk(cfg, s, snap) && InPhase(snap) && LiveIn(s, snap)
    ensures RequestsOk(cfg, s) && ValidRequest(s.hooks[h].req)
  {
    hide HistoryOk, SecretsOk, SeenOk, ConditionsOk, PodsOk, PodGenerationsOk, HooksOk, VersionOk, InPhase,
         Contracted, SameOrder;
    var snap := s.sandboxes[s.hooks[h].tmpl.name];
    assert IsVersion(s, snap);
    LiveVersionOk(cfg, s, snap);
    PhaseOf(cfg, s, snap);
  }

  /** A patch on the live version commits. */
  lemma PatchingEnds(cfg: Config, t: State, inv: Invocation, now: int, uid: string)
    requires inv.pc.Patching? && inv.tmpl.name in t.sandboxes && t.sandboxes[inv.tmpl.name] == inv.pc.snap
    requires inv.pc.snap.name == inv.tmpl.name
    ensures var done := Solo(cfg, t, inv, now, uid);
            && done.pc.Done? && inv.tmpl.name in done.state.sandboxes
            && done.state.sandboxes[inv.tmpl.name].annotations == Mutated(cfg, inv, now).annotations
            && done.state.sandboxes[inv.tmpl.name].spec == Mutated(cfg, inv, now).spec
            && done.state.sandboxes[inv.tmpl.name].uid == inv.pc.snap.uid
  {
    hide Solo, Mutated;
    MutatedIdentity(cfg, inv, now);
    SoloStep(cfg, t, inv, now, uid);
    SoloEnds(cfg, Call(cfg, t, inv, now, uid).state, inv.(pc := Done(|t.versions|)), now, uid, now, uid);
  }

  lemma FoundExits(cfg: Config, s: State, h: nat, now: int, uid: string, t: nat)
    requires ConfigOk(cfg) && Inv(cfg, s) && h in s.hooks && s.hooks[h].tmpl.name in s.sandboxes
    ensures var inv := s.hooks[h];
            var snap, done := s.sandboxes[inv.tmpl.name], Solo(cfg, s, inv.(pc := Reading(t)), now, uid);
            && (done.pc.Done? <==> Welcome(cfg, s, inv))
            && (Welcome(cfg, s, inv) ==>
                  if Evaluate(cfg, snap, inv.req) == Superseded then done.state == s else Serves(inv, snap.uid, done))
  {
    hide Inv, ConfigOk, Solo, Evaluate, Accepts, Room;
    var inv := s.hooks[h];
    var snap := s.sandboxes[inv.tmpl.name];
    SoloStep(cfg, s, inv.(pc := Reading(t)), now, uid);
    match Evaluate(cfg, snap, inv.req) {
      case Refuse(code) => SoloEnds(cfg, s, inv.(pc := Failed(code)), now, uid, now, uid);
      case Superseded => SoloEnds(cfg, s, inv.(pc := Done(snap.rv)), now, uid, now, uid);
      case Redelivery => SecuringSucceeds(cfg, s, h, now, uid, t, false);
      case Newer => NewerExits(cfg, s, h, now, uid, t);
    }
  }

  lemma NewerExits(cfg: Config, s: State, h: nat, now: int, uid: string, t: nat)
    requires ConfigOk(cfg) && Inv(cfg, s) && h in s.hooks && s.hooks[h].tmpl.name in s.sandboxes
    requires Evaluate(cfg, s.sandboxes[s.hooks[h].tmpl.name], s.hooks[h].req) == Newer
    ensures var inv := s.hooks[h];
            var snap := s.sandboxes[inv.tmpl.name];
            var done := Solo(cfg, s, inv.(pc := Classified(cfg, inv.req, t, snap)), now, uid);
            if Room(cfg, s, snap) then Serves(inv, snap.uid, done) else !done.pc.Done?
  {
    hide Inv, ConfigOk, Solo, Evaluate, Serves, Room, Classified;
    var inv := s.hooks[h];
    LiveAndValid(cfg, s, h);
    RoomDecides(cfg, s, inv, s.sandboxes[inv.tmpl.name], now, uid, t);
    SecuringSucceeds(cfg, s, h, now, uid, t, true);
  }

  lemma RoomDecides(cfg: Config, s: State, inv: Invocation, snap: Sandbox, now: int, uid: string, t: nat)
    requires Evaluate(cfg, snap, inv.req) == Newer && snap.name == inv.tmpl.name
    ensures Solo(cfg, s, inv.(pc := Classified(cfg, inv.req, t, snap)), now, uid) ==
            if Room(cfg, s, snap) then Solo(cfg, s, inv.(pc := Securing(t, snap, true)), now, uid)
            else Reply(s, Failed(EXIT_RETRYABLE))
  {
    hide Solo, Evaluate, HoldsSlot, Holders;
    if cfg.maxActiveSessions > 0 && !HoldsSlot(snap) {
      SoloStep(cfg, s, inv.(pc := AdmittingNewer(t, snap)), now, uid);
      SoloEnds(cfg, s, inv.(pc := Failed(EXIT_RETRYABLE)), now, uid, now, uid);
    }
  }

  lemma CreatedExits(cfg: Config, s: State, h: nat, now: int, uid: string, t: nat)
    requires ConfigOk(cfg) && Inv(cfg, s) && h in s.hooks && s.hooks[h].tmpl.name !in s.sandboxes
    requires NewUid(s, uid)
    ensures var inv := s.hooks[h];
            var done := Solo(cfg, s, inv.(pc := Reading(t)), now, uid);
            && (done.pc.Done? <==> Welcome(cfg, s, inv))
            && (Welcome(cfg, s, inv) ==> Serves(inv, uid, done))
  {
    hide Inv, ConfigOk, Solo, Accepts, Holders, Created, Classified, Evaluate, NewUid;
    var inv := s.hooks[h];
    SoloStep(cfg, s, inv.(pc := Reading(t)), now, uid);
    if cfg.maxActiveSessions > 0 {
      SoloStep(cfg, s, inv.(pc := Admitting(t)), now, uid);
    }
    if cfg.maxActiveSessions <= 0 || |Holders(s.sandboxes) - {inv.tmpl.name}| < cfg.maxActiveSessions {
      CreatingExits(cfg, s, h, now, uid, t);
    } else {
      SoloEnds(cfg, s, inv.(pc := Failed(EXIT_RETRYABLE)), now, uid, now, uid);
    }
  }

  lemma CreatingExits(cfg: Config, s: State, h: nat, now: int, uid: string, t: nat)
    requires ConfigOk(cfg) && Inv(cfg, s) && h in s.hooks && s.hooks[h].tmpl.name !in s.sandboxes && NewUid(s, uid)
    ensures var inv := s.hooks[h];
            var done := Solo(cfg, s, inv.(pc := Creating(t)), now, uid);
            if Get(inv.tmpl.labels, PartOfLabel) == PART_OF then Serves(inv, uid, done) else !done.pc.Done?
  {
    hide Inv, ConfigOk, Solo, Serves, Created, Classified, Evaluate, NewUid, Put;
    var inv := s.hooks[h];
    CreatedIgnoresPc(cfg, inv, Creating(t), now, uid, |s.versions|);
    var sb := Created(cfg, inv, now, uid, |s.versions|);
    var u := Put(s, sb);
    CreatedIsAccepted(cfg, inv, now, uid, |s.versions|);
    CreatedIdentity(cfg, inv, now, uid, |s.versions|);
    SoloStep(cfg, s, inv.(pc := Creating(t)), now, uid);
    InvRequests(cfg, s, h);
    Template.ForeignPartOfIsRefused(cfg, inv, now, uid, |s.versions|, t);
    if Get(inv.tmpl.labels, PartOfLabel) == PART_OF {
      PutCreatedKeepsInv(cfg, s, h, now, uid);
      SecuringSucceeds(cfg, u, h, now, uid, t, false);
    } else {
      SoloEnds(cfg, u, inv.(pc := Failed(EXIT_NON_RETRYABLE)), now, uid, now, uid);
    }
  }

  lemma CreatedIgnoresPc(cfg: Config, inv: Invocation, pc: Pc, now: int, uid: string, rv: nat)
    ensures Created(cfg, inv.(pc := pc), now, uid, rv) == Created(cfg, inv, now, uid, rv)
  {
  }

  lemma PutCreatedKeepsInv(cfg: Config, s: State, h: nat, now: int, uid: string)
    requires Inv(cfg, s) && h in s.hooks && s.hooks[h].tmpl.name !in s.sandboxes && NewUid(s, uid)
    ensures var sb := Created(cfg, s.hooks[h], now, uid, |s.versions|);
            var t := Put(s, sb);
            && Inv(cfg, t) && t.hooks == s.hooks && sb.name in t.sandboxes && t.sandboxes[sb.name] == sb
    ensures Get(s.hooks[h].tmpl.labels, PartOfLabel) == PART_OF ==>
              Evaluate(cfg, Created(cfg, s.hooks[h], now, uid, |s.versions|), s.hooks[h].req) == Redelivery
  {
    hide Inv, Created, VersionOk, Contracted, ValidRequest, Evaluate, ParseAttempt;
    var inv := s.hooks[h];
    InvRequests(cfg, s, h);
    CreatedContent(cfg, s, h, now, uid);
    CreatedIdentity(cfg, inv, now, uid, |s.versions|);
    CreateKeepsInv(cfg, s, Created(cfg, inv, now, uid, |s.versions|));
    Template.ForeignPartOfIsRefused(cfg, inv, now, uid, |s.versions|, 0);
  }

  /** In any reachable state, and whatever the invocation had done before, about to read
      its Sandbox and then left undisturbed it exits 0 if and only if its request is
      welcome. Unless a higher attempt was accepted before, its order is then the accepted
      one, with its Secret published, on the Sandbox that was there or on the new one; a
      superseded request changes nothing. With t == 0 this is the redelivery of an
      invocation that stopped anywhere, after any interference. */
  lemma ExitsZeroIffWelcome(cfg: Config, run: seq<State>, steps: seq<Step>, h: nat, now: int, uid: string, t: nat)
    requires ConfigOk(cfg) && IsRun(cfg, run, steps) && |run| == |steps| + 1
    requires h in run[|steps|].hooks && NewUid(run[|steps|], uid)
    ensures var s := run[|steps|];
            var inv := s.hooks[h];
            var name, done := inv.tmpl.name, Solo(cfg, s, inv.(pc := Reading(t)), now, uid);
            && (done.pc.Done? <==> Welcome(cfg, s, inv))
            && (Welcome(cfg, s, inv) ==>
                  if name in s.sandboxes && Evaluate(cfg, s.sandboxes[name], inv.req) == Superseded then done.state == s
                  else Accepts(done.state, inv) &&
                       done.state.sandboxes[name].uid == if name in s.sandboxes then s.sandboxes[name].uid else uid)
  {
    hide IsRun, ConfigOk, Inv, Solo, Welcome, Accepts, NewUid, Evaluate;
    RunInv(cfg, run, steps, |steps|);
    if run[|steps|].hooks[h].tmpl.name in run[|steps|].sandboxes {
      FoundExits(cfg, run[|steps|], h, now, uid, t);
    } else {
      CreatedExits(cfg, run[|steps|], h, now, uid, t);
    }
  }

  // ---- And otherwise?

  lemma FoundFails(cfg: Config, s: State, h: nat, now: int, uid: string, t: nat)
    requires ConfigOk(cfg) && Inv(cfg, s) && h in s.hooks && s.hooks[h].tmpl.name in s.sandboxes
    requires !Welcome(cfg, s, s.hooks[h])
    ensures var inv := s.hooks[h];
            var there := s.sandboxes[inv.tmpl.name];
            Solo(cfg, s, inv.(pc := Reading(t)), now, uid) ==
            Reply(s, Failed(if there.deleting || Evaluate(cfg, there, inv.req) == Newer then 1 else 2))
  {
    hide Inv, ConfigOk, Solo, Evaluate, Room;
    var inv := s.hooks[h];
    var there := s.sandboxes[inv.tmpl.name];
    SoloStep(cfg, s, inv.(pc := Reading(t)), now, uid);
    if Evaluate(cfg, there, inv.req) == Newer {
      LiveAndValid(cfg, s, h);
      RoomDecides(cfg, s, inv, there, now, uid, t);
    } else {
      var code := Evaluate(cfg, there, inv.req).code;
      RefusalIs(cfg, there, inv.req);
      SoloEnds(cfg, s, inv.(pc := Failed(code)), now, uid, now, uid);
    }
  }

  lemma RefusalIs(cfg: Config, sb: Sandbox, req: Request)
    ensures Evaluate(cfg, sb, req).Refuse? ==> Evaluate(cfg, sb, req).code == if sb.deleting then 1 else 2
  {
  }

  lemma NewFails(cfg: Config, s: State, h: nat, now: int, uid: string, t: nat)
    requires ConfigOk(cfg) && Inv(cfg, s) && h in s.hooks && s.hooks[h].tmpl.name !in s.sandboxes
    requires NewUid(s, uid) && !Welcome(cfg, s, s.hooks[h])
    ensures var inv := s.hooks[h];
            Solo(cfg, s, inv.(pc := Reading(t)), now, uid).pc ==
            Failed(if cfg.maxActiveSessions > 0 &&
                      |Holders(s.sandboxes) - {inv.tmpl.name}| >= cfg.maxActiveSessions then 1 else 2)
  {
    hide Inv, ConfigOk, Solo, Holders, Created, Classified, Evaluate, NewUid;
    var inv := s.hooks[h];
    SoloStep(cfg, s, inv.(pc := Reading(t)), now, uid);
    if cfg.maxActiveSessions > 0 {
      SoloStep(cfg, s, inv.(pc := Admitting(t)), now, uid);
    }
    if cfg.maxActiveSessions <= 0 || |Holders(s.sandboxes) - {inv.tmpl.name}| < cfg.maxActiveSessions {
      var sb := Created(cfg, inv, now, uid, |s.versions|);
      CreatedIgnoresPc(cfg, inv, Creating(t), now, uid, |s.versions|);
      SoloStep(cfg, s, inv.(pc := Creating(t)), now, uid);
      InvRequests(cfg, s, h);
      Template.ForeignPartOfIsRefused(cfg, inv, now, uid, |s.versions|, t);
      SoloEnds(cfg, Put(s, sb), inv.(pc := Failed(EXIT_NON_RETRYABLE)), now, uid, now, uid);
    } else {
      SoloEnds(cfg, s, inv.(pc := Failed(EXIT_RETRYABLE)), now, uid, now, uid);
    }
  }

  /** An unwelcome request exits 1 if waiting may help, on a Sandbox being deleted or a cap
      that is full, and 2 if not. */
  lemma ExitCodeIs(cfg: Config, run: seq<State>, steps: seq<Step>, h: nat, now: int, uid: string, t: nat)
    requires ConfigOk(cfg) && IsRun(cfg, run, steps) && |run| == |steps| + 1
    requires h in run[|steps|].hooks && NewUid(run[|steps|], uid) && !Welcome(cfg, run[|steps|], run[|steps|].hooks[h])
    ensures var s := run[|steps|];
            var inv := s.hooks[h];
            var name, done := inv.tmpl.name, Solo(cfg, s, inv.(pc := Reading(t)), now, uid);
            if name in s.sandboxes
            then done == Reply(s, Failed(if s.sandboxes[name].deleting ||
                                            Evaluate(cfg, s.sandboxes[name], inv.req) == Newer then 1 else 2))
            else done.pc == Failed(if cfg.maxActiveSessions > 0 &&
                                      |Holders(s.sandboxes) - {name}| >= cfg.maxActiveSessions then 1 else 2)
  {
    hide IsRun, ConfigOk, Inv, Solo, Welcome, NewUid, Evaluate, Holders;
    RunInv(cfg, run, steps, |steps|);
    if run[|steps|].hooks[h].tmpl.name in run[|steps|].sandboxes {
      FoundFails(cfg, run[|steps|], h, now, uid, t);
    } else {
      NewFails(cfg, run[|steps|], h, now, uid, t);
    }
  }
}
