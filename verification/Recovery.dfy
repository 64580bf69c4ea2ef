/** Crash recovery: an invocation that dies between any two API calls and is delivered
    again leaves the store an uninterrupted one would have left. */
module Recovery {
  import opened Api
  import opened Decimal
  import opened Hook
  import opened Protocol
  import opened Invariants
  import opened Runs
  import opened Writes

  /** How far an invocation is from its end, attempts first. */
  function AttemptsLeft(cfg: Config, pc: Pc): nat {
    if !Active(pc) then 0 else if pc.tries < cfg.maxAttempts then cfg.maxAttempts - pc.tries else 0
  }

  function CallsLeft(pc: Pc): nat {
    match pc
    case Reading(_) => 7
    case Admitting(_) => 6
    case Creating(_) => 5
    case AdmittingNewer(_, _) => 4
    case Securing(_, _, _) => 3
    case Verifying(_, _, _) => 2
    case Patching(_, _, _) => 1
    case _ => 0
  }

  /** An invocation run to its end with nobody else taking a step. */
  function Solo(cfg: Config, s: State, inv: Invocation, now: int, uid: string): Reply
    decreases AttemptsLeft(cfg, inv.pc), CallsLeft(inv.pc)
  {
    if !Active(inv.pc) then Reply(s, inv.pc)
    else
      CallEndsSooner(cfg, s, inv, now, uid);
      var reply := Call(cfg, s, inv, now, uid);
      Solo(cfg, reply.state, inv.(pc := reply.pc), now, uid)
  }

  lemma CallEndsSooner(cfg: Config, s: State, inv: Invocation, now: int, uid: string)
    requires Active(inv.pc)
    ensures var pc := Call(cfg, s, inv, now, uid).pc;
            AttemptsLeft(cfg, pc) < AttemptsLeft(cfg, inv.pc) ||
            (AttemptsLeft(cfg, pc) == AttemptsLeft(cfg, inv.pc) && CallsLeft(pc) < CallsLeft(inv.pc))
  {
    hide Evaluate, VerifySecret, Repair, Mutated, Created, DesiredSecret, HoldsSlot, Holders, Patch, Put, Classified,
         Secured;
    var t := inv.pc.tries;
    if inv.pc.Reading? && inv.tmpl.name in s.sandboxes {
      ClassifiedIsSooner(cfg, inv.req, t, s.sandboxes[inv.tmpl.name]);
    } else if inv.pc.Creating? {
      ClassifiedIsSooner(cfg, inv.req, t, Created(cfg, inv, now, uid, |s.versions|));
    } else if inv.pc.Securing? || inv.pc.Verifying? {
      SecuredIsSooner(cfg, inv.req, t, inv.pc.snap, inv.pc.newer);
    }
  }

  lemma ClassifiedIsSooner(cfg: Config, req: Request, t: nat, sb: Sandbox)
    ensures var pc := Classified(cfg, req, t, sb); CallsLeft(pc) <= 4 && (Active(pc) ==> pc.tries == t)
  {
    hide Evaluate, HoldsSlot;
  }

  lemma SecuredIsSooner(cfg: Config, req: Request, t: nat, sb: Sandbox, newer: bool)
    ensures var pc := Secured(cfg, req, t, sb, newer); CallsLeft(pc) <= 1 && (Active(pc) ==> pc.tries == t)
  {
    hide Repair;
  }

  /** The same, stopped after k calls: where a crash leaves it. */
  function After(cfg: Config, s: State, inv: Invocation, now: int, uid: string, k: nat): Reply
    decreases k
  {
    if k == 0 || !Active(inv.pc) then Reply(s, inv.pc)
    else
      var reply := Call(cfg, s, inv, now, uid);
      After(cfg, reply.state, inv.(pc := reply.pc), now, uid, k - 1)
  }

  // ---- Where an undisturbed invocation stands

  predicate Tidy(s: State, name: string) {
    name in s.sandboxes ==> s.sandboxes[name].name == name
  }

  predicate HasAccepted(s: State, inv: Invocation) {
    inv.tmpl.name in s.sandboxes && s.sandboxes[inv.tmpl.name].Annotation(LastOrderId) == inv.req.order
  }

  predicate Room(cfg: Config, s: State, snap: Sandbox) {
    cfg.maxActiveSessions <= 0 || HoldsSlot(snap) || |Holders(s.sandboxes) - {snap.name}| < cfg.maxActiveSessions
  }

  predicate AtHand(s: State, inv: Invocation, t: nat, snap: Sandbox) {
    t == 0 && inv.tmpl.name in s.sandboxes && s.sandboxes[inv.tmpl.name] == snap
  }

  /** What holds between the calls of an undisturbed invocation: it works from the live
      Sandbox, on its first attempt. */
  predicate OnPath(cfg: Config, s: State, inv: Invocation) {
    && Tidy(s, inv.tmpl.name)
    && match inv.pc
       case Reading(t) => t == 0
       case Admitting(t) => t == 0 && inv.tmpl.name !in s.sandboxes
       case Creating(t) => t == 0 && inv.tmpl.name !in s.sandboxes
       case AdmittingNewer(t, snap) => AtHand(s, inv, t, snap) && Evaluate(cfg, snap, inv.req) == Newer
       case Securing(t, snap, newer) =>
         AtHand(s, inv, t, snap) && Evaluate(cfg, snap, inv.req) == (if newer then Newer else Redelivery) &&
         (newer ==> Room(cfg, s, snap))
       case Verifying(t, snap, newer) =>
         AtHand(s, inv, t, snap) && Evaluate(cfg, snap, inv.req) == (if newer then Newer else Redelivery) &&
         (newer ==> Room(cfg, s, snap))
       case Patching(t, snap, newer) =>
         && AtHand(s, inv, t, snap) && Evaluate(cfg, snap, inv.req) == (if newer then Newer else Redelivery)
         && SecretStands(cfg, s, inv, snap.uid)
         && (!newer ==> Repair(snap, inv.req, cfg.names.secret(inv.req.session, snap.uid, inv.req.order)).Repaired?)
       case Done(at) =>
         HasAccepted(s, inv) ||
         (inv.tmpl.name in s.sandboxes && Evaluate(cfg, s.sandboxes[inv.tmpl.name], inv.req) == Superseded &&
          at == s.sandboxes[inv.tmpl.name].rv)
       case _ => true
  }

  function Fresh(inv: Invocation): Invocation {
    inv.(pc := Reading(0))
  }

  ghost predicate StaysOnPath(cfg: Config, s: State, inv: Invocation, now: int, uid: string)
    requires Active(inv.pc)
  {
    var reply := Call(cfg, s, inv, now, uid); OnPath(cfg, reply.state, inv.(pc := reply.pc))
  }

  lemma CallStaysOnPath(cfg: Config, s: State, inv: Invocation, now: int, uid: string)
    requires OnPath(cfg, s, inv) && Active(inv.pc) && ValidRequest(inv.req)
    ensures StaysOnPath(cfg, s, inv, now, uid)
  {
    hide OnPath, StaysOnPath;
    match inv.pc {
      case Creating(_) => CreatingStays(cfg, s, inv, now, uid);
      case Patching(_, _, _) => PatchingStays(cfg, s, inv, now, uid);
      case Securing(_, _, _) => SecuringStays(cfg, s, inv, now, uid);
      case Verifying(_, _, _) => SecuringStays(cfg, s, inv, now, uid);
      case _ => ReadingStays(cfg, s, inv, now, uid);
    }
  }

  lemma CreatingStays(cfg: Config, s: State, inv: Invocation, now: int, uid: string)
    requires OnPath(cfg, s, inv) && inv.pc.Creating?
    ensures StaysOnPath(cfg, s, inv, now, uid)
  {
    hide Evaluate, Created, HoldsSlot, Holders, SecretStands;
    CreatedIsAccepted(cfg, inv, now, uid, |s.versions|);
  }

  lemma PatchingStays(cfg: Config, s: State, inv: Invocation, now: int, uid: string)
    requires OnPath(cfg, s, inv) && inv.pc.Patching? && ValidRequest(inv.req)
    ensures StaysOnPath(cfg, s, inv, now, uid)
  {
    hide Evaluate, Mutated, HoldsSlot, Holders, SecretStands, Repair;
    MutatedIsAccepted(cfg, inv, now);
  }

  lemma SecuringStays(cfg: Config, s: State, inv: Invocation, now: int, uid: string)
    requires OnPath(cfg, s, inv) && (inv.pc.Securing? || inv.pc.Verifying?)
    ensures StaysOnPath(cfg, s, inv, now, uid)
  {
    hide Evaluate, VerifySecret, HoldsSlot, Holders, WorkOrderSecret, Secured;
    var snap := inv.pc.snap;
    DesiredVerifies(cfg, inv, snap.uid);
    var reply := Call(cfg, s, inv, now, uid);
    if reply.pc == Secured(cfg, inv.req, 0, snap, inv.pc.newer) && SecretStands(cfg, reply.state, inv, snap.uid) {
      SecuredIsOnPath(cfg, reply.state, inv, snap, inv.pc.newer);
    }
  }

  lemma SecuredIsOnPath(cfg: Config, s: State, inv: Invocation, snap: Sandbox, newer: bool)
    requires Tidy(s, inv.tmpl.name) && AtHand(s, inv, 0, snap) && SecretStands(cfg, s, inv, snap.uid)
    requires Evaluate(cfg, snap, inv.req) == if newer then Newer else Redelivery
    ensures OnPath(cfg, s, inv.(pc := Secured(cfg, inv.req, 0, snap, newer)))
  {
    hide Evaluate, VerifySecret, Repair, WorkOrderSecret;
    OrderTells(cfg, snap, inv.req);
  }

  lemma ReadingStays(cfg: Config, s: State, inv: Invocation, now: int, uid: string)
    requires OnPath(cfg, s, inv) && (inv.pc.Reading? || inv.pc.Admitting? || inv.pc.AdmittingNewer?)
    ensures StaysOnPath(cfg, s, inv, now, uid)
  {
    hide Evaluate, Repair, HoldsSlot, Holders, SecretStands;
  }

  lemma DesiredVerifies(cfg: Config, inv: Invocation, uid: string)
    ensures var desired := DesiredSecret(cfg, inv, uid); VerifySecret(desired, desired)
  {
    hide FormatInt;
  }

  /** A created Sandbox carries the request's order, so its creator never finds it newer
      or superseded. */
  lemma CreatedIsAccepted(cfg: Config, inv: Invocation, now: int, uid: string, rv: nat)
    ensures var sb := Created(cfg, inv, now, uid, rv);
            && sb.name == inv.tmpl.name && sb.Annotation(LastOrderId) == inv.req.order && sb.rv == rv
            && (Evaluate(cfg, sb, inv.req) == Redelivery || Evaluate(cfg, sb, inv.req).Refuse?)
  {
    hide FormatInt, ParseAttempt;
  }

  /** What a Patching invocation writes has the order accepted and its pointers complete,
      so the same order finds nothing left to do. */
  lemma MutatedIsAccepted(cfg: Config, inv: Invocation, now: int)
    requires inv.pc.Patching? && ValidRequest(inv.req)
    requires Evaluate(cfg, inv.pc.snap, inv.req) == if inv.pc.newer then Newer else Redelivery
    ensures var mut := Mutated(cfg, inv, now);
            mut.name == inv.pc.snap.name && mut.Annotation(LastOrderId) == inv.req.order
  {
    hide FormatInt, RefreshTemplate, ParseAttempt;
  }

  // ---- Starting over

  lemma SoloStep(cfg: Config, s: State, inv: Invocation, now: int, uid: string)
    requires Active(inv.pc)
    ensures var reply := Call(cfg, s, inv, now, uid);
            Solo(cfg, s, inv, now, uid) == Solo(cfg, reply.state, inv.(pc := reply.pc), now, uid)
  {
    hide Call;
  }

  /** Reading the Sandbox again leads back to where the invocation stands. */
  lemma ReadAgain(cfg: Config, s: State, inv: Invocation, now: int, uid: string, newer: bool)
    requires ValidRequest(inv.req) && Tidy(s, inv.tmpl.name) && inv.tmpl.name in s.sandboxes
    requires var snap := s.sandboxes[inv.tmpl.name];
             Evaluate(cfg, snap, inv.req) == (if newer then Newer else Redelivery) && (newer ==> Room(cfg, s, snap))
    ensures Solo(cfg, s, Fresh(inv), now, uid) ==
            Solo(cfg, s, inv.(pc := Securing(0, s.sandboxes[inv.tmpl.name], newer)), now, uid)
  {
    hide Evaluate, HoldsSlot, Holders, Solo;
    var snap := s.sandboxes[inv.tmpl.name];
    SoloStep(cfg, s, Fresh(inv), now, uid);
    if newer && !(cfg.maxActiveSessions <= 0 || HoldsSlot(snap)) {
      SoloStep(cfg, s, inv.(pc := AdmittingNewer(0, snap)), now, uid);
    }
  }

  /** The store with the order's Secret in it. */
  function WithSecret(cfg: Config, s: State, inv: Invocation, uid: string): State {
    var desired := DesiredSecret(cfg, inv, uid);
    if desired.name in s.secrets then s
    else s.(secrets := s.secrets[desired.name := desired], secretsEver := s.secretsEver + {desired})
  }

  /** Whether the Secret is created now or found, the invocation goes on alike. */
  lemma SecretEitherWay(cfg: Config, s: State, inv: Invocation, now: int, uid: string, t: nat, snap: Sandbox,
                        newer: bool)
    requires SecretStands(cfg, WithSecret(cfg, s, inv, snap.uid), inv, snap.uid)
    ensures Solo(cfg, s, inv.(pc := Securing(t, snap, newer)), now, uid) ==
            Solo(cfg, WithSecret(cfg, s, inv, snap.uid), inv.(pc := Secured(cfg, inv.req, t, snap, newer)), now, uid)
  {
    hide Solo, VerifySecret, Secured, WorkOrderSecret;
    var at := inv.(pc := Securing(t, snap, newer));
    SoloStep(cfg, s, at, now, uid);
    if DesiredSecret(cfg, inv, snap.uid).name in s.secrets {
      SoloStep(cfg, s, inv.(pc := Verifying(t, snap, newer)), now, uid);
    }
  }

  /** Repairing looks at no clock and makes no uid. */
  lemma RepairIgnoresClock(cfg: Config, s: State, inv: Invocation, now: int, uid: string, now': int, uid': string)
    requires OnPath(cfg, s, inv) && (inv.pc.Securing? || inv.pc.Verifying? || inv.pc.Patching?) && !inv.pc.newer
    requires ValidRequest(inv.req)
    ensures Solo(cfg, s, inv, now, uid) == Solo(cfg, s, inv, now', uid')
    decreases CallsLeft(inv.pc)
  {
    hide Solo, Evaluate, VerifySecret, Repair, HoldsSlot, Holders, WorkOrderSecret;
    SoloStep(cfg, s, inv, now, uid);
    SoloStep(cfg, s, inv, now', uid');
    var reply := Call(cfg, s, inv, now, uid);
    assert reply == Call(cfg, s, inv, now', uid');
    CallStaysOnPath(cfg, s, inv, now, uid);
    var next := inv.(pc := reply.pc);
    if next.pc.Verifying? || next.pc.Patching? {
      RepairIgnoresClock(cfg, reply.state, next, now, uid, now', uid');
    } else {
      SoloEnds(cfg, reply.state, next, now, uid, now', uid');
    }
  }

  lemma SoloEnds(cfg: Config, s: State, inv: Invocation, now: int, uid: string, now': int, uid': string)
    requires !Active(inv.pc)
    ensures Solo(cfg, s, inv, now, uid) == Reply(s, inv.pc) == Solo(cfg, s, inv, now', uid')
  {
  }

  /** The order once published or repaired, the same request is a redelivery with
      nothing left to write. */
  lemma PatchedIsComplete(cfg: Config, inv: Invocation, now: int, rv: nat)
    requires inv.pc.Patching? && ValidRequest(inv.req) && cfg.names.SecretNamesNonEmpty()
    requires Evaluate(cfg, inv.pc.snap, inv.req) == if inv.pc.newer then Newer else Redelivery
    requires !inv.pc.newer ==>
               Repair(inv.pc.snap, inv.req, cfg.names.secret(inv.req.session, inv.pc.snap.uid, inv.req.order)).Repaired?
    ensures var w := Stored(inv.pc.snap, Mutated(cfg, inv, now), rv);
            && w.name == inv.pc.snap.name && w.uid == inv.pc.snap.uid && w.rv == rv
            && w.Annotation(LastOrderId) == inv.req.order
            && Evaluate(cfg, w, inv.req) == Redelivery
            && Repair(w, inv.req, cfg.names.secret(inv.req.session, w.uid, inv.req.order)) == Complete
  {
    hide FormatInt, RefreshTemplate, ParseInt;
    ParseFormatInt(inv.req.attempt);
  }

  // ---- A crash changes nothing

  /** Starting over from `s` ends as the interrupted invocation would have if its order
      is in, and as a first attempt from `start` would otherwise. */
  ghost predicate Recoverable(cfg: Config, start: State, s: State, inv: Invocation, now: int, uid: string, now': int,
                              uid': string)
  {
    Solo(cfg, s, Fresh(inv), now', uid') ==
    if HasAccepted(s, inv) then Solo(cfg, s, inv, now, uid) else Solo(cfg, start, Fresh(inv), now', uid')
  }

  lemma CreateRecovers(cfg: Config, start: State, s: State, inv: Invocation, now: int, uid: string, now': int,
                       uid': string)
    requires ValidRequest(inv.req) && OnPath(cfg, s, inv) && inv.pc.Creating?
    ensures var reply := Call(cfg, s, inv, now, uid);
            Recoverable(cfg, start, reply.state, inv.(pc := reply.pc), now, uid, now', uid')
  {
    hide Solo, Evaluate, Created, HoldsSlot;
    var sb := Created(cfg, inv, now, uid, |s.versions|);
    var t := Put(s, sb);
    var next := inv.(pc := Classified(cfg, inv.req, 0, sb));
    CreatedIsAccepted(cfg, inv, now, uid, |s.versions|);
    CallStaysOnPath(cfg, s, inv, now, uid);
    SoloStep(cfg, t, Fresh(next), now', uid');
    if Active(next.pc) {
      RepairIgnoresClock(cfg, t, next, now, uid, now', uid');
    } else {
      SoloEnds(cfg, t, next, now, uid, now', uid');
    }
  }

  lemma SecretRecovers(cfg: Config, start: State, s: State, inv: Invocation, now: int, uid: string, now': int,
                       uid': string)
    requires ValidRequest(inv.req) && OnPath(cfg, s, inv) && inv.pc.Securing?
    requires DesiredSecret(cfg, inv, inv.pc.snap.uid).name !in s.secrets
    requires Recoverable(cfg, start, s, inv, now, uid, now', uid')
    ensures var reply := Call(cfg, s, inv, now, uid);
            Recoverable(cfg, start, reply.state, inv.(pc := reply.pc), now, uid, now', uid')
  {
    hide Solo, Evaluate, HoldsSlot, Holders, VerifySecret, WorkOrderSecret, Repair;
    var snap, newer := inv.pc.snap, inv.pc.newer;
    var t := WithSecret(cfg, s, inv, snap.uid);
    var next := inv.(pc := Secured(cfg, inv.req, 0, snap, newer));
    DesiredVerifies(cfg, inv, snap.uid);
    ReadAgain(cfg, t, inv, now', uid', newer);
    SecretEitherWay(cfg, t, inv, now', uid', 0, snap, newer);
    OrderTells(cfg, snap, inv.req);
    if newer {
      ReadAgain(cfg, s, inv, now', uid', newer);
      SecretEitherWay(cfg, s, inv, now', uid', 0, snap, newer);
    } else {
      CallStaysOnPath(cfg, s, inv, now, uid);
      ClockAfterSecret(cfg, t, next, now, uid, now', uid');
    }
  }

  lemma ClockAfterSecret(cfg: Config, t: State, next: Invocation, now: int, uid: string, now': int, uid': string)
    requires ValidRequest(next.req) && OnPath(cfg, t, next) && (next.pc.Patching? ==> !next.pc.newer)
    requires next.pc.Patching? || !Active(next.pc)
    ensures Solo(cfg, t, next, now, uid) == Solo(cfg, t, next, now', uid')
  {
    hide Solo, OnPath;
    if Active(next.pc) {
      RepairIgnoresClock(cfg, t, next, now, uid, now', uid');
    } else {
      SoloEnds(cfg, t, next, now, uid, now', uid');
    }
  }

  lemma PatchRecovers(cfg: Config, start: State, s: State, inv: Invocation, now: int, uid: string, now': int,
                      uid': string)
    requires ValidRequest(inv.req) && cfg.names.SecretNamesNonEmpty() && OnPath(cfg, s, inv) && inv.pc.Patching?
    ensures var reply := Call(cfg, s, inv, now, uid);
            Recoverable(cfg, start, reply.state, inv.(pc := reply.pc), now, uid, now', uid')
  {
    hide Solo, Evaluate, HoldsSlot, Holders, VerifySecret, WorkOrderSecret, Repair, Mutated;
    var w := Stored(inv.pc.snap, Mutated(cfg, inv, now), |s.versions|);
    PatchedIsComplete(cfg, inv, now, |s.versions|);
    var t := Put(s, w);
    var done := inv.(pc := Done(|s.versions|));
    assert t.sandboxes[inv.tmpl.name] == w;
    ReadAgain(cfg, t, inv, now', uid', false);
    SecretEitherWay(cfg, t, inv, now', uid', 0, w, false);
    SoloEnds(cfg, t, done, now, uid, now', uid');
  }

  lemma CallRecovers(cfg: Config, start: State, s: State, inv: Invocation, now: int, uid: string, now': int,
                     uid': string)
    requires ValidRequest(inv.req) && cfg.names.SecretNamesNonEmpty() && OnPath(cfg, s, inv) && Active(inv.pc)
    requires Recoverable(cfg, start, s, inv, now, uid, now', uid')
    ensures var reply := Call(cfg, s, inv, now, uid);
            Recoverable(cfg, start, reply.state, inv.(pc := reply.pc), now, uid, now', uid')
  {
    hide Solo, Evaluate, HoldsSlot, Holders, VerifySecret, WorkOrderSecret, Repair, Secured, Classified, Mutated,
         Created;
    if inv.pc.Creating? {
      CreateRecovers(cfg, start, s, inv, now, uid, now', uid');
    } else if inv.pc.Patching? {
      PatchRecovers(cfg, start, s, inv, now, uid, now', uid');
    } else if inv.pc.Securing? && DesiredSecret(cfg, inv, inv.pc.snap.uid).name !in s.secrets {
      SecretRecovers(cfg, start, s, inv, now, uid, now', uid');
    } else {
      SoloStep(cfg, s, inv, now, uid);
    }
  }

  lemma {:induction false} AfterRecovers(cfg: Config, start: State, s: State, inv: Invocation, now: int, uid: string,
                                         k: nat, now': int, uid': string)
    requires ValidRequest(inv.req) && cfg.names.SecretNamesNonEmpty() && OnPath(cfg, s, inv)
    requires Recoverable(cfg, start, s, inv, now, uid, now', uid')
    ensures var reply := After(cfg, s, inv, now, uid, k);
            && OnPath(cfg, reply.state, inv.(pc := reply.pc))
            && Recoverable(cfg, start, reply.state, inv.(pc := reply.pc), now, uid, now', uid')
            && Solo(cfg, reply.state, inv.(pc := reply.pc), now, uid) == Solo(cfg, s, inv, now, uid)
    decreases k
  {
    hide OnPath, Recoverable, Call, Solo;
    if k > 0 && Active(inv.pc) {
      var reply := Call(cfg, s, inv, now, uid);
      CallStaysOnPath(cfg, s, inv, now, uid);
      CallRecovers(cfg, start, s, inv, now, uid, now', uid');
      SoloStep(cfg, s, inv, now, uid);
      AfterRecovers(cfg, start, reply.state, inv.(pc := reply.pc), now, uid, k - 1, now', uid');
    }
  }

  /** Starting over at once, with another clock, changes nothing if the order is in. */
  lemma StartRecovers(cfg: Config, s: State, inv: Invocation, now: int, uid: string, now': int, uid': string)
    requires ValidRequest(inv.req) && OnPath(cfg, s, inv) && inv.pc == Reading(0)
    ensures Recoverable(cfg, s, s, inv, now, uid, now', uid')
  {
    hide Solo, Evaluate, HoldsSlot, Holders;
    if HasAccepted(s, inv) {
      var snap := s.sandboxes[inv.tmpl.name];
      SoloStep(cfg, s, inv, now, uid);
      SoloStep(cfg, s, inv, now', uid');
      AcceptedIsNotNewer(cfg, snap, inv.req);
      var next := inv.(pc := Classified(cfg, inv.req, 0, snap));
      if Active(next.pc) {
        RepairIgnoresClock(cfg, s, next, now, uid, now', uid');
      } else {
        SoloEnds(cfg, s, next, now, uid, now', uid');
      }
    }
  }

  lemma AcceptedIsNotNewer(cfg: Config, sb: Sandbox, req: Request)
    requires sb.Annotation(LastOrderId) == req.order
    ensures Evaluate(cfg, sb, req) == Redelivery || Evaluate(cfg, sb, req).Refuse?
  {
  }

  /** An invocation stopped after any number of API calls and delivered again, with
      another clock, ends with the same store and the same exit as one that was never
      stopped: the stopped one if its order was in, else one begun with the new clock. */
  lemma CrashRecovery(cfg: Config, s: State, inv: Invocation, now: int, uid: string, k: nat, now': int, uid': string)
    requires ConfigOk(cfg) && ValidRequest(inv.req) && Tidy(s, inv.tmpl.name) && inv.pc == Reading(0)
    ensures var crashed := After(cfg, s, inv, now, uid, k).state;
            Solo(cfg, crashed, inv, now', uid') ==
            if HasAccepted(crashed, inv) then Solo(cfg, s, inv, now, uid) else Solo(cfg, s, inv, now', uid')
  {
    hide Solo, After;
    StartRecovers(cfg, s, inv, now, uid, now', uid');
    AfterRecovers(cfg, s, s, inv, now, uid, k, now', uid');
  }

  /** After an invocation has exited 0, delivering its order again writes nothing and
      exits 0. */
  lemma FurtherRedeliveryWritesNothing(cfg: Config, s: State, inv: Invocation, now: int, uid: string, now': int,
                                       uid': string)
    requires ConfigOk(cfg) && ValidRequest(inv.req) && Tidy(s, inv.tmpl.name) && inv.pc == Reading(0)
    requires Solo(cfg, s, inv, now, uid).pc.Done?
    ensures Solo(cfg, Solo(cfg, s, inv, now, uid).state, inv, now', uid') == Solo(cfg, s, inv, now, uid)
  {
    hide Solo, Evaluate;
    var k := SoloIsAfter(cfg, s, inv, now, uid);
    StartRecovers(cfg, s, inv, now, uid, now', uid');
    AfterRecovers(cfg, s, s, inv, now, uid, k, now', uid');
    var done := Solo(cfg, s, inv, now, uid);
    var ended := inv.(pc := done.pc);
    SoloEnds(cfg, done.state, ended, now, uid, now', uid');
    if !HasAccepted(done.state, inv) {
      SoloStep(cfg, done.state, Fresh(inv), now', uid');
      SoloEnds(cfg, done.state, ended, now', uid', now, uid);
    }
  }

  lemma {:induction false} SoloIsAfter(cfg: Config, s: State, inv: Invocation, now: int, uid: string) returns (k: nat)
    ensures After(cfg, s, inv, now, uid, k) == Solo(cfg, s, inv, now, uid)
    ensures !Active(Solo(cfg, s, inv, now, uid).pc)
    decreases AttemptsLeft(cfg, inv.pc), CallsLeft(inv.pc)
  {
    hide Call;
    if !Active(inv.pc) {
      k := 0;
    } else {
      CallEndsSooner(cfg, s, inv, now, uid);
      var reply := Call(cfg, s, inv, now, uid);
      var rest := SoloIsAfter(cfg, reply.state, inv.(pc := reply.pc), now, uid);
      k := rest + 1;
    }
  }

  // ---- A Sandbox that vanishes

  lemma CallKeepsNames(cfg: Config, s: State, inv: Invocation, now: int, uid: string, n: string)
    requires Active(inv.pc) && n in s.sandboxes
    ensures n in Call(cfg, s, inv, now, uid).state.sandboxes
    ensures Call(cfg, s, inv, now, uid).state.sandboxes[n].uid == s.sandboxes[n].uid
  {
    hide Classified, Secured, VerifySecret, Created, DesiredSecret, Holders, Repair, Publish;
    if inv.pc.Creating? {
      CreatedIsAccepted(cfg, inv, now, uid, |s.versions|);
    } else if inv.pc.Patching? {
      MutatedIdentity(cfg, inv, now);
    }
  }

  lemma {:induction false} SoloKeepsNames(cfg: Config, s: State, inv: Invocation, now: int, uid: string, n: string)
    requires n in s.sandboxes
    ensures n in Solo(cfg, s, inv, now, uid).state.sandboxes
    ensures Solo(cfg, s, inv, now, uid).state.sandboxes[n].uid == s.sandboxes[n].uid
    decreases AttemptsLeft(cfg, inv.pc), CallsLeft(inv.pc)
  {
    hide Call;
    if Active(inv.pc) {
      CallEndsSooner(cfg, s, inv, now, uid);
      CallKeepsNames(cfg, s, inv, now, uid, n);
      var reply := Call(cfg, s, inv, now, uid);
      SoloKeepsNames(cfg, reply.state, inv.(pc := reply.pc), now, uid, n);
    }
  }

  /** An invocation about to patch a Sandbox that has vanished creates it anew, under
      another uid, exactly when an attempt is left and the cap has room; otherwise it
      exits 1. The design forbids the recreation. */
  lemma VanishedSandboxIsRecreatedIff(cfg: Config, s: State, inv: Invocation, now: int, uid: string)
    requires inv.pc.Patching? && inv.pc.snap.name == inv.tmpl.name && inv.tmpl.name !in s.sandboxes
    ensures var solo := Solo(cfg, s, inv, now, uid);
            var again := inv.pc.tries + 1 < cfg.maxAttempts &&
                         (cfg.maxActiveSessions <= 0 ||
                          |Holders(s.sandboxes) - {inv.tmpl.name}| < cfg.maxActiveSessions);
            && (inv.tmpl.name in solo.state.sandboxes <==> again)
            && (again ==> solo.state.sandboxes[inv.tmpl.name].uid == uid)
            && (!again ==> solo == Reply(s, Failed(EXIT_RETRYABLE)))
  {
    hide Solo, Classified, Created, Holders;
    var t := inv.pc.tries + 1;
    SoloStep(cfg, s, inv, now, uid);
    if t < cfg.maxAttempts {
      var reading := inv.(pc := Reading(t));
      SoloStep(cfg, s, reading, now, uid);
      if cfg.maxActiveSessions > 0 {
        SoloStep(cfg, s, inv.(pc := Admitting(t)), now, uid);
      }
      if cfg.maxActiveSessions <= 0 || |Holders(s.sandboxes) - {inv.tmpl.name}| < cfg.maxActiveSessions {
        Recreated(cfg, s, inv.(pc := Creating(t)), now, uid);
      } else {
        SoloEnds(cfg, s, inv.(pc := Failed(EXIT_RETRYABLE)), now, uid, now, uid);
      }
    } else {
      SoloEnds(cfg, s, inv.(pc := Failed(EXIT_RETRYABLE)), now, uid, now, uid);
    }
  }

  lemma Recreated(cfg: Config, s: State, inv: Invocation, now: int, uid: string)
    requires inv.pc.Creating? && inv.tmpl.name !in s.sandboxes
    ensures var solo := Solo(cfg, s, inv, now, uid).state;
            inv.tmpl.name in solo.sandboxes && solo.sandboxes[inv.tmpl.name].uid == uid
  {
    hide Solo, Classified, CreateBody;
    var sb := Created(cfg, inv, now, uid, |s.versions|);
    CreatedIsAccepted(cfg, inv, now, uid, |s.versions|);
    SoloStep(cfg, s, inv, now, uid);
    SoloKeepsNames(cfg, Put(s, sb), inv.(pc := Classified(cfg, inv.req, inv.pc.tries, sb)), now, uid, inv.tmpl.name);
  }

  // ---- Undisturbed calls are steps of the transition system

  lemma CallIgnoresHooks(cfg: Config, s: State, hooks: map<nat, Invocation>, inv: Invocation, now: int, uid: string)
    requires Active(inv.pc)
    ensures var reply := Call(cfg, s, inv, now, uid);
            Call(cfg, s.(hooks := hooks), inv, now, uid) == reply.(state := reply.state.(hooks := hooks))
  {
    hide Classified, Secured, VerifySecret, Mutated, Created, DesiredSecret, Holders, Put, Patch, Retry;
    if inv.pc.Creating? {
      PutIgnoresHooks(s, hooks, Created(cfg, inv, now, uid, |s.versions|));
    } else if inv.pc.Patching? {
      PatchIgnoresHooks(s, hooks, inv.pc.snap, Mutated(cfg, inv, now));
    }
  }

  lemma PutIgnoresHooks(s: State, hooks: map<nat, Invocation>, sb: Sandbox)
    ensures Put(s.(hooks := hooks), sb) == Put(s, sb).(hooks := hooks)
  {
  }

  lemma PatchIgnoresHooks(s: State, hooks: map<nat, Invocation>, snap: Sandbox, mut: Sandbox)
    ensures Patch(s.(hooks := hooks), snap, mut) == Patch(s, snap, mut).(hooks := hooks)
  {
  }

  lemma {:induction false} AfterIgnoresHooks(cfg: Config, s: State, hooks: map<nat, Invocation>, inv: Invocation,
                                             now: int, uid: string, k: nat)
    ensures var reply := After(cfg, s, inv, now, uid, k);
            After(cfg, s.(hooks := hooks), inv, now, uid, k) == reply.(state := reply.state.(hooks := hooks))
    decreases k
  {
    hide Call;
    if k > 0 && Active(inv.pc) {
      CallIgnoresHooks(cfg, s, hooks, inv, now, uid);
      var reply := Call(cfg, s, inv, now, uid);
      AfterIgnoresHooks(cfg, reply.state, hooks, inv.(pc := reply.pc), now, uid, k - 1);
    }
  }

  predicate Early(pc: Pc) {
    pc.Reading? || pc.Admitting? || pc.Creating?
  }

  lemma EarlyCallsWriteNothing(cfg: Config, s: State, inv: Invocation, now: int, uid: string)
    requires OnPath(cfg, s, inv) && Active(inv.pc)
    ensures var reply := Call(cfg, s, inv, now, uid); Early(reply.pc) ==> Early(inv.pc) && reply.state == s
  {
    hide Evaluate, VerifySecret, Mutated, Created, WorkOrderSecret, Holders, HoldsSlot, SecretStands, Repair;
    CreatedIsAccepted(cfg, inv, now, uid, |s.versions|);
  }

  function Placed(s: State, h: nat, reply: Reply): State
    requires h in s.hooks
  {
    reply.state.(hooks := s.hooks[h := s.hooks[h].(pc := reply.pc)])
  }

  /** One undisturbed call as a step. */
  lemma CallIsStep(cfg: Config, s: State, h: nat, now: int, uid: string) returns (t: State)
    requires h in s.hooks && Active(s.hooks[h].pc) && OnPath(cfg, s, s.hooks[h]) && ValidRequest(s.hooks[h].req)
    requires Early(s.hooks[h].pc) ==> NewUid(s, uid)
    ensures Enabled(cfg, s, HookCall(h, now, uid, false)) && t == Apply(cfg, s, HookCall(h, now, uid, false))
    ensures var reply := Call(cfg, s, s.hooks[h], now, uid);
            && t.hooks == s.hooks[h := s.hooks[h].(pc := reply.pc)] && t == reply.state.(hooks := t.hooks)
    ensures OnPath(cfg, t, t.hooks[h]) && (Early(t.hooks[h].pc) ==> NewUid(t, uid))
  {
    hide Call, OnPath, Early;
    var inv := s.hooks[h];
    var reply := Call(cfg, s, inv, now, uid);
    CallStaysOnPath(cfg, s, inv, now, uid);
    EarlyCallsWriteNothing(cfg, s, inv, now, uid);
    CallIgnoresHooks(cfg, s, s.hooks, inv, now, uid);
    assert s.(hooks := s.hooks) == s;
    assert Early(inv.pc) || !inv.pc.Creating? by { CreatingIsEarly(inv.pc); }
    t := Apply(cfg, s, HookCall(h, now, uid, false));
    PathIgnoresHooks(cfg, reply.state, t.hooks, inv.(pc := reply.pc));
  }

  lemma CreatingIsEarly(pc: Pc)
    ensures pc.Creating? ==> Early(pc)
  {
  }

  /** What an undisturbed invocation does in k calls, a run does in as many steps. */
  lemma {:induction false} AfterIsReachable(cfg: Config, run: seq<State>, steps: seq<Step>, h: nat, now: int,
                                            uid: string, k: nat)
    returns (longer: seq<State>, more: seq<Step>)
    requires IsRun(cfg, run, steps) && h in run[|steps|].hooks && OnPath(cfg, run[|steps|], run[|steps|].hooks[h])
    requires ValidRequest(run[|steps|].hooks[h].req)
    requires Early(run[|steps|].hooks[h].pc) ==> NewUid(run[|steps|], uid)
    ensures IsRun(cfg, longer, more)
    ensures longer[|more|] == Placed(run[|steps|], h, After(cfg, run[|steps|], run[|steps|].hooks[h], now, uid, k))
    decreases k
  {
    hide Call, OnPath, After, Early, NewUid, Apply, Enabled;
    var s := run[|steps|];
    var inv := s.hooks[h];
    if k == 0 || !Active(inv.pc) {
      longer, more := run, steps;
      assert s.hooks[h := inv] == s.hooks;
      NoCallLeft(cfg, s, inv, now, uid, k);
    } else {
      var t := CallIsStep(cfg, s, h, now, uid);
      OneMore(cfg, run, steps, HookCall(h, now, uid, false));
      longer, more := AfterIsReachable(cfg, run + [t], steps + [HookCall(h, now, uid, false)], h, now, uid, k - 1);
      var reply := Call(cfg, s, inv, now, uid);
      AfterIgnoresHooks(cfg, reply.state, t.hooks, t.hooks[h], now, uid, k - 1);
      AfterOneCall(cfg, s, inv, now, uid, k);
      PlacedTwice(s, t, h, After(cfg, t, t.hooks[h], now, uid, k - 1), After(cfg, s, inv, now, uid, k));
    }
  }

  lemma NoCallLeft(cfg: Config, s: State, inv: Invocation, now: int, uid: string, k: nat)
    requires k == 0 || !Active(inv.pc)
    ensures After(cfg, s, inv, now, uid, k) == Reply(s, inv.pc)
  {
  }

  lemma AfterOneCall(cfg: Config, s: State, inv: Invocation, now: int, uid: string, k: nat)
    requires k > 0 && Active(inv.pc)
    ensures var reply := Call(cfg, s, inv, now, uid);
            After(cfg, s, inv, now, uid, k) == After(cfg, reply.state, inv.(pc := reply.pc), now, uid, k - 1)
  {
    hide Call;
  }

  lemma PlacedTwice(s: State, t: State, h: nat, a: Reply, b: Reply)
    requires h in s.hooks && h in t.hooks && t.hooks == s.hooks[h := t.hooks[h]]
    requires t.hooks[h].(pc := a.pc) == s.hooks[h].(pc := b.pc)
    requires a == b.(state := b.state.(hooks := t.hooks))
    ensures Placed(t, h, a) == Placed(s, h, b)
  {
    assert t.hooks[h := t.hooks[h].(pc := a.pc)] == s.hooks[h := s.hooks[h].(pc := b.pc)];
  }

  lemma PathIgnoresHooks(cfg: Config, s: State, hooks: map<nat, Invocation>, inv: Invocation)
    requires OnPath(cfg, s, inv)
    ensures OnPath(cfg, s.(hooks := hooks), inv)
  {
    hide Evaluate, HoldsSlot, Holders, Repair, VerifySecret, WorkOrderSecret;
  }
}
