/** The invariant holds in every state of every run. */
module Safety {
  import opened Api
  import opened Hook
  import opened SessionController
  import opened Protocol
  import opened Invariants
  import opened Preservation
  import opened Writes
  import opened HookSteps

  // ---- Hook calls

  /** One API call keeps the invariant and leaves its invocation where it may be. */
  ghost predicate CallIsSafe(cfg: Config, s: State, h: nat, now: int, uid: string) {
    h in s.hooks && Active(s.hooks[h].pc) &&
    var reply := Call(cfg, s, s.hooks[h], now, uid);
    && Inv(cfg, reply.state) && reply.state.hooks == s.hooks
    && HookOk(cfg, reply.state, s.hooks[h].(pc := reply.pc))
  }

  lemma CreatingKeepsInv(cfg: Config, s: State, h: nat, now: int, uid: string)
    requires Inv(cfg, s) && Enabled(cfg, s, HookCall(h, now, uid, false)) && s.hooks[h].pc.Creating?
    ensures CallIsSafe(cfg, s, h, now, uid)
  {
    hide VersionOk, VersionsOk, EveryVersionOk, HistoryOk, SecretsOk, SeenOk, ConditionsOk, PodsOk,
         PodGenerationsOk, HooksOk, Classified, Contracted, ValidRequest, SameOrder;
    var inv := s.hooks[h];
    if inv.tmpl.name !in s.sandboxes {
      var w := Created(cfg, inv, now, uid, |s.versions|);
      CreatedContent(cfg, s, h, now, uid);
      CreateKeepsInv(cfg, s, w);
      ClassifiedOk(cfg, Put(s, w), inv, inv.pc.tries, w);
    }
  }

  lemma PatchingKeepsInv(cfg: Config, s: State, h: nat, now: int, uid: string)
    requires ConfigOk(cfg) && Inv(cfg, s) && h in s.hooks && s.hooks[h].pc.Patching?
    ensures CallIsSafe(cfg, s, h, now, uid)
  {
    hide VersionOk, EveryVersionOk, HistoryOk, SecretsOk, SeenOk, ConditionsOk, PodsOk, PodGenerationsOk,
         RequestsOk, HooksOk, VersionsOk, Mutated, AcceptedAttempt, ConfigOk, Succeeds, Unprepared, Evaluate,
         Repair, HasSecret;
    var inv := s.hooks[h];
    var snap := inv.pc.snap;
    HooksAreOk(cfg, s, h);
    if Current(s, snap) {
      CurrentIsLive(s, snap);
      var w := Stored(snap, Mutated(cfg, inv, now), |s.versions|);
      PatchedVersion(cfg, s, h, now);
      PutKeepsInv(cfg, s, snap, w);
      assert Patch(s, snap, Mutated(cfg, inv, now)) == Put(s, w);
    }
  }

  lemma HooksAreOk(cfg: Config, s: State, h: nat)
    requires HooksOk(cfg, s) && h in s.hooks
    ensures HookOk(cfg, s, s.hooks[h])
  {
    hide HookOk;
  }

  lemma PatchedVersion(cfg: Config, s: State, h: nat, now: int)
    requires ConfigOk(cfg) && Inv(cfg, s) && h in s.hooks && s.hooks[h].pc.Patching?
    requires LiveIn(s, s.hooks[h].pc.snap)
    ensures var snap := s.hooks[h].pc.snap;
            var w := Stored(snap, Mutated(cfg, s.hooks[h], now), |s.versions|);
            && Succeeds(cfg, s, snap, w)
            && AcceptedAttempt(w) == s.hooks[h].req.attempt && w.Annotation(LastOrderId) == s.hooks[h].req.order
            && !Unprepared(w) && w.name == snap.name
  {
    hide EveryVersionOk, HistoryOk, SecretsOk, SeenOk, ConditionsOk, PodsOk, PodGenerationsOk,
         VersionOk, VersionsOk, SameOrder, HasSecret, AcceptedAttempt, Evaluate, Contracted;
    var inv := s.hooks[h];
    var snap, req := inv.pc.snap, inv.req;
    var name := cfg.names.secret(req.session, snap.uid, req.order);
    assert HookOk(cfg, s, inv);
    LiveVersionOk(cfg, s, snap);
    if inv.pc.newer {
      PublishSucceeds(cfg, s, snap, h, now);
      PublishedOrder(cfg, snap, inv.tmpl, req, now, name);
      SameAttempt(Mutated(cfg, inv, now), Stored(snap, Mutated(cfg, inv, now), |s.versions|));
    } else {
      RepairSucceeds(cfg, s, snap, req, h);
      RedeliveryAttempt(cfg, s, h, snap);
      PhaseOf(cfg, s, snap);
      RepairedOrder(snap, req, name);
      SameAttempt(snap, Stored(snap, Mutated(cfg, inv, now), |s.versions|));
    }
  }

  lemma PublishedOrder(cfg: Config, sb: Sandbox, tmpl: Sandbox, req: Request, now: int, name: string)
    requires ValidRequest(req) && name != ""
    ensures var w := Publish(sb, tmpl, req, now, name);
            AcceptedAttempt(w) == req.attempt && w.Annotation(LastOrderId) == req.order && !Unprepared(w)
  {
    hide AcceptedAttempt, RefreshTemplate;
    var w := Publish(sb, tmpl, req, now, name);
    var labelled := w.(labels := map[SessionLabel := cfg.names.labelValue(req.session)]);
    AttemptOf(cfg, labelled, req);
    SameAttempt(labelled, w);
  }

  lemma PhaseOf(cfg: Config, s: State, v: Sandbox)
    requires VersionOk(cfg, s, v)
    ensures InPhase(v)
  {
    hide InPhase, Selected, NamedVolume, CarriesOrder, HasApplied;
  }

  lemma RepairedOrder(sb: Sandbox, req: Request, name: string)
    requires Repair(sb, req, name).Repaired? && InPhase(sb) && sb.Annotation(LastOrderId) == req.order && name != ""
    ensures var w := Repair(sb, req, name).mut;
            w.Annotation(LastOrderId) == sb.Annotation(LastOrderId) &&
            w.Annotation(LastOrderAttempt) == sb.Annotation(LastOrderAttempt)
            && !Unprepared(w)
  {
  }

  lemma SecuringKeepsInv(cfg: Config, s: State, h: nat, now: int, uid: string)
    requires ConfigOk(cfg) && h in s.hooks && Inv(cfg, s) && (s.hooks[h].pc.Securing? || s.hooks[h].pc.Verifying?)
    ensures CallIsSafe(cfg, s, h, now, uid)
  {
    hide VersionOk, VersionsOk, EveryVersionOk, HistoryOk, SecretsOk, SeenOk, ConditionsOk, PodsOk,
         PodGenerationsOk, Evaluate, Repair, HasSecret, AcceptedAttempt, SameOrder, ConfigOk, VerifySecret,
         WorkOrderSecret, Secured, Contracted;
    var inv := s.hooks[h];
    var snap, t, newer := inv.pc.snap, inv.pc.tries, inv.pc.newer;
    assert HookOk(cfg, s, inv);
    SnapVersionOk(cfg, s, snap);
    var k := DesiredSecret(cfg, inv, snap.uid);
    if k.name in s.secrets {
      ExistingSecretVerifies(cfg, s, h, snap.uid);
      SecuredOk(cfg, s, h, t, snap, newer);
    } else if inv.pc.Securing? {
      var with := s.(secrets := s.secrets[k.name := k], secretsEver := s.secretsEver + {k});
      AddSecretKeepsInv(cfg, s, h, snap);
      SnapVersionOk(cfg, with, snap);
      SecuredOk(cfg, with, h, t, snap, newer);
    }
  }

  lemma ReadingKeepsInv(cfg: Config, s: State, h: nat, now: int, uid: string)
    requires Inv(cfg, s) && h in s.hooks
    requires s.hooks[h].pc.Reading? || s.hooks[h].pc.Admitting? || s.hooks[h].pc.AdmittingNewer?
    ensures CallIsSafe(cfg, s, h, now, uid)
  {
    hide VersionOk, EveryVersionOk, HistoryOk, SecretsOk, SeenOk, ConditionsOk, PodsOk, PodGenerationsOk,
         Evaluate, AcceptedAttempt, SameOrder, Classified, Contracted, RequestsOk;
    var inv := s.hooks[h];
    assert HookOk(cfg, s, inv);
    if inv.pc.Reading? && inv.tmpl.name in s.sandboxes {
      ClassifiedOk(cfg, s, inv, inv.pc.tries, s.sandboxes[inv.tmpl.name]);
    }
  }

  lemma HookCallKeepsInv(cfg: Config, s: State, h: nat, now: int, uid: string, lost: bool)
    requires ConfigOk(cfg) && Inv(cfg, s) && Enabled(cfg, s, HookCall(h, now, uid, lost))
    ensures Inv(cfg, Apply(cfg, s, HookCall(h, now, uid, lost)))
  {
    hide Inv, Call, ConfigOk;
    var reply := Call(cfg, s, s.hooks[h], now, uid);
    CallKeepsInv(cfg, s, h, now, uid);
    SetPcKeepsInv(cfg, reply.state, h, if lost then Crashed else reply.pc);
  }

  lemma CallKeepsInv(cfg: Config, s: State, h: nat, now: int, uid: string)
    requires ConfigOk(cfg) && Inv(cfg, s) && Enabled(cfg, s, HookCall(h, now, uid, false))
    ensures CallIsSafe(cfg, s, h, now, uid)
  {
    hide Inv, Classified, Secured, ConfigOk, Evaluate, VerifySecret, Mutated, Created;
    match s.hooks[h].pc {
      case Creating(_) => CreatingKeepsInv(cfg, s, h, now, uid);
      case Patching(_, _, _) => PatchingKeepsInv(cfg, s, h, now, uid);
      case Securing(_, _, _) => SecuringKeepsInv(cfg, s, h, now, uid);
      case Verifying(_, _, _) => SecuringKeepsInv(cfg, s, h, now, uid);
      case _ => ReadingKeepsInv(cfg, s, h, now, uid);
    }
  }

  // ---- Controller passes

  /** The object a pass writes. */
  function Written(snap: Sandbox, write: Write): Sandbox
    requires write != Nothing
  {
    if write.Collect? then snap.(deleting := true) else write.mut
  }

  predicate SameSession(v: Sandbox, w: Sandbox) {
    w.uid == v.uid && w.labels == v.labels
  }

  lemma PassIdentity(cfg: Config, sb: Sandbox, pods: seq<Pod>, secret: Option<Secret>, list: seq<Sandbox>, now: int)
    ensures var write := Decide(cfg, sb, pods, secret, list, now);
            write == Nothing ||
            (Written(sb, write).name == sb.name && SameSession(sb, Written(sb, write)))
  {
    hide ValidWorkOrderSecret, NamedVolume, Installed, GcDue, CurrentGenerationTrue;
  }

  lemma CommitIsPut(s: State, snap: Sandbox, write: Write)
    requires write != Nothing && Current(s, snap) && LiveIn(s, snap) && Written(snap, write).name == snap.name
    ensures CommitPass(s, snap, write) == Put(s, Stored(snap, Written(snap, write), |s.versions|))
  {
  }

  /** Whatever a pass decides on a live version is a legal next version of it. */
  lemma DecidedSucceeds(cfg: Config, s: State, snap: Sandbox, pods: seq<Pod>, secret: Option<Secret>,
                        list: seq<Sandbox>, now: int)
    requires ConfigOk(cfg) && Inv(cfg, s) && LiveIn(s, snap) && IsTime(now)
    requires Decide(cfg, snap, pods, secret, list, now) != Nothing
    ensures var mut := Written(snap, Decide(cfg, snap, pods, secret, list, now));
            mut.name == snap.name && Succeeds(cfg, s, snap, Stored(snap, mut, |s.versions|))
  {
    hide Inv, ConfigOk, Observe, Sleep, Wake, GcDue, VersionOk;
    match Decide(cfg, snap, pods, secret, list, now) {
      case Observed(mut) => ObserveSucceeds(cfg, s, snap, OwnedPods(cfg, pods, snap.uid));
      case Slept(mut) => SleepSucceeds(cfg, s, snap, now);
      case Awoke(mut) => WakeSucceeds(cfg, s, snap, secret);
      case Collect => BookkeepingSucceeds(cfg, s, snap, snap.(deleting := true));
    }
  }

  /** A pass decided on any version commits only if that version is still live, and
      then what it writes is a legal next version. */
  lemma PassKeepsInv(cfg: Config, s: State, at: nat, pods: seq<Pod>, secret: Option<Secret>, list: seq<Sandbox>,
                     now: int)
    requires ConfigOk(cfg) && Inv(cfg, s) && Enabled(cfg, s, ControllerPass(at, pods, secret, list, now))
    ensures Inv(cfg, Apply(cfg, s, ControllerPass(at, pods, secret, list, now)))
  {
    hide Inv, ConfigOk, Decide, Succeeds, Put, Stored;
    var snap := s.versions[at];
    var write := Decide(cfg, snap, pods, secret, list, now);
    InvVersions(cfg, s);
    if write != Nothing && Current(s, snap) {
      CurrentIsLive(s, snap);
      DecidedSucceeds(cfg, s, snap, pods, secret, list, now);
      CommitIsPut(s, snap, write);
      PutKeepsInv(cfg, s, snap, Stored(snap, Written(snap, write), |s.versions|));
    }
  }

  lemma InvVersions(cfg: Config, s: State)
    requires Inv(cfg, s)
    ensures VersionsOk(s) && forall i :: 0 <= i < |s.versions| ==> IsVersion(s, s.versions[i])
  {
    hide EveryVersionOk, HistoryOk, SecretsOk, SeenOk, ConditionsOk, PodsOk, PodGenerationsOk, HooksOk, RequestsOk;
  }

  lemma NamesFit(cfg: Config, s: State)
    requires Inv(cfg, s)
    ensures forall n :: n in s.sandboxes ==> s.sandboxes[n].name == n
  {
    hide EveryVersionOk, HistoryOk, SecretsOk, SeenOk, ConditionsOk, PodsOk, PodGenerationsOk, HooksOk, RequestsOk;
  }

  lemma LiveIsVersion(cfg: Config, s: State, n: string)
    requires Inv(cfg, s) && n in s.sandboxes
    ensures IsVersion(s, s.sandboxes[n]) && s.sandboxes[n].name == n
  {
    hide EveryVersionOk, HistoryOk, SecretsOk, SeenOk, ConditionsOk, PodsOk, PodGenerationsOk, HooksOk, RequestsOk;
  }

  lemma InvRequests(cfg: Config, s: State, h: nat)
    requires Inv(cfg, s) && h in s.hooks
    ensures ValidRequest(s.hooks[h].req) && Contracted(cfg, s.hooks[h].tmpl, s.hooks[h].req)
  {
    hide EveryVersionOk, VersionsOk, HistoryOk, SecretsOk, SeenOk, ConditionsOk, PodsOk, PodGenerationsOk, HooksOk,
         Contracted, ValidRequest;
  }

  lemma LiveSelected(cfg: Config, s: State, n: string)
    requires Inv(cfg, s) && n in s.sandboxes
    ensures Selected(cfg, s.sandboxes[n].labels)
  {
    hide HistoryOk, SecretsOk, SeenOk, ConditionsOk, PodsOk, PodGenerationsOk, HooksOk, RequestsOk, VersionOk, Selected;
    assert IsVersion(s, s.sandboxes[n]);
    VersionSelected(cfg, s, s.sandboxes[n]);
  }

  lemma VersionSelected(cfg: Config, s: State, v: Sandbox)
    requires VersionOk(cfg, s, v)
    ensures Selected(cfg, v.labels)
  {
    hide Selected, NamedVolume, InPhase, CarriesOrder, HasApplied;
  }

  lemma SeenUid(cfg: Config, s: State, uid: string)
    requires Inv(cfg, s) && uid in s.seen
    ensures s.seen[uid].uid == uid
  {
    hide VersionsOk, EveryVersionOk, HistoryOk, SecretsOk, ConditionsOk, PodsOk, PodGenerationsOk, HooksOk, RequestsOk;
  }

  lemma ReportKeepsInv(cfg: Config, s: State, name: string)
    requires Inv(cfg, s) && Enabled(cfg, s, Report(name))
    ensures Inv(cfg, Apply(cfg, s, Report(name)))
  {
    hide EveryVersionOk, HistoryOk, SecretsOk, SeenOk, ConditionsOk, PodsOk, PodGenerationsOk, HooksOk, RequestsOk,
         ReportedConditions;
    var sb := s.sandboxes[name];
    var mut := sb.(conditions := ReportedConditions(s.seen[sb.uid], s.pods));
    BookkeepingSucceeds(cfg, s, sb, mut);
    PutKeepsInv(cfg, s, sb, Stored(sb, mut, |s.versions|));
  }
}
