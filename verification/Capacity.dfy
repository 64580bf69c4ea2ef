/** The soft active-session cap: how far concurrent hooks can overshoot it. */
module Capacity {
  import opened Api
  import opened Hook
  import opened SessionController
  import opened Protocol
  import opened Sets
  import opened Invariants
  import opened Writes
  import opened Runs
  import opened PodSafety
  import opened Safety

  /** The List a hook counts: every Sandbox of the store once. */
  predicate Enumerates(list: seq<Sandbox>, sandboxes: map<string, Sandbox>) {
    && DistinctSandboxNames(list)
    && (forall sb :: sb in list ==> sb.name in sandboxes && sandboxes[sb.name] == sb)
    && (forall n :: n in sandboxes ==> sandboxes[n].name == n && sandboxes[n] in list)
  }

  function HolderNames(list: seq<Sandbox>, own: string): set<string> {
    set sb | sb in list && sb.name != own && HoldsSlot(sb) :: sb.name
  }

  lemma {:induction false} CountIsNames(list: seq<Sandbox>, own: string)
    requires DistinctSandboxNames(list)
    ensures CountHolders(list, own) == |HolderNames(list, own)|
  {
    hide HoldsSlot;
    if list != [] {
      var init, last := list[..|list| - 1], list[|list| - 1];
      CountIsNames(init, own);
      assert list == init + [last];
      OneMoreName(init, last, own);
    }
  }

  lemma OneMoreName(init: seq<Sandbox>, last: Sandbox, own: string)
    requires forall sb :: sb in init ==> sb.name != last.name
    ensures |HolderNames(init + [last], own)| ==
            |HolderNames(init, own)| + if last.name != own && HoldsSlot(last) then 1 else 0
  {
    hide HoldsSlot;
    var more := if last.name != own && HoldsSlot(last) then {last.name} else {};
    forall n ensures n in HolderNames(init + [last], own) <==> n in HolderNames(init, own) + more {
      if n in more {
        assert last in init + [last];
      }
    }
    assert HolderNames(init + [last], own) == HolderNames(init, own) + more;
  }

  /** What checkCapacity's loop counts over the List is the number of other holders in
      the store. */
  lemma CountIsHolders(list: seq<Sandbox>, sandboxes: map<string, Sandbox>, own: string)
    requires Enumerates(list, sandboxes)
    ensures CountHolders(list, own) == |Holders(sandboxes) - {own}|
  {
    hide HoldsSlot, CountHolders;
    CountIsNames(list, own);
    forall n | n in Holders(sandboxes) - {own} ensures n in HolderNames(list, own) {
      assert sandboxes[n] in list && sandboxes[n].name == n;
    }
    assert HolderNames(list, own) == Holders(sandboxes) - {own};
  }

  // ---- Admitted invocations

  /** Invocations that have started and not ended. */
  function InFlight(s: State): set<nat> {
    set h | h in s.hooks && Active(s.hooks[h].pc)
  }

  /** Past the capacity check, and about to take a slot the Sandbox it read lacks. */
  predicate IsAdmitted(pc: Pc) {
    pc.Creating? || ((pc.Securing? || pc.Verifying? || pc.Patching?) && pc.newer && !HoldsSlot(pc.snap))
  }

  function AdmittedNames(s: State): set<string> {
    set h | h in s.hooks && IsAdmitted(s.hooks[h].pc) :: s.hooks[h].tmpl.name
  }

  /** Slots taken or promised. */
  function Claimed(s: State): set<string> {
    Holders(s.sandboxes) + AdmittedNames(s)
  }

  lemma ImageIsSmall(s: State, hs: set<nat>, names: set<string>)
    requires hs <= s.hooks.Keys && names == set h | h in hs :: s.hooks[h].tmpl.name
    ensures |names| <= |hs|
    decreases |hs|
  {
    if hs != {} {
      var h :| h in hs;
      var rest := set k | k in hs - {h} :: s.hooks[k].tmpl.name;
      ImageIsSmall(s, hs - {h}, rest);
      assert names == rest + {s.hooks[h].tmpl.name};
    } else {
      assert names == {};
    }
  }

  lemma UnionSize<T>(a: set<T>, b: set<T>)
    ensures |a + b| <= |a| + |b|
  {
    assert a + b == a + (b - a);
    assert |a + (b - a)| == |a| + |b - a|;
    SubsetSize(b - a, b);
  }

  lemma AdmittedAreFew(s: State)
    ensures |AdmittedNames(s)| <= |InFlight(s)|
  {
    var hs := set h | h in s.hooks && IsAdmitted(s.hooks[h].pc);
    ImageIsSmall(s, hs, AdmittedNames(s)) by {
      assert AdmittedNames(s) == set h | h in hs :: s.hooks[h].tmpl.name;
    }
    SubsetSize(hs, InFlight(s));
  }

  /** Right after an admission the claims are within bounds, whatever they were. */
  lemma AdmissionBound(s: State, name: string, limit: int)
    requires name in AdmittedNames(s) && |Holders(s.sandboxes) - {name}| < limit
    ensures |Claimed(s)| <= limit - 1 + |InFlight(s)|
  {
    AdmittedAreFew(s);
    assert Claimed(s) == (Holders(s.sandboxes) - {name}) + AdmittedNames(s);
    UnionSize(Holders(s.sandboxes) - {name}, AdmittedNames(s));
  }

  // ---- Who can add a holder

  /** Writing one Sandbox adds at most that holder. */
  lemma WriteHolders(sandboxes: map<string, Sandbox>, name: string, w: Sandbox)
    ensures Holders(sandboxes[name := w]) <= Holders(sandboxes) + (if HoldsSlot(w) then {name} else {})
  {
    hide HoldsSlot;
  }

  /** No controller pass, and no step of the sandbox controller, the kubelet or the
      garbage collector, ever adds a holder. */
  lemma ControllersAddNoHolder(cfg: Config, run: seq<State>, steps: seq<Step>, k: nat)
    requires ConfigOk(cfg) && IsRun(cfg, run, steps) && k < |steps| && !steps[k].HookCall?
    ensures Holders(run[k + 1].sandboxes) <= Holders(run[k].sandboxes)
  {
    hide Inv, ConfigOk, Apply, Enabled, Holders;
    RunInv(cfg, run, steps, k);
    assert Enabled(cfg, run[k], steps[k]) && run[k + 1] == Apply(cfg, run[k], steps[k]);
    if steps[k].ControllerPass? {
      PassAddsNoHolder(cfg, run[k], steps[k]);
    } else if steps[k].Report? {
      ReportAddsNoHolder(cfg, run[k], steps[k].name);
    } else {
      OtherStepAddsNoHolder(cfg, run[k], steps[k]);
    }
  }

  lemma OtherStepAddsNoHolder(cfg: Config, s: State, step: Step)
    requires Enabled(cfg, s, step) && !step.HookCall? && !step.ControllerPass? && !step.Report?
    ensures Holders(Apply(cfg, s, step).sandboxes) <= Holders(s.sandboxes)
  {
    hide Contracted, ValidRequest, SameOrder, HasPod, Live, PodOf, HoldsSlot;
  }

  lemma ReportAddsNoHolder(cfg: Config, s: State, name: string)
    requires Inv(cfg, s) && Enabled(cfg, s, Report(name))
    ensures Holders(Apply(cfg, s, Report(name)).sandboxes) <= Holders(s.sandboxes)
  {
    hide EveryVersionOk, HistoryOk, SecretsOk, SeenOk, ConditionsOk, PodsOk, PodGenerationsOk, HooksOk, RequestsOk,
         ReportedConditions;
    var sb := s.sandboxes[name];
    assert sb.name == name;
    WriteHolders(s.sandboxes, name, Apply(cfg, s, Report(name)).sandboxes[name]);
  }

  /** What a pass writes holds a slot only if the Sandbox already did. */
  lemma PassKeepsSlots(cfg: Config, sb: Sandbox, pods: seq<Pod>, secret: Option<Secret>, list: seq<Sandbox>, now: int)
    requires Decide(cfg, sb, pods, secret, list, now) != Nothing
    ensures var mut := Written(sb, Decide(cfg, sb, pods, secret, list, now));
            mut.name == sb.name && (HoldsSlot(mut) ==> HoldsSlot(sb))
  {
    hide ValidWorkOrderSecret, Selected, OwnedPods, Installed, NamedVolume, IdleEntries;
  }

  lemma PassAddsNoHolder(cfg: Config, s: State, step: Step)
    requires Inv(cfg, s) && Enabled(cfg, s, step) && IsPass(step)
    ensures Holders(Apply(cfg, s, step).sandboxes) <= Holders(s.sandboxes)
  {
    hide Inv, Decide, HoldsSlot;
    var snap := s.versions[step.at];
    var write := PassWrite(cfg, s, step);
    if write != Nothing && Current(s, snap) {
      Safety.InvVersions(cfg, s);
      CurrentIsLive(s, snap);
      PassKeepsSlots(cfg, snap, step.pods, step.secret, step.list, step.now);
      var w := Stored(snap, Written(snap, write), |s.versions|);
      SlotsOfStored(snap, Written(snap, write), |s.versions|);
      WriteHolders(s.sandboxes, snap.name, w);
      PassIdentity(cfg, snap, step.pods, step.secret, step.list, step.now);
      CommitIsPut(s, snap, write);
    }
  }

  lemma SlotsOfStored(cur: Sandbox, mut: Sandbox, rv: nat)
    ensures HoldsSlot(Stored(cur, mut, rv)) == HoldsSlot(mut)
  {
  }

  // ---- Hook calls

  /** A call adds only a holder whose slot was already claimed. */
  lemma CallHolders(cfg: Config, s: State, h: nat, now: int, uid: string)
    requires Inv(cfg, s) && Enabled(cfg, s, HookCall(h, now, uid, false))
    ensures Holders(Call(cfg, s, s.hooks[h], now, uid).state.sandboxes) <= Claimed(s)
  {
    hide EveryVersionOk, VersionsOk, HistoryOk, SecretsOk, SeenOk, ConditionsOk, PodsOk, PodGenerationsOk, RequestsOk,
         Classified, Secured, Evaluate, VerifySecret, Created, HoldsSlot, HasSecret, Mutated, SnapOk, DesiredSecret;
    var inv := s.hooks[h];
    assert HookOk(cfg, s, inv);
    if inv.pc.Creating? && inv.tmpl.name !in s.sandboxes {
      var w := Created(cfg, inv, now, uid, |s.versions|);
      CreatedIdentity(cfg, inv, now, uid, |s.versions|);
      WriteHolders(s.sandboxes, w.name, w);
      assert inv.tmpl.name in AdmittedNames(s);
    }
    if inv.pc.Patching? && Current(s, inv.pc.snap) {
      PatchHolders(cfg, s, h, now);
    }
  }

  lemma PatchHolders(cfg: Config, s: State, h: nat, now: int)
    requires Inv(cfg, s) && h in s.hooks && s.hooks[h].pc.Patching? && Current(s, s.hooks[h].pc.snap)
    ensures Holders(Patch(s, s.hooks[h].pc.snap, Mutated(cfg, s.hooks[h], now)).sandboxes) <= Claimed(s)
  {
    hide EveryVersionOk, HistoryOk, SecretsOk, SeenOk, ConditionsOk, PodsOk, PodGenerationsOk, RequestsOk,
         Evaluate, HoldsSlot, HasSecret, Mutated;
    var inv := s.hooks[h];
    var snap := inv.pc.snap;
    assert HookOk(cfg, s, inv);
    CurrentIsLive(s, snap);
    var mut := Mutated(cfg, inv, now);
    MutatedSlots(cfg, inv, now);
    SlotsOfStored(snap, mut, |s.versions|);
    WriteHolders(s.sandboxes, snap.name, Stored(snap, mut, |s.versions|));
    if inv.pc.newer && !HoldsSlot(snap) {
      assert inv.tmpl.name in AdmittedNames(s);
    }
  }

  lemma MutatedSlots(cfg: Config, inv: Invocation, now: int)
    requires inv.pc.Patching?
    ensures Mutated(cfg, inv, now).name == inv.pc.snap.name
    ensures !inv.pc.newer && HoldsSlot(Mutated(cfg, inv, now)) ==> HoldsSlot(inv.pc.snap)
  {
  }

  /** Where a call leads: to admission only past the check, or on from admission. */
  lemma CallAdmits(cfg: Config, s: State, h: nat, now: int, uid: string)
    requires Inv(cfg, s) && Enabled(cfg, s, HookCall(h, now, uid, false)) && cfg.maxActiveSessions > 0
    ensures var pc := Call(cfg, s, s.hooks[h], now, uid).pc;
            IsAdmitted(pc) ==>
              IsAdmitted(s.hooks[h].pc) ||
              ((s.hooks[h].pc.Admitting? || s.hooks[h].pc.AdmittingNewer?) &&
               |Holders(s.sandboxes) - {s.hooks[h].tmpl.name}| < cfg.maxActiveSessions &&
               Call(cfg, s, s.hooks[h], now, uid).state == s)
  {
    hide EveryVersionOk, VersionsOk, HistoryOk, SecretsOk, SeenOk, ConditionsOk, PodsOk, PodGenerationsOk,
         RequestsOk, HooksOk, VerifySecret, HasSecret, Mutated, DesiredSecret, Repair, Holders;
    hide ParseAttempt;
    if s.hooks[h].pc.Creating? && s.hooks[h].tmpl.name !in s.sandboxes {
      InvRequests(cfg, s, h);
      CreatedHoldsSlot(cfg, s.hooks[h], now, uid, |s.versions|);
    }
  }

  lemma CreatedHoldsSlot(cfg: Config, inv: Invocation, now: int, uid: string, rv: nat)
    requires ValidRequest(inv.req)
    ensures HoldsSlot(Created(cfg, inv, now, uid, rv))
  {
  }

  lemma StepClaims(cfg: Config, run: seq<State>, steps: seq<Step>, k: nat)
    requires ConfigOk(cfg) && IsRun(cfg, run, steps) && k < |steps| && cfg.maxActiveSessions > 0
    ensures Claimed(run[k + 1]) <= Claimed(run[k]) ||
            |Claimed(run[k + 1])| <= cfg.maxActiveSessions - 1 + |InFlight(run[k + 1])|
  {
    hide Inv, ConfigOk, CommitPass, ReportedConditions, Decide, Holders, IsAdmitted;
    RunInv(cfg, run, steps, k);
    assert Enabled(cfg, run[k], steps[k]) && run[k + 1] == Apply(cfg, run[k], steps[k]);
    if steps[k].HookCall? {
      HookCallClaims(cfg, run[k], steps[k].h, steps[k].now, steps[k].uid, steps[k].lost);
    } else {
      ControllersAddNoHolder(cfg, run, steps, k);
      NoNewAdmission(cfg, run[k], steps[k]);
    }
  }

  lemma NoNewAdmission(cfg: Config, s: State, step: Step)
    requires Enabled(cfg, s, step) && !step.HookCall?
    ensures AdmittedNames(Apply(cfg, s, step)) <= AdmittedNames(s)
  {
    hide CommitPass, ReportedConditions, Decide, HoldsSlot, Contracted, ValidRequest;
    var t := Apply(cfg, s, step);
    if IsPass(step) {
      PassKeepsHooks(s, s.versions[step.at], PassWrite(cfg, s, step));
    }
    forall h | h in t.hooks && IsAdmitted(t.hooks[h].pc) ensures h in s.hooks && s.hooks[h] == t.hooks[h] {
    }
  }

  lemma PassKeepsHooks(s: State, snap: Sandbox, write: Write)
    ensures CommitPass(s, snap, write).hooks == s.hooks
  {
  }

  lemma HookCallClaims(cfg: Config, s: State, h: nat, now: int, uid: string, lost: bool)
    requires ConfigOk(cfg) && Inv(cfg, s) && Enabled(cfg, s, HookCall(h, now, uid, lost)) && cfg.maxActiveSessions > 0
    ensures var t := Apply(cfg, s, HookCall(h, now, uid, lost));
            Claimed(t) <= Claimed(s) || |Claimed(t)| <= cfg.maxActiveSessions - 1 + |InFlight(t)|
  {
    hide Inv, ConfigOk, Call, Holders, IsAdmitted;
    var t := Apply(cfg, s, HookCall(h, now, uid, lost));
    var reply := Call(cfg, s, s.hooks[h], now, uid);
    CallHolders(cfg, s, h, now, uid);
    CallAdmits(cfg, s, h, now, uid);
    CallKeepsHooks(cfg, s, h, now, uid);
    NotAdmitted();
    if IsAdmitted(t.hooks[h].pc) && !IsAdmitted(s.hooks[h].pc) {
      assert t.hooks[h].tmpl.name in AdmittedNames(t);
      AdmissionBound(t, t.hooks[h].tmpl.name, cfg.maxActiveSessions);
    } else {
      AdmittedStay(s, t, h);
    }
  }

  lemma NotAdmitted()
    ensures !IsAdmitted(Crashed)
  {
  }

  lemma AdmittedStay(s: State, t: State, h: nat)
    requires h in s.hooks && h in t.hooks && t.hooks == s.hooks[h := s.hooks[h].(pc := t.hooks[h].pc)]
    requires IsAdmitted(t.hooks[h].pc) ==> IsAdmitted(s.hooks[h].pc)
    ensures AdmittedNames(t) <= AdmittedNames(s)
  {
    hide IsAdmitted;
  }

  lemma CallKeepsHooks(cfg: Config, s: State, h: nat, now: int, uid: string)
    requires h in s.hooks && Active(s.hooks[h].pc)
    ensures Call(cfg, s, s.hooks[h], now, uid).state.hooks == s.hooks
  {
    hide Classified, Secured, VerifySecret, Mutated, Created, DesiredSecret, Holders;
  }

  lemma {:induction false} ClaimsAreBounded(cfg: Config, run: seq<State>, steps: seq<Step>, c: nat, k: nat)
    requires ConfigOk(cfg) && IsRun(cfg, run, steps) && k < |run| && cfg.maxActiveSessions > 0 && c > 0
    requires forall j :: 0 <= j < |run| ==> |InFlight(run[j])| <= c
    ensures |Claimed(run[k])| <= cfg.maxActiveSessions + c - 1
  {
    hide ConfigOk, Claimed, InFlight, Apply, Enabled;
    if k == 0 {
      NothingClaimed();
    } else {
      ClaimsAreBounded(cfg, run, steps, c, k - 1);
      StepClaims(cfg, run, steps, k - 1);
      if Claimed(run[k]) <= Claimed(run[k - 1]) {
        SubsetSize(Claimed(run[k]), Claimed(run[k - 1]));
      }
    }
  }

  lemma NothingClaimed()
    ensures Claimed(INIT) == {}
  {
  }

  /** With at most c invocations in flight and cap L > 0, never more than L + c - 1
      Sandboxes hold a slot. */
  lemma OvershootIsBounded(cfg: Config, run: seq<State>, steps: seq<Step>, c: nat, k: nat)
    requires ConfigOk(cfg) && IsRun(cfg, run, steps) && k < |run| && cfg.maxActiveSessions > 0 && c > 0
    requires forall j :: 0 <= j < |run| ==> |InFlight(run[j])| <= c
    ensures |Holders(run[k].sandboxes)| <= cfg.maxActiveSessions + c - 1
  {
    hide IsRun, ConfigOk, InFlight, Holders;
    ClaimsAreBounded(cfg, run, steps, c, k);
    SubsetSize(Holders(run[k].sandboxes), Claimed(run[k]));
  }

  /** Invocations that never overlap respect the cap exactly. */
  lemma SerialHooksRespectTheCap(cfg: Config, run: seq<State>, steps: seq<Step>, k: nat)
    requires ConfigOk(cfg) && IsRun(cfg, run, steps) && k < |run| && cfg.maxActiveSessions > 0
    requires forall j :: 0 <= j < |run| ==> |InFlight(run[j])| <= 1
    ensures |Holders(run[k].sandboxes)| <= cfg.maxActiveSessions
  {
    OvershootIsBounded(cfg, run, steps, 1, k);
  }

  // ---- The same without naming slots

  /** The sessions that run or are about to. */
  function ActiveSessions(sandboxes: map<string, Sandbox>): set<string> {
    set n | n in sandboxes && IsActive(sandboxes[n])
  }

  lemma ActiveHold(sandboxes: map<string, Sandbox>)
    ensures ActiveSessions(sandboxes) == Holders(sandboxes)
  {
    hide IsActive, HoldsSlot;
    forall n | n in sandboxes ensures HoldsSlot(sandboxes[n]) <==> IsActive(sandboxes[n]) {
      HoldersAreActive(sandboxes[n]);
    }
  }

  /** With cap L and at most c invocations in flight, at most L + c - 1 live Sandboxes run or
      have an order pending, whatever happens in between; with one at a time at most L. */
  lemma ActiveSessionsAreBounded(cfg: Config, run: seq<State>, steps: seq<Step>, c: nat, k: nat)
    requires ConfigOk(cfg) && IsRun(cfg, run, steps) && k < |run| && cfg.maxActiveSessions > 0 && c > 0
    requires forall j :: 0 <= j < |run| ==> |InFlight(run[j])| <= c
    ensures |ActiveSessions(run[k].sandboxes)| <= cfg.maxActiveSessions + c - 1
  {
    hide IsRun, ConfigOk, ActiveSessions, Holders, InFlight;
    OvershootIsBounded(cfg, run, steps, c, k);
    ActiveHold(run[k].sandboxes);
  }

  /** Over a complete list, the check admits exactly when fewer sessions than the cap, its
      own not counted, are active in the store. */
  lemma AdmittedIff(list: seq<Sandbox>, sandboxes: map<string, Sandbox>, own: string, limit: int)
    requires Enumerates(list, sandboxes)
    ensures |Counted(list, own)| < limit <==> |ActiveSessions(sandboxes) - {own}| < limit
  {
    hide CountHolders, Counted, ActiveSessions, Holders;
    CountIs(list, own);
    CountIsHolders(list, sandboxes, own);
    ActiveHold(sandboxes);
  }

  /** A newer order passes the check by exactly if there is no cap or its own Sandbox is
      active already. */
  lemma CapIsConsultedIff(cfg: Config, req: Request, t: nat, sb: Sandbox)
    requires Evaluate(cfg, sb, req) == Newer
    ensures Classified(cfg, req, t, sb) ==
            if cfg.maxActiveSessions <= 0 || IsActive(sb) then Securing(t, sb, true) else AdmittingNewer(t, sb)
  {
    hide Evaluate;
    HoldersAreActive(sb);
  }
}
