/** A whole life of a Sandbox, as runs that exist: an order can be accepted, started,
    observed, put to sleep and collected, with a hook still holding what it read. */
module Lifecycle {
  import opened Api
  import opened Decimal
  import opened Hook
  import opened SessionController
  import opened Protocol
  import opened Invariants
  import opened Preservation
  import opened Writes
  import opened HookSteps
  import opened Runs
  import opened PodSafety
  import opened Progress
  import opened Liveness
  import opened Safety
  import Capacity
  import Recovery
  import Template

  // ---- Runs that go on

  datatype Record = Record(run: seq<State>, steps: seq<Step>)
  type History = r: Record | |r.run| == |r.steps| + 1 witness Record([INIT], [])

  function Now(h: History): State {
    h.run[|h.steps|]
  }

  ghost predicate Happens(cfg: Config, h: History) {
    IsRun(cfg, h.run, h.steps)
  }

  lemma HappensInv(cfg: Config, h: History)
    requires ConfigOk(cfg) && Happens(cfg, h)
    ensures Inv(cfg, Now(h))
  {
    hide IsRun, Inv, ConfigOk;
    RunInv(cfg, h.run, h.steps, |h.steps|);
  }

  lemma Then(cfg: Config, h: History, step: Step) returns (g: History)
    requires Happens(cfg, h) && Enabled(cfg, Now(h), step)
    ensures Happens(cfg, g) && h.run <= g.run && Now(g) == Apply(cfg, Now(h), step)
  {
    hide Enabled, Apply;
    OneMore(cfg, h.run, h.steps, step);
    g := Record(h.run + [Apply(cfg, Now(h), step)], h.steps + [step]);
  }

  // ---- Without any hook

  /** The controllers and the cluster, but no collection's end. */
  predicate ByControllers(step: Step) {
    step.ControllerPass? || step.See? || step.CreatePod? || step.DeletePod? || step.Report? || step.PodFinishes? ||
    step.PodGone?
  }

  /** No hook has moved, and the same Sandboxes stand. */
  ghost predicate SameHooks(s: State, t: State) {
    && t.hooks == s.hooks && t.sandboxes.Keys == s.sandboxes.Keys
    && forall n :: n in s.sandboxes ==> SameSession(s.sandboxes[n], t.sandboxes[n])
  }

  ghost predicate LeadsTo(cfg: Config, h: History, g: History) {
    Happens(cfg, h) && Happens(cfg, g) && h.run <= g.run && SameHooks(Now(h), Now(g))
  }

  lemma Transitive(cfg: Config, h: History, g: History, f: History)
    requires LeadsTo(cfg, h, g) && LeadsTo(cfg, g, f)
    ensures LeadsTo(cfg, h, f)
  {
    hide Happens;
    var s, t, u := Now(h), Now(g), Now(f);
    forall n | n in s.sandboxes ensures SameSession(s.sandboxes[n], u.sandboxes[n]) {
      assert n in t.sandboxes;
    }
  }

  lemma ControllersLeaveHooks(cfg: Config, s: State, step: Step)
    requires Inv(cfg, s) && Enabled(cfg, s, step) && ByControllers(step)
    ensures SameHooks(s, Apply(cfg, s, step))
  {
    hide Inv, Decide, ReportedConditions, HasPod, Live;
    if step.ControllerPass? {
      var snap := s.versions[step.at];
      InvVersions(cfg, s);
      PassIdentity(cfg, snap, step.pods, step.secret, step.list, step.now);
      PassLeavesHooks(s, snap, Decide(cfg, snap, step.pods, step.secret, step.list, step.now));
    } else if step.Report? {
      LiveIsVersion(cfg, s, step.name);
    }
  }

  lemma PassLeavesHooks(s: State, snap: Sandbox, write: Write)
    requires IsVersion(s, snap) && (forall n :: n in s.sandboxes ==> IsVersion(s, s.sandboxes[n]))
    requires write == Nothing ||
             (Written(snap, write).name == snap.name && SameSession(snap, Written(snap, write)))
    ensures SameHooks(s, CommitPass(s, snap, write))
  {
  }

  lemma OnceMore(cfg: Config, h: History, step: Step) returns (g: History)
    requires ConfigOk(cfg) && Happens(cfg, h) && Enabled(cfg, Now(h), step) && ByControllers(step)
    ensures LeadsTo(cfg, h, g) && Now(g) == Apply(cfg, Now(h), step)
  {
    hide Happens, ConfigOk, Inv, Enabled, Apply, SameHooks;
    HappensInv(cfg, h);
    ControllersLeaveHooks(cfg, Now(h), step);
    g := Then(cfg, h, step);
  }

  // ---- From prepared to observed

  lemma DueIsByControllers(s: State, step: Step, n: string, kind: Kind)
    requires OfKind(s, step, n, kind)
    ensures ByControllers(step) && step != Finalize(n)
  {
  }

  /** A prepared order can be observed, by the controllers and the cluster alone. */
  lemma {:induction false} CanBeObserved(cfg: Config, h: History, n: string) returns (g: History)
    requires ConfigOk(cfg) && Happens(cfg, h) && Pending(Now(h), n)
    ensures LeadsTo(cfg, h, g) && n in Now(g).sandboxes && Working(Now(g).sandboxes[n]) && !Now(g).sandboxes[n].deleting
    ensures Now(g).sandboxes[n].Annotation(LastOrderId) == Now(h).sandboxes[n].Annotation(LastOrderId)
    decreases RankOf(ViewOf(Now(h), n)).writes, RankOf(ViewOf(Now(h), n)).lag, RankOf(ViewOf(Now(h), n)).pod,
              RankOf(ViewOf(Now(h), n)).report, RankOf(ViewOf(Now(h), n)).unseen
  {
    hide Happens, ConfigOk, Inv, Enabled, Apply, SameHooks, OfKind, DueKind, RankOf, ViewOf, Working;
    var s := Now(h);
    HappensInv(cfg, h);
    var step := DueKindCanStep(cfg, s, n);
    DueIsByControllers(s, step, n, DueKind(ViewOf(s, n)));
    g := OnceMore(cfg, h, step);
    DueStepAdvances(cfg, s, n, step);
    if Pending(Now(g), n) {
      var f := CanBeObserved(cfg, g, n);
      Transitive(cfg, h, g, f);
      g := f;
    }
  }

  /** A pending Sandbox is not collected. */
  lemma PendingIsNotCollected(cfg: Config, sb: Sandbox, pods: seq<Pod>, secret: Option<Secret>, list: seq<Sandbox>,
                              now: int)
    requires sb.Annotation(PendingSpawn) != ""
    ensures var write := Decide(cfg, sb, pods, secret, list, now);
            write == Nothing || Written(sb, write).deleting == sb.deleting
  {
    hide ValidWorkOrderSecret, NamedVolume, Installed, CurrentGenerationTrue;
  }

  lemma StepKeepsUndeleted(cfg: Config, s: State, n: string, step: Step)
    requires Enabled(cfg, s, step) && ByControllers(step) && n in s.sandboxes
    requires step.ControllerPass? ==> s.versions[step.at] == s.sandboxes[n]
    requires (forall m :: m in s.sandboxes ==> s.sandboxes[m].name == m) && !s.sandboxes[n].deleting &&
             s.sandboxes[n].Annotation(PendingSpawn) != ""
    ensures n in Apply(cfg, s, step).sandboxes ==> !Apply(cfg, s, step).sandboxes[n].deleting
  {
    hide Decide, ReportedConditions, HasPod, Live;
    if step.ControllerPass? {
      PendingIsNotCollected(cfg, s.sandboxes[n], step.pods, step.secret, step.list, step.now);
      CommitKeepsUndeleted(s, s.sandboxes[n], Decide(cfg, s.sandboxes[n], step.pods, step.secret, step.list, step.now));
    }
  }

  lemma CommitKeepsUndeleted(s: State, sb: Sandbox, write: Write)
    requires sb.name in s.sandboxes && s.sandboxes[sb.name] == sb && !sb.deleting
    requires write == Nothing || !Written(sb, write).deleting
    ensures var t := CommitPass(s, sb, write); sb.name in t.sandboxes ==> !t.sandboxes[sb.name].deleting
  {
  }

  lemma DueStepAdvances(cfg: Config, s: State, n: string, step: Step)
    requires ConfigOk(cfg) && Inv(cfg, s) && Pending(s, n) && Enabled(cfg, s, step)
    requires OfKind(s, step, n, DueKind(ViewOf(s, n)))
    ensures var t := Apply(cfg, s, step);
            && KeepsOrder(s, t, n) && Lower(RankOf(ViewOf(t, n)), RankOf(ViewOf(s, n)))
            && !t.sandboxes[n].deleting
  {
    hide ConfigOk, Inv, Enabled, OfKind, DueKind, RankOf, ViewOf, Working, Lower;
    DueKindMoves(cfg, s, n, step);
    EveryStepAdvances(cfg, s, step, n);
    DueIsByControllers(s, step, n, DueKind(ViewOf(s, n)));
    PendingPhase(cfg, s, n);
    DuePassIsCurrent(cfg, s, n, step);
    NamesFit(cfg, s);
    StepKeepsUndeleted(cfg, s, n, step);
  }

  lemma DuePassIsCurrent(cfg: Config, s: State, n: string, step: Step)
    requires Inv(cfg, s) && n in s.sandboxes && OfKind(s, step, n, DueKind(ViewOf(s, n)))
    ensures step.ControllerPass? ==> step.at < |s.versions| && s.versions[step.at] == s.sandboxes[n]
  {
    hide Inv, DueKind, ViewOf;
    LiveIsVersion(cfg, s, n);
  }

  // ---- From observed to asleep

  /** The sandbox controller sees the live Sandbox. */
  lemma CatchUp(cfg: Config, h: History, n: string) returns (g: History)
    requires ConfigOk(cfg) && Happens(cfg, h) && n in Now(h).sandboxes
    ensures LeadsTo(cfg, h, g) && Now(g) == Now(h).(seen := Now(g).seen)
    ensures var sb := Now(h).sandboxes[n]; sb.uid in Now(g).seen && Now(g).seen[sb.uid] == sb
  {
    hide Happens, ConfigOk, Inv, SameHooks;
    HappensInv(cfg, h);
    var s := Now(h);
    var sb := s.sandboxes[n];
    if ViewOf(s, n).seen == Some(sb) {
      g := h;
      NothingMoved(cfg, h);
    } else {
      SeeMoves(cfg, s, n);
      PossibleIsEnabled(cfg, s, See(sb.rv), n);
      LiveIsVersion(cfg, s, n);
      g := OnceMore(cfg, h, See(sb.rv));
    }
  }

  lemma NothingMoved(cfg: Config, h: History)
    requires Happens(cfg, h)
    ensures LeadsTo(cfg, h, h)
  {
    hide Happens;
  }

  /** The sandbox controller reports what it sees. */
  lemma Reported(cfg: Config, h: History, n: string) returns (g: History)
    requires ConfigOk(cfg) && Happens(cfg, h) && n in Now(h).sandboxes && Now(h).sandboxes[n].uid in Now(h).seen
    ensures LeadsTo(cfg, h, g) && Now(g).seen == Now(h).seen && Now(g).pods == Now(h).pods && n in Now(g).sandboxes
    ensures var sb := Now(h).sandboxes[n];
            Now(g).sandboxes[n] ==
            sb.(rv := Now(g).sandboxes[n].rv, conditions := ReportedConditions(Now(h).seen[sb.uid], Now(h).pods))
  {
    hide Happens, ConfigOk, Inv, SameHooks, ReportedConditions;
    HappensInv(cfg, h);
    var s := Now(h);
    if Enabled(cfg, s, Report(n)) {
      LiveIsVersion(cfg, s, n);
      g := OnceMore(cfg, h, Report(n));
    } else {
      g := h;
      NothingMoved(cfg, h);
    }
  }

  lemma MakePod(cfg: Config, h: History, n: string) returns (g: History)
    requires ConfigOk(cfg) && Happens(cfg, h) && n in Now(h).sandboxes
    requires var sb := Now(h).sandboxes[n];
             sb.uid in Now(h).seen && Now(h).seen[sb.uid] == sb && sb.IsRunning() && !sb.deleting
    ensures LeadsTo(cfg, h, g) && Now(g).seen == Now(h).seen && Now(g).sandboxes == Now(h).sandboxes
    ensures HasPod(Now(g).pods, Now(h).sandboxes[n].uid)
  {
    hide Happens, ConfigOk, Inv, SameHooks;
    var s := Now(h);
    var uid := s.sandboxes[n].uid;
    if HasPod(s.pods, uid) {
      g := h;
      NothingMoved(cfg, h);
    } else {
      var id := FreshPodId(s.podsEver);
      g := OnceMore(cfg, h, CreatePod(uid, id));
      assert Now(g).pods[id].owner == uid;
    }
  }

  lemma FinishPod(cfg: Config, h: History, n: string) returns (g: History)
    requires ConfigOk(cfg) && Happens(cfg, h) && n in Now(h).sandboxes
    requires HasPod(Now(h).pods, Now(h).sandboxes[n].uid)
    ensures LeadsTo(cfg, h, g) && Now(g).seen == Now(h).seen && Now(g).sandboxes == Now(h).sandboxes
    ensures HasTerminalPod(Now(g).pods, Now(h).sandboxes[n].uid)
  {
    hide Happens, ConfigOk, Inv, SameHooks;
    HappensInv(cfg, h);
    var s := Now(h);
    var uid := s.sandboxes[n].uid;
    var id :| id in s.pods && s.pods[id].owner == uid;
    if s.pods[id].terminal {
      g := h;
      NothingMoved(cfg, h);
    } else {
      OnlyPod(cfg, s, id);
      g := OnceMore(cfg, h, PodFinishes(id));
      assert Now(g).pods[id].owner == uid && Now(g).pods[id].terminal;
    }
  }

  lemma RemovePod(cfg: Config, h: History, n: string) returns (g: History)
    requires ConfigOk(cfg) && Happens(cfg, h) && n in Now(h).sandboxes
    requires var sb := Now(h).sandboxes[n]; sb.uid in Now(h).seen && Now(h).seen[sb.uid] == sb && !sb.IsRunning()
    ensures LeadsTo(cfg, h, g) && Now(g).seen == Now(h).seen && Now(g).sandboxes == Now(h).sandboxes
    ensures !HasPod(Now(g).pods, Now(h).sandboxes[n].uid)
  {
    hide Happens, ConfigOk, Inv, SameHooks;
    var s := Now(h);
    var uid := s.sandboxes[n].uid;
    g := h;
    NothingMoved(cfg, h);
    if HasPod(s.pods, uid) {
      var id :| id in s.pods && s.pods[id].owner == uid;
      g := MarkPod(cfg, h, n, id);
      var f := OnceMore(cfg, g, PodGone(id));
      LastPodGone(cfg, g, id);
      Transitive(cfg, h, g, f);
      g := f;
    }
  }

  /** The Pod is asked to go. */
  lemma MarkPod(cfg: Config, h: History, n: string, id: nat) returns (g: History)
    requires ConfigOk(cfg) && Happens(cfg, h) && n in Now(h).sandboxes && id in Now(h).pods
    requires var sb := Now(h).sandboxes[n];
             && sb.uid in Now(h).seen && Now(h).seen[sb.uid] == sb && !sb.IsRunning() && Now(h).pods[id].owner == sb.uid
    ensures LeadsTo(cfg, h, g) && Now(g).seen == Now(h).seen && Now(g).sandboxes == Now(h).sandboxes
    ensures id in Now(g).pods && Now(g).pods[id].deleting && Now(g).pods[id].owner == Now(h).sandboxes[n].uid
  {
    hide Happens, ConfigOk, Inv, SameHooks, Live;
    HappensInv(cfg, h);
    OnlyPod(cfg, Now(h), id);
    if Now(h).pods[id].deleting {
      g := h;
      NothingMoved(cfg, h);
    } else {
      g := OnceMore(cfg, h, DeletePod(id));
    }
  }

  lemma LastPodGone(cfg: Config, h: History, id: nat)
    requires ConfigOk(cfg) && Happens(cfg, h) && id in Now(h).pods
    ensures !HasPod(Now(h).pods - {id}, Now(h).pods[id].owner)
  {
    hide Happens, ConfigOk, Inv;
    HappensInv(cfg, h);
    OnlyPod(cfg, Now(h), id);
    var own := PodsOf(Now(h).pods, Now(h).pods[id].owner);
    assert forall jd :: jd in Now(h).pods && Now(h).pods[jd].owner == Now(h).pods[id].owner ==> jd in own;
    assert forall jd :: jd in own ==> jd == id;
  }

  /** A pass that reads the live Sandbox and nothing else commits what it decides. */
  lemma PassCommits(cfg: Config, h: History, n: string, now: int) returns (g: History)
    requires ConfigOk(cfg) && Happens(cfg, h) && n in Now(h).sandboxes && IsTime(now)
    requires Decide(cfg, Now(h).sandboxes[n], [], None, [], now) != Nothing
    ensures LeadsTo(cfg, h, g) && n in Now(g).sandboxes
    ensures var sb := Now(h).sandboxes[n];
            Now(g).sandboxes[n] ==
            Stored(sb, Written(sb, Decide(cfg, sb, [], None, [], now)), Now(g).sandboxes[n].rv)
  {
    hide Happens, ConfigOk, Inv, SameHooks, Decide;
    HappensInv(cfg, h);
    var s := Now(h);
    LiveIsVersion(cfg, s, n);
    PassIdentity(cfg, s.sandboxes[n], [], None, [], now);
    g := OnceMore(cfg, h, ControllerPass(s.sandboxes[n].rv, [], None, [], now));
    CommitIsPut(s, s.sandboxes[n], Decide(cfg, s.sandboxes[n], [], None, [], now));
  }


  /** Asleep since the epoch. */
  predicate Dozing(sb: Sandbox) {
    Asleep(sb) && !sb.deleting && sb.Annotation(LastSuspendedAt) == FormatInt(0)
  }

  lemma SleepDecides(cfg: Config, sb: Sandbox)
    requires Working(sb) && !sb.deleting && Selected(cfg, sb.labels) && CurrentGenerationTrue(sb, FinishedCondition)
    ensures Decide(cfg, sb, [], None, [], 0) == Slept(Sleep(sb, 0).value)
    ensures forall rv: nat :: Dozing(Stored(sb, Sleep(sb, 0).value, rv))
    ensures Sleep(sb, 0).value.annotations == sb.annotations[LastSuspendedAt := FormatInt(0)]
    ensures Sleep(sb, 0).value.labels == sb.labels
  {
    hide FormatInt, ParseInt;
    ParseFormatInt(0);
  }

  lemma FinishReported(sb: Sandbox, pods: map<nat, Pod>)
    requires sb.IsRunning() && HasTerminalPod(pods, sb.uid) && sb.conditions == ReportedConditions(sb, pods)
    ensures CurrentGenerationTrue(sb, FinishedCondition)
  {
  }

  /** What the server stamps and the sandbox controller reports is no content. */
  lemma StampsAreNoContent(sb: Sandbox, rv: nat, conditions: map<ConditionType, Condition>)
    ensures var w := sb.(rv := rv, conditions := conditions);
            && Working(w) == Working(sb) && Dozing(w) == Dozing(sb)
            && forall pods :: ReportedConditions(w, pods) == ReportedConditions(sb, pods)
  {
  }

  lemma PassSleeps(cfg: Config, h: History, n: string) returns (g: History)
    requires ConfigOk(cfg) && Happens(cfg, h) && n in Now(h).sandboxes
    requires var sb := Now(h).sandboxes[n]; Working(sb) && !sb.deleting && CurrentGenerationTrue(sb, FinishedCondition)
    ensures LeadsTo(cfg, h, g) && n in Now(g).sandboxes && Dozing(Now(g).sandboxes[n])
    ensures Now(g).sandboxes[n].annotations == Now(h).sandboxes[n].annotations[LastSuspendedAt := FormatInt(0)]
    ensures Now(g).sandboxes[n].labels == Now(h).sandboxes[n].labels
  {
    hide Happens, ConfigOk, SameHooks, Inv, Working, Asleep, Decide, FormatInt, Selected, CurrentGenerationTrue;
    HappensInv(cfg, h);
    var sb := Now(h).sandboxes[n];
    LiveSelected(cfg, Now(h), n);
    SleepDecides(cfg, sb);
    g := PassCommits(cfg, h, n, 0);
  }

  /** An observed Sandbox's runner can finish, and the Sandbox be put to sleep. */
  lemma CanDoze(cfg: Config, h: History, n: string) returns (g: History)
    requires ConfigOk(cfg) && Happens(cfg, h) && n in Now(h).sandboxes
    requires Working(Now(h).sandboxes[n]) && !Now(h).sandboxes[n].deleting
    ensures LeadsTo(cfg, h, g) && n in Now(g).sandboxes && Dozing(Now(g).sandboxes[n])
    ensures Now(g).sandboxes[n].annotations == Now(h).sandboxes[n].annotations[LastSuspendedAt := FormatInt(0)]
    ensures Now(g).sandboxes[n].labels == Now(h).sandboxes[n].labels
  {
    hide Happens, ConfigOk, SameHooks, Inv, Working, Dozing, ReportedConditions, HasPod, HasTerminalPod, FormatInt;
    g := CatchUp(cfg, h, n);
    WorkingRuns(Now(h).sandboxes[n]);
    var f := MakePod(cfg, g, n);
    Transitive(cfg, h, g, f);
    g := FinishPod(cfg, f, n);
    Transitive(cfg, h, f, g);
    f := Reported(cfg, g, n);
    Transitive(cfg, h, g, f);
    var sb := Now(f).sandboxes[n];
    StampsAreNoContent(Now(h).sandboxes[n], sb.rv, sb.conditions);
    FinishReported(sb, Now(f).pods);
    g := PassSleeps(cfg, f, n);
    Transitive(cfg, h, f, g);
  }

  lemma WorkingRuns(sb: Sandbox)
    ensures (Working(sb) ==> sb.IsRunning()) && (Dozing(sb) ==> !sb.IsRunning() && !sb.deleting)
  {
  }

  /** And its Pod go, and that be confirmed. */
  lemma CanSleep(cfg: Config, h: History, n: string) returns (g: History)
    requires ConfigOk(cfg) && Happens(cfg, h) && n in Now(h).sandboxes && Dozing(Now(h).sandboxes[n])
    ensures LeadsTo(cfg, h, g) && n in Now(g).sandboxes
    ensures Dozing(Now(g).sandboxes[n]) && CurrentGenerationTrue(Now(g).sandboxes[n], SuspendedCondition)
    ensures Now(g).sandboxes[n].annotations == Now(h).sandboxes[n].annotations
    ensures Now(g).sandboxes[n].labels == Now(h).sandboxes[n].labels
  {
    hide Happens, ConfigOk, SameHooks, Inv, Dozing, ReportedConditions, HasPod, CurrentGenerationTrue;
    g := CatchUp(cfg, h, n);
    WorkingRuns(Now(h).sandboxes[n]);
    var f := RemovePod(cfg, g, n);
    Transitive(cfg, h, g, f);
    g := Reported(cfg, f, n);
    Transitive(cfg, h, f, g);
    var sb := Now(g).sandboxes[n];
    StampsAreNoContent(Now(h).sandboxes[n], sb.rv, sb.conditions);
    SuspensionReported(sb, Now(g).pods);
  }

  // ---- Collected

  lemma CollectDecides(cfg: Config, sb: Sandbox)
    requires Dozing(sb) && CurrentGenerationTrue(sb, SuspendedCondition) && Selected(cfg, sb.labels)
    requires cfg.gcEnabled && cfg.gcMaxIdleAge <= MAX_INT64
    ensures Decide(cfg, sb, [], None, [], MAX_INT64) == Collect
  {
    hide FormatInt, ParseInt, IdleEntries;
    ParseFormatInt(0);
  }

  /** Gone, with nobody told. */
  lemma CanVanish(cfg: Config, h: History, n: string) returns (g: History)
    requires ConfigOk(cfg) && Happens(cfg, h) && n in Now(h).sandboxes
    requires Dozing(Now(h).sandboxes[n]) && CurrentGenerationTrue(Now(h).sandboxes[n], SuspendedCondition)
    requires cfg.gcEnabled && cfg.gcMaxIdleAge <= MAX_INT64
    ensures Happens(cfg, g) && h.run <= g.run && Now(g).hooks == Now(h).hooks
    ensures Now(g).sandboxes.Keys == Now(h).sandboxes.Keys - {n}
  {
    hide Happens, ConfigOk, Inv, Dozing, Decide, Selected, CurrentGenerationTrue;
    HappensInv(cfg, h);
    LiveSelected(cfg, Now(h), n);
    CollectDecides(cfg, Now(h).sandboxes[n]);
    var f := PassCommits(cfg, h, n, MAX_INT64);
    g := Then(cfg, f, Finalize(n));
  }

  // ---- Hooks

  /** Nothing has happened but to one invocation and the Secrets. */
  ghost predicate OnlySecrets(s: State, t: State, h: nat) {
    && t.sandboxes == s.sandboxes && t.versions == s.versions
    && h in s.hooks && h in t.hooks && t.hooks == s.hooks[h := s.hooks[h].(pc := t.hooks[h].pc)]
  }

  lemma SecretsOnly(s: State, t: State, u: State, h: nat)
    requires OnlySecrets(s, t, h) && OnlySecrets(t, u, h)
    ensures OnlySecrets(s, u, h)
  {
    assert s.hooks[h].(pc := t.hooks[h].pc).(pc := u.hooks[h].pc) == s.hooks[h].(pc := u.hooks[h].pc);
  }

  /** The invocation's next call, served. */
  lemma Served(cfg: Config, h: History, k: nat, uid: string) returns (g: History)
    requires Happens(cfg, h) && k in Now(h).hooks && Active(Now(h).hooks[k].pc)
    requires Now(h).hooks[k].pc.Creating? ==> NewUid(Now(h), uid)
    ensures Happens(cfg, g) && h.run <= g.run
    ensures var reply := Call(cfg, Now(h), Now(h).hooks[k], 0, uid);
            reply.state.hooks == Now(h).hooks && Now(g) == SetPc(reply.state, k, reply.pc)
  {
    hide Happens, Call;
    Capacity.CallKeepsHooks(cfg, Now(h), k, 0, uid);
    g := Then(cfg, h, HookCall(k, 0, uid, false));
  }

  /** The Secret due is created, or verified. */
  lemma GetsSecret(cfg: Config, h: History, k: nat) returns (g: History)
    requires ConfigOk(cfg) && Happens(cfg, h) && k in Now(h).hooks && Now(h).hooks[k].pc.Securing?
    ensures Happens(cfg, g) && h.run <= g.run && OnlySecrets(Now(h), Now(g), k)
    ensures var inv := Now(h).hooks[k];
            Now(g).hooks[k].pc == Secured(cfg, inv.req, inv.pc.tries, inv.pc.snap, inv.pc.newer)
  {
    hide Happens, ConfigOk, Inv, Secured, VerifySecret, WorkOrderSecret;
    HappensInv(cfg, h);
    var inv := Now(h).hooks[k];
    g := Served(cfg, h, k, "");
    if DesiredSecret(cfg, inv, inv.pc.snap.uid).name in Now(h).secrets {
      StandingVerifies(cfg, Now(h), k, inv.pc.snap.uid);
      var f := Served(cfg, g, k, "");
      g := f;
    }
  }

  lemma StandingVerifies(cfg: Config, s: State, k: nat, uid: string)
    requires ConfigOk(cfg) && Inv(cfg, s) && k in s.hooks && DesiredSecret(cfg, s.hooks[k], uid).name in s.secrets
    ensures VerifySecret(s.secrets[DesiredSecret(cfg, s.hooks[k], uid).name], DesiredSecret(cfg, s.hooks[k], uid))
  {
    hide ConfigOk, RequestsOk, VersionsOk, EveryVersionOk, HistoryOk, SecretsOk, SeenOk, ConditionsOk, PodsOk,
         PodGenerationsOk, HooksOk, VerifySecret, WorkOrderSecret, HasSecret;
    ExistingSecretVerifies(cfg, s, k, uid);
  }

  /** An invocation of a newer order gets to its patch, if the cap has room. */
  lemma NewerGetsToItsPatch(cfg: Config, h: History, k: nat) returns (g: History)
    requires ConfigOk(cfg) && Happens(cfg, h) && k in Now(h).hooks && Now(h).hooks[k].pc.Reading?
    requires var inv := Now(h).hooks[k];
             && inv.tmpl.name in Now(h).sandboxes && Evaluate(cfg, Now(h).sandboxes[inv.tmpl.name], inv.req) == Newer
             && Recovery.Room(cfg, Now(h), Now(h).sandboxes[inv.tmpl.name])
    ensures Happens(cfg, g) && h.run <= g.run && OnlySecrets(Now(h), Now(g), k)
    ensures var inv := Now(h).hooks[k];
            Now(g).hooks[k].pc == Patching(inv.pc.tries, Now(h).sandboxes[inv.tmpl.name], true)
  {
    hide Happens, ConfigOk, Inv, Evaluate, HoldsSlot, Holders, SecretStands;
    HappensInv(cfg, h);
    var inv := Now(h).hooks[k];
    LiveIsVersion(cfg, Now(h), inv.tmpl.name);
    var f := Served(cfg, h, k, "");
    if Now(f).hooks[k].pc.AdmittingNewer? {
      f := Served(cfg, f, k, "");
    }
    g := GetsSecret(cfg, f, k);
    SecretsOnly(Now(h), Now(f), Now(g), k);
  }

  /** An invocation that finds nothing creates the Sandbox and has its order prepared. */
  lemma CanBePrepared(cfg: Config, h: History, k: nat, uid: string) returns (g: History)
    requires ConfigOk(cfg) && Happens(cfg, h) && k in Now(h).hooks && Now(h).hooks[k].pc.Reading?
    requires var inv := Now(h).hooks[k];
             && inv.tmpl.name !in Now(h).sandboxes && Get(inv.tmpl.labels, PartOfLabel) == PART_OF
             && (cfg.maxActiveSessions <= 0 || |Holders(Now(h).sandboxes) - {inv.tmpl.name}| < cfg.maxActiveSessions)
    requires NewUid(Now(h), uid)
    ensures Happens(cfg, g) && h.run <= g.run
    ensures k in Now(g).hooks && Now(g).hooks == Now(h).hooks[k := Now(h).hooks[k].(pc := Now(g).hooks[k].pc)]
    ensures var n := Now(h).hooks[k].tmpl.name;
            && Now(g).sandboxes.Keys == Now(h).sandboxes.Keys + {n} && Now(g).sandboxes[n].uid == uid
            && Pending(Now(g), n) && Evaluate(cfg, Now(g).sandboxes[n], Now(h).hooks[k].req) == Redelivery
  {
    hide Happens, ConfigOk, Inv, Evaluate, Holders, Created, Repair;
    HappensInv(cfg, h);
    var inv := Now(h).hooks[k];
    var f := Served(cfg, h, k, uid);
    if Now(f).hooks[k].pc.Admitting? {
      f := Served(cfg, f, k, uid);
    }
    g := CanCreate(cfg, f, k, uid);
  }

  /** What a creator finds when its create returns. */
  lemma NewSandbox(cfg: Config, inv: Invocation, uid: string, rv: nat)
    requires ValidRequest(inv.req) && Contracted(cfg, inv.tmpl, inv.req) && Get(inv.tmpl.labels, PartOfLabel) == PART_OF
    ensures var sb := Created(cfg, inv, 0, uid, rv);
            && sb.name == inv.tmpl.name && sb.uid == uid && sb.rv == rv && !sb.deleting
            && Evaluate(cfg, sb, inv.req) == Redelivery
            && Unprepared(sb) && sb.Annotation(PendingSpawn) == inv.req.order
  {
    hide FormatInt, Evaluate, Contracted;
    CreatedIdentity(cfg, inv, 0, uid, rv);
    Template.ForeignPartOfIsRefused(cfg, inv, 0, uid, rv, 0);
  }

  /** And what its patch makes of it. */
  lemma FirstPatch(cfg: Config, sb: Sandbox, req: Request, name: string, rv: nat)
    requires ValidRequest(req) && name != ""
    requires !sb.deleting && Evaluate(cfg, sb, req) == Redelivery && Unprepared(sb) &&
             sb.Annotation(PendingSpawn) == req.order
    ensures Repair(sb, req, name).Repaired?
    ensures var w := Stored(sb, Repair(sb, req, name).mut, rv);
            && w.name == sb.name && w.uid == sb.uid && !w.deleting && w.Annotation(PendingSecret) != ""
            && Evaluate(cfg, w, req) == Redelivery
  {
    hide ParseInt;
  }

  /** The created Sandbox stands, and its creator prepares it. */
  lemma CanPrepare(cfg: Config, h: History, k: nat, sb: Sandbox) returns (g: History)
    requires ConfigOk(cfg) && Happens(cfg, h) && k in Now(h).hooks && ValidRequest(Now(h).hooks[k].req)
    requires Now(h).hooks[k].pc.Securing? && !Now(h).hooks[k].pc.newer && Now(h).hooks[k].pc.snap == sb
    requires sb.name in Now(h).sandboxes && Now(h).sandboxes[sb.name] == sb && !sb.deleting
    requires var req := Now(h).hooks[k].req;
             Evaluate(cfg, sb, req) == Redelivery && Unprepared(sb) && sb.Annotation(PendingSpawn) == req.order
    ensures Happens(cfg, g) && h.run <= g.run
    ensures k in Now(g).hooks && Now(g).hooks == Now(h).hooks[k := Now(h).hooks[k].(pc := Now(g).hooks[k].pc)]
    ensures sb.name in Now(g).sandboxes && Now(g).sandboxes == Now(h).sandboxes[sb.name := Now(g).sandboxes[sb.name]]
    ensures Pending(Now(g), sb.name)
    ensures Now(g).sandboxes[sb.name].uid == sb.uid
    ensures Evaluate(cfg, Now(g).sandboxes[sb.name], Now(h).hooks[k].req) == Redelivery
  {
    hide Happens, ConfigOk, Evaluate, Repair, Unprepared;
    var inv := Now(h).hooks[k];
    var name := cfg.names.secret(inv.req.session, sb.uid, inv.req.order);
    assert name != "" by { NameNotEmpty(cfg, inv.req.session, sb.uid, inv.req.order); }
    var f := GetsSecret(cfg, h, k);
    FirstPatch(cfg, sb, inv.req, name, |Now(f).versions|);
    assert Now(f).hooks[k].pc == Patching(inv.pc.tries, sb, false);
    g := Served(cfg, f, k, "");
    assert Now(g).sandboxes[sb.name] == Stored(sb, Repair(sb, inv.req, name).mut, |Now(f).versions|);
  }

  lemma CanCreate(cfg: Config, h: History, k: nat, uid: string) returns (g: History)
    requires ConfigOk(cfg) && Happens(cfg, h) && k in Now(h).hooks && Now(h).hooks[k].pc.Creating?
    requires var inv := Now(h).hooks[k];
             inv.tmpl.name !in Now(h).sandboxes && Get(inv.tmpl.labels, PartOfLabel) == PART_OF
    requires NewUid(Now(h), uid)
    ensures Happens(cfg, g) && h.run <= g.run
    ensures k in Now(g).hooks && Now(g).hooks == Now(h).hooks[k := Now(h).hooks[k].(pc := Now(g).hooks[k].pc)]
    ensures var n := Now(h).hooks[k].tmpl.name;
            && Now(g).sandboxes.Keys == Now(h).sandboxes.Keys + {n} && Now(g).sandboxes[n].uid == uid
            && Pending(Now(g), n) && Evaluate(cfg, Now(g).sandboxes[n], Now(h).hooks[k].req) == Redelivery
  {
    hide Happens, ConfigOk, Inv, Evaluate, Created, NewUid, Unprepared, Contracted, ValidRequest, Pending;
    HappensInv(cfg, h);
    var inv := Now(h).hooks[k];
    var sb := Created(cfg, inv, 0, uid, |Now(h).versions|);
    InvRequests(cfg, Now(h), k);
    NewSandbox(cfg, inv, uid, |Now(h).versions|);
    var f := Served(cfg, h, k, uid);
    assert Now(f).hooks[k] == inv.(pc := Securing(inv.pc.tries, sb, false));
    g := CanPrepare(cfg, f, k, sb);
  }

  // ---- A Sandbox that vanishes under its hook

  /** An order of a higher attempt is newer, whatever became of the first one. */
  lemma HigherIsNewer(cfg: Config, s: State, n: string, k: nat, was: Sandbox, second: Request)
    requires Inv(cfg, s) && n in s.sandboxes && k in s.hooks && !s.sandboxes[n].deleting
    requires Evaluate(cfg, was, s.hooks[k].req) == Redelivery && s.sandboxes[n].labels == was.labels
    requires s.sandboxes[n].Annotation(LastOrderId) == s.hooks[k].req.order
    requires second.session == s.hooks[k].req.session && second.order != s.hooks[k].req.order
    requires s.hooks[k].req.attempt < second.attempt
    ensures Evaluate(cfg, s.sandboxes[n], second) == Newer
  {
    hide Inv, FormatInt, ParseInt, VersionOk, HasSecret, WorkOrderSecretOf;
    var g := LiveFacts(cfg, s, n);
    LiveRequests(cfg, s);
    RequestsAgree(cfg, s, g, k);
    AttemptOf(cfg, s.sandboxes[n], s.hooks[g].req);
  }

  lemma LiveRequests(cfg: Config, s: State)
    requires Inv(cfg, s)
    ensures RequestsOk(cfg, s)
  {
    hide EveryVersionOk, VersionsOk, HistoryOk, SecretsOk, SeenOk, ConditionsOk, PodsOk, PodGenerationsOk, HooksOk,
         RequestsOk;
  }

  /** A prepared order, to its sleep. */
  lemma CanFallAsleep(cfg: Config, h: History, n: string) returns (g: History)
    requires ConfigOk(cfg) && Happens(cfg, h) && Pending(Now(h), n)
    ensures LeadsTo(cfg, h, g) && n in Now(g).sandboxes
    ensures Dozing(Now(g).sandboxes[n]) && CurrentGenerationTrue(Now(g).sandboxes[n], SuspendedCondition)
    ensures Now(g).sandboxes[n].Annotation(LastOrderId) == Now(h).sandboxes[n].Annotation(LastOrderId)
    ensures Now(g).sandboxes[n].labels == Now(h).sandboxes[n].labels
  {
    hide Happens, ConfigOk, Dozing, Working, CurrentGenerationTrue, FormatInt;
    var e := CanBeObserved(cfg, h, n);
    var f := CanDoze(cfg, e, n);
    Transitive(cfg, h, e, f);
    g := CanSleep(cfg, f, n);
    Transitive(cfg, h, f, g);
    assert SameSession(Now(h).sandboxes[n], Now(g).sandboxes[n]);
  }

  /** A session's first order, prepared. */
  lemma FirstOrderIsPrepared(cfg: Config, first: Request, tmpl: Sandbox) returns (h: History)
    requires ConfigOk(cfg) && ValidRequest(first) && Contracted(cfg, tmpl, first) &&
             Get(tmpl.labels, PartOfLabel) == PART_OF
    ensures Happens(cfg, h) && Now(h).hooks.Keys == {0} && Now(h).hooks[0].req == first
    ensures Now(h).sandboxes.Keys == {tmpl.name} && Pending(Now(h), tmpl.name)
    ensures Evaluate(cfg, Now(h).sandboxes[tmpl.name], first) == Redelivery
  {
    hide IsRun, ConfigOk, Evaluate, Contracted, ValidRequest, Holders, Pending;
    h := Record([INIT], []);
    assert Happens(cfg, h) by { NothingYet(cfg); }
    h := Then(cfg, h, Start(0, first, tmpl));
    NobodyHolds(Now(h), tmpl.name);
    h := CanBePrepared(cfg, h, 0, "x");
  }

  /** What can become of it: a sleeper to which every higher attempt is newer. */
  lemma FirstOrderSleeps(cfg: Config, first: Request, tmpl: Sandbox) returns (g: History)
    requires ConfigOk(cfg) && ValidRequest(first) && Contracted(cfg, tmpl, first) &&
             Get(tmpl.labels, PartOfLabel) == PART_OF
    ensures Happens(cfg, g) && Now(g).hooks.Keys == {0} && Now(g).hooks[0].req == first
    ensures Now(g).sandboxes.Keys == {tmpl.name}
    ensures Dozing(Now(g).sandboxes[tmpl.name]) &&
            CurrentGenerationTrue(Now(g).sandboxes[tmpl.name], SuspendedCondition)
    ensures forall second: Request ::
              second.session == first.session && second.order != first.order && first.attempt < second.attempt ==>
                Evaluate(cfg, Now(g).sandboxes[tmpl.name], second) == Newer
  {
    hide IsRun, ConfigOk, Inv, Evaluate, Dozing, CurrentGenerationTrue, Contracted, ValidRequest, Pending;
    var n := tmpl.name;
    var h := FirstOrderIsPrepared(cfg, first, tmpl);
    var was := Now(h).sandboxes[n];
    OrderTells(cfg, was, first);
    g := CanFallAsleep(cfg, h, n);
    HappensInv(cfg, g);
    WorkingRuns(Now(g).sandboxes[n]);
    forall second: Request | second.session == first.session && second.order != first.order &&
        first.attempt < second.attempt
      ensures Evaluate(cfg, Now(g).sandboxes[n], second) == Newer
    {
      HigherIsNewer(cfg, Now(g), n, 0, was, second);
    }
  }

  lemma NothingYet(cfg: Config)
    ensures Happens(cfg, Record([INIT], []))
  {
  }

  lemma NobodyHolds(s: State, n: string)
    requires s.sandboxes.Keys <= {n}
    ensures Holders(s.sandboxes) - {n} == {}
  {
    hide HoldsSlot;
  }

  /** The second order's hook reads the sleeper and gets to its patch; then the sleeper is
      collected. */
  lemma VanishesUnderItsHook(cfg: Config, first: Request, second: Request, tmpl: Sandbox)
    returns (gone: History, snap: Sandbox)
    requires ConfigOk(cfg) && cfg.gcEnabled && cfg.gcMaxIdleAge <= MAX_INT64
    requires ValidRequest(first) && ValidRequest(second) && Contracted(cfg, tmpl, first) &&
             Contracted(cfg, tmpl, second)
    requires Get(tmpl.labels, PartOfLabel) == PART_OF
    requires second.session == first.session && second.order != first.order && first.attempt < second.attempt
    ensures Happens(cfg, gone) && Asleep(snap)
    ensures Now(gone).hooks.Keys == {0, 1} && Now(gone).hooks[0].req == first
    ensures Now(gone).hooks[1] == Invocation(second, tmpl, Patching(0, snap, true))
    ensures Now(gone).sandboxes == map[]
  {
    hide IsRun, ConfigOk, Inv, Evaluate, CurrentGenerationTrue, Contracted, ValidRequest, FormatInt, Holders,
         HoldsSlot, Asleep;
    var n := tmpl.name;
    var h := FirstOrderSleeps(cfg, first, tmpl);
    snap := Now(h).sandboxes[n];
    h := Then(cfg, h, Start(1, second, tmpl));
    HappensInv(cfg, h);
    LiveIsVersion(cfg, Now(h), n);
    NobodyHolds(Now(h), n);
    h := NewerGetsToItsPatch(cfg, h, 1);
    gone := CanVanish(cfg, h, n);
    assert Now(gone).sandboxes.Keys == {};
  }

  /** With collection on and an age limit a clock can reach: for any session, any two of
      its orders and any accepted template, the system can get to where the second order's
      hook is about to patch a Sandbox that has been put to sleep, collected and removed
      after the hook read it; and on to where another has taken its name, with another
      uid. */
  lemma SandboxCanVanishUnderItsHook(cfg: Config, first: Request, second: Request, tmpl: Sandbox)
    returns (gone: History, again: History, snap: Sandbox)
    requires ConfigOk(cfg) && cfg.gcEnabled && cfg.gcMaxIdleAge <= MAX_INT64
    requires ValidRequest(first) && ValidRequest(second) && Contracted(cfg, tmpl, first) &&
             Contracted(cfg, tmpl, second)
    requires Get(tmpl.labels, PartOfLabel) == PART_OF
    requires second.session == first.session && second.order != first.order && first.attempt < second.attempt
    ensures Happens(cfg, gone) && Happens(cfg, again) && gone.run <= again.run && Asleep(snap)
    ensures 1 in Now(gone).hooks && Now(gone).hooks[1] == Invocation(second, tmpl, Patching(0, snap, true))
    ensures Now(gone).sandboxes == map[]
    ensures 1 in Now(again).hooks && Now(again).hooks[1] == Now(gone).hooks[1]
    ensures tmpl.name in Now(again).sandboxes && Now(again).sandboxes[tmpl.name].uid != snap.uid
  {
    hide IsRun, ConfigOk, Evaluate, Contracted, ValidRequest, Holders, Asleep, Pending;
    gone, snap := VanishesUnderItsHook(cfg, first, second, tmpl);
    again := Then(cfg, gone, Start(2, second, tmpl));
    NobodyHolds(Now(again), tmpl.name);
    var uid := FreshUid(Now(again).versions);
    SnapshotUid(cfg, again, 1, uid);
    again := CanBePrepared(cfg, again, 2, uid);
  }

  lemma SnapshotUid(cfg: Config, h: History, k: nat, uid: string)
    requires ConfigOk(cfg) && Happens(cfg, h) && k in Now(h).hooks && Now(h).hooks[k].pc.Patching? &&
             NewUid(Now(h), uid)
    ensures Now(h).hooks[k].pc.snap.uid != uid
  {
    hide Happens, ConfigOk, RequestsOk, VersionsOk, EveryVersionOk, HistoryOk, SecretsOk, SeenOk, ConditionsOk, PodsOk,
         PodGenerationsOk, Evaluate, HasSecret, Repair;
    HappensInv(cfg, h);
    assert HookOk(cfg, Now(h), Now(h).hooks[k]);
  }
}
