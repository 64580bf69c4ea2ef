/** Over a whole run an order is given one Pod. */
module OnePod {
  import opened Api
  import opened Hook
  import opened SessionController
  import opened Protocol
  import opened Invariants
  import opened Preservation
  import opened Writes
  import opened HookSteps
  import opened Safety
  import opened Runs
  import opened PodSafety

  /** Of one live uid and one generation there has only ever been one Pod. */
  ghost predicate OnePodPerGeneration(s: State) {
    forall p, q :: p in s.podsEver && q in s.podsEver && Twins(s, p, q) ==> p.id == q.id
  }

  ghost predicate Twins(s: State, p: Pod, q: Pod) {
    p.owner == q.owner && Live(s.sandboxes, p.owner) && Generation(s, p) == Generation(s, q)
  }

  /** The step makes no Pod; at most it changes one, keeping its identity. */
  predicate SamePodsMade(s: State, t: State) {
    forall p :: p in t.podsEver ==>
      p in s.podsEver || (p.id in s.pods && s.pods[p.id].owner == p.owner && s.pods[p.id].madeFrom == p.madeFrom)
  }

  /** Nothing of a live uid becomes anything but older, and new uids have no Pods yet. */
  ghost predicate SameOwners(s: State, t: State) {
    && s.versions <= t.versions
    && forall p :: p in s.podsEver && Live(t.sandboxes, p.owner) ==> Live(s.sandboxes, p.owner)
  }

  lemma GenerationStays(s: State, t: State, p: Pod)
    requires PodsOk(s) && s.versions <= t.versions &&
             (p in s.podsEver || (p.id in s.pods && s.pods[p.id].madeFrom == p.madeFrom))
    ensures Generation(t, p) == Generation(s, p)
  {
    if p in s.podsEver {
      assert PodOk(s, p);
    } else {
      PodIsOk(s, p.id);
    }
  }

  lemma NoPodMade(s: State, t: State)
    requires PodsOk(s) && OnePodPerGeneration(s) && SameOwners(s, t) && SamePodsMade(s, t)
    ensures OnePodPerGeneration(t)
  {
    hide PodOk, Live, PodsOk, Generation;
    forall p, q | p in t.podsEver && q in t.podsEver && Twins(t, p, q) ensures p.id == q.id {
      var p', q' := if p in s.podsEver then p else s.pods[p.id], if q in s.podsEver then q else s.pods[q.id];
      PodWas(s, p);
      PodWas(s, q);
      GenerationStays(s, t, p);
      GenerationStays(s, t, q);
      SameMadeFrom(s, p, p');
      SameMadeFrom(s, q, q');
      assert Twins(s, p', q');
    }
  }

  lemma PodWas(s: State, p: Pod)
    requires PodsOk(s)
    ensures p.id in s.pods ==> s.pods[p.id].id == p.id && s.pods[p.id] in s.podsEver
  {
    hide PodOk;
  }

  lemma SameMadeFrom(s: State, p: Pod, q: Pod)
    requires p.madeFrom == q.madeFrom
    ensures Generation(s, p) == Generation(s, q)
  {
  }

  /** A new Pod is of a later generation than any of its Sandbox before. */
  lemma PodMade(cfg: Config, s: State, uid: string, id: nat)
    requires Inv(cfg, s) && OnePodPerGeneration(s) && Enabled(cfg, s, CreatePod(uid, id))
    ensures OnePodPerGeneration(Apply(cfg, s, CreatePod(uid, id)))
  {
    hide Inv, PodOk, Live, PodsOk, LeftBehind, Generation, HasPod;
    var t, made := Apply(cfg, s, CreatePod(uid, id)), PodOf(s.seen[uid], id);
    SeenUid(cfg, s, uid);
    forall q ensures Generation(t, q) == Generation(s, q) {
      SameVersions(s, t, q);
    }
    forall p, q | p in t.podsEver && q in t.podsEver && Twins(t, p, q) ensures p.id == q.id {
      if p == made && q != made {
        EarlierPodsAreOlder(cfg, s, uid, id, q);
      } else if q == made && p != made {
        EarlierPodsAreOlder(cfg, s, uid, id, p);
      } else if p != made && q != made {
        assert Twins(s, p, q);
      }
    }
  }

  lemma SameVersions(s: State, t: State, p: Pod)
    requires t.versions == s.versions
    ensures Generation(t, p) == Generation(s, p)
  {
  }

  lemma EarlierPodsAreOlder(cfg: Config, s: State, uid: string, id: nat, q: Pod)
    requires Inv(cfg, s) && uid in s.seen && !HasPod(s.pods, uid)
    requires q in s.podsEver && q.owner == uid && Live(s.sandboxes, uid)
    ensures Generation(s, q) < Generation(s, PodOf(s.seen[uid], id))
  {
    hide EveryVersionOk, VersionsOk, HistoryOk, SecretsOk, ConditionsOk, HooksOk, RequestsOk, PodsOk,
         NothingOutruns, Live, HasPod;
    assert IsVersion(s, s.seen[uid]) && s.seen[uid].uid == uid;
    NotStanding(s, uid, q);
    assert Leaves(s, q);
  }

  lemma NotStanding(s: State, uid: string, q: Pod)
    requires PodsOk(s) && !HasPod(s.pods, uid) && q in s.podsEver && q.owner == uid
    ensures q.id !in s.pods
  {
    hide PodOk;
  }

  lemma StepKeepsPods(cfg: Config, s: State, step: Step)
    requires ConfigOk(cfg) && Inv(cfg, s) && OnePodPerGeneration(s) && Enabled(cfg, s, step)
    ensures OnePodPerGeneration(Apply(cfg, s, step))
  {
    hide Inv, ConfigOk, OnePodPerGeneration, PodsOk, SameOwners, SamePodsMade;
    if step.CreatePod? {
      PodMade(cfg, s, step.uid, step.id);
    } else {
      InvPods(cfg, s);
      StepMakesNoPod(cfg, s, step);
      StepKeepsOwners(cfg, s, step);
      NoPodMade(s, Apply(cfg, s, step));
    }
  }

  lemma InvPods(cfg: Config, s: State)
    requires Inv(cfg, s)
    ensures PodsOk(s)
  {
    hide EveryVersionOk, VersionsOk, HistoryOk, SecretsOk, SeenOk, ConditionsOk, PodGenerationsOk, HooksOk,
         RequestsOk, PodsOk;
  }

  lemma StepMakesNoPod(cfg: Config, s: State, step: Step)
    requires PodsOk(s) && Enabled(cfg, s, step) && !step.CreatePod?
    ensures SamePodsMade(s, Apply(cfg, s, step))
  {
    hide Call, CommitPass, ReportedConditions, PodOk, Contracted, ValidRequest, Live, HasPod;
    if step.HookCall? {
      CallMakesNoPod(cfg, s, s.hooks[step.h], step.now, step.uid);
    } else if step.ControllerPass? {
      PassMakesNoPod(s, s.versions[step.at], PassWrite(cfg, s, step));
    }
  }

  lemma CallMakesNoPod(cfg: Config, s: State, inv: Invocation, now: int, uid: string)
    requires Active(inv.pc)
    ensures Call(cfg, s, inv, now, uid).state.podsEver == s.podsEver
  {
    hide Classified, Secured, VerifySecret, Mutated, Created, DesiredSecret, Holders, Stored;
  }

  lemma PassMakesNoPod(s: State, snap: Sandbox, write: Write)
    ensures CommitPass(s, snap, write).podsEver == s.podsEver
  {
    hide Stored;
  }

  /** A uid that lives after a step and has had Pods lived before it. */
  lemma StepKeepsOwners(cfg: Config, s: State, step: Step)
    requires ConfigOk(cfg) && Inv(cfg, s) && Enabled(cfg, s, step)
    ensures SameOwners(s, Apply(cfg, s, step))
  {
    hide Inv, ConfigOk, Enabled, Apply, PodsOk, Live;
    OwnersAreOld(cfg, s);
    LiveBefore(cfg, s, step);
  }

  lemma OwnersAreOld(cfg: Config, s: State)
    requires Inv(cfg, s)
    ensures forall p :: p in s.podsEver ==> exists i :: 0 <= i < |s.versions| && s.versions[i].uid == p.owner
  {
    hide EveryVersionOk, VersionsOk, HistoryOk, SecretsOk, SeenOk, ConditionsOk, PodGenerationsOk, HooksOk, RequestsOk;
    forall p | p in s.podsEver ensures exists i :: 0 <= i < |s.versions| && s.versions[i].uid == p.owner {
      assert PodOk(s, p) && s.versions[p.madeFrom].uid == p.owner;
    }
  }

  /** Only creation brings a uid to life. */
  lemma LiveBefore(cfg: Config, s: State, step: Step)
    requires ConfigOk(cfg) && Inv(cfg, s) && Enabled(cfg, s, step)
    ensures forall u :: Live(Apply(cfg, s, step).sandboxes, u) ==> Live(s.sandboxes, u) || Unheard(s, u)
    ensures s.versions <= Apply(cfg, s, step).versions
  {
    hide Inv, ConfigOk, Call, CommitPass, ReportedConditions, Live, Unheard, Succeeds, Put;
    if step.HookCall? {
      CallLiveBefore(cfg, s, step.h, step.now, step.uid);
    } else if step.ControllerPass? {
      PassLiveBefore(cfg, s, step);
    } else if step.Report? {
      InvVersions(cfg, s);
      NamesFit(cfg, s);
      var sb := s.sandboxes[step.name];
      var mut := sb.(conditions := ReportedConditions(s.seen[sb.uid], s.pods));
      PutLive(s, sb, Stored(sb, mut, |s.versions|));
    } else if step.Finalize? {
      FewerLive(s, step.name);
    }
  }

  predicate Unheard(s: State, uid: string) {
    forall i :: 0 <= i < |s.versions| ==> s.versions[i].uid != uid
  }

  lemma PutLive(s: State, sb: Sandbox, w: Sandbox)
    requires LiveIn(s, sb) && w.name == sb.name && w.uid == sb.uid
    ensures forall u :: Live(Put(s, w).sandboxes, u) ==> Live(s.sandboxes, u)
    ensures s.versions <= Put(s, w).versions
  {
    hide Live;
    SameLive(s, sb, w);
  }

  lemma FewerLive(s: State, n: string)
    ensures forall u :: Live(s.sandboxes - {n}, u) ==> Live(s.sandboxes, u)
  {
  }

  lemma CallLiveBefore(cfg: Config, s: State, h: nat, now: int, uid: string)
    requires ConfigOk(cfg) && Inv(cfg, s) && Enabled(cfg, s, HookCall(h, now, uid, false))
    ensures var t := Call(cfg, s, s.hooks[h], now, uid).state;
            (forall u :: Live(t.sandboxes, u) ==> Live(s.sandboxes, u) || Unheard(s, u)) && s.versions <= t.versions
  {
    hide Inv, ConfigOk, Classified, Secured, VerifySecret, Mutated, Created, DesiredSecret, Holders, Live, Succeeds,
         Patch, Current;
    var inv := s.hooks[h];
    if inv.pc.Creating? && inv.tmpl.name !in s.sandboxes {
      var w := Created(cfg, inv, now, uid, |s.versions|);
      CreatedIdentity(cfg, inv, now, uid, |s.versions|);
      forall u ensures Live(Put(s, w).sandboxes, u) <==> Live(s.sandboxes, u) || u == w.uid {
        NewLive(s, w, u);
      }
    } else if inv.pc.Patching? && Current(s, inv.pc.snap) {
      PatchLiveBefore(cfg, s, h, now);
    }
  }

  lemma PatchLiveBefore(cfg: Config, s: State, h: nat, now: int)
    requires Inv(cfg, s) && h in s.hooks && s.hooks[h].pc.Patching? && Current(s, s.hooks[h].pc.snap)
    ensures var t := Patch(s, s.hooks[h].pc.snap, Mutated(cfg, s.hooks[h], now));
            (forall u :: Live(t.sandboxes, u) ==> Live(s.sandboxes, u)) && s.versions <= t.versions
  {
    hide Inv, Mutated, Live;
    var snap := s.hooks[h].pc.snap;
    SnapIsLive(cfg, s, h);
    MutatedIdentity(cfg, s.hooks[h], now);
    PutLive(s, snap, Stored(snap, Mutated(cfg, s.hooks[h], now), |s.versions|));
  }

  lemma SnapIsLive(cfg: Config, s: State, h: nat)
    requires Inv(cfg, s) && h in s.hooks && s.hooks[h].pc.Patching? && Current(s, s.hooks[h].pc.snap)
    ensures LiveIn(s, s.hooks[h].pc.snap)
  {
    hide EveryVersionOk, HistoryOk, SecretsOk, SeenOk, ConditionsOk, PodsOk, PodGenerationsOk, HooksOk, RequestsOk,
         Evaluate, HasSecret, Repair;
    HooksAreOk(cfg, s, h);
    CurrentIsLive(s, s.hooks[h].pc.snap);
  }

  lemma PassLiveBefore(cfg: Config, s: State, step: Step)
    requires ConfigOk(cfg) && Inv(cfg, s) && Enabled(cfg, s, step) && IsPass(step)
    ensures var t := Apply(cfg, s, step);
            (forall u :: Live(t.sandboxes, u) ==> Live(s.sandboxes, u)) && s.versions <= t.versions
  {
    hide Inv, ConfigOk, Decide, Live, Succeeds, Put, Stored;
    var snap := s.versions[step.at];
    var write := PassWrite(cfg, s, step);
    InvVersions(cfg, s);
    if write != Nothing && Current(s, snap) {
      CurrentIsLive(s, snap);
      DecidedSucceeds(cfg, s, snap, step.pods, step.secret, step.list, step.now);
      CommitIsPut(s, snap, write);
      SameIdentity(cfg, s, snap, Stored(snap, Written(snap, write), |s.versions|));
      PutLive(s, snap, Stored(snap, Written(snap, write), |s.versions|));
    }
  }

  lemma {:induction false} RunKeepsPods(cfg: Config, run: seq<State>, steps: seq<Step>, k: nat)
    requires ConfigOk(cfg) && IsRun(cfg, run, steps) && k < |run|
    ensures OnePodPerGeneration(run[k])
  {
    hide Inv, ConfigOk, Apply, Enabled;
    if k > 0 {
      RunKeepsPods(cfg, run, steps, k - 1);
      RunInv(cfg, run, steps, k - 1);
      StepKeepsPods(cfg, run[k - 1], steps[k - 1]);
    }
  }

  /** Over a whole run, an order is never given two Pods of one Sandbox uid: as long as
      the Sandbox lives, any two Pods it ever had with the same order are one. */
  lemma OnePodPerOrder(cfg: Config, run: seq<State>, steps: seq<Step>, k: nat, p: Pod, q: Pod)
    requires ConfigOk(cfg) && IsRun(cfg, run, steps) && k < |run|
    requires p in run[k].podsEver && q in run[k].podsEver && p.owner == q.owner && Live(run[k].sandboxes, p.owner)
    requires Get(p.annotations, OrderId) == Get(q.annotations, OrderId)
    ensures p.id == q.id
  {
    hide IsRun, ConfigOk, Inv, Live;
    RunInv(cfg, run, steps, k);
    RunKeepsPods(cfg, run, steps, k);
    if Generation(run[k], p) < Generation(run[k], q) {
      LaterOrderDiffers(cfg, run[k], p, q);
    } else if Generation(run[k], q) < Generation(run[k], p) {
      LaterOrderDiffers(cfg, run[k], q, p);
    } else {
      assert Twins(run[k], p, q);
    }
  }

  /** Pods of different generations carry different orders. */
  lemma LaterOrderDiffers(cfg: Config, s: State, p: Pod, q: Pod)
    requires Inv(cfg, s) && p in s.podsEver && q in s.podsEver && p.owner == q.owner &&
             Generation(s, p) < Generation(s, q)
    ensures Get(p.annotations, OrderId) != Get(q.annotations, OrderId)
  {
    hide EveryVersionOk, SecretsOk, HooksOk, ConditionsOk, PodGenerationsOk, AcceptedAttempt, SeenOk, VersionsOk,
         HistoryOk, RequestsOk;
    assert PodOk(s, p) && PodOk(s, q);
    InvVersions(cfg, s);
    RunningOrder(cfg, s, p.madeFrom);
    RunningOrder(cfg, s, q.madeFrom);
    var v, w := s.versions[p.madeFrom], s.versions[q.madeFrom];
    if v.Annotation(LastOrderId) == w.Annotation(LastOrderId) {
      SameOrderSameAttempt(cfg, s, v, w);
      if p.madeFrom < q.madeFrom {
        GrowsTo(s, p.madeFrom, q.madeFrom);
      } else {
        GrowsTo(s, q.madeFrom, p.madeFrom);
      }
    }
  }
}
