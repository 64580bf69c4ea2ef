/** Every step keeps the invariant. All writes to an existing Sandbox go through one
    relation, Succeeds, which says what the next version may look like. */
module Preservation {
  import opened Api
  import opened Decimal
  import opened Hook
  import opened SessionController
  import opened Protocol
  import opened Invariants

  // ---- Facts that only grow

  ghost predicate Extends(s: State, t: State) {
    && (forall h :: h in s.hooks ==> h in t.hooks && t.hooks[h].req == s.hooks[h].req)
    && s.secretsEver <= t.secretsEver
  }

  lemma HasSecretMonotone(cfg: Config, s: State, t: State, uid: string, req: Request)
    requires Extends(s, t) && HasSecret(cfg, s, uid, req)
    ensures HasSecret(cfg, t, uid, req)
  {
  }

  lemma VersionOkMonotone(cfg: Config, s: State, t: State, v: Sandbox)
    requires Extends(s, t) && VersionOk(cfg, s, v)
    ensures VersionOk(cfg, t, v)
  {
    var h :| h in s.hooks && CarriesOrder(cfg, s, v, s.hooks[h].req);
    assert CarriesOrder(cfg, t, v, t.hooks[h].req);
    if v.Annotation(AppliedSpawn) != "" {
      var k :| k in s.hooks && HasApplied(v, s.hooks[k].req);
      assert HasApplied(v, t.hooks[k].req);
    }
  }

  lemma AttemptOf(cfg: Config, v: Sandbox, req: Request)
    requires ValidRequest(req) && AcceptedFrom(cfg, v, req)
    ensures AcceptedAttempt(v) == req.attempt
    ensures ParseAttempt(v.Annotation(LastOrderAttempt)) == Some(req.attempt)
  {
    ParseFormatInt(req.attempt);
  }

  // ---- The next version of a live Sandbox

  /** How phases follow one another: Preparing may follow anything, every other phase
      only itself or the one before it, with the same order. */
  predicate NextPhase(v: Sandbox, w: Sandbox) {
    && (Starting(w) ==> (Starting(v) || Preparing(v)) && v.Annotation(LastOrderId) == w.Annotation(LastOrderId))
    && (Working(w) ==> (Working(v) || Starting(v)) && v.Annotation(LastOrderId) == w.Annotation(LastOrderId))
    && (Asleep(w) ==> (Asleep(v) || Working(v)) && v.Annotation(LastOrderId) == w.Annotation(LastOrderId))
  }

  ghost predicate Succeeds(cfg: Config, s: State, sb: Sandbox, w: Sandbox) {
    && w.name == sb.name && w.uid == sb.uid && w.rv == |s.versions|
    && w.generation == (if w.spec == sb.spec then sb.generation else sb.generation + 1)
    && VersionOk(cfg, s, w) && NextPhase(sb, w)
    && AcceptedAttempt(sb) <= AcceptedAttempt(w)
    && (AcceptedAttempt(sb) == AcceptedAttempt(w) ==> sb.Annotation(LastOrderId) == w.Annotation(LastOrderId))
    && (sb.IsRunning() && w.IsRunning() ==> w.spec == sb.spec)
    && (!sb.IsRunning() && w.IsRunning() ==>
          Preparing(sb) && CurrentGenerationTrue(sb, SuspendedCondition) && AcceptedAttempt(sb) == AcceptedAttempt(w))
    && (Preparing(w) && AcceptedAttempt(sb) == AcceptedAttempt(w) ==> Preparing(sb))
    && (Unprepared(w) ==> Unprepared(sb))
    && (w.conditions == sb.conditions ||
        (sb.uid in s.seen && w.conditions == ReportedConditions(s.seen[sb.uid], s.pods)))
  }

  ghost predicate LiveIn(s: State, sb: Sandbox) {
    sb.name in s.sandboxes && s.sandboxes[sb.name] == sb
  }

  lemma PutVersions(cfg: Config, s: State, sb: Sandbox, w: Sandbox)
    requires Inv(cfg, s) && LiveIn(s, sb) && Succeeds(cfg, s, sb, w)
    ensures VersionsOk(Put(s, w))
  {
    hide NextPhase, AcceptedAttempt, VersionOk, HistoryOk, SecretsOk, SeenOk, ConditionsOk, PodsOk,
         PodGenerationsOk, HooksOk, RequestsOk;
    var t := Put(s, w);
    forall n | n in t.sandboxes ensures t.sandboxes[n].name == n && IsVersion(t, t.sandboxes[n]) {
      if n != w.name {
        assert IsVersion(s, s.sandboxes[n]);
      }
    }
    assert IsVersion(s, sb) && s.versions[sb.rv].uid == w.uid;
    forall n, i | n in t.sandboxes && 0 <= i < |t.versions| && t.versions[i].uid == t.sandboxes[n].uid
      ensures i <= t.sandboxes[n].rv && t.versions[i].name == n
    {
      assert n in s.sandboxes && s.sandboxes[n].uid == t.sandboxes[n].uid;
      if i < |s.versions| {
        assert s.versions[i].uid == s.sandboxes[n].uid;
      } else {
        assert s.versions[sb.rv].name == n;
      }
    }
  }

  lemma PutEveryVersion(cfg: Config, s: State, w: Sandbox)
    requires EveryVersionOk(cfg, s) && VersionOk(cfg, s, w)
    ensures EveryVersionOk(cfg, Put(s, w))
  {
    hide VersionOk;
    var t := Put(s, w);
    forall i | 0 <= i < |t.versions| ensures VersionOk(cfg, t, t.versions[i]) {
      assert i < |s.versions| ==> t.versions[i] == s.versions[i];
      VersionOkMonotone(cfg, s, t, t.versions[i]);
    }
  }

  /** The live version is the newest of its uid, so it mediates between any earlier
      version and the next one. */
  lemma PutHistory(cfg: Config, s: State, sb: Sandbox, w: Sandbox)
    requires Inv(cfg, s) && LiveIn(s, sb) && Succeeds(cfg, s, sb, w)
    ensures HistoryOk(Put(s, w))
  {
    hide NextPhase, AcceptedAttempt, VersionOk, SecretsOk, SeenOk, ConditionsOk, PodsOk, PodGenerationsOk, HooksOk,
         RequestsOk;
    var t := Put(s, w);
    forall i | 0 <= i < |s.versions| && s.versions[i].uid == w.uid
      ensures AttemptsGrow(s.versions[i], w) && GenerationsGrow(s.versions[i], w)
    {
      SuccessorGrows(cfg, s, sb, w, i);
    }
    forall i, j | 0 <= i < j < |t.versions| && t.versions[i].uid == t.versions[j].uid
      ensures AttemptsGrow(t.versions[i], t.versions[j]) && GenerationsGrow(t.versions[i], t.versions[j])
    {
      if j < |s.versions| {
        assert t.versions[j] == s.versions[j];
      }
    }
  }

  lemma SuccessorGrows(cfg: Config, s: State, sb: Sandbox, w: Sandbox, i: nat)
    requires Inv(cfg, s) && LiveIn(s, sb) && Succeeds(cfg, s, sb, w)
    requires i < |s.versions| && s.versions[i].uid == w.uid
    ensures AttemptsGrow(s.versions[i], w) && GenerationsGrow(s.versions[i], w)
  {
    hide NextPhase, AcceptedAttempt, VersionOk, SecretsOk, SeenOk, ConditionsOk, PodsOk, PodGenerationsOk, HooksOk,
         RequestsOk;
    var v := s.versions[i];
    assert IsVersion(s, sb) && i <= sb.rv;
    if i < sb.rv {
      assert s.versions[sb.rv] == sb;
      assert AttemptsGrow(v, sb) && GenerationsGrow(v, sb);
    }
  }

  lemma PutSecrets(cfg: Config, s: State, sb: Sandbox, w: Sandbox)
    requires Inv(cfg, s) && LiveIn(s, sb) && Succeeds(cfg, s, sb, w)
    ensures SecretsOk(cfg, Put(s, w))
  {
    hide NextPhase, AcceptedAttempt, VersionOk, HistoryOk, SeenOk, ConditionsOk, PodsOk, PodGenerationsOk, HooksOk,
         RequestsOk;
    var t := Put(s, w);
    SameLive(s, sb, w);
    forall k | k in t.secretsEver
      ensures exists i :: 0 <= i < |t.versions| && t.versions[i].uid == k.owners[0]
    {
      var i :| 0 <= i < |s.versions| && s.versions[i].uid == k.owners[0];
      assert t.versions[i] == s.versions[i];
    }
  }

  lemma SameLive(s: State, sb: Sandbox, w: Sandbox)
    requires LiveIn(s, sb) && w.name == sb.name && w.uid == sb.uid
    ensures forall u :: Live(Put(s, w).sandboxes, u) <==> Live(s.sandboxes, u)
  {
    var t := Put(s, w);
    forall u ensures Live(t.sandboxes, u) <==> Live(s.sandboxes, u) {
      if Live(s.sandboxes, u) {
        var n :| n in s.sandboxes && s.sandboxes[n].uid == u;
        assert n in t.sandboxes && t.sandboxes[n].uid == u;
      }
      if Live(t.sandboxes, u) {
        var n :| n in t.sandboxes && t.sandboxes[n].uid == u;
        assert n in s.sandboxes && s.sandboxes[n].uid == u;
      }
    }
  }

  /** A write that starts a Sandbox finds its controller at the current generation,
      without a Pod. */
  lemma StartingWrite(cfg: Config, s: State, sb: Sandbox, w: Sandbox)
    requires Inv(cfg, s) && LiveIn(s, sb) && Succeeds(cfg, s, sb, w)
    requires !sb.IsRunning() && w.IsRunning()
    ensures sb.uid in s.seen && s.seen[sb.uid].generation == sb.generation && !HasPod(s.pods, sb.uid)
  {
    hide NextPhase, AcceptedAttempt, VersionOk, HistoryOk, SecretsOk, SeenOk, ConditionsOk, PodsOk,
         PodGenerationsOk, HooksOk, RequestsOk;
    ConfirmedSuspension(cfg, s, sb);
  }

  /** Suspended=True for the current generation, in Suspended mode: no Pod is left. */
  lemma ConfirmedSuspension(cfg: Config, s: State, sb: Sandbox)
    requires Inv(cfg, s) && LiveIn(s, sb) && CurrentGenerationTrue(sb, SuspendedCondition)
    ensures sb.uid in s.seen && s.seen[sb.uid].generation == sb.generation
    ensures !HasPod(s.pods, sb.uid) && !sb.IsRunning()
  {
    hide AcceptedAttempt, VersionOk, HistoryOk, SecretsOk, PodsOk, PodGenerationsOk, HooksOk, RequestsOk;
    assert ConditionOk(s, sb.uid, SuspendedCondition, sb.conditions[SuspendedCondition]);
    SeenBehind(cfg, s, sb);
  }

  lemma SeenBehind(cfg: Config, s: State, sb: Sandbox)
    requires Inv(cfg, s) && LiveIn(s, sb) && sb.uid in s.seen
    ensures s.seen[sb.uid].generation <= sb.generation
    ensures s.seen[sb.uid].generation == sb.generation ==> s.seen[sb.uid].spec == sb.spec
  {
    hide AcceptedAttempt, AttemptsGrow, VersionOk, SecretsOk, ConditionsOk, PodsOk, PodGenerationsOk, HooksOk,
         RequestsOk;
    var v := s.seen[sb.uid];
    assert IsVersion(s, v) && IsVersion(s, sb);
    assert s.versions[v.rv].uid == sb.uid;
    if v.rv < sb.rv {
      assert GenerationsGrow(s.versions[v.rv], s.versions[sb.rv]);
    }
  }

  lemma PutSeen(cfg: Config, s: State, sb: Sandbox, w: Sandbox)
    requires Inv(cfg, s) && LiveIn(s, sb) && Succeeds(cfg, s, sb, w)
    ensures SeenOk(Put(s, w))
  {
    hide NextPhase, AcceptedAttempt, VersionOk, HistoryOk, SecretsOk, ConditionsOk, PodsOk, PodGenerationsOk,
         HooksOk, RequestsOk;
    var t := Put(s, w);
    forall u | u in t.seen ensures IsVersion(t, t.seen[u]) {
      assert IsVersion(s, s.seen[u]);
    }
    if w.IsRunning() {
      if sb.IsRunning() {
        assert IsVersion(s, sb) && s.versions[sb.rv].IsRunning();
      } else {
        StartingWrite(cfg, s, sb, w);
      }
    }
  }

  lemma PutConditions(cfg: Config, s: State, sb: Sandbox, w: Sandbox)
    requires Inv(cfg, s) && LiveIn(s, sb) && Succeeds(cfg, s, sb, w)
    ensures ConditionsOk(Put(s, w))
  {
    hide NextPhase, AcceptedAttempt, VersionOk, HistoryOk, SecretsOk, SeenOk, PodsOk, PodGenerationsOk, HooksOk,
         RequestsOk;
    var t := Put(s, w);
    forall n, c | n in t.sandboxes && c in t.sandboxes[n].conditions
      ensures ConditionOk(t, t.sandboxes[n].uid, c, t.sandboxes[n].conditions[c])
    {
      if n != w.name || w.conditions == sb.conditions {
        assert ConditionOk(s, s.sandboxes[n].uid, c, s.sandboxes[n].conditions[c]);
      } else {
        ReportIsTrue(cfg, s, sb.uid, c);
      }
    }
  }

  lemma ReportIsTrue(cfg: Config, s: State, uid: string, c: ConditionType)
    requires Inv(cfg, s) && uid in s.seen
    requires c in ReportedConditions(s.seen[uid], s.pods)
    ensures ConditionOk(s, uid, c, ReportedConditions(s.seen[uid], s.pods)[c])
  {
    hide VersionsOk, EveryVersionOk, HistoryOk, SecretsOk, ConditionsOk, PodGenerationsOk, HooksOk, RequestsOk, PodsOk;
    assert s.seen[uid].uid == uid;
    if c == FinishedCondition {
      var id :| id in s.pods && s.pods[id].owner == uid && s.pods[id].terminal;
      TheOnlyPod(s, id);
    }
  }

  lemma TheOnlyPod(s: State, id: nat)
    requires PodsOk(s) && id in s.pods
    ensures forall jd :: jd in s.pods && s.pods[jd].owner == s.pods[id].owner ==> jd == id
  {
    hide PodOk;
  }

  lemma PutPods(s: State, w: Sandbox)
    requires PodsOk(s)
    ensures PodsOk(Put(s, w))
  {
    var t := Put(s, w);
    forall p | p in s.podsEver ensures PodOk(t, p) {
      assert PodOk(s, p);
      assert t.versions[p.madeFrom] == s.versions[p.madeFrom];
    }
  }

  lemma PutPodGenerations(cfg: Config, s: State, sb: Sandbox, w: Sandbox)
    requires Inv(cfg, s) && LiveIn(s, sb) && Succeeds(cfg, s, sb, w)
    ensures PodGenerationsOk(Put(s, w))
  {
    hide Succeeds, VersionsOk, HistoryOk, SecretsOk, SeenOk, ConditionsOk, HooksOk, RequestsOk, EveryVersionOk,
         PodGenerationsOk;
    var t := Put(s, w);
    assert w.name == sb.name && w.uid == sb.uid by { SameIdentity(cfg, s, sb, w); }
    SameLive(s, sb, w);
    forall p | p in s.podsEver ensures Generation(t, p) == Generation(s, p) {
      assert PodOk(s, p);
    }
    forall id | id in s.pods && s.pods[id].owner == w.uid && w.IsRunning()
      ensures w.generation <= Generation(t, s.pods[id])
    {
      assert s.pods[id] in s.podsEver;
      NoLaterStart(cfg, s, sb, w, id);
    }
    GenerationsStay(s, t, w);
  }

  lemma SameIdentity(cfg: Config, s: State, sb: Sandbox, w: Sandbox)
    requires Succeeds(cfg, s, sb, w)
    ensures w.name == sb.name && w.uid == sb.uid && w.rv == |s.versions|
  {
    hide VersionOk, NextPhase;
  }

  lemma GenerationsStay(s: State, t: State, w: Sandbox)
    requires PodsOk(s) && PodGenerationsOk(s) && t == Put(s, w)
    requires forall u :: Live(t.sandboxes, u) <==> Live(s.sandboxes, u)
    requires forall p :: p in s.podsEver ==> Generation(t, p) == Generation(s, p)
    requires forall id :: id in s.pods && s.pods[id].owner == w.uid && w.IsRunning() ==>
             w.generation <= Generation(t, s.pods[id])
    ensures PodGenerationsOk(t)
  {
    hide PodOk, Live, Generation;
  }

  lemma NoLaterStart(cfg: Config, s: State, sb: Sandbox, w: Sandbox, id: nat)
    requires Inv(cfg, s) && LiveIn(s, sb) && Succeeds(cfg, s, sb, w)
    requires id in s.pods && s.pods[id].owner == w.uid && w.IsRunning()
    ensures w.generation <= Generation(s, s.pods[id])
  {
    hide NextPhase, AcceptedAttempt, VersionOk, HistoryOk, SecretsOk, SeenOk, ConditionsOk, PodsOk, HooksOk, RequestsOk;
    if sb.IsRunning() {
      assert IsVersion(s, sb) && s.versions[sb.rv].IsRunning();
    } else {
      StartingWrite(cfg, s, sb, w);
    }
  }

  lemma PutHooks(cfg: Config, s: State, w: Sandbox)
    requires HooksOk(cfg, s) && w.rv == |s.versions|
    ensures HooksOk(cfg, Put(s, w))
  {
    var t := Put(s, w);
    forall h | h in s.hooks ensures HookOk(cfg, t, t.hooks[h]) {
      HookOkMonotone(cfg, s, t, s.hooks[h]);
    }
  }

  lemma HookOkMonotone(cfg: Config, s: State, t: State, inv: Invocation)
    requires HookOk(cfg, s, inv) && Extends(s, t) && s.versions <= t.versions
    ensures HookOk(cfg, t, inv)
  {
    if inv.pc.Patching? {
      HasSecretMonotone(cfg, s, t, inv.pc.snap.uid, inv.req);
    }
  }

  lemma PutKeepsInv(cfg: Config, s: State, sb: Sandbox, w: Sandbox)
    requires Inv(cfg, s) && LiveIn(s, sb) && Succeeds(cfg, s, sb, w)
    ensures Inv(cfg, Put(s, w))
  {
    hide NextPhase, AcceptedAttempt, VersionsOk, EveryVersionOk, HistoryOk, SecretsOk, SeenOk, ConditionsOk, PodsOk,
         PodGenerationsOk, HooksOk;
    PutVersions(cfg, s, sb, w);
    PutEveryVersion(cfg, s, w);
    PutHistory(cfg, s, sb, w);
    PutSecrets(cfg, s, sb, w);
    PutSeen(cfg, s, sb, w);
    PutConditions(cfg, s, sb, w);
    PutPods(s, w);
    PutPodGenerations(cfg, s, sb, w);
    PutHooks(cfg, s, w);
  }
}
