/** The steps of the sandbox controller, the kubelet and the garbage collector keep
    the invariant. */
module ClusterSteps {
  import opened Api
  import opened Decimal
  import opened Protocol
  import opened Invariants
  import opened HookSteps

  /** A step that touches neither hooks, versions nor Secrets, and brings no uid to
      life, leaves their facts alone. */
  lemma ClusterStep(cfg: Config, s: State, t: State)
    requires Inv(cfg, s)
    requires t.hooks == s.hooks && t.versions == s.versions && t.secrets == s.secrets && t.secretsEver == s.secretsEver
    requires forall u :: Live(t.sandboxes, u) ==> Live(s.sandboxes, u)
    ensures RequestsOk(cfg, t) && EveryVersionOk(cfg, t) && HooksOk(cfg, t) && SecretsOk(cfg, t) && HistoryOk(t)
  {
    hide VersionsOk, SeenOk, ConditionsOk, PodsOk, PodGenerationsOk, RequestsOk, EveryVersionOk, HooksOk,
         IsSecretOf, Live, AttemptsGrow, GenerationsGrow;
    MoreSecrets(cfg, s, t);
  }

  // ---- See

  /** Moving on to a later version of the same Sandbox. */
  lemma SeeGrows(s: State, at: nat)
    requires HistoryOk(s) && SeenOk(s) && at < |s.versions| && s.versions[at].uid in s.seen
    requires s.seen[s.versions[at].uid].rv < at
    ensures GenerationsGrow(s.seen[s.versions[at].uid], s.versions[at])
  {
    hide AttemptsGrow, GenerationsGrow;
    var was := s.seen[s.versions[at].uid];
    assert IsVersion(s, was) && s.versions[was.rv].uid == s.versions[at].uid;
  }

  ghost predicate SeenGrows(s: State, t: State) {
    && t == s.(seen := t.seen)
    && forall u :: u in s.seen ==> u in t.seen && GenerationsGrow(s.seen[u], t.seen[u])
  }

  lemma SeeConditions(s: State, t: State)
    requires SeenGrows(s, t) && ConditionsOk(s)
    ensures ConditionsOk(t)
  {
    forall n, c | n in t.sandboxes && c in t.sandboxes[n].conditions
      ensures ConditionOk(t, t.sandboxes[n].uid, c, t.sandboxes[n].conditions[c])
    {
      assert ConditionOk(s, s.sandboxes[n].uid, c, s.sandboxes[n].conditions[c]);
    }
  }

  lemma SeePods(s: State, t: State)
    requires SeenGrows(s, t) && PodsOk(s)
    ensures PodsOk(t)
  {
    forall p | p in t.podsEver ensures PodOk(t, p) {
      assert PodOk(s, p);
    }
  }

  lemma SeeGenerations(s: State, t: State)
    requires SeenGrows(s, t) && PodsOk(s) && PodGenerationsOk(s)
    ensures PodGenerationsOk(t)
  {
    forall p | p in s.podsEver ensures Generation(t, p) == Generation(s, p) && p.owner in s.seen {
      assert PodOk(s, p);
    }
  }

  lemma SeeSeen(s: State, at: nat)
    requires SeenOk(s) && HistoryOk(s) && VersionsOk(s) && at < |s.versions|
    requires s.versions[at].uid in s.seen ==> s.seen[s.versions[at].uid].rv < at
    ensures var t := s.(seen := s.seen[s.versions[at].uid := s.versions[at]]);
            SeenOk(t) && SeenGrows(s, t)
  {
    hide AttemptsGrow, HistoryOk;
    var t := s.(seen := s.seen[s.versions[at].uid := s.versions[at]]);
    if s.versions[at].uid in s.seen {
      SeeGrows(s, at);
    }
    forall u | u in t.seen ensures IsVersion(t, t.seen[u]) {
      if u != s.versions[at].uid {
        assert IsVersion(s, s.seen[u]);
      }
    }
  }

  lemma SeeKeepsInv(cfg: Config, s: State, at: nat)
    requires Inv(cfg, s) && Enabled(cfg, s, See(at))
    ensures Inv(cfg, Apply(cfg, s, See(at)))
  {
    hide RequestsOk, EveryVersionOk, HooksOk, SecretsOk, HistoryOk, SeenOk, ConditionsOk, PodsOk, PodGenerationsOk,
         SeenGrows;
    var t := Apply(cfg, s, See(at));
    ClusterStep(cfg, s, t);
    SeeSeen(s, at);
    SeeConditions(s, t) by { SeenGrowsFrame(s, t); }
    SeePods(s, t);
    SeeGenerations(s, t);
  }

  lemma SeenGrowsFrame(s: State, t: State)
    requires SeenGrows(s, t)
    ensures t == s.(seen := t.seen)
  {
  }

  // ---- Pods

  /** A Pod set in place: same identity, owner and origin. */
  ghost predicate SamePodUpdated(s: State, t: State, p: Pod) {
    && p.id in s.pods && t == SetPod(s, p)
    && p == s.pods[p.id].(terminal := p.terminal, deleting := p.deleting)
    && (s.pods[p.id].terminal ==> p.terminal)
  }

  lemma UpdateHasPod(s: State, t: State, p: Pod, uid: string)
    requires SamePodUpdated(s, t, p)
    ensures HasPod(t.pods, uid) <==> HasPod(s.pods, uid)
  {
    if HasPod(s.pods, uid) {
      var id :| id in s.pods && s.pods[id].owner == uid;
      assert t.pods[id].owner == uid;
    }
    if HasPod(t.pods, uid) {
      var id :| id in t.pods && t.pods[id].owner == uid;
      assert s.pods[id].owner == uid;
    }
  }

  lemma UpdateConditions(s: State, t: State, p: Pod)
    requires PodsOk(s) && ConditionsOk(s) && SamePodUpdated(s, t, p)
    ensures ConditionsOk(t)
  {
    hide HasPod, PodOk;
    forall n, c | n in t.sandboxes && c in t.sandboxes[n].conditions
      ensures ConditionOk(t, t.sandboxes[n].uid, c, t.sandboxes[n].conditions[c])
    {
      var uid := s.sandboxes[n].uid;
      assert ConditionOk(s, uid, c, s.sandboxes[n].conditions[c]);
      UpdateHasPod(s, t, p, uid);
    }
  }

  /** What is known of a Pod depends on versions and the sandbox controller's view. */
  lemma SamePodFacts(s: State, t: State, p: Pod, q: Pod)
    requires PodOk(s, p) && t.versions == s.versions && t.seen == s.seen
    requires q == p.(terminal := q.terminal, deleting := q.deleting)
    ensures PodOk(t, q)
  {
  }

  lemma UpdatePods(s: State, t: State, p: Pod)
    requires PodsOk(s) && SamePodUpdated(s, t, p)
    ensures PodsOk(t)
  {
    hide PodOk;
    assert s.pods[p.id] in s.podsEver;
    forall q | q in t.podsEver ensures PodOk(t, q) {
      SamePodFacts(s, t, if q == p then s.pods[p.id] else q, q);
    }
  }

  /** A Pod is asked to go only once its Sandbox's controller has moved past the
      generation it was made from. */
  lemma DeletedBehind(s: State, p: Pod)
    requires HistoryOk(s) && SeenOk(s) && PodOk(s, p) && !s.seen[p.owner].IsRunning()
    ensures Generation(s, p) < s.seen[p.owner].generation
  {
    hide AttemptsGrow;
    var v, w := s.versions[p.madeFrom], s.seen[p.owner];
    assert IsVersion(s, w) && s.versions[w.rv].uid == v.uid;
    if p.madeFrom < w.rv {
      assert GenerationsGrow(s.versions[p.madeFrom], s.versions[w.rv]);
    }
  }

  lemma UpdateGenerations(s: State, t: State, p: Pod)
    requires PodsOk(s) && PodGenerationsOk(s) && SamePodUpdated(s, t, p)
    requires p.deleting && !s.pods[p.id].deleting && Live(s.sandboxes, p.owner) && p.owner in s.seen ==>
               Generation(s, p) < s.seen[p.owner].generation
    ensures PodGenerationsOk(t)
  {
    hide PodOk, Generation;
    assert s.pods[p.id] in s.podsEver;
    SameGeneration(s, t, p);
    assert NothingOutruns(t) by {
      hide Live, LeftBehind;
    }
    forall q | q in t.podsEver && Leaves(t, q)
      ensures Generation(t, q) < t.seen[q.owner].generation
    {
      hide Live, NothingOutruns;
      if q.id == p.id {
        assert q == p || (q in s.podsEver && q.madeFrom == s.pods[q.id].madeFrom && q.owner == s.pods[q.id].owner);
      }
    }
  }

  lemma SameGeneration(s: State, t: State, p: Pod)
    requires t.versions == s.versions
    ensures forall q :: Generation(t, q) == Generation(s, q)
    ensures forall q: Pod :: q.madeFrom == p.madeFrom ==> Generation(t, q) == Generation(s, p)
  {
  }

  lemma UpdateKeepsInv(cfg: Config, s: State, t: State, p: Pod)
    requires Inv(cfg, s) && SamePodUpdated(s, t, p)
    requires p.deleting && !s.pods[p.id].deleting && Live(s.sandboxes, p.owner) && p.owner in s.seen ==>
               Generation(s, p) < s.seen[p.owner].generation
    ensures Inv(cfg, t)
  {
    hide RequestsOk, EveryVersionOk, HooksOk, SecretsOk, ConditionsOk, PodsOk, PodGenerationsOk, VersionsOk,
         HistoryOk, SeenOk;
    ClusterStep(cfg, s, t);
    SameHistory(s, t);
    UpdateConditions(s, t, p);
    UpdatePods(s, t, p);
    UpdateGenerations(s, t, p);
  }

  lemma DeletePodKeepsInv(cfg: Config, s: State, id: nat)
    requires Inv(cfg, s) && Enabled(cfg, s, DeletePod(id))
    ensures Inv(cfg, Apply(cfg, s, DeletePod(id)))
  {
    hide RequestsOk, EveryVersionOk, HooksOk, SecretsOk, ConditionsOk, PodsOk, PodGenerationsOk, VersionsOk,
         HistoryOk, SeenOk, PodOk, Live, Generation;
    var p := s.pods[id].(deleting := true);
    StandingPodOk(s, id);
    OwnerSeen(s, s.pods[id]);
    if Live(s.sandboxes, p.owner) {
      DeletedBehind(s, s.pods[id]);
      SameGeneration(s, s, s.pods[id]);
    }
    UpdateKeepsInv(cfg, s, SetPod(s, p), p);
  }

  lemma StandingPodOk(s: State, id: nat)
    requires PodsOk(s) && id in s.pods
    ensures s.pods[id].id == id && s.pods[id] in s.podsEver && PodOk(s, s.pods[id])
  {
    hide PodOk;
  }

  lemma OwnerSeen(s: State, p: Pod)
    requires PodOk(s, p)
    ensures p.owner in s.seen
  {
  }

  lemma PodFinishesKeepsInv(cfg: Config, s: State, id: nat)
    requires Inv(cfg, s) && Enabled(cfg, s, PodFinishes(id))
    ensures Inv(cfg, Apply(cfg, s, PodFinishes(id)))
  {
    hide RequestsOk, EveryVersionOk, HooksOk, SecretsOk, ConditionsOk, PodGenerationsOk, VersionsOk, HistoryOk,
         SeenOk, PodOk;
    var p := s.pods[id].(terminal := true);
    UpdateKeepsInv(cfg, s, SetPod(s, p), p);
  }

  // ---- A Pod is created

  ghost predicate PodCreated(s: State, t: State, uid: string, id: nat) {
    && uid in s.seen && s.seen[uid].IsRunning() && !HasPod(s.pods, uid)
    && (forall p :: p in s.podsEver ==> p.id != id)
    && t == SetPod(s, PodOf(s.seen[uid], id))
  }

  lemma CreatePodPods(s: State, t: State, uid: string, id: nat)
    requires PodsOk(s) && SeenOk(s) && PodCreated(s, t, uid, id)
    ensures PodsOk(t)
  {
    hide PodOk, SeenOk, IsVersion;
    var p := PodOf(s.seen[uid], id);
    NewPodOk(s, t, uid, id);
    forall q | q in t.podsEver ensures PodOk(t, q) {
      if q != p {
        SamePodFacts(s, t, q, q);
      }
    }
    forall jd | jd in s.pods ensures jd != id && s.pods[jd].owner != uid {
      assert s.pods[jd] in s.podsEver;
    }
  }

  lemma NewPodOk(s: State, t: State, uid: string, id: nat)
    requires SeenOk(s) && PodCreated(s, t, uid, id)
    ensures PodOk(t, PodOf(s.seen[uid], id)) && s.seen[uid].uid == uid
  {
    assert IsVersion(s, s.seen[uid]);
  }

  lemma CreatePodConditions(s: State, t: State, uid: string, id: nat)
    requires PodsOk(s) && ConditionsOk(s) && SeenOk(s) && PodCreated(s, t, uid, id)
    ensures ConditionsOk(t)
  {
    hide PodOk, IsVersion;
    assert id !in s.pods;
    forall n, c | n in t.sandboxes && c in t.sandboxes[n].conditions
      ensures ConditionOk(t, t.sandboxes[n].uid, c, t.sandboxes[n].conditions[c])
    {
      var u := s.sandboxes[n].uid;
      assert ConditionOk(s, u, c, s.sandboxes[n].conditions[c]);
      if u != uid {
        NewPodOfOther(s, t, uid, id, u);
      }
    }
  }

  lemma NewPodOfOther(s: State, t: State, uid: string, id: nat, u: string)
    requires PodCreated(s, t, uid, id) && SeenOk(s) && id !in s.pods && u != uid
    ensures HasPod(t.pods, u) <==> HasPod(s.pods, u)
  {
    assert t.pods[id].owner == uid;
    if HasPod(s.pods, u) {
      var jd :| jd in s.pods && s.pods[jd].owner == u;
      assert t.pods[jd].owner == u;
    }
    if HasPod(t.pods, u) {
      var jd :| jd in t.pods && t.pods[jd].owner == u;
      assert s.pods[jd].owner == u;
    }
  }

  /** No Running version lies beyond the one a Pod is made from: Running never
      follows Running. */
  lemma NothingBeyondSeen(s: State, uid: string, i: nat)
    requires HistoryOk(s) && SeenOk(s) && uid in s.seen && s.seen[uid].IsRunning()
    requires i < |s.versions| && s.versions[i].uid == uid && s.versions[i].IsRunning()
    ensures s.versions[i].generation <= s.seen[uid].generation
  {
    hide AttemptsGrow;
    var w := s.seen[uid];
    assert IsVersion(s, w) && s.versions[w.rv].uid == uid;
    if i < w.rv {
      assert GenerationsGrow(s.versions[i], s.versions[w.rv]);
    } else if w.rv < i {
      assert GenerationsGrow(s.versions[w.rv], s.versions[i]);
    }
  }

  lemma CreatePodGenerations(s: State, t: State, uid: string, id: nat)
    requires HistoryOk(s) && SeenOk(s) && PodsOk(s) && PodGenerationsOk(s) && PodCreated(s, t, uid, id)
    ensures PodGenerationsOk(t)
  {
    hide HistoryOk, PodsOk, NothingOutruns, LeftBehind;
    NothingOutrunsNew(s, t, uid, id);
    OthersLeftBehind(s, t, uid, id);
  }

  lemma NothingOutrunsNew(s: State, t: State, uid: string, id: nat)
    requires HistoryOk(s) && SeenOk(s) && NothingOutruns(s) && PodCreated(s, t, uid, id)
    ensures NothingOutruns(t)
  {
    hide HistoryOk, HasPod;
    var p := PodOf(s.seen[uid], id);
    assert IsVersion(s, s.seen[uid]) && p.owner == uid;
    SameGeneration(s, t, p);
    forall i | 0 <= i < |s.versions| && s.versions[i].IsRunning() && s.versions[i].uid == uid
      ensures s.versions[i].generation <= Generation(t, p)
    {
      NothingBeyondSeen(s, uid, i);
    }
  }

  lemma OthersLeftBehind(s: State, t: State, uid: string, id: nat)
    requires LeftBehind(s) && PodCreated(s, t, uid, id)
    ensures LeftBehind(t)
  {
    hide HasPod, Live, Generation;
    SameGeneration(s, t, PodOf(s.seen[uid], id));
    forall q | q in t.podsEver && Leaves(t, q) ensures Generation(t, q) < t.seen[q.owner].generation {
      assert q in s.podsEver && Leaves(s, q);
    }
  }

  lemma CreatePodKeepsInv(cfg: Config, s: State, uid: string, id: nat)
    requires Inv(cfg, s) && Enabled(cfg, s, CreatePod(uid, id))
    ensures Inv(cfg, Apply(cfg, s, CreatePod(uid, id)))
  {
    hide RequestsOk, EveryVersionOk, HooksOk, SecretsOk, ConditionsOk, PodsOk, PodGenerationsOk, VersionsOk,
         HistoryOk, SeenOk;
    var t := Apply(cfg, s, CreatePod(uid, id));
    ClusterStep(cfg, s, t);
    SameHistory(s, t);
    CreatePodPods(s, t, uid, id);
    CreatePodConditions(s, t, uid, id);
    CreatePodGenerations(s, t, uid, id);
  }

  // ---- A Pod is gone

  lemma PodGoneConditions(s: State, id: nat)
    requires SeenOk(s) && PodsOk(s) && PodGenerationsOk(s) && ConditionsOk(s) && id in s.pods && s.pods[id].deleting
    ensures ConditionsOk(s.(pods := s.pods - {id}))
  {
    var t := s.(pods := s.pods - {id});
    forall n, c | n in t.sandboxes && c in t.sandboxes[n].conditions
      ensures ConditionOk(t, t.sandboxes[n].uid, c, t.sandboxes[n].conditions[c])
    {
      var u := s.sandboxes[n].uid;
      assert ConditionOk(s, u, c, s.sandboxes[n].conditions[c]);
      FewerPods(s, id, u);
      if s.pods[id].owner == u {
        DeletingMeansSuspended(s, id, n);
      }
    }
  }

  lemma FewerPods(s: State, id: nat, u: string)
    requires id in s.pods
    ensures HasPod(s.pods - {id}, u) ==> HasPod(s.pods, u)
    ensures s.pods[id].owner != u && HasPod(s.pods, u) ==> HasPod(s.pods - {id}, u)
  {
    if HasPod(s.pods - {id}, u) {
      var jd :| jd in s.pods - {id} && (s.pods - {id})[jd].owner == u;
      assert s.pods[jd].owner == u;
    }
    if s.pods[id].owner != u && HasPod(s.pods, u) {
      var jd :| jd in s.pods && s.pods[jd].owner == u;
      assert (s.pods - {id})[jd].owner == u;
    }
  }

  lemma DeletingMeansSuspended(s: State, id: nat, n: string)
    requires SeenOk(s) && PodsOk(s) && PodGenerationsOk(s)
    requires id in s.pods && s.pods[id].deleting && n in s.sandboxes && s.sandboxes[n].uid == s.pods[id].owner
    ensures s.pods[id].owner in s.seen && !s.seen[s.pods[id].owner].IsRunning()
  {
    var p := s.pods[id];
    assert p in s.podsEver && PodOk(s, p);
    var w := s.seen[p.owner];
    assert IsVersion(s, w) && s.versions[w.rv] == w;
  }

  lemma PodGonePods(s: State, id: nat)
    requires PodsOk(s) && id in s.pods
    ensures PodsOk(s.(pods := s.pods - {id}))
  {
    hide PodOk;
    var t := s.(pods := s.pods - {id});
    forall p | p in t.podsEver ensures PodOk(t, p) {
      SamePodFacts(s, t, p, p);
    }
  }

  lemma PodGoneGenerations(s: State, id: nat)
    requires PodGenerationsOk(s) && id in s.pods && s.pods[id].deleting
    ensures PodGenerationsOk(s.(pods := s.pods - {id}))
  {
    var t := s.(pods := s.pods - {id});
    forall p ensures Generation(t, p) == Generation(s, p) {
    }
  }

  lemma PodGoneKeepsInv(cfg: Config, s: State, id: nat)
    requires Inv(cfg, s) && Enabled(cfg, s, PodGone(id))
    ensures Inv(cfg, Apply(cfg, s, PodGone(id)))
  {
    hide RequestsOk, EveryVersionOk, HooksOk, SecretsOk, ConditionsOk, PodsOk, PodGenerationsOk, VersionsOk,
         HistoryOk, SeenOk;
    var t := Apply(cfg, s, PodGone(id));
    ClusterStep(cfg, s, t);
    SameHistory(s, t);
    PodGoneConditions(s, id);
    PodGonePods(s, id);
    PodGoneGenerations(s, id);
  }

  // ---- Removal

  lemma FinalizeKeepsInv(cfg: Config, s: State, name: string)
    requires Inv(cfg, s) && Enabled(cfg, s, Finalize(name))
    ensures Inv(cfg, Apply(cfg, s, Finalize(name)))
  {
    hide RequestsOk, EveryVersionOk, HooksOk, SecretsOk, ConditionsOk, PodsOk, PodGenerationsOk, VersionsOk,
         HistoryOk, SeenOk;
    var t := Apply(cfg, s, Finalize(name));
    forall u | Live(t.sandboxes, u) ensures Live(s.sandboxes, u) {
      var n :| n in t.sandboxes && t.sandboxes[n].uid == u;
      assert s.sandboxes[n].uid == u;
    }
    ClusterStep(cfg, s, t);
    FinalizeRest(s, t, name);
  }

  lemma FinalizeRest(s: State, t: State, name: string)
    requires VersionsOk(s) && SeenOk(s) && ConditionsOk(s) && PodsOk(s) && PodGenerationsOk(s)
    requires t == s.(sandboxes := s.sandboxes - {name})
    requires forall u :: Live(t.sandboxes, u) ==> Live(s.sandboxes, u)
    ensures VersionsOk(t) && SeenOk(t) && ConditionsOk(t) && PodsOk(t) && PodGenerationsOk(t)
  {
    hide Live, HasPod, PodsOk, PodGenerationsOk, ConditionsOk;
    SamePods(s, t);
    FewerSandboxesConditions(s, t, name);
    FewerSandboxesGenerations(s, t);
  }

  lemma FewerSandboxesConditions(s: State, t: State, name: string)
    requires ConditionsOk(s) && t == s.(sandboxes := s.sandboxes - {name})
    ensures ConditionsOk(t)
  {
    hide HasPod;
    forall n, c | n in t.sandboxes && c in t.sandboxes[n].conditions
      ensures ConditionOk(t, t.sandboxes[n].uid, c, t.sandboxes[n].conditions[c])
    {
      assert ConditionOk(s, s.sandboxes[n].uid, c, s.sandboxes[n].conditions[c]);
    }
  }

  lemma FewerSandboxesGenerations(s: State, t: State)
    requires PodGenerationsOk(s) && t == s.(sandboxes := t.sandboxes)
    requires forall u :: Live(t.sandboxes, u) ==> Live(s.sandboxes, u)
    ensures PodGenerationsOk(t)
  {
    hide Live;
    forall p ensures Generation(t, p) == Generation(s, p) {
    }
  }

  /** Collecting the Secrets of a Sandbox that is gone takes none from a living one:
      names tell owners apart. */
  lemma CascadeSecretKeepsInv(cfg: Config, s: State, name: string)
    requires ConfigOk(cfg) && Inv(cfg, s) && Enabled(cfg, s, CascadeSecret(name))
    ensures Inv(cfg, Apply(cfg, s, CascadeSecret(name)))
  {
    hide RequestsOk, EveryVersionOk, HooksOk, SecretsOk, ConditionsOk, PodsOk, PodGenerationsOk, VersionsOk,
         HistoryOk, SeenOk, ConfigOk;
    var t := Apply(cfg, s, CascadeSecret(name));
    MoreSecrets(cfg, s, t);
    CascadedSecrets(cfg, s, name);
    SameStoreKeepsInv(cfg, s, t);
  }

  lemma CascadedSecrets(cfg: Config, s: State, name: string)
    requires ConfigOk(cfg) && SecretsOk(cfg, s) && name in s.secrets
    requires forall u :: u in s.secrets[name].owners ==> !Live(s.sandboxes, u)
    ensures SecretsOk(cfg, s.(secrets := s.secrets - {name}))
  {
    hide Live, IsSecretOf, ConfigOk;
    var gone := s.secrets[name];
    assert gone in s.secretsEver && gone.name == name;
    assert gone.owners[0] in gone.owners;
    forall k | k in s.secretsEver && k.name == name ensures k.owners[0] == gone.owners[0] {
      var g :| g in s.hooks && IsSecretOf(cfg, k, k.owners[0], s.hooks[g].req);
      var h :| h in s.hooks && IsSecretOf(cfg, gone, gone.owners[0], s.hooks[h].req);
      NameTellsOwner(cfg, k, s.hooks[g].req, gone, s.hooks[h].req);
    }
  }

  lemma NameTellsOwner(cfg: Config, k: Secret, a: Request, l: Secret, b: Request)
    requires ConfigOk(cfg) && k.name == l.name && k.owners != [] && l.owners != []
    requires IsSecretOf(cfg, k, k.owners[0], a) && IsSecretOf(cfg, l, l.owners[0], b)
    ensures k.owners[0] == l.owners[0]
  {
    hide FormatInt;
    assert cfg.names.secret(a.session, k.owners[0], a.order) == cfg.names.secret(b.session, l.owners[0], b.order);
  }
}
