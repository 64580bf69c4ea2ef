/** The API calls of hook invocations keep the invariant. */
module HookSteps {
  import opened Api
  import opened Decimal
  import opened Hook
  import opened SessionController
  import opened Protocol
  import opened Invariants
  import opened Preservation
  import opened Writes

  // ---- Parts of the store a call leaves alone

  lemma SameConditions(s: State, t: State)
    requires ConditionsOk(s) && t.sandboxes == s.sandboxes && t.seen == s.seen && t.pods == s.pods
    ensures ConditionsOk(t)
  {
    forall n, c | n in t.sandboxes && c in t.sandboxes[n].conditions
      ensures ConditionOk(t, t.sandboxes[n].uid, c, t.sandboxes[n].conditions[c])
    {
      assert ConditionOk(s, s.sandboxes[n].uid, c, s.sandboxes[n].conditions[c]);
    }
  }

  lemma SamePods(s: State, t: State)
    requires PodsOk(s) && t.versions == s.versions && t.seen == s.seen && t.pods == s.pods && t.podsEver == s.podsEver
    ensures PodsOk(t)
  {
    forall p | p in t.podsEver ensures PodOk(t, p) {
      assert PodOk(s, p);
    }
  }

  lemma SameGenerations(s: State, t: State)
    requires PodGenerationsOk(s) && t.sandboxes == s.sandboxes && t.versions == s.versions && t.seen == s.seen
    requires t.pods == s.pods && t.podsEver == s.podsEver
    ensures PodGenerationsOk(t)
  {
    forall p ensures Generation(t, p) == Generation(s, p) {
    }
  }

  lemma SameHistory(s: State, t: State)
    requires VersionsOk(s) && HistoryOk(s) && SeenOk(s)
    requires t.sandboxes == s.sandboxes && t.versions == s.versions && t.seen == s.seen
    ensures VersionsOk(t) && HistoryOk(t) && SeenOk(t)
  {
    hide AttemptsGrow, GenerationsGrow;
  }

  /** A step that touches neither Sandboxes, Pods nor the sandbox controller. */
  lemma SameStoreKeepsInv(cfg: Config, s: State, t: State)
    requires Inv(cfg, s) && t == s.(hooks := t.hooks, secrets := t.secrets, secretsEver := t.secretsEver)
    requires RequestsOk(cfg, t) && EveryVersionOk(cfg, t) && SecretsOk(cfg, t) && HooksOk(cfg, t)
    ensures Inv(cfg, t)
  {
    hide VersionsOk, HistoryOk, SeenOk, ConditionsOk, PodsOk, PodGenerationsOk, EveryVersionOk, SecretsOk,
         RequestsOk, HooksOk;
    SameHistory(s, t);
    SameConditions(s, t);
    SamePods(s, t);
    SameGenerations(s, t);
  }

  // ---- Program counters

  lemma SetPcKeepsInv(cfg: Config, s: State, h: nat, pc: Pc)
    requires Inv(cfg, s) && h in s.hooks && HookOk(cfg, s, s.hooks[h].(pc := pc))
    ensures Inv(cfg, SetPc(s, h, pc))
  {
    hide AcceptedAttempt, VersionsOk, EveryVersionOk, SecretsOk, HookOk, HistoryOk, SeenOk, ConditionsOk, PodsOk,
         PodGenerationsOk, SameOrder, ValidRequest, Contracted;
    var t := SetPc(s, h, pc);
    SameHookFacts(cfg, s, t);
    forall k | k in t.hooks ensures HookOk(cfg, t, t.hooks[k]) {
      HookOkMonotone(cfg, s, t, t.hooks[k]);
    }
    assert RequestsOk(cfg, t);
    SameStoreKeepsInv(cfg, s, t);
  }

  /** Invariants of the store do not depend on program counters. */
  lemma SameHookFacts(cfg: Config, s: State, t: State)
    requires EveryVersionOk(cfg, s) && SecretsOk(cfg, s) && Extends(s, t)
    requires t.versions == s.versions && t.secretsEver == s.secretsEver && t.secrets == s.secrets &&
             t.sandboxes == s.sandboxes
    ensures EveryVersionOk(cfg, t) && SecretsOk(cfg, t)
  {
    hide VersionOk, IsSecretOf;
    forall i | 0 <= i < |t.versions| ensures VersionOk(cfg, t, t.versions[i]) {
      VersionOkMonotone(cfg, s, t, t.versions[i]);
    }
    forall k | k in t.secretsEver
      ensures exists h :: h in t.hooks && IsSecretOf(cfg, k, k.owners[0], t.hooks[h].req)
    {
      var h :| h in s.hooks && IsSecretOf(cfg, k, k.owners[0], s.hooks[h].req);
      assert t.hooks[h].req == s.hooks[h].req;
    }
  }

  lemma StartRequests(cfg: Config, s: State, h: nat, req: Request, tmpl: Sandbox)
    requires RequestsOk(cfg, s) && Enabled(cfg, s, Start(h, req, tmpl))
    ensures RequestsOk(cfg, Apply(cfg, s, Start(h, req, tmpl)))
  {
    hide ValidRequest, Contracted;
  }

  lemma ReadingIsOk(cfg: Config, s: State, inv: Invocation)
    requires inv.pc.Reading?
    ensures HookOk(cfg, s, inv)
  {
  }

  lemma StartKeepsInv(cfg: Config, s: State, h: nat, req: Request, tmpl: Sandbox)
    requires Inv(cfg, s) && Enabled(cfg, s, Start(h, req, tmpl))
    ensures Inv(cfg, Apply(cfg, s, Start(h, req, tmpl)))
  {
    hide HookOk, VersionsOk, EveryVersionOk, SecretsOk, HistoryOk, SeenOk, ConditionsOk, PodsOk, PodGenerationsOk,
         RequestsOk, ValidRequest, Contracted, SameOrder;
    var t := Apply(cfg, s, Start(h, req, tmpl));
    StartRequests(cfg, s, h, req, tmpl);
    ReadingIsOk(cfg, t, t.hooks[h]);
    SameHookFacts(cfg, s, t);
    forall k | k in t.hooks ensures HookOk(cfg, t, t.hooks[k]) {
      if k != h {
        HookOkMonotone(cfg, s, t, s.hooks[k]);
      }
    }
    SameStoreKeepsInv(cfg, s, t);
  }

  // ---- What a decision leaves the invocation with

  /** A redelivery is of the accepted order at the accepted attempt. */
  lemma RedeliveryAttempt(cfg: Config, s: State, h: nat, v: Sandbox)
    requires RequestsOk(cfg, s) && VersionOk(cfg, s, v) && h in s.hooks
    requires Evaluate(cfg, v, s.hooks[h].req) == Redelivery
    ensures AcceptedAttempt(v) == s.hooks[h].req.attempt && v.Annotation(LastOrderId) == s.hooks[h].req.order
  {
    hide AcceptedAttempt, VersionOk, RequestsOk, ValidRequest, Evaluate, HasSecret, WorkOrderSecretOf;
    var g := AcceptedRequest(cfg, s, v);
    OrderTells(cfg, v, s.hooks[h].req);
    RequestsAgree(cfg, s, g, h);
  }

  lemma RequestsAgree(cfg: Config, s: State, g: nat, h: nat)
    requires RequestsOk(cfg, s) && g in s.hooks && h in s.hooks
    ensures SameOrder(s.hooks[g].req, s.hooks[h].req) && ValidRequest(s.hooks[h].req)
  {
    hide SameOrder, ValidRequest, Contracted;
  }

  lemma ClassifiedOk(cfg: Config, s: State, inv: Invocation, t: nat, sb: Sandbox)
    requires SnapOk(s, inv, sb)
    ensures HookOk(cfg, s, inv.(pc := Classified(cfg, inv.req, t, sb)))
  {
    hide ParseAttempt, HoldsSlot;
  }

  /** Nothing left to repair on an accepted order: it is prepared, or past that. */
  lemma CompleteIsPrepared(cfg: Config, s: State, v: Sandbox, req: Request)
    requires VersionOk(cfg, s, v) && v.Annotation(LastOrderId) == req.order
    ensures Repair(v, req, cfg.names.secret(req.session, v.uid, req.order)) == Complete ==> !Unprepared(v)
  {
    hide NamedVolume, Selected, CarriesOrder, HasApplied;
  }

  lemma SecuredOk(cfg: Config, s: State, h: nat, t: nat, snap: Sandbox, newer: bool)
    requires RequestsOk(cfg, s) && VersionOk(cfg, s, snap) && h in s.hooks && SnapOk(s, s.hooks[h], snap)
    requires Evaluate(cfg, snap, s.hooks[h].req) == if newer then Newer else Redelivery
    requires HasSecret(cfg, s, snap.uid, s.hooks[h].req)
    ensures HookOk(cfg, s, s.hooks[h].(pc := Secured(cfg, s.hooks[h].req, t, snap, newer)))
  {
    hide AcceptedAttempt, Evaluate, Repair, HasSecret, VersionOk, Unprepared, RequestsOk;
    if !newer {
      RedeliveryAttempt(cfg, s, h, snap);
      CompleteIsPrepared(cfg, s, snap, s.hooks[h].req);
    }
  }

  lemma SnapVersionOk(cfg: Config, s: State, sb: Sandbox)
    requires EveryVersionOk(cfg, s) && IsVersion(s, sb)
    ensures VersionOk(cfg, s, sb)
  {
    hide VersionOk;
  }

  // ---- Creating the Sandbox

  lemma CreatedContent(cfg: Config, s: State, h: nat, now: int, uid: string)
    requires h in s.hooks && ValidRequest(s.hooks[h].req) && Contracted(cfg, s.hooks[h].tmpl, s.hooks[h].req)
    ensures VersionOk(cfg, s, Created(cfg, s.hooks[h], now, uid, |s.versions|))
    ensures Preparing(Created(cfg, s.hooks[h], now, uid, |s.versions|))
  {
    hide FormatInt, HasSecret, WorkOrderSecretOf, AcceptedAttempt;
    var w := Created(cfg, s.hooks[h], now, uid, |s.versions|);
    assert w.Annotation(AppliedSpawn) == "" && w.Annotation(PendingSecret) == "";
    assert Preparing(w);
    assert CarriesOrder(cfg, s, w, s.hooks[h].req);
  }

  lemma NewUidIsUnowned(cfg: Config, s: State, uid: string)
    requires SecretsOk(cfg, s) && PodsOk(s)
    requires forall i :: 0 <= i < |s.versions| ==> s.versions[i].uid != uid
    ensures forall k :: k in s.secretsEver ==> k.owners[0] != uid
    ensures forall p :: p in s.podsEver ==> p.owner != uid
  {
    forall p | p in s.podsEver ensures p.owner != uid {
      assert PodOk(s, p);
    }
  }

  ghost predicate FreshVersion(cfg: Config, s: State, w: Sandbox) {
    && w.name !in s.sandboxes && w.rv == |s.versions| && w.uid != "" && VersionOk(cfg, s, w) && !w.IsRunning() &&
       w.conditions == map[]
    && forall i :: 0 <= i < |s.versions| ==> s.versions[i].uid != w.uid
  }

  lemma NewLive(s: State, w: Sandbox, u: string)
    requires w.name !in s.sandboxes
    ensures Live(Put(s, w).sandboxes, u) <==> Live(s.sandboxes, u) || u == w.uid
  {
    var t := Put(s, w);
    if Live(s.sandboxes, u) {
      var n :| n in s.sandboxes && s.sandboxes[n].uid == u;
      assert t.sandboxes[n].uid == u;
    }
    assert t.sandboxes[w.name].uid == w.uid;
    if Live(t.sandboxes, u) {
      var n :| n in t.sandboxes && t.sandboxes[n].uid == u;
      assert n == w.name || s.sandboxes[n].uid == u;
    }
  }

  lemma CreateVersions(cfg: Config, s: State, w: Sandbox)
    requires VersionsOk(s) && FreshVersion(cfg, s, w)
    ensures VersionsOk(Put(s, w))
  {
    hide VersionOk;
    var t := Put(s, w);
    forall n | n in t.sandboxes ensures t.sandboxes[n].name == n && IsVersion(t, t.sandboxes[n]) {
      if n != w.name {
        assert IsVersion(s, s.sandboxes[n]);
      }
    }
    forall n, i | n in t.sandboxes && 0 <= i < |t.versions| && t.versions[i].uid == t.sandboxes[n].uid
      ensures i <= t.sandboxes[n].rv && t.versions[i].name == n
    {
      if n != w.name {
        assert IsVersion(s, s.sandboxes[n]);
        assert i < |s.versions| && s.versions[i].uid == s.sandboxes[n].uid;
      }
    }
  }

  lemma CreateHistory(cfg: Config, s: State, w: Sandbox)
    requires HistoryOk(s) && FreshVersion(cfg, s, w)
    ensures HistoryOk(Put(s, w))
  {
    hide VersionOk, AttemptsGrow, GenerationsGrow;
  }

  lemma CreateSecrets(cfg: Config, s: State, w: Sandbox)
    requires SecretsOk(cfg, s) && PodsOk(s) && FreshVersion(cfg, s, w)
    ensures SecretsOk(cfg, Put(s, w))
  {
    hide VersionOk, IsSecretOf, Live;
    var t := Put(s, w);
    NewUidIsUnowned(cfg, s, w.uid);
    forall k | k in t.secretsEver
      ensures exists i :: 0 <= i < |t.versions| && t.versions[i].uid == k.owners[0]
      ensures Live(t.sandboxes, k.owners[0]) ==> k.name in t.secrets
    {
      var i :| 0 <= i < |s.versions| && s.versions[i].uid == k.owners[0];
      assert t.versions[i] == s.versions[i];
      NewLive(s, w, k.owners[0]);
    }
  }

  lemma CreateSeen(cfg: Config, s: State, w: Sandbox)
    requires SeenOk(s) && FreshVersion(cfg, s, w)
    ensures SeenOk(Put(s, w))
  {
    hide VersionOk;
    var t := Put(s, w);
    forall u | u in t.seen ensures IsVersion(t, t.seen[u]) {
      assert IsVersion(s, s.seen[u]);
    }
  }

  lemma CreatePods(cfg: Config, s: State, w: Sandbox)
    requires SecretsOk(cfg, s) && PodsOk(s) && PodGenerationsOk(s) && FreshVersion(cfg, s, w)
    ensures PodGenerationsOk(Put(s, w))
  {
    hide VersionOk, SecretsOk, Live;
    var t := Put(s, w);
    NewUidIsUnowned(cfg, s, w.uid);
    forall p | p in s.podsEver
      ensures Generation(t, p) == Generation(s, p) && (Live(t.sandboxes, p.owner) ==> Live(s.sandboxes, p.owner))
    {
      assert PodOk(s, p);
      NewLive(s, w, p.owner);
    }
  }

  lemma CreateConditions(cfg: Config, s: State, w: Sandbox)
    requires ConditionsOk(s) && FreshVersion(cfg, s, w)
    ensures ConditionsOk(Put(s, w))
  {
    hide VersionOk;
    var t := Put(s, w);
    forall n, c | n in t.sandboxes && c in t.sandboxes[n].conditions
      ensures ConditionOk(t, t.sandboxes[n].uid, c, t.sandboxes[n].conditions[c])
    {
      assert n != w.name;
      assert ConditionOk(s, s.sandboxes[n].uid, c, s.sandboxes[n].conditions[c]);
    }
  }

  lemma CreateKeepsInv(cfg: Config, s: State, w: Sandbox)
    requires Inv(cfg, s) && FreshVersion(cfg, s, w)
    ensures Inv(cfg, Put(s, w))
  {
    hide VersionOk, VersionsOk, EveryVersionOk, HistoryOk, SecretsOk, SeenOk, ConditionsOk, PodsOk,
         PodGenerationsOk, HooksOk;
    CreateVersions(cfg, s, w);
    PutEveryVersion(cfg, s, w);
    CreateHistory(cfg, s, w);
    CreateSecrets(cfg, s, w);
    CreateSeen(cfg, s, w);
    CreatePods(cfg, s, w);
    CreateConditions(cfg, s, w);
    PutPods(s, w);
    PutHooks(cfg, s, w);
  }

  // ---- Creating the Secret

  lemma AddSecretKeepsInv(cfg: Config, s: State, h: nat, snap: Sandbox)
    requires Inv(cfg, s) && h in s.hooks && IsVersion(s, snap)
    ensures var k := DesiredSecret(cfg, s.hooks[h], snap.uid);
            var t := s.(secrets := s.secrets[k.name := k], secretsEver := s.secretsEver + {k});
            Inv(cfg, t) && HasSecret(cfg, t, snap.uid, s.hooks[h].req)
  {
    hide VersionsOk, HistoryOk, SeenOk, ConditionsOk, PodsOk, PodGenerationsOk, EveryVersionOk, SecretsOk, HooksOk,
         FormatInt;
    var k := DesiredSecret(cfg, s.hooks[h], snap.uid);
    var t := s.(secrets := s.secrets[k.name := k], secretsEver := s.secretsEver + {k});
    assert IsSecretOf(cfg, k, snap.uid, s.hooks[h].req);
    MoreSecrets(cfg, s, t);
    SecretsWith(cfg, s, t, h, k, snap);
    SameStoreKeepsInv(cfg, s, t);
  }

  lemma MoreSecrets(cfg: Config, s: State, t: State)
    requires RequestsOk(cfg, s) && EveryVersionOk(cfg, s) && HooksOk(cfg, s)
    requires Extends(s, t) && t.hooks == s.hooks && t.versions == s.versions
    ensures RequestsOk(cfg, t) && EveryVersionOk(cfg, t) && HooksOk(cfg, t)
  {
    hide VersionOk, HookOk, ValidRequest, Contracted, SameOrder;
    forall i | 0 <= i < |t.versions| ensures VersionOk(cfg, t, t.versions[i]) {
      VersionOkMonotone(cfg, s, t, t.versions[i]);
    }
    forall g | g in t.hooks ensures HookOk(cfg, t, t.hooks[g]) {
      HookOkMonotone(cfg, s, t, t.hooks[g]);
    }
  }

  lemma SecretsWith(cfg: Config, s: State, t: State, h: nat, k: Secret, snap: Sandbox)
    requires SecretsOk(cfg, s) && h in s.hooks && IsVersion(s, snap) && IsSecretOf(cfg, k, snap.uid, s.hooks[h].req)
    requires t == s.(secrets := s.secrets[k.name := k], secretsEver := s.secretsEver + {k})
    ensures SecretsOk(cfg, t)
  {
    hide IsSecretOf;
    assert k.owners == [snap.uid] && k.name == k.name by { SecretOwner(cfg, k, snap.uid, s.hooks[h].req); }
    assert s.versions[snap.rv].uid == snap.uid;
  }

  lemma SecretOwner(cfg: Config, k: Secret, uid: string, req: Request)
    requires IsSecretOf(cfg, k, uid, req)
    ensures k.owners == [uid]
  {
  }

  /** With names injective, the Secret that stands under an order's name is that
      order's: verifySecret never fails. */
  lemma ExistingSecretVerifies(cfg: Config, s: State, h: nat, uid: string)
    requires ConfigOk(cfg) && RequestsOk(cfg, s) && SecretsOk(cfg, s) && h in s.hooks
    requires DesiredSecret(cfg, s.hooks[h], uid).name in s.secrets
    ensures VerifySecret(s.secrets[DesiredSecret(cfg, s.hooks[h], uid).name], DesiredSecret(cfg, s.hooks[h], uid))
    ensures HasSecret(cfg, s, uid, s.hooks[h].req)
  {
    hide FormatInt, ValidRequest, RequestsOk, SecretsOk;
    var req := s.hooks[h].req;
    var k := s.secrets[DesiredSecret(cfg, s.hooks[h], uid).name];
    var g := SecretRequest(cfg, s, DesiredSecret(cfg, s.hooks[h], uid).name);
    assert cfg.names.secret(s.hooks[g].req.session, k.owners[0], s.hooks[g].req.order) ==
           cfg.names.secret(req.session, uid, req.order);
    RequestsAgree(cfg, s, g, h);
    assert IsSecretOf(cfg, k, uid, req);
  }

  /** The request a standing Secret was made for. */
  lemma SecretRequest(cfg: Config, s: State, name: string) returns (g: nat)
    requires SecretsOk(cfg, s) && name in s.secrets
    ensures s.secrets[name].name == name && s.secrets[name] in s.secretsEver && |s.secrets[name].owners| == 1
    ensures g in s.hooks && IsSecretOf(cfg, s.secrets[name], s.secrets[name].owners[0], s.hooks[g].req)
  {
    hide IsSecretOf, Live;
    var k := s.secrets[name];
    g :| g in s.hooks && IsSecretOf(cfg, k, k.owners[0], s.hooks[g].req);
  }
}
