/** The hook and the session controller agree on Secrets: what one publishes the other
    accepts, and the errors that would say otherwise cannot occur. */
module Agreement {
  import opened Api
  import opened Decimal
  import opened Hook
  import opened SessionController
  import opened Protocol
  import opened Invariants
  import opened Writes
  import opened HookSteps
  import opened Runs
  import opened PodSafety
  import opened Safety

  /** Every Secret that ever stood under an order's name is that order's. */
  lemma SecretUnderName(cfg: Config, s: State, h: nat, uid: string, k: Secret)
    requires ConfigOk(cfg) && RequestsOk(cfg, s) && SecretsOk(cfg, s) && h in s.hooks
    requires k in s.secretsEver && k.name == cfg.names.secret(s.hooks[h].req.session, uid, s.hooks[h].req.order)
    ensures IsSecretOf(cfg, k, uid, s.hooks[h].req)
  {
    hide FormatInt, ValidRequest, Contracted, Live;
    var req := s.hooks[h].req;
    var g :| g in s.hooks && IsSecretOf(cfg, k, k.owners[0], s.hooks[g].req);
    assert cfg.names.secret(s.hooks[g].req.session, k.owners[0], s.hooks[g].req.order) ==
           cfg.names.secret(req.session, uid, req.order);
    assert SameOrder(s.hooks[g].req, req);
  }

  lemma SecretOfIsValid(cfg: Config, v: Sandbox, req: Request, k: Secret)
    requires ValidRequest(req) && AcceptedFrom(cfg, v, req) && IsSecretOf(cfg, k, v.uid, req)
    ensures ValidWorkOrderSecret(cfg, k, v, v.Annotation(LastOrderId))
  {
    hide FormatInt;
  }

  /** Whenever pending-secret is set, the Secret it names exists, its name is the
      derived one, and the controller's validator accepts it. */
  lemma PendingSecretIsReady(cfg: Config, run: seq<State>, steps: seq<Step>, k: nat, n: string)
    requires ConfigOk(cfg) && IsRun(cfg, run, steps) && k < |run|
    requires n in run[k].sandboxes && run[k].sandboxes[n].Annotation(PendingSecret) != ""
    ensures var sb := run[k].sandboxes[n];
            && sb.Annotation(PendingSecret) in run[k].secrets
            && ValidWorkOrderSecret(cfg, run[k].secrets[sb.Annotation(PendingSecret)], sb, sb.Annotation(PendingSpawn))
  {
    hide IsRun, ConfigOk, Inv, ValidWorkOrderSecret;
    RunInv(cfg, run, steps, k);
    SecretIsReady(cfg, run[k], n);
  }

  lemma SecretIsReady(cfg: Config, s: State, n: string)
    requires ConfigOk(cfg) && Inv(cfg, s) && n in s.sandboxes && s.sandboxes[n].Annotation(PendingSecret) != ""
    ensures var sb := s.sandboxes[n];
            && sb.Annotation(PendingSecret) in s.secrets
            && ValidWorkOrderSecret(cfg, s.secrets[sb.Annotation(PendingSecret)], sb, sb.Annotation(PendingSpawn))
  {
    hide ConfigOk, VersionOk, HistoryOk, SeenOk, ConditionsOk, PodsOk, PodGenerationsOk, HooksOk, ValidWorkOrderSecret,
         IsSecretOf, EveryVersionOk, VersionsOk, RequestsOk;
    var sb := s.sandboxes[n];
    var h := LiveFacts(cfg, s, n);
    var req := s.hooks[h].req;
    var have :| have in s.secretsEver && IsSecretOf(cfg, have, sb.uid, req);
    OwnerAndName(cfg, have, sb.uid, req);
    assert Live(s.sandboxes, have.owners[0]);
    assert have.name in s.secrets;
    var stands := s.secrets[have.name];
    SecretUnderName(cfg, s, h, sb.uid, stands);
    SecretOfIsValid(cfg, sb, req, stands);
  }

  lemma OwnerAndName(cfg: Config, k: Secret, uid: string, req: Request)
    requires IsSecretOf(cfg, k, uid, req)
    ensures k.owners == [uid] && k.name == cfg.names.secret(req.session, uid, req.order)
  {
  }

  /** Wake never fails on a version it may read except for want of preparation: the
      pending order is always the last accepted one, the template always has its
      volume, and any Secret that ever stood under the pending name validates. */
  lemma WakeIsBlockedOnlyUnprepared(cfg: Config, run: seq<State>, steps: seq<Step>, k: nat, i: nat,
                                    secret: Option<Secret>)
    requires ConfigOk(cfg) && IsRun(cfg, run, steps) && k < |run| && i < |run[k].versions|
    requires secret.Some? ==> secret.value in run[k].secretsEver &&
                              secret.value.name == run[k].versions[i].Annotation(PendingSecret)
    ensures var v := run[k].versions[i];
            Wake(cfg, v, secret).Blocked? <==>
              Preparing(v) && CurrentGenerationTrue(v, SuspendedCondition) &&
              (v.Annotation(PendingSecret) == "" || secret.None?)
  {
    hide IsRun, ConfigOk, HistoryOk, SeenOk, ConditionsOk, PodsOk, PodGenerationsOk, HooksOk, ValidWorkOrderSecret,
         IsSecretOf, EveryVersionOk, VersionsOk, RequestsOk, SecretsOk, Selected, Installed, NamedVolume, HasSecret;
    RunInv(cfg, run, steps, k);
    var s, v := run[k], run[k].versions[i];
    EveryVersion(cfg, s, i);
    var h := AcceptedRequest(cfg, s, v);
    if v.Annotation(PendingSecret) != "" && secret.Some? {
      SecretUnderName(cfg, s, h, v.uid, secret.value);
      SecretOfIsValid(cfg, v, s.hooks[h].req, secret.value);
    }
  }

  lemma EveryVersion(cfg: Config, s: State, i: nat)
    requires EveryVersionOk(cfg, s) && i < |s.versions|
    ensures VersionOk(cfg, s, s.versions[i])
  {
    hide VersionOk;
  }

  lemma RepairNeverMismatches(cfg: Config, s: State, v: Sandbox, h: nat)
    requires RequestsOk(cfg, s) && VersionOk(cfg, s, v) && h in s.hooks &&
             Evaluate(cfg, v, s.hooks[h].req) == Redelivery
    ensures Repair(v, s.hooks[h].req, cfg.names.secret(s.hooks[h].req.session, v.uid, s.hooks[h].req.order)) != Mismatch
  {
    hide HasSecret, AcceptedAttempt, VersionOk, FormatInt, WorkOrderSecretOf, RequestsOk, ParseAttempt;
    var g := AcceptedRequest(cfg, s, v);
    RequestsAgree(cfg, s, g, h);
  }

  /** The hook's pointer-mismatch and Secret-mismatch errors cannot occur: whatever
      version an invocation works from, repair finds no foreign pointer, and a Secret
      standing under the order's name is the one it would have created. */
  lemma HookMismatchesAreUnreachable(cfg: Config, run: seq<State>, steps: seq<Step>, k: nat, h: nat, i: nat)
    requires ConfigOk(cfg) && IsRun(cfg, run, steps) && k < |run| && h in run[k].hooks && i < |run[k].versions|
    ensures var v, inv := run[k].versions[i], run[k].hooks[h];
            Evaluate(cfg, v, inv.req) == Redelivery ==>
              Repair(v, inv.req, cfg.names.secret(inv.req.session, v.uid, inv.req.order)) != Mismatch
    ensures var v, inv := run[k].versions[i], run[k].hooks[h];
            var desired := DesiredSecret(cfg, inv, v.uid);
            desired.name in run[k].secrets ==> VerifySecret(run[k].secrets[desired.name], desired)
  {
    hide IsRun, ConfigOk, HistoryOk, SeenOk, ConditionsOk, PodsOk, PodGenerationsOk, HooksOk, EveryVersionOk,
         VersionsOk, SecretsOk, VerifySecret, HasSecret, AcceptedAttempt, VersionOk, FormatInt, WorkOrderSecretOf,
         Contracted, ParseAttempt;
    RunInv(cfg, run, steps, k);
    var s, v, inv := run[k], run[k].versions[i], run[k].hooks[h];
    EveryVersion(cfg, s, i);
    if Evaluate(cfg, v, inv.req) == Redelivery {
      RepairNeverMismatches(cfg, s, v, h);
    }
    if DesiredSecret(cfg, inv, v.uid).name in s.secrets {
      ExistingSecretVerifies(cfg, s, h, v.uid);
    }
  }

  /** The two programs judge a Secret alike: under an order's name, the hook accepts just
      those Secrets the controller would wake the order with, if they also hold this
      request's work order. */
  lemma VerifiersAgree(cfg: Config, v: Sandbox, req: Request, labels: Labels, k: Secret)
    requires ConfigOk(cfg) && ValidRequest(req) && AcceptedFrom(cfg, v, req)
    requires k.name == cfg.names.secret(req.session, v.uid, req.order)
    ensures VerifySecret(k, WorkOrderSecret(cfg, v.uid, labels, req)) <==>
              ValidWorkOrderSecret(cfg, k, v, req.order) && k.workOrder == req.workOrder
  {
    hide FormatInt;
    if ValidWorkOrderSecret(cfg, k, v, req.order) {
      var session := Get(k.annotations, SessionId);
      assert cfg.names.secret(session, v.uid, req.order) == cfg.names.secret(req.session, v.uid, req.order);
    }
  }

  /** Whatever Sandbox a release has, the hooks of another release refuse it and its
      controller leaves it alone. */
  lemma OtherReleaseIsRefused(cfg: Config, run: seq<State>, steps: seq<Step>, k: nat, n: string, other: Config)
    requires ConfigOk(cfg) && IsRun(cfg, run, steps) && k < |run| && n in run[k].sandboxes &&
             other.release != cfg.release
    ensures var sb := run[k].sandboxes[n];
            && (forall req ::
                  Evaluate(other, sb, req) == Refuse(if sb.deleting then EXIT_RETRYABLE else EXIT_NON_RETRYABLE))
            && forall pods, secret, list, now :: Decide(other, sb, pods, secret, list, now) == Nothing
  {
    hide IsRun, ConfigOk, Inv, VersionOk, Observe, Sleep, Wake, GcDue, ParseAttempt;
    RunInv(cfg, run, steps, k);
    var h := LiveFacts(cfg, run[k], n);
    LiveSelected(cfg, run[k], n);
  }

  /** What comes of an order delivered again with another attempt. The hook takes it for a
      redelivery. If the first delivery's Secret stands, the hook accepts it just when the
      attempts and the work orders are the same; if it does not, the controller accepts
      the Secret the second delivery creates just when the attempts are. */
  lemma ChangedAttemptIsCaught(cfg: Config, sb: Sandbox, first: Request, second: Request, labels: Labels,
                               others: Labels)
    requires AcceptedFrom(cfg, sb, first) && ValidRequest(first) && ValidRequest(second)
    requires first.order == second.order && first.session == second.session
    ensures Evaluate(cfg, sb, second) == Evaluate(cfg, sb, first)
    ensures !Evaluate(cfg, sb, second).Refuse? ==> Evaluate(cfg, sb, second) == Redelivery
    ensures var stands := WorkOrderSecret(cfg, sb.uid, labels, first);
            var desired := WorkOrderSecret(cfg, sb.uid, others, second);
            && stands.name == desired.name
            && (VerifySecret(stands, desired) <==>
                first.attempt == second.attempt && first.workOrder == second.workOrder)
            && (ValidWorkOrderSecret(cfg, desired, sb, sb.Annotation(LastOrderId)) <==> first.attempt == second.attempt)
  {
    hide FormatInt, ParseInt;
    if FormatInt(first.attempt) == FormatInt(second.attempt) {
      FormatTells(first.attempt, second.attempt);
    }
  }
}
