/** What happens to orders over a whole run. */
module Orders {
  import opened Api
  import opened Decimal
  import opened Hook
  import opened SessionController
  import opened Protocol
  import opened Invariants
  import opened Preservation
  import opened Writes
  import opened HookSteps
  import opened Safety
  import opened Runs
  import opened PodSafety

  // ---- How versions come about

  /** A step adds no version, creates a Sandbox, or succeeds a live one. */
  ghost predicate AddsAtMostOne(cfg: Config, s: State, t: State) {
    t.versions == s.versions ||
    (|t.versions| == |s.versions| + 1 && s.versions <= t.versions &&
     var w := t.versions[|s.versions|];
     (FreshVersion(cfg, s, w) && Preparing(w)) ||
     (w.name in s.sandboxes && Succeeds(cfg, s, s.sandboxes[w.name], w)))
  }

  lemma CallAdds(cfg: Config, s: State, h: nat, now: int, uid: string)
    requires ConfigOk(cfg) && Inv(cfg, s) && Enabled(cfg, s, HookCall(h, now, uid, false))
    ensures AddsAtMostOne(cfg, s, Call(cfg, s, s.hooks[h], now, uid).state)
  {
    hide VersionOk, EveryVersionOk, HistoryOk, SecretsOk, SeenOk, ConditionsOk, PodsOk, PodGenerationsOk,
         Classified, Secured, ConfigOk, Evaluate, VerifySecret, Mutated, Created, Succeeds, Contracted,
         ValidRequest, SameOrder, HoldsSlot, HasSecret, Repair;
    var inv := s.hooks[h];
    assert HookOk(cfg, s, inv);
    if inv.pc.Creating? && inv.tmpl.name !in s.sandboxes {
      CreatedContent(cfg, s, h, now, uid);
      CreatedIdentity(cfg, inv, now, uid, |s.versions|);
    }
    if inv.pc.Patching? && Current(s, inv.pc.snap) {
      CurrentIsLive(s, inv.pc.snap);
      PatchedVersion(cfg, s, h, now);
      MutatedIdentity(cfg, inv, now);
    }
  }

  lemma PassAdds(cfg: Config, s: State, step: Step)
    requires ConfigOk(cfg) && Inv(cfg, s) && Enabled(cfg, s, step) && IsPass(step)
    ensures AddsAtMostOne(cfg, s, Apply(cfg, s, step))
  {
    hide Inv, ConfigOk, Decide, Succeeds, FreshVersion;
    var snap := s.versions[step.at];
    var write := PassWrite(cfg, s, step);
    InvVersions(cfg, s);
    if write != Nothing && Current(s, snap) {
      CurrentIsLive(s, snap);
      DecidedSucceeds(cfg, s, snap, step.pods, step.secret, step.list, step.now);
      CommitIsPut(s, snap, write);
    }
  }

  lemma StepAdds(cfg: Config, s: State, step: Step)
    requires ConfigOk(cfg) && Inv(cfg, s) && Enabled(cfg, s, step)
    ensures AddsAtMostOne(cfg, s, Apply(cfg, s, step))
  {
    hide Inv, ConfigOk, Call, CommitPass, Succeeds, FreshVersion, ReportedConditions;
    match step {
      case HookCall(h, now, uid, lost) => CallAdds(cfg, s, h, now, uid);
      case ControllerPass(_, _, _, _, _) => PassAdds(cfg, s, step);
      case Report(name) =>
        InvVersions(cfg, s);
        var sb := s.sandboxes[name];
        BookkeepingSucceeds(cfg, s, sb, sb.(conditions := ReportedConditions(s.seen[sb.uid], s.pods)));
      case _ =>
    }
  }

  lemma {:induction false} VersionsGrow(cfg: Config, run: seq<State>, steps: seq<Step>, i: nat, j: nat)
    requires ConfigOk(cfg) && IsRun(cfg, run, steps) && i <= j < |run|
    ensures run[i].versions <= run[j].versions
  {
    hide Inv, ConfigOk, Apply, Enabled, Succeeds, FreshVersion;
    if i < j {
      VersionsGrow(cfg, run, steps, i, j - 1);
      RunInv(cfg, run, steps, j - 1);
      StepAdds(cfg, run[j - 1], steps[j - 1]);
    }
  }

  // ---- Phases

  /** Every version of every Sandbox is in exactly one phase. */
  lemma ExactlyOnePhase(cfg: Config, run: seq<State>, steps: seq<Step>, k: nat, i: nat)
    requires ConfigOk(cfg) && IsRun(cfg, run, steps) && k < |run| && i < |run[k].versions|
    ensures var v := run[k].versions[i];
            && (Preparing(v) || Starting(v) || Working(v) || Asleep(v))
            && !(Preparing(v) && (Starting(v) || Working(v) || Asleep(v)))
            && !(Starting(v) && (Working(v) || Asleep(v)))
            && !(Working(v) && Asleep(v))
  {
    hide IsRun, ConfigOk, HistoryOk, SecretsOk, SeenOk, ConditionsOk, PodsOk, PodGenerationsOk, HooksOk, RequestsOk,
         VersionsOk, NamedVolume, Selected, CarriesOrder, HasApplied;
    RunInv(cfg, run, steps, k);
    assert VersionOk(cfg, run[k], run[k].versions[i]);
  }

  /** The four predicates of Reconcile tried in the opposite order. */
  function DecideReversed(cfg: Config, sb: Sandbox, pods: seq<Pod>, secret: Option<Secret>, list: seq<Sandbox>,
                          now: int): Write
  {
    if sb.deleting || !Selected(cfg, sb.labels) then Nothing
    else if GcDue(cfg, sb, list, now) then Collect
    else
      match Wake(cfg, sb, secret)
      case Woken(mut) => Awoke(mut)
      case Blocked(_) => Nothing
      case NotDue =>
        match Sleep(sb, now)
        case Some(mut) => Slept(mut)
        case None =>
          match Observe(sb, OwnedPods(cfg, pods, sb.uid))
          case Some(mut) => Observed(mut)
          case None => Nothing
  }

  /** On any version a pass may ever read, whatever else it reads, at most one of the
      four predicates holds, each only in its own phase; so trying them in the
      opposite order decides the same write. */
  lemma PredicatesAreDisjoint(cfg: Config, run: seq<State>, steps: seq<Step>, k: nat, i: nat,
                              pods: seq<Pod>, secret: Option<Secret>, list: seq<Sandbox>, now: int)
    requires ConfigOk(cfg) && IsRun(cfg, run, steps) && k < |run| && i < |run[k].versions|
    ensures var v := run[k].versions[i];
            && (Observe(v, pods).Some? ==> Starting(v))
            && (Sleep(v, now).Some? ==> Working(v))
            && (Wake(cfg, v, secret) != NotDue ==> Preparing(v))
            && (GcDue(cfg, v, list, now) ==> Asleep(v))
            && Decide(cfg, v, pods, secret, list, now) == DecideReversed(cfg, v, pods, secret, list, now)
  {
    hide IsRun, ConfigOk, ValidWorkOrderSecret, Installed, NamedVolume, IdleEntries, IdleCap.IsVictim, OwnedPods;
    var v := run[k].versions[i];
    ExactlyOnePhase(cfg, run, steps, k, i);
    PredicatePhases(cfg, v, pods, secret, list, now);
    PredicatePhases(cfg, v, OwnedPods(cfg, pods, v.uid), secret, list, now);
    hide Observe, Sleep, Wake, GcDue, Preparing, Starting, Working, Asleep;
  }

  lemma PredicatePhases(cfg: Config, v: Sandbox, pods: seq<Pod>, secret: Option<Secret>, list: seq<Sandbox>, now: int)
    requires InPhase(v)
    ensures Observe(v, pods).Some? ==> Starting(v)
    ensures Sleep(v, now).Some? ==> Working(v)
    ensures Wake(cfg, v, secret) != NotDue ==> Preparing(v)
    ensures GcDue(cfg, v, list, now) ==> Asleep(v)
  {
    hide ValidWorkOrderSecret, Installed, NamedVolume, IdleEntries;
  }

  // ---- Attempts

  /** Of one uid, the accepted attempt never decreases, and the order changes only with
      a strictly larger attempt. */
  lemma AcceptedAttemptsNeverDecrease(cfg: Config, run: seq<State>, steps: seq<Step>, k: nat, i: nat, j: nat)
    requires ConfigOk(cfg) && IsRun(cfg, run, steps) && k < |run|
    requires i < j < |run[k].versions| && run[k].versions[i].uid == run[k].versions[j].uid
    ensures var v, w := run[k].versions[i], run[k].versions[j];
            && AcceptedAttempt(v) <= AcceptedAttempt(w)
            && (v.Annotation(LastOrderId) != w.Annotation(LastOrderId) ==> AcceptedAttempt(v) < AcceptedAttempt(w))
  {
    hide IsRun, ConfigOk, EveryVersionOk, SecretsOk, SeenOk, ConditionsOk, PodsOk, PodGenerationsOk, HooksOk,
         RequestsOk, AcceptedAttempt;
    RunInv(cfg, run, steps, k);
    assert AttemptsGrow(run[k].versions[i], run[k].versions[j]);
  }

  /** Highest attempt wins: every invocation that exited 0 for this uid asked for an
      attempt no higher than the accepted one, and for that very order if equal; and
      the accepted order was asked for. */
  lemma HighestAttemptWins(cfg: Config, run: seq<State>, steps: seq<Step>, k: nat, n: string)
    requires ConfigOk(cfg) && IsRun(cfg, run, steps) && k < |run| && n in run[k].sandboxes
    ensures exists g :: g in run[k].hooks && run[k].hooks[g].req.order == run[k].sandboxes[n].Annotation(LastOrderId) &&
                        run[k].hooks[g].req.attempt == AcceptedAttempt(run[k].sandboxes[n])
    ensures forall h :: h in run[k].hooks && run[k].hooks[h].pc.Done? &&
                        run[k].hooks[h].pc.at < |run[k].versions| &&
                        run[k].versions[run[k].hooks[h].pc.at].uid == run[k].sandboxes[n].uid ==>
              && run[k].hooks[h].req.attempt <= AcceptedAttempt(run[k].sandboxes[n])
              && (run[k].hooks[h].req.attempt == AcceptedAttempt(run[k].sandboxes[n]) ==>
                    run[k].hooks[h].req.order == run[k].sandboxes[n].Annotation(LastOrderId))
  {
    hide IsRun, ConfigOk, SecretsOk, SeenOk, ConditionsOk, PodsOk, PodGenerationsOk, AcceptedAttempt, VersionOk,
         HistoryOk, HooksOk, EveryVersionOk, VersionsOk, SameOrder, Contracted;
    RunInv(cfg, run, steps, k);
    var s, sb := run[k], run[k].sandboxes[n];
    LiveVersionOk(cfg, s, sb) by { Safety.LiveIsVersion(cfg, s, n); }
    var g := AcceptedRequest(cfg, s, sb);
    assert s.hooks[g].req.order == sb.Annotation(LastOrderId);
    forall h | h in s.hooks && s.hooks[h].pc.Done? && s.hooks[h].pc.at < |s.versions| &&
        s.versions[s.hooks[h].pc.at].uid == sb.uid
      ensures s.hooks[h].req.attempt <= AcceptedAttempt(sb)
      ensures s.hooks[h].req.attempt == AcceptedAttempt(sb) ==> s.hooks[h].req.order == sb.Annotation(LastOrderId)
    {
      DoneIsBelow(cfg, s, n, h);
    }
  }

  lemma DoneIsBelow(cfg: Config, s: State, n: string, h: nat)
    requires Inv(cfg, s) && n in s.sandboxes && h in s.hooks && s.hooks[h].pc.Done? && s.hooks[h].pc.at < |s.versions|
    requires s.versions[s.hooks[h].pc.at].uid == s.sandboxes[n].uid
    ensures s.hooks[h].req.attempt <= AcceptedAttempt(s.sandboxes[n])
    ensures s.hooks[h].req.attempt == AcceptedAttempt(s.sandboxes[n]) ==>
              s.hooks[h].req.order == s.sandboxes[n].Annotation(LastOrderId)
  {
    hide EveryVersionOk, SecretsOk, SeenOk, ConditionsOk, PodsOk, PodGenerationsOk, RequestsOk, AcceptedAttempt,
         GenerationsGrow;
    var sb, at := s.sandboxes[n], s.hooks[h].pc.at;
    assert HookOk(cfg, s, s.hooks[h]) && IsVersion(s, sb);
    if at < sb.rv {
      assert AttemptsGrow(s.versions[at], s.versions[sb.rv]);
    }
  }

  /** The orders Wake installs on one uid have strictly increasing attempts, so no order
      is installed twice: a redelivery never re-arms a started order. */
  lemma WakesStrictlyIncrease(cfg: Config, run: seq<State>, steps: seq<Step>, k: nat, m: nat)
    requires ConfigOk(cfg) && IsRun(cfg, run, steps) && k < m
    requires Commits(cfg, run, steps, k) && PassWrite(cfg, run[k], steps[k]).Awoke?
    requires Commits(cfg, run, steps, m) && PassWrite(cfg, run[m], steps[m]).Awoke?
    requires run[k].versions[steps[k].at].uid == run[m].versions[steps[m].at].uid
    ensures var v, w := PassWrite(cfg, run[k], steps[k]).mut, PassWrite(cfg, run[m], steps[m]).mut;
            AcceptedAttempt(v) < AcceptedAttempt(w) && v.Annotation(AppliedSpawn) != w.Annotation(AppliedSpawn)
  {
    hide Inv, IsRun, ConfigOk, Decide, AcceptedAttempt, Apply, Enabled;
    var before := WokenVersion(cfg, run, steps, k);
    var sb := CommitsOnLive(cfg, run, steps, m);
    var again := WokenVersion(cfg, run, steps, m);
    RunInv(cfg, run, steps, m + 1);
    VersionsGrow(cfg, run, steps, k + 1, m);
    assert run[m].versions[before.rv] == before;
    InstalledTwiceGrows(cfg, run[m + 1], before, again);
  }

  /** The version a committed wake adds. */
  lemma WokenVersion(cfg: Config, run: seq<State>, steps: seq<Step>, k: nat) returns (w: Sandbox)
    requires ConfigOk(cfg) && IsRun(cfg, run, steps)
    requires Commits(cfg, run, steps, k) && PassWrite(cfg, run[k], steps[k]).Awoke?
    ensures var mut := PassWrite(cfg, run[k], steps[k]).mut;
            && w == Stored(run[k].versions[steps[k].at], mut, |run[k].versions|)
            && run[k + 1].versions == run[k].versions + [w]
            && w.uid == run[k].versions[steps[k].at].uid
            && Starting(w) && mut.Annotation(AppliedSpawn) == w.Annotation(LastOrderId)
            && AcceptedAttempt(w) == AcceptedAttempt(mut)
            && w.generation > run[k].versions[steps[k].at].generation
            && forall i :: 0 <= i < |run[k].versions| && run[k].versions[i].uid == w.uid ==>
                 run[k].versions[i].generation < w.generation
  {
    hide Inv, ConfigOk, Observe, Sleep, Wake, GcDue, AcceptedAttempt, OrderInstalled, CurrentGenerationTrue;
    var snap := CommitsOnLive(cfg, run, steps, k);
    var mut := PassWrite(cfg, run[k], steps[k]).mut;
    w := Stored(snap, mut, |run[k].versions|);
    assert Enabled(cfg, run[k], steps[k]) && run[k + 1] == Apply(cfg, run[k], steps[k]);
    LivePhase(cfg, run[k], snap);
    WakeContent(cfg, snap, steps[k].secret);
    CommitIsPut(run[k], snap, PassWrite(cfg, run[k], steps[k]));
    SameAttempt(mut, w);
    forall i | 0 <= i < |run[k].versions| && run[k].versions[i].uid == w.uid
      ensures run[k].versions[i].generation <= snap.generation
    {
      NewestGeneration(cfg, run[k], snap, i);
    }
  }

  lemma LivePhase(cfg: Config, s: State, sb: Sandbox)
    requires Inv(cfg, s) && LiveIn(s, sb)
    ensures InPhase(sb)
  {
    hide HistoryOk, SecretsOk, SeenOk, ConditionsOk, PodsOk, PodGenerationsOk, HooksOk, InPhase, AcceptedAttempt;
    LiveVersionOk(cfg, s, sb);
  }

  lemma NewestGeneration(cfg: Config, s: State, sb: Sandbox, i: nat)
    requires Inv(cfg, s) && LiveIn(s, sb) && i < |s.versions| && s.versions[i].uid == sb.uid
    ensures s.versions[i].generation <= sb.generation
  {
    hide EveryVersionOk, SecretsOk, SeenOk, ConditionsOk, PodsOk, PodGenerationsOk, HooksOk, RequestsOk, AttemptsGrow;
    assert IsVersion(s, sb);
    if i < sb.rv {
      assert GenerationsGrow(s.versions[i], s.versions[sb.rv]);
    }
  }

  lemma InstalledTwiceGrows(cfg: Config, s: State, v: Sandbox, w: Sandbox)
    requires Inv(cfg, s) && IsVersion(s, v) && IsVersion(s, w) && v.uid == w.uid && v.rv < w.rv
    requires Starting(v) && Starting(w) && v.generation < w.generation
    ensures AcceptedAttempt(v) < AcceptedAttempt(w) && v.Annotation(LastOrderId) != w.Annotation(LastOrderId)
  {
    hide SecretsOk, SeenOk, ConditionsOk, PodsOk, PodGenerationsOk, HooksOk, AcceptedAttempt, VersionOk,
         GenerationsGrow, SameOrder;
    assert AttemptsGrow(s.versions[v.rv], s.versions[w.rv]);
    if v.Annotation(LastOrderId) == w.Annotation(LastOrderId) {
      SameOrderSameAttempt(cfg, s, v, w);
    }
  }

  // ---- From wake to collection

  /** Behind every Working version lies a Starting one of its order, and behind every
      Asleep version a Working one. */
  ghost predicate PastOk(versions: seq<Sandbox>) {
    && (forall j :: 0 <= j < |versions| && Working(versions[j]) ==>
        exists i :: Behind(versions, i, j) && Starting(versions[i]))
    && (forall j :: 0 <= j < |versions| && Asleep(versions[j]) ==>
        exists i :: Behind(versions, i, j) && Working(versions[i]))
  }

  predicate Behind(versions: seq<Sandbox>, i: int, j: int) {
    0 <= i < j < |versions| && versions[i].uid == versions[j].uid &&
    versions[i].Annotation(LastOrderId) == versions[j].Annotation(LastOrderId)
  }

  lemma NextKeepsPast(cfg: Config, s: State, t: State)
    requires Inv(cfg, s) && AddsAtMostOne(cfg, s, t) && PastOk(s.versions)
    ensures PastOk(t.versions)
  {
    hide EveryVersionOk, HistoryOk, SecretsOk, SeenOk, ConditionsOk, PodsOk, PodGenerationsOk, HooksOk, RequestsOk,
         VersionOk, AcceptedAttempt;
    if t.versions != s.versions {
      forall j | 0 <= j < |t.versions| && Working(t.versions[j])
        ensures exists i :: Behind(t.versions, i, j) && Starting(t.versions[i])
      {
        WorkingHasPast(cfg, s, t, j);
      }
      forall j | 0 <= j < |t.versions| && Asleep(t.versions[j])
        ensures exists i :: Behind(t.versions, i, j) && Working(t.versions[i])
      {
        AsleepHasPast(cfg, s, t, j);
      }
    }
  }

  /** The version a new one of a live Sandbox comes after, or itself. */
  lemma Predecessor(cfg: Config, s: State, t: State, j: nat) returns (was: nat)
    requires Inv(cfg, s) && AddsAtMostOne(cfg, s, t) && t.versions != s.versions && j < |t.versions|
    requires j == |s.versions| ==> !Preparing(t.versions[j])
    ensures was <= j <= |s.versions| && was < |s.versions| && s.versions <= t.versions
    ensures j < |s.versions| ==> was == j
    ensures j == |s.versions| ==>
              was < j && s.versions[was].uid == t.versions[j].uid && NextPhase(s.versions[was], t.versions[j])
  {
    hide EveryVersionOk, HistoryOk, SecretsOk, SeenOk, ConditionsOk, PodsOk, PodGenerationsOk, HooksOk, RequestsOk,
         VersionOk, AcceptedAttempt, Preparing, NextPhase;
    if j < |s.versions| {
      was := j;
    } else {
      var w := t.versions[j];
      was := s.sandboxes[w.name].rv;
      assert IsVersion(s, s.sandboxes[w.name]);
    }
  }

  lemma PhasesDiffer(v: Sandbox)
    ensures Working(v) || Asleep(v) ==> !Preparing(v)
  {
  }

  lemma WorkingHasPast(cfg: Config, s: State, t: State, j: nat)
    requires Inv(cfg, s) && AddsAtMostOne(cfg, s, t) && t.versions != s.versions && PastOk(s.versions)
    requires j < |t.versions| && Working(t.versions[j])
    ensures exists i :: Behind(t.versions, i, j) && Starting(t.versions[i])
  {
    hide Inv, AddsAtMostOne, Working, Starting, Asleep, Preparing;
    PhasesDiffer(t.versions[j]);
    var was := Predecessor(cfg, s, t, j);
    assert t.versions[was] == s.versions[was];
    if was < j && Starting(s.versions[was]) {
      assert Behind(t.versions, was, j);
    } else {
      var i :| Behind(s.versions, i, was) && Starting(s.versions[i]);
      assert Behind(t.versions, i, j);
    }
  }

  lemma AsleepHasPast(cfg: Config, s: State, t: State, j: nat)
    requires Inv(cfg, s) && AddsAtMostOne(cfg, s, t) && t.versions != s.versions && PastOk(s.versions)
    requires j < |t.versions| && Asleep(t.versions[j])
    ensures exists i :: Behind(t.versions, i, j) && Working(t.versions[i])
  {
    hide Inv, AddsAtMostOne, Working, Starting, Asleep, Preparing;
    PhasesDiffer(t.versions[j]);
    var was := Predecessor(cfg, s, t, j);
    assert t.versions[was] == s.versions[was];
    if was < j && Working(s.versions[was]) {
      assert Behind(t.versions, was, j);
    } else {
      var i :| Behind(s.versions, i, was) && Working(s.versions[i]);
      assert Behind(t.versions, i, j);
    }
  }

  lemma {:induction false} RunPast(cfg: Config, run: seq<State>, steps: seq<Step>, k: nat)
    requires ConfigOk(cfg) && IsRun(cfg, run, steps) && k < |run|
    ensures PastOk(run[k].versions)
  {
    hide Inv, ConfigOk, Apply, Enabled, PastOk, AddsAtMostOne;
    if k == 0 {
      NoPast();
    } else {
      RunPast(cfg, run, steps, k - 1);
      RunInv(cfg, run, steps, k - 1);
      StepAdds(cfg, run[k - 1], steps[k - 1]);
      NextKeepsPast(cfg, run[k - 1], run[k]);
    }
  }

  lemma NoPast()
    ensures PastOk([])
  {
  }

  /** GC commits only on a Sandbox with no owned Pod and no pending order, whose last
      accepted order was woken (version `woken`), observed (`observed`) and slept. */
  lemma CollectionFollowsSleep(cfg: Config, run: seq<State>, steps: seq<Step>, k: nat)
    returns (woken: nat, observed: nat)
    requires ConfigOk(cfg) && IsRun(cfg, run, steps) && Commits(cfg, run, steps, k)
    requires PassWrite(cfg, run[k], steps[k]).Collect?
    ensures var sb := run[k].versions[steps[k].at];
            && Asleep(sb) && sb.Annotation(PendingSpawn) == ""
            && (forall id :: id in run[k].pods ==> run[k].pods[id].owner != sb.uid)
            && woken < observed < steps[k].at
            && run[k].versions[woken].uid == run[k].versions[observed].uid == sb.uid
            && Starting(run[k].versions[woken]) && Working(run[k].versions[observed])
            && run[k].versions[woken].Annotation(AppliedSpawn) == run[k].versions[observed].Annotation(AppliedSpawn)
               == sb.Annotation(LastOrderId)
  {
    hide Inv, IsRun, ConfigOk, Observe, Sleep, Wake, PastOk;
    var sb := CommitsOnLive(cfg, run, steps, k);
    LivePhase(cfg, run[k], sb);
    assert Asleep(sb) && CurrentGenerationTrue(sb, SuspendedCondition);
    ConfirmedSuspension(cfg, run[k], sb);
    RunPast(cfg, run, steps, k);
    woken, observed := PastOf(run[k].versions, steps[k].at);
  }

  lemma PastOf(versions: seq<Sandbox>, j: nat) returns (woken: nat, observed: nat)
    requires PastOk(versions) && j < |versions| && Asleep(versions[j])
    ensures Behind(versions, observed, j) && Behind(versions, woken, observed)
    ensures Starting(versions[woken]) && Working(versions[observed])
  {
    var i :| Behind(versions, i, j) && Working(versions[i]);
    var m :| Behind(versions, m, i) && Starting(versions[m]);
    woken, observed := m, i;
  }

  /** Every Suspended version without a pending order carries a readable time it went to
      sleep, so as soon as its suspension is confirmed it counts as idle: none escapes
      collection. */
  lemma SleepersAreDated(cfg: Config, run: seq<State>, steps: seq<Step>, k: nat, i: nat)
    requires ConfigOk(cfg) && IsRun(cfg, run, steps) && k < |run| && i < |run[k].versions|
    requires !run[k].versions[i].IsRunning() && run[k].versions[i].Annotation(PendingSpawn) == ""
    ensures IdleSince(run[k].versions[i]).IdleAt? <==>
              !run[k].versions[i].deleting && CurrentGenerationTrue(run[k].versions[i], SuspendedCondition)
  {
    hide IsRun, ConfigOk, ParseInt;
    ExactlyOnePhase(cfg, run, steps, k, i);
  }
}
