/** A sleeper's age counts from the pass that put it to sleep. */
module SleepDates {
  import opened Api
  import opened Decimal
  import opened Hook
  import opened SessionController
  import opened Protocol
  import opened Invariants
  import opened Writes
  import opened HookSteps
  import opened Safety
  import opened Runs
  import opened PodSafety
  import opened Orders

  /** `w` follows `sb` asleep as before, or put to sleep by this step. */
  ghost predicate KeepsDate(cfg: Config, s: State, step: Step, sb: Sandbox, w: Sandbox) {
    && w.uid == sb.uid && w.Annotation(LastOrderId) == sb.Annotation(LastOrderId)
    && ((Asleep(sb) && w.Annotation(LastSuspendedAt) == sb.Annotation(LastSuspendedAt)) ||
        (IsPass(step) && step.at < |s.versions| && Current(s, s.versions[step.at]) && s.versions[step.at] == sb &&
         IsTime(step.now) &&
         PassWrite(cfg, s, step).Slept? && w.Annotation(LastSuspendedAt) == FormatInt(step.now)))
  }

  /** If the step adds an Asleep version, its date is accounted for. */
  ghost predicate DatesNewSleeper(cfg: Config, s: State, step: Step, t: State) {
    t.versions != s.versions && |t.versions| > |s.versions| && Asleep(t.versions[|s.versions|]) ==>
      var w := t.versions[|s.versions|];
      w.name in s.sandboxes && KeepsDate(cfg, s, step, s.sandboxes[w.name], w)
  }

  lemma SameContentKeepsDate(cfg: Config, s: State, step: Step, sb: Sandbox, w: Sandbox)
    requires w.uid == sb.uid && w.annotations == sb.annotations && w.spec == sb.spec && Asleep(w)
    ensures KeepsDate(cfg, s, step, sb, w)
  {
    hide ParseInt;
  }

  /** A repair touches neither the mode nor the date. */
  lemma RepairKeepsDate(cfg: Config, s: State, step: Step, sb: Sandbox, req: Request, name: string, w: Sandbox)
    requires InPhase(sb) && Repair(sb, req, name).Repaired? && w.uid == sb.uid
    requires w.annotations == Repair(sb, req, name).mut.annotations && w.spec == Repair(sb, req, name).mut.spec &&
             Asleep(w)
    ensures KeepsDate(cfg, s, step, sb, w)
  {
    hide ParseInt;
  }

  lemma PatchDates(cfg: Config, s: State, step: Step, h: nat, now: int)
    requires ConfigOk(cfg) && Inv(cfg, s) && h in s.hooks && s.hooks[h].pc.Patching? && Current(s, s.hooks[h].pc.snap)
    ensures var snap := s.hooks[h].pc.snap;
            var w := Stored(snap, Mutated(cfg, s.hooks[h], now), |s.versions|);
            Asleep(w) ==> w.name in s.sandboxes && KeepsDate(cfg, s, step, s.sandboxes[w.name], w)
  {
    hide EveryVersionOk, HistoryOk, SecretsOk, SeenOk, ConditionsOk, PodsOk, PodGenerationsOk, RequestsOk, ConfigOk,
         HooksOk, VersionOk, Repair, Publish, Evaluate, HasSecret, KeepsDate, Asleep, InPhase, AcceptedAttempt;
    var inv := s.hooks[h];
    var snap := inv.pc.snap;
    HooksAreOk(cfg, s, h);
    CurrentIsLive(s, snap);
    MutatedIdentity(cfg, inv, now);
    LiveVersionOk(cfg, s, snap);
    PhaseOf(cfg, s, snap);
    var w := Stored(snap, Mutated(cfg, inv, now), |s.versions|);
    var name := cfg.names.secret(inv.req.session, snap.uid, inv.req.order);
    RequestsAgree(cfg, s, h, h);
    if inv.pc.newer {
      PublishedIsAwake(snap, inv.tmpl, inv.req, now, name, w);
    } else if Asleep(w) {
      RepairUid(snap, inv.req, name);
      RepairKeepsDate(cfg, s, step, snap, inv.req, name, w);
    }
  }

  lemma RepairUid(sb: Sandbox, req: Request, name: string)
    requires Repair(sb, req, name).Repaired?
    ensures Repair(sb, req, name).mut.uid == sb.uid
  {
  }

  lemma PublishedIsAwake(sb: Sandbox, tmpl: Sandbox, req: Request, now: int, name: string, w: Sandbox)
    requires w.annotations == Publish(sb, tmpl, req, now, name).annotations
    ensures !Asleep(w) || req.order == ""
  {
    hide RefreshTemplate, FormatInt, ParseInt;
  }

  lemma CallDates(cfg: Config, s: State, h: nat, now: int, uid: string, step: Step)
    requires ConfigOk(cfg) && Inv(cfg, s) && Enabled(cfg, s, HookCall(h, now, uid, false))
    ensures DatesNewSleeper(cfg, s, step, Call(cfg, s, s.hooks[h], now, uid).state)
  {
    hide Inv, ConfigOk, Classified, Secured, Evaluate, VerifySecret, Mutated, Created, Holders, KeepsDate, Asleep,
         DesiredSecret, Patch, Current;
    if s.hooks[h].pc.Creating? {
      CreatedIsAwake(cfg, s, h, now, uid);
    } else if s.hooks[h].pc.Patching? && Current(s, s.hooks[h].pc.snap) {
      PatchIsDated(cfg, s, step, h, now);
    }
  }

  lemma PatchIsDated(cfg: Config, s: State, step: Step, h: nat, now: int)
    requires ConfigOk(cfg) && Inv(cfg, s) && h in s.hooks && s.hooks[h].pc.Patching? && Current(s, s.hooks[h].pc.snap)
    ensures DatesNewSleeper(cfg, s, step, Patch(s, s.hooks[h].pc.snap, Mutated(cfg, s.hooks[h], now)))
  {
    hide Inv, ConfigOk, Mutated, KeepsDate, Asleep, Patch, Stored;
    PatchDates(cfg, s, step, h, now);
    PatchedIsLast(cfg, s, h, now);
  }

  lemma PatchedIsLast(cfg: Config, s: State, h: nat, now: int)
    requires Inv(cfg, s) && h in s.hooks && s.hooks[h].pc.Patching? && Current(s, s.hooks[h].pc.snap)
    ensures Patch(s, s.hooks[h].pc.snap, Mutated(cfg, s.hooks[h], now)).versions ==
            s.versions + [Stored(s.hooks[h].pc.snap, Mutated(cfg, s.hooks[h], now), |s.versions|)]
  {
    hide EveryVersionOk, HistoryOk, SecretsOk, SeenOk, ConditionsOk, PodsOk, PodGenerationsOk, RequestsOk, HooksOk,
         Mutated, Evaluate, HasSecret, Repair;
    HooksAreOk(cfg, s, h);
    CurrentIsLive(s, s.hooks[h].pc.snap);
  }

  lemma CreatedIsAwake(cfg: Config, s: State, h: nat, now: int, uid: string)
    requires Inv(cfg, s) && h in s.hooks
    ensures !Asleep(Created(cfg, s.hooks[h], now, uid, |s.versions|))
  {
    hide EveryVersionOk, VersionsOk, HistoryOk, SecretsOk, SeenOk, ConditionsOk, PodsOk, PodGenerationsOk, HooksOk,
         FormatInt, ParseInt;
    RequestsAgree(cfg, s, h, h);
  }

  lemma PassDates(cfg: Config, s: State, step: Step)
    requires ConfigOk(cfg) && Inv(cfg, s) && Enabled(cfg, s, step) && IsPass(step)
    ensures DatesNewSleeper(cfg, s, step, Apply(cfg, s, step))
  {
    hide Inv, ConfigOk, Decide, Asleep, InPhase, KeepsDate;
    var snap := s.versions[step.at];
    var write := PassWrite(cfg, s, step);
    InvVersions(cfg, s);
    if write != Nothing && Current(s, snap) {
      CurrentIsLive(s, snap);
      DecidedSucceeds(cfg, s, snap, step.pods, step.secret, step.list, step.now);
      CommitIsPut(s, snap, write);
      LivePhase(cfg, s, snap);
      WrittenKeepsDate(cfg, s, step, snap, Stored(snap, Written(snap, write), |s.versions|));
    }
  }

  lemma WrittenKeepsDate(cfg: Config, s: State, step: Step, snap: Sandbox, w: Sandbox)
    requires IsPass(step) && step.at < |s.versions| && s.versions[step.at] == snap && Current(s, snap) &&
             IsTime(step.now) && InPhase(snap)
    requires PassWrite(cfg, s, step) != Nothing &&
             w == Stored(snap, Written(snap, PassWrite(cfg, s, step)), |s.versions|)
    ensures Asleep(w) ==> KeepsDate(cfg, s, step, snap, w)
  {
    hide GcDue, ValidWorkOrderSecret, NamedVolume, Installed, CurrentGenerationTrue, ParseInt, FormatInt, OwnedPods,
         Selected;
  }

  lemma StepDates(cfg: Config, s: State, step: Step)
    requires ConfigOk(cfg) && Inv(cfg, s) && Enabled(cfg, s, step)
    ensures DatesNewSleeper(cfg, s, step, Apply(cfg, s, step))
  {
    hide Inv, ConfigOk, Call, CommitPass, KeepsDate, Asleep, ReportedConditions;
    if step.HookCall? {
      CallDates(cfg, s, step.h, step.now, step.uid, step);
    } else if step.ControllerPass? {
      PassDates(cfg, s, step);
    } else if step.Report? {
      InvVersions(cfg, s);
      var sb := s.sandboxes[step.name];
      var w := Stored(sb, sb.(conditions := ReportedConditions(s.seen[sb.uid], s.pods)), |s.versions|);
      if Asleep(w) {
        SameContentKeepsDate(cfg, s, step, sb, w);
      }
    }
  }

  /** The pass at step m put the Sandbox to sleep that version `v` shows asleep. */
  ghost predicate SleptAt(cfg: Config, run: seq<State>, steps: seq<Step>, m: nat, v: Sandbox) {
    && Commits(cfg, run, steps, m) && PassWrite(cfg, run[m], steps[m]).Slept?
    && run[m].versions[steps[m].at].uid == v.uid
    && run[m].versions[steps[m].at].Annotation(LastOrderId) == v.Annotation(LastOrderId)
    && IsTime(steps[m].now) && v.Annotation(LastSuspendedAt) == FormatInt(steps[m].now)
  }

  lemma {:induction false} SleeperWasPutToSleep(cfg: Config, run: seq<State>, steps: seq<Step>, k: nat, i: nat)
    returns (m: nat)
    requires ConfigOk(cfg) && IsRun(cfg, run, steps) && k < |run| && i < |run[k].versions| && Asleep(run[k].versions[i])
    ensures m < k && SleptAt(cfg, run, steps, m, run[k].versions[i])
    decreases k, 1
  {
    hide Inv, ConfigOk, Apply, Enabled, Asleep, FreshVersion, Preservation.Succeeds, SleptAt;
    if k > 0 {
      RunInv(cfg, run, steps, k - 1);
      assert Enabled(cfg, run[k - 1], steps[k - 1]) && run[k] == Apply(cfg, run[k - 1], steps[k - 1]);
      StepAdds(cfg, run[k - 1], steps[k - 1]);
      if i < |run[k - 1].versions| {
        assert run[k].versions[i] == run[k - 1].versions[i];
        m := SleeperWasPutToSleep(cfg, run, steps, k - 1, i);
      } else {
        StepDates(cfg, run[k - 1], steps[k - 1]);
        m := NewSleeper(cfg, run, steps, k - 1, run[k].versions[i]);
      }
    }
  }

  lemma NewSleeper(cfg: Config, run: seq<State>, steps: seq<Step>, k: nat, w: Sandbox) returns (m: nat)
    requires ConfigOk(cfg) && IsRun(cfg, run, steps) && k < |steps| && Inv(cfg, run[k])
    requires w.name in run[k].sandboxes && KeepsDate(cfg, run[k], steps[k], run[k].sandboxes[w.name], w)
    ensures m <= k && SleptAt(cfg, run, steps, m, w)
    decreases k, 2
  {
    hide Inv, ConfigOk, Apply, Enabled, Asleep, Decide;
    var sb := run[k].sandboxes[w.name];
    if Asleep(sb) && w.Annotation(LastSuspendedAt) == sb.Annotation(LastSuspendedAt) {
      assert IsVersion(run[k], sb) by { Safety.LiveIsVersion(cfg, run[k], w.name); }
      m := SleeperWasPutToSleep(cfg, run, steps, k, sb.rv);
    } else {
      m := k;
    }
  }

  /** Every sleeper was put to sleep by a pass of the run, for its last accepted order, and
      that pass's clock is the time its idleness is counted from: with the cap off, it is
      collected exactly when it is confirmed asleep, not yet being deleted, and that long
      past. */
  lemma AgeCountsFromSleep(cfg: Config, run: seq<State>, steps: seq<Step>, k: nat, i: nat, list: seq<Sandbox>,
                           now: int) returns (m: nat)
    requires ConfigOk(cfg) && IsRun(cfg, run, steps) && k < |run| && i < |run[k].versions| && Asleep(run[k].versions[i])
    ensures m < k && SleptAt(cfg, run, steps, m, run[k].versions[i])
    ensures var v := run[k].versions[i];
            && (IdleSince(v) != NotIdle ==> IdleSince(v) == IdleAt(steps[m].now))
            && (cfg.gcEnabled && cfg.gcMaxIdleSessions <= 0 ==>
                  (GcDue(cfg, v, list, now) <==>
                     !v.deleting && CurrentGenerationTrue(v, SuspendedCondition) &&
                     now - steps[m].now >= cfg.gcMaxIdleAge))
  {
    hide IsRun, ConfigOk, Commits, FormatInt, ParseInt;
    m := SleeperWasPutToSleep(cfg, run, steps, k, i);
    SleptIsStep(cfg, run, steps, m, run[k].versions[i]);
    ParseFormatInt(steps[m].now);
  }

  lemma SleptIsStep(cfg: Config, run: seq<State>, steps: seq<Step>, m: nat, v: Sandbox)
    requires SleptAt(cfg, run, steps, m, v)
    ensures m < |steps| && IsPass(steps[m])
  {
  }
}
