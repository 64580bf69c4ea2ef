/** Collection over whole runs: switched off it takes nothing, switched on it takes exactly
    the sleepers that are too old or beyond the cap. */
module Collection {
  import opened Api
  import opened Decimal
  import opened SessionController
  import opened Protocol
  import opened Invariants
  import opened Safety
  import opened Runs
  import opened PodSafety
  import opened Capacity
  import opened IdleFleet
  import opened SleepDates
  import opened Effects
  import opened Guards
  import Recovery

  // ---- Off

  ghost predicate NoneDeleting(s: State) {
    forall i :: 0 <= i < |s.versions| ==> !s.versions[i].deleting
  }

  lemma NextIsNotDeleting(cfg: Config, s: State, step: Step, w: Sandbox)
    requires Inv(cfg, s) && NoneDeleting(s) && !cfg.gcEnabled && IsKnown(cfg, s, step, w)
    ensures !w.deleting
  {
    hide Inv, Refreshed, Installs, SameBut, Succeeding, SameDisk;
    if w.name in s.sandboxes {
      LiveIsVersion(cfg, s, w.name);
      assert !s.versions[s.sandboxes[w.name].rv].deleting;
    }
  }

  /** With collection off, no version of any Sandbox is ever being deleted. */
  lemma {:induction false} OffDeletesNothing(cfg: Config, run: seq<State>, steps: seq<Step>, k: nat)
    requires ConfigOk(cfg) && IsRun(cfg, run, steps) && k < |run| && !cfg.gcEnabled
    ensures NoneDeleting(run[k])
  {
    hide Inv, ConfigOk, Apply, Enabled, IsKnown;
    if k > 0 {
      var s, t := run[k - 1], run[k];
      OffDeletesNothing(cfg, run, steps, k - 1);
      RunInv(cfg, run, steps, k - 1);
      StepWritesKnown(cfg, s, steps[k - 1]);
      if t.versions != s.versions {
        NextIsNotDeleting(cfg, s, steps[k - 1], t.versions[|s.versions|]);
      }
    }
  }

  /** A step takes no name away but by finalizing it, and gives it no other uid. */
  lemma StepKeepsName(cfg: Config, s: State, step: Step, n: string)
    requires Inv(cfg, s) && Enabled(cfg, s, step) && n in s.sandboxes && step != Finalize(n)
    ensures n in Apply(cfg, s, step).sandboxes && Apply(cfg, s, step).sandboxes[n].uid == s.sandboxes[n].uid
  {
    hide Inv, Call, Decide, ReportedConditions, NewUid, Contracted, ValidRequest, Live, HasPod;
    if step.HookCall? {
      Recovery.CallKeepsNames(cfg, s, s.hooks[step.h], step.now, step.uid, n);
    } else if step.ControllerPass? {
      var snap := s.versions[step.at];
      InvVersions(cfg, s);
      PassIdentity(cfg, snap, step.pods, step.secret, step.list, step.now);
      CommitKeepsName(s, snap, Decide(cfg, snap, step.pods, step.secret, step.list, step.now), n);
    } else if step.Report? {
      LiveIsVersion(cfg, s, step.name);
    }
  }

  lemma CommitKeepsName(s: State, snap: Sandbox, write: Write, n: string)
    requires n in s.sandboxes && (forall m :: m in s.sandboxes ==> s.sandboxes[m].name == m)
    requires write == Nothing || (Written(snap, write).name == snap.name && SameSession(snap, Written(snap, write)))
    ensures n in CommitPass(s, snap, write).sandboxes &&
            CommitPass(s, snap, write).sandboxes[n].uid == s.sandboxes[n].uid
  {
  }

  /** So no session's Sandbox, and with it its disk, is ever lost. */
  lemma {:induction false} OffLosesNothing(cfg: Config, run: seq<State>, steps: seq<Step>, k: nat, m: nat, n: string)
    requires ConfigOk(cfg) && IsRun(cfg, run, steps) && k <= m < |run| && !cfg.gcEnabled && n in run[k].sandboxes
    ensures n in run[m].sandboxes && run[m].sandboxes[n].uid == run[k].sandboxes[n].uid
    decreases m
  {
    hide Inv, ConfigOk, Apply, Enabled, NoneDeleting;
    if k < m {
      OffLosesNothing(cfg, run, steps, k, m - 1, n);
      RunInv(cfg, run, steps, m - 1);
      OffDeletesNothing(cfg, run, steps, m - 1);
      LiveIsVersion(cfg, run[m - 1], n);
      assert steps[m - 1] != Finalize(n) by {
        NoFinalizing(cfg, run[m - 1], steps[m - 1], n);
      }
      StepKeepsName(cfg, run[m - 1], steps[m - 1], n);
    }
  }

  lemma NoFinalizing(cfg: Config, s: State, step: Step, n: string)
    requires Enabled(cfg, s, step) && n in s.sandboxes && IsVersion(s, s.sandboxes[n]) && NoneDeleting(s)
    ensures step != Finalize(n)
  {
  }

  // ---- On

  /** The sleepers of the store that fell asleep after `x`. */
  function NewerInStore(sandboxes: map<string, Sandbox>, x: Sandbox): set<string> {
    set n | n in sandboxes && IsNewer(x, sandboxes[n])
  }

  lemma {:induction false} NewerByName(names: set<string>, newer: set<Sandbox>, sandboxes: map<string, Sandbox>)
    requires forall n :: n in names ==> n in sandboxes && sandboxes[n].name == n && sandboxes[n] in newer
    requires forall y: Sandbox :: y in newer ==> y.name in names && sandboxes[y.name] == y
    ensures |names| == |newer|
    decreases |names|
  {
    if names == {} {
      assert newer == {};
    } else {
      var n :| n in names;
      NewerByName(names - {n}, newer - {sandboxes[n]}, sandboxes);
    }
  }

  lemma NewerInList(cfg: Config, s: State, x: Sandbox, list: seq<Sandbox>)
    requires Inv(cfg, s) && Enumerates(list, s.sandboxes)
    ensures |NewerOf(x, list)| == |NewerInStore(s.sandboxes, x)|
  {
    hide Inv, IsNewer;
    NamesFit(cfg, s);
    NewerByName(NewerInStore(s.sandboxes, x), NewerOf(x, list), s.sandboxes);
  }

  /** A pass on a live Sandbox, with a current list, decides to collect it exactly if
      collection is on and it sleeps, confirmed, since longer than the age limit or with as
      many newer sleepers in the store as the cap keeps: either limit alone suffices. */
  lemma CollectedIff(cfg: Config, s: State, n: string, pods: seq<Pod>, secret: Option<Secret>, list: seq<Sandbox>,
                     now: int)
    requires Inv(cfg, s) && n in s.sandboxes && Enumerates(list, s.sandboxes)
    ensures var sb := s.sandboxes[n];
            Decide(cfg, sb, pods, secret, list, now) == Collect <==>
              && cfg.gcEnabled && IsSleeper(sb)
              && (now - SleepTime(sb) >= cfg.gcMaxIdleAge ||
                  (cfg.gcMaxIdleSessions > 0 && |NewerInStore(s.sandboxes, sb)| >= cfg.gcMaxIdleSessions))
  {
    hide Inv, IsSleeper, SleepTime, NewerOf, NewerInStore, Decide, IsAcknowledged, IsFinished, IsReady, IsWaiting,
         IsNewer;
    var sb := s.sandboxes[n];
    LiveSelected(cfg, s, n);
    PassIs(cfg, sb, pods, secret, list, now);
    if IsSleeper(sb) {
      SleeperWaitsForNothing(cfg, sb, pods, secret);
    }
    OnlyItself(cfg, s, n, list);
    NewerInList(cfg, s, sb, list);
  }

  lemma SleeperWaitsForNothing(cfg: Config, sb: Sandbox, pods: seq<Pod>, secret: Option<Secret>)
    requires IsSleeper(sb)
    ensures !sb.deleting && !IsAcknowledged(cfg, sb, pods) && !IsFinished(sb) && !IsReady(cfg, sb, secret)
    ensures !IsWaiting(sb)
  {
  }

  /** A uid stands for one Sandbox of a current list. */
  lemma OnlyItself(cfg: Config, s: State, n: string, list: seq<Sandbox>)
    requires Inv(cfg, s) && n in s.sandboxes && Enumerates(list, s.sandboxes)
    ensures s.sandboxes[n] in list && forall x :: x in list && x.uid == s.sandboxes[n].uid ==> x == s.sandboxes[n]
  {
    hide Inv;
    forall x | x in list && x.uid == s.sandboxes[n].uid ensures x == s.sandboxes[n] {
      FleetUids(cfg, s, x.name, n);
    }
  }

  /** The same counted from what happened: a sleeper's age runs from the pass of the run
      that put it to sleep, on whichever limits are set. */
  lemma SleeperIsCollectedIff(cfg: Config, run: seq<State>, steps: seq<Step>, k: nat, n: string, pods: seq<Pod>,
                              secret: Option<Secret>, list: seq<Sandbox>, now: int)
    returns (m: nat)
    requires ConfigOk(cfg) && IsRun(cfg, run, steps) && k < |run| && n in run[k].sandboxes
    requires Asleep(run[k].sandboxes[n]) && Enumerates(list, run[k].sandboxes)
    ensures m < k && SleptAt(cfg, run, steps, m, run[k].sandboxes[n])
    ensures var sb := run[k].sandboxes[n];
            Decide(cfg, sb, pods, secret, list, now) == Collect <==>
              && cfg.gcEnabled && !sb.deleting && Confirms(sb, SuspendedCondition)
              && (now - steps[m].now >= cfg.gcMaxIdleAge ||
                  (cfg.gcMaxIdleSessions > 0 && |NewerInStore(run[k].sandboxes, sb)| >= cfg.gcMaxIdleSessions))
  {
    hide IsRun, ConfigOk, Inv, Decide, ParseInt, NewerInStore, Commits;
    RunInv(cfg, run, steps, k);
    var sb := run[k].sandboxes[n];
    LiveIsVersion(cfg, run[k], n);
    m := AgeCountsFromSleep(cfg, run, steps, k, sb.rv, list, now);
    CollectedIff(cfg, run[k], n, pods, secret, list, now);
    SleeperIff(sb);
  }
}
