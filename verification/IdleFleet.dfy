/** The idle-session cap over the live store: gc passes that read current lists leave
    exactly the newest sleepers. */
module IdleFleet {
  import opened Api
  import opened IdleCap
  import opened SessionController
  import opened Protocol
  import opened Invariants
  import opened Capacity
  import opened Safety
  import opened Runs

  function EntryOf(sb: Sandbox): Entry
    requires IdleSince(sb).IdleAt?
  {
    Entry(sb.name, sb.uid, IdleSince(sb).at)
  }

  /** The asleep Sandboxes of the store. */
  function Fleet(sandboxes: map<string, Sandbox>): set<Entry> {
    set n | n in sandboxes && IdleSince(sandboxes[n]).IdleAt? :: EntryOf(sandboxes[n])
  }

  /** The idle entries of a current list are the fleet. */
  lemma ListedFleet(list: seq<Sandbox>, sandboxes: map<string, Sandbox>)
    requires Enumerates(list, sandboxes)
    ensures SetOf(IdleEntries(list)) == Fleet(sandboxes)
  {
    hide IdleSince, IdleEntries;
    IdleEntriesMembers(list);
    forall e ensures e in SetOf(IdleEntries(list)) <==> e in Fleet(sandboxes) {
      if e in IdleEntries(list) {
        var sb :| sb in list && e == Entry(sb.name, sb.uid, e.at) && IdleSince(sb) == IdleAt(e.at);
        assert sandboxes[sb.name] == sb;
      }
      if e in Fleet(sandboxes) {
        var n :| n in sandboxes && IdleSince(sandboxes[n]).IdleAt? && e == EntryOf(sandboxes[n]);
        assert sandboxes[n] in list;
      }
    }
  }

  lemma FleetUids(cfg: Config, s: State, n: string, m: string)
    requires Inv(cfg, s) && n in s.sandboxes && m in s.sandboxes && s.sandboxes[n].uid == s.sandboxes[m].uid
    ensures n == m && s.sandboxes[n].name == n && IsVersion(s, s.sandboxes[n])
  {
    hide EveryVersionOk, HistoryOk, SecretsOk, SeenOk, ConditionsOk, PodsOk, PodGenerationsOk, HooksOk, RequestsOk;
    assert IsVersion(s, s.sandboxes[n]) && IsVersion(s, s.sandboxes[m]);
  }

  /** Under the age limit, a pass on a sleeper collects it exactly when it is a victim of
      the whole fleet. */
  lemma DueIsVictim(cfg: Config, s: State, n: string, list: seq<Sandbox>, now: int)
    requires Inv(cfg, s) && Enumerates(list, s.sandboxes) && cfg.gcEnabled && cfg.gcMaxIdleSessions > 0
    requires n in s.sandboxes && IdleSince(s.sandboxes[n]).IdleAt? &&
             now - IdleSince(s.sandboxes[n]).at < cfg.gcMaxIdleAge
    ensures GcDue(cfg, s.sandboxes[n], list, now) <==>
              IsVictim(EntryOf(s.sandboxes[n]), Fleet(s.sandboxes), cfg.gcMaxIdleSessions)
  {
    hide Inv, IdleSince, IdleEntries, IsVictim;
    ListedFleet(list, s.sandboxes);
    var sb := s.sandboxes[n];
    FleetUids(cfg, s, n, n);
    assert EntryOf(sb) in Fleet(s.sandboxes);
    forall e | e in Fleet(s.sandboxes) && e.uid == sb.uid ensures e == EntryOf(sb) {
      var m :| m in s.sandboxes && IdleSince(s.sandboxes[m]).IdleAt? && e == EntryOf(s.sandboxes[m]);
      FleetUids(cfg, s, n, m);
    }
  }

  /** A controller pass that reads the live Sandbox of a sleeper under the age limit, and a
      current list; whatever else it reads. */
  ghost predicate GcPass(cfg: Config, s: State, step: Step, e: Entry) {
    && step.ControllerPass? && e in Fleet(s.sandboxes) && e.name in s.sandboxes && step.at == s.sandboxes[e.name].rv
    && Enumerates(step.list, s.sandboxes) && step.now - e.at < cfg.gcMaxIdleAge
  }

  /** Such a pass does to the fleet what Pass does to its entry. */
  lemma PassOnFleet(cfg: Config, s: State, step: Step, e: Entry)
    requires Inv(cfg, s) && Enabled(cfg, s, step) && GcPass(cfg, s, step, e)
    requires cfg.gcEnabled && cfg.gcMaxIdleSessions > 0
    ensures Fleet(Apply(cfg, s, step).sandboxes) == Pass(Fleet(s.sandboxes), e, cfg.gcMaxIdleSessions)
  {
    hide Inv, IdleSince, IsVictim, Enumerates, Enabled, Apply;
    NamesFit(cfg, s);
    LiveSelected(cfg, s, e.name);
    FleetUids(cfg, s, e.name, e.name);
    var sb := s.sandboxes[e.name];
    assert IdleSince(sb).IdleAt? && EntryOf(sb) == e;
    PassDecides(cfg, s, step, e.name);
    DueIsVictim(cfg, s, e.name, step.list, step.now);
    if GcDue(cfg, sb, step.list, step.now) {
      var w := Stored(sb, sb.(deleting := true), |s.versions|);
      DeletingIsNotIdle(w);
      FleetWithout(s.sandboxes, e, w);
    }
  }

  lemma DeletingIsNotIdle(sb: Sandbox)
    requires sb.deleting
    ensures !IdleSince(sb).IdleAt?
  {
  }

  lemma FleetWithout(sandboxes: map<string, Sandbox>, e: Entry, w: Sandbox)
    requires e.name in sandboxes && IdleSince(sandboxes[e.name]).IdleAt? && e == EntryOf(sandboxes[e.name]) &&
             !IdleSince(w).IdleAt?
    requires forall n :: n in sandboxes ==> sandboxes[n].name == n
    ensures Fleet(sandboxes[e.name := w]) == Fleet(sandboxes) - {e}
  {
    hide IdleSince;
    var after := sandboxes[e.name := w];
    forall f ensures f in Fleet(after) <==> f in Fleet(sandboxes) - {e} {
      if f in Fleet(after) {
        var n :| n in after && IdleSince(after[n]).IdleAt? && f == EntryOf(after[n]);
        assert sandboxes[n].name == n && n != e.name;
      }
      if f in Fleet(sandboxes) && f != e {
        var n :| n in sandboxes && IdleSince(sandboxes[n]).IdleAt? && f == EntryOf(sandboxes[n]);
        assert n != e.name && after[n] == sandboxes[n];
      }
    }
  }

  /** On a sleeper a pass collects or does nothing. */
  lemma PassDecides(cfg: Config, s: State, step: Step, n: string)
    requires n in s.sandboxes && IsVersion(s, s.sandboxes[n]) && s.sandboxes[n].name == n &&
             Selected(cfg, s.sandboxes[n].labels)
    requires IdleSince(s.sandboxes[n]).IdleAt?
    requires Enabled(cfg, s, step) && step.ControllerPass? && step.at == s.sandboxes[n].rv
    ensures var sb := s.sandboxes[n];
            Apply(cfg, s, step).sandboxes ==
            if GcDue(cfg, sb, step.list, step.now)
            then s.sandboxes[n := Stored(sb, sb.(deleting := true), |s.versions|)] else s.sandboxes
  {
    hide GcDue, CurrentGenerationTrue, Selected, OwnedPods, ValidWorkOrderSecret, Installed;
  }

  /** Step j of the run is such a pass, or neither adds nor wakes nor collects a sleeper. */
  ghost predicate Orderly(cfg: Config, run: seq<State>, steps: seq<Step>, j: nat)
    requires j < |steps| < |run|
  {
    (exists e :: GcPass(cfg, run[j], steps[j], e)) || Fleet(run[j + 1].sandboxes) == Fleet(run[j].sandboxes)
  }

  ghost predicate Passed(cfg: Config, run: seq<State>, steps: seq<Step>, k: nat, m: nat, e: Entry)
    requires m <= |steps| < |run|
  {
    exists j :: k <= j < m && GcPass(cfg, run[j], steps[j], e)
  }

  /** The passes of a stretch of a run, in order, account for its fleet. */
  lemma {:induction false} PassesOnFleet(cfg: Config, run: seq<State>, steps: seq<Step>, k: nat, m: nat)
    returns (order: seq<Entry>)
    requires ConfigOk(cfg) && IsRun(cfg, run, steps) && k <= m <= |steps|
    requires cfg.gcEnabled && cfg.gcMaxIdleSessions > 0
    requires forall j :: k <= j < m ==> Orderly(cfg, run, steps, j)
    ensures Fleet(run[m].sandboxes) == Passes(Fleet(run[k].sandboxes), order, cfg.gcMaxIdleSessions)
    ensures forall e :: Passed(cfg, run, steps, k, m, e) ==> e in order
    decreases m - k
  {
    hide Inv, ConfigOk, Fleet, Pass, Enabled, Apply;
    if k == m {
      order := [];
    } else {
      assert Orderly(cfg, run, steps, k);
      var rest := PassesOnFleet(cfg, run, steps, k + 1, m);
      if e :| GcPass(cfg, run[k], steps[k], e) {
        RunInv(cfg, run, steps, k);
        assert Enabled(cfg, run[k], steps[k]) && run[k + 1] == Apply(cfg, run[k], steps[k]);
        PassOnFleet(cfg, run[k], steps[k], e);
        order := [e] + rest;
        forall f | Passed(cfg, run, steps, k, m, f) ensures f in order {
          OnePassOneEntry(cfg, run, steps, k, m, e, f);
        }
      } else {
        order := rest;
        forall f | Passed(cfg, run, steps, k, m, f) ensures Passed(cfg, run, steps, k + 1, m, f) {
          var j :| k <= j < m && GcPass(cfg, run[j], steps[j], f);
        }
      }
    }
  }

  lemma OnePassOneEntry(cfg: Config, run: seq<State>, steps: seq<Step>, k: nat, m: nat, e: Entry, f: Entry)
    requires ConfigOk(cfg) && IsRun(cfg, run, steps) && k < m <= |steps|
    requires GcPass(cfg, run[k], steps[k], e) && Passed(cfg, run, steps, k, m, f)
    ensures f == e || Passed(cfg, run, steps, k + 1, m, f)
  {
    hide ConfigOk, Inv, IdleSince, Enumerates;
    var j :| k <= j < m && GcPass(cfg, run[j], steps[j], f);
    if j == k {
      RunInv(cfg, run, steps, k);
      NamesFit(cfg, run[k]);
      InvVersions(cfg, run[k]);
      FleetUids(cfg, run[k], e.name, e.name);
      FleetUids(cfg, run[k], f.name, f.name);
    }
  }

  /** Over any stretch of a run without new sleepers, wakes or sleepers past the age limit,
      whatever else happens: passes in any order and with any repetition collect none of
      the K newest, and leave exactly those once every other sleeper had its pass. */
  lemma CapIsExact(cfg: Config, run: seq<State>, steps: seq<Step>, k: nat, m: nat)
    requires ConfigOk(cfg) && IsRun(cfg, run, steps) && k <= m <= |steps|
    requires cfg.gcEnabled && cfg.gcMaxIdleSessions > 0
    requires forall j :: k <= j < m ==> Orderly(cfg, run, steps, j)
    ensures var before, after, keep := Fleet(run[k].sandboxes), Fleet(run[m].sandboxes), cfg.gcMaxIdleSessions;
            && Newest(before, keep) <= after <= before
            && |Newest(before, keep)| == (if |before| < keep then |before| else keep)
            && ((forall e :: e in before && e !in Newest(before, keep) ==> Passed(cfg, run, steps, k, m, e)) ==>
                  after == Newest(before, keep))
  {
    hide Inv, ConfigOk, Newest, Passes, Orderly, Passed, Fleet;
    var order := PassesOnFleet(cfg, run, steps, k, m);
    var fleet := Fleet(run[k].sandboxes);
    PassesConverge(fleet, order, cfg.gcMaxIdleSessions);
    RunInv(cfg, run, steps, k);
    FleetNames(cfg, run[k]);
    NewestCount(fleet, cfg.gcMaxIdleSessions);
  }

  lemma FleetNames(cfg: Config, s: State)
    requires Inv(cfg, s)
    ensures NamesDiffer(Fleet(s.sandboxes))
  {
    hide Inv, IdleSince;
    NamesFit(cfg, s);
  }
}
