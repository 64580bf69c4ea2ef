/** The overshoot of the active-session cap is no artefact of the proof: for every cap and
    every number of concurrent invocations, some run attains the bound. */
module Overshoot {
  import opened Api
  import opened Decimal
  import opened Hook
  import opened Protocol
  import opened Sets
  import opened Runs
  import opened Capacity
  import opened Writes
  import Naming
  import Template

  /** Requests of distinct sessions with the templates they are worked on with. */
  ghost predicate Crowd(cfg: Config, reqs: seq<Request>, tmpls: seq<Sandbox>) {
    && cfg.maxActiveSessions > 0 && |reqs| == |tmpls|
    && (forall i :: 0 <= i < |reqs| ==> ValidRequest(reqs[i]) && Contracted(cfg, tmpls[i], reqs[i]))
    && (forall i, j :: 0 <= i < |reqs| && 0 <= j < |reqs| ==> SameOrder(reqs[i], reqs[j]))
    && (forall i, j :: 0 <= i < j < |tmpls| ==> tmpls[i].name != tmpls[j].name)
  }

  function Names(tmpls: seq<Sandbox>, n: nat): set<string>
    requires n <= |tmpls|
  {
    set i | 0 <= i < n :: tmpls[i].name
  }

  lemma {:induction false} NameCount(tmpls: seq<Sandbox>, n: nat)
    requires n <= |tmpls| && forall i, j :: 0 <= i < j < |tmpls| ==> tmpls[i].name != tmpls[j].name
    ensures |Names(tmpls, n)| == n
  {
    if n > 0 {
      NameCount(tmpls, n - 1);
      assert Names(tmpls, n) == Names(tmpls, n - 1) + {tmpls[n - 1].name};
    }
  }

  /** The first `made` invocations have created their Sandboxes and crashed, the others up
      to `entered` are past the capacity check. */
  ghost predicate Queue(s: State, reqs: seq<Request>, tmpls: seq<Sandbox>, made: nat, entered: nat) {
    && made <= entered <= |reqs| == |tmpls|
    && (forall h: nat :: h in s.hooks <==> h < entered)
    && Members(s, reqs, tmpls, made, entered)
  }

  /** The same, with one more invocation at `pc`. */
  ghost predicate QueueAnd(s: State, reqs: seq<Request>, tmpls: seq<Sandbox>, made: nat, entered: nat, pc: Pc) {
    && made <= entered < |reqs| == |tmpls|
    && (forall h: nat :: h in s.hooks <==> h <= entered)
    && Members(s, reqs, tmpls, made, entered)
    && s.hooks[entered] == Invocation(reqs[entered], tmpls[entered], pc)
  }

  ghost predicate Members(s: State, reqs: seq<Request>, tmpls: seq<Sandbox>, made: nat, entered: nat)
    requires made <= entered <= |reqs| == |tmpls|
    requires forall h :: 0 <= h < entered ==> h in s.hooks
  {
    && (forall h :: 0 <= h < entered ==>
          s.hooks[h] == Invocation(reqs[h], tmpls[h], if h < made then Crashed else Creating(0)))
    && s.sandboxes.Keys == Names(tmpls, made) && Holders(s.sandboxes) == Names(tmpls, made)
  }

  ghost predicate Within(cfg: Config, run: seq<State>, steps: seq<Step>, c: nat) {
    IsRun(cfg, run, steps) && forall j :: 0 <= j < |run| ==> |InFlight(run[j])| <= c
  }

  lemma Extended(cfg: Config, run: seq<State>, steps: seq<Step>, c: nat, step: Step)
    returns (longer: seq<State>, more: seq<Step>)
    requires |run| == |steps| + 1 && Within(cfg, run, steps, c) && Enabled(cfg, run[|steps|], step)
    requires |InFlight(Apply(cfg, run[|steps|], step))| <= c
    ensures |longer| == |more| + 1 && Within(cfg, longer, more, c) && longer[|more|] == Apply(cfg, run[|steps|], step)
  {
    hide Enabled, Apply, InFlight;
    OneMore(cfg, run, steps, step);
    longer, more := run + [Apply(cfg, run[|steps|], step)], steps + [step];
  }

  function Range(lo: nat, hi: nat): (r: set<nat>)
    requires lo <= hi
    ensures forall h :: h in r <==> lo <= h < hi
    ensures |r| == hi - lo
    decreases hi
  {
    if lo == hi then {} else Range(lo, hi - 1) + {hi - 1}
  }

  lemma FewInFlight(s: State, lo: nat, hi: nat)
    requires lo <= hi && forall h :: h in s.hooks ==> h < hi && (h < lo ==> s.hooks[h].pc == Crashed)
    ensures |InFlight(s)| <= hi - lo
  {
    SubsetSize(InFlight(s), Range(lo, hi));
  }

  lemma StartsUp(cfg: Config, s: State, reqs: seq<Request>, tmpls: seq<Sandbox>, made: nat, entered: nat)
    requires Crowd(cfg, reqs, tmpls) && Queue(s, reqs, tmpls, made, entered) && entered < |reqs|
    ensures var step := Start(entered, reqs[entered], tmpls[entered]);
            Enabled(cfg, s, step) && QueueAnd(Apply(cfg, s, step), reqs, tmpls, made, entered, Reading(0))
  {
    hide ValidRequest, Contracted, SameOrder, Holders;
  }

  /** It finds nothing of its name. */
  lemma Reads(cfg: Config, s: State, reqs: seq<Request>, tmpls: seq<Sandbox>, made: nat, entered: nat)
    requires Crowd(cfg, reqs, tmpls) && QueueAnd(s, reqs, tmpls, made, entered, Reading(0))
    ensures var step := HookCall(entered, 0, "", false);
            Enabled(cfg, s, step) && QueueAnd(Apply(cfg, s, step), reqs, tmpls, made, entered, Admitting(0))
  {
    hide ValidRequest, Contracted, SameOrder, Holders;
    assert tmpls[entered].name !in Names(tmpls, made);
  }

  /** It counts fewer holders than the cap. */
  lemma IsAdmitted(cfg: Config, s: State, reqs: seq<Request>, tmpls: seq<Sandbox>, made: nat, entered: nat)
    requires Crowd(cfg, reqs, tmpls) && QueueAnd(s, reqs, tmpls, made, entered, Admitting(0)) &&
             made < cfg.maxActiveSessions
    ensures var step := HookCall(entered, 0, "", false);
            Enabled(cfg, s, step) && Queue(Apply(cfg, s, step), reqs, tmpls, made, entered + 1)
  {
    hide Crowd, Holders, Names, Queue;
    assert |Names(tmpls, made)| == made by { CrowdNames(cfg, reqs, tmpls, made); }
    SubsetSize(Holders(s.sandboxes) - {tmpls[entered].name}, Names(tmpls, made));
    QueueLengthens(s, reqs, tmpls, made, entered);
  }

  lemma QueueLengthens(s: State, reqs: seq<Request>, tmpls: seq<Sandbox>, made: nat, entered: nat)
    requires QueueAnd(s, reqs, tmpls, made, entered, Admitting(0))
    ensures Queue(SetPc(s, entered, Creating(0)), reqs, tmpls, made, entered + 1)
  {
    hide Holders, Names;
  }

  lemma CrowdNames(cfg: Config, reqs: seq<Request>, tmpls: seq<Sandbox>, n: nat)
    requires Crowd(cfg, reqs, tmpls) && n <= |tmpls|
    ensures |Names(tmpls, n)| == n
    ensures forall i :: n <= i < |tmpls| ==> tmpls[i].name !in Names(tmpls, n)
    ensures n < |tmpls| ==> Names(tmpls, n + 1) == Names(tmpls, n) + {tmpls[n].name}
    ensures forall i :: 0 <= i < |reqs| ==> ValidRequest(reqs[i])
  {
    hide ValidRequest, Contracted, SameOrder;
    NameCount(tmpls, n);
  }

  /** One invocation starts, reads and is admitted. */
  lemma Enter(cfg: Config, run: seq<State>, steps: seq<Step>, c: nat, reqs: seq<Request>, tmpls: seq<Sandbox>,
              made: nat, entered: nat)
    returns (longer: seq<State>, more: seq<Step>)
    requires |run| == |steps| + 1 && Within(cfg, run, steps, c) && Crowd(cfg, reqs, tmpls)
    requires Queue(run[|steps|], reqs, tmpls, made, entered)
    requires entered < |reqs| && entered - made < c && made < cfg.maxActiveSessions
    ensures |longer| == |more| + 1 && Within(cfg, longer, more, c) &&
            Queue(longer[|more|], reqs, tmpls, made, entered + 1)
  {
    hide Within, Enabled, Apply, InFlight, Crowd;
    var start, call := Start(entered, reqs[entered], tmpls[entered]), HookCall(entered, 0, "", false);
    StartsUp(cfg, run[|steps|], reqs, tmpls, made, entered);
    FewInFlight(Apply(cfg, run[|steps|], start), made, entered + 1);
    longer, more := Extended(cfg, run, steps, c, start);
    Reads(cfg, longer[|more|], reqs, tmpls, made, entered);
    FewInFlight(Apply(cfg, longer[|more|], call), made, entered + 1);
    longer, more := Extended(cfg, longer, more, c, call);
    IsAdmitted(cfg, longer[|more|], reqs, tmpls, made, entered);
    FewInFlight(Apply(cfg, longer[|more|], call), made, entered + 1);
    longer, more := Extended(cfg, longer, more, c, call);
  }

  lemma Creates(cfg: Config, s: State, reqs: seq<Request>, tmpls: seq<Sandbox>, made: nat, entered: nat, uid: string)
    requires Crowd(cfg, reqs, tmpls) && Queue(s, reqs, tmpls, made, entered) && made < entered && NewUid(s, uid)
    ensures var step := HookCall(made, 0, uid, true);
            Enabled(cfg, s, step) && Queue(Apply(cfg, s, step), reqs, tmpls, made + 1, entered)
  {
    hide Crowd, HoldsSlot, Holders, Names, Created, NewUid, Call;
    CrowdNames(cfg, reqs, tmpls, made);
    var inv := s.hooks[made];
    var w := Created(cfg, inv, 0, uid, |s.versions|);
    CreatedIdentity(cfg, inv, 0, uid, |s.versions|);
    CreatedHoldsSlot(cfg, inv, 0, uid, |s.versions|);
    CreatingPuts(cfg, s, inv, 0, uid);
    QueueMovesUp(cfg, s, SetPc(Put(s, w), made, Crashed), reqs, tmpls, made, entered, w);
  }

  lemma CreatingPuts(cfg: Config, s: State, inv: Invocation, now: int, uid: string)
    requires inv.pc.Creating? && inv.tmpl.name !in s.sandboxes
    ensures Call(cfg, s, inv, now, uid).state == Put(s, Created(cfg, inv, now, uid, |s.versions|))
  {
    hide Created, Classified;
  }

  lemma QueueMovesUp(cfg: Config, s: State, t: State, reqs: seq<Request>, tmpls: seq<Sandbox>, made: nat,
                     entered: nat, w: Sandbox)
    requires Crowd(cfg, reqs, tmpls) && Queue(s, reqs, tmpls, made, entered) && made < entered && HoldsSlot(w)
    requires t.hooks == s.hooks[made := Invocation(reqs[made], tmpls[made], Crashed)]
    requires t.sandboxes == s.sandboxes[tmpls[made].name := w]
    ensures Queue(t, reqs, tmpls, made + 1, entered)
  {
    hide Crowd, HoldsSlot, Holders, Names;
    HooksMoveUp(s, t, reqs, tmpls, made, entered);
    NamesMoveUp(cfg, s, t, reqs, tmpls, made, entered, w);
  }

  lemma HooksMoveUp(s: State, t: State, reqs: seq<Request>, tmpls: seq<Sandbox>, made: nat, entered: nat)
    requires Queue(s, reqs, tmpls, made, entered) && made < entered
    requires t.hooks == s.hooks[made := Invocation(reqs[made], tmpls[made], Crashed)]
    ensures forall h: nat :: h in t.hooks <==> h < entered
    ensures forall h :: 0 <= h < entered ==>
              t.hooks[h] == Invocation(reqs[h], tmpls[h], if h < made + 1 then Crashed else Creating(0))
  {
    hide Holders, Names;
  }

  lemma NamesMoveUp(cfg: Config, s: State, t: State, reqs: seq<Request>, tmpls: seq<Sandbox>, made: nat,
                    entered: nat, w: Sandbox)
    requires Crowd(cfg, reqs, tmpls) && Queue(s, reqs, tmpls, made, entered) && made < entered && HoldsSlot(w)
    requires t.sandboxes == s.sandboxes[tmpls[made].name := w]
    ensures t.sandboxes.Keys == Names(tmpls, made + 1) && Holders(t.sandboxes) == Names(tmpls, made + 1)
  {
    hide Crowd, HoldsSlot, Holders, Names;
    CrowdNames(cfg, reqs, tmpls, made);
    OneMoreHolder(s.sandboxes, tmpls[made].name, w);
    assert t.sandboxes.Keys == s.sandboxes.Keys + {tmpls[made].name};
  }

  lemma OneMoreHolder(sandboxes: map<string, Sandbox>, n: string, w: Sandbox)
    requires n !in sandboxes && HoldsSlot(w)
    ensures Holders(sandboxes[n := w]) == Holders(sandboxes) + {n}
  {
    hide HoldsSlot;
  }

  /** The first of those admitted creates its Sandbox, and crashes. */
  lemma Make(cfg: Config, run: seq<State>, steps: seq<Step>, c: nat, reqs: seq<Request>, tmpls: seq<Sandbox>,
             made: nat, entered: nat)
    returns (longer: seq<State>, more: seq<Step>)
    requires |run| == |steps| + 1 && Within(cfg, run, steps, c) && Crowd(cfg, reqs, tmpls)
    requires Queue(run[|steps|], reqs, tmpls, made, entered) && made < entered <= made + c
    ensures |longer| == |more| + 1 && Within(cfg, longer, more, c) &&
            Queue(longer[|more|], reqs, tmpls, made + 1, entered)
  {
    hide Within, Enabled, Apply, InFlight, Crowd;
    var uid := FreshUid(run[|steps|].versions);
    Creates(cfg, run[|steps|], reqs, tmpls, made, entered, uid);
    FewInFlight(Apply(cfg, run[|steps|], HookCall(made, 0, uid, true)), made + 1, entered);
    longer, more := Extended(cfg, run, steps, c, HookCall(made, 0, uid, true));
  }

  /** Up to the cap, one after another. */
  lemma {:induction false} OneByOne(cfg: Config, c: nat, reqs: seq<Request>, tmpls: seq<Sandbox>, n: nat)
    returns (run: seq<State>, steps: seq<Step>)
    requires Crowd(cfg, reqs, tmpls) && c > 0 && n < cfg.maxActiveSessions && n <= |reqs| == |tmpls|
    ensures |run| == |steps| + 1 && Within(cfg, run, steps, c) && Queue(run[|steps|], reqs, tmpls, n, n)
  {
    hide Crowd, Within, Queue;
    if n == 0 {
      run, steps := [INIT], [];
      NobodyYet(cfg, c, reqs, tmpls);
    } else {
      run, steps := OneByOne(cfg, c, reqs, tmpls, n - 1);
      run, steps := Enter(cfg, run, steps, c, reqs, tmpls, n - 1, n - 1);
      run, steps := Make(cfg, run, steps, c, reqs, tmpls, n - 1, n);
    }
  }

  lemma NobodyYet(cfg: Config, c: nat, reqs: seq<Request>, tmpls: seq<Sandbox>)
    requires |reqs| == |tmpls|
    ensures Within(cfg, [INIT], [], c) && Queue(INIT, reqs, tmpls, 0, 0)
  {
    assert InFlight(INIT) == {} && Names(tmpls, 0) == {};
  }

  /** Then all the others pass the check together. */
  lemma {:induction false} AllAtOnce(cfg: Config, c: nat, reqs: seq<Request>, tmpls: seq<Sandbox>, n: nat)
    returns (run: seq<State>, steps: seq<Step>)
    requires Crowd(cfg, reqs, tmpls) && n <= c && c > 0 && cfg.maxActiveSessions - 1 + n <= |reqs| == |tmpls|
    requires cfg.maxActiveSessions > 0
    ensures |run| == |steps| + 1 && Within(cfg, run, steps, c)
    ensures Queue(run[|steps|], reqs, tmpls, cfg.maxActiveSessions - 1, cfg.maxActiveSessions - 1 + n)
  {
    hide Crowd, Within, Queue;
    if n == 0 {
      run, steps := OneByOne(cfg, c, reqs, tmpls, cfg.maxActiveSessions - 1);
    } else {
      run, steps := AllAtOnce(cfg, c, reqs, tmpls, n - 1);
      run, steps := Enter(cfg, run, steps, c, reqs, tmpls, cfg.maxActiveSessions - 1, cfg.maxActiveSessions + n - 2);
    }
  }

  lemma {:induction false} AllCreate(cfg: Config, c: nat, reqs: seq<Request>, tmpls: seq<Sandbox>, n: nat)
    returns (run: seq<State>, steps: seq<Step>)
    requires Crowd(cfg, reqs, tmpls) && n <= c && c > 0 && |reqs| == |tmpls| == cfg.maxActiveSessions - 1 + c
    requires cfg.maxActiveSessions > 0
    ensures |run| == |steps| + 1 && Within(cfg, run, steps, c)
    ensures Queue(run[|steps|], reqs, tmpls, cfg.maxActiveSessions - 1 + n, |reqs|)
  {
    hide Crowd, Within, Queue;
    if n == 0 {
      run, steps := AllAtOnce(cfg, c, reqs, tmpls, c);
    } else {
      run, steps := AllCreate(cfg, c, reqs, tmpls, n - 1);
      run, steps := Make(cfg, run, steps, c, reqs, tmpls, cfg.maxActiveSessions + n - 2, |reqs|);
    }
  }

  // ---- The crowd

  /** Sessions whose Sandboxes have names of their own. */
  predicate DistinctSessions(cfg: Config, sessions: seq<string>) {
    forall i, j :: 0 <= i < j < |sessions| ==> cfg.names.sandbox(sessions[i]) != cfg.names.sandbox(sessions[j])
  }

  const MOUNT := Template.Contract("/workspace", "/workspace", 30)

  function RequestOf(session: string): Request {
    Request("order of " + session, session, 1, "", "work")
  }

  /** What the contract makes of the least chart. */
  function TemplateOf(cfg: Config, session: string): Sandbox {
    Template.Forced(Template.LeastTemplate(cfg.release, PART_OF), cfg.names,
                    Template.Identity(cfg.release, "", session, ""), MOUNT)
  }

  lemma MountIsValid()
    ensures Template.Validate(MOUNT).None?
  {
    assert Template.TrimSlashes(MOUNT.mountPath) == MOUNT.mountPath;
  }

  lemma OneOfTheCrowd(cfg: Config, session: string)
    requires cfg.release != ""
    ensures ValidRequest(RequestOf(session)) && Contracted(cfg, TemplateOf(cfg, session), RequestOf(session))
    ensures TemplateOf(cfg, session).name == cfg.names.sandbox(session)
  {
    hide Template.Validate, Template.Rejection, Template.ForcedTemplate, Contracted;
    var id := Template.Identity(cfg.release, "", session, "");
    MountIsValid();
    Template.LeastTemplateIsAccepted(id, MOUNT, PART_OF);
    Template.AcceptedTemplateIsContracted(cfg, Template.LeastTemplate(cfg.release, PART_OF), id, MOUNT,
                                          RequestOf(session));
  }

  lemma OrdersDiffer(a: string, b: string)
    ensures SameOrder(RequestOf(a), RequestOf(b))
  {
    if "order of " + a == "order of " + b {
      assert ("order of " + a)[|"order of "|..] == a && ("order of " + b)[|"order of "|..] == b;
    }
  }

  lemma CrowdOf(cfg: Config, sessions: seq<string>) returns (reqs: seq<Request>, tmpls: seq<Sandbox>)
    requires cfg.release != "" && cfg.maxActiveSessions > 0 && DistinctSessions(cfg, sessions)
    ensures Crowd(cfg, reqs, tmpls) && |reqs| == |tmpls| == |sessions|
  {
    hide ValidRequest, Contracted, SameOrder, RequestOf, TemplateOf;
    reqs := seq(|sessions|, i requires 0 <= i < |sessions| => RequestOf(sessions[i]));
    tmpls := seq(|sessions|, i requires 0 <= i < |sessions| => TemplateOf(cfg, sessions[i]));
    forall i | 0 <= i < |sessions|
      ensures ValidRequest(reqs[i]) && Contracted(cfg, tmpls[i], reqs[i]) &&
              tmpls[i].name == cfg.names.sandbox(sessions[i])
    {
      OneOfTheCrowd(cfg, sessions[i]);
    }
    forall i, j | 0 <= i < |reqs| && 0 <= j < |reqs| ensures SameOrder(reqs[i], reqs[j]) {
      OrdersDiffer(sessions[i], sessions[j]);
    }
  }

  /** With cap L and c invocations in flight, any L + c - 1 sessions with names of their
      own can all come to hold a slot: the bound of OvershootIsBounded is exact. */
  lemma BoundIsAttained(cfg: Config, c: nat, sessions: seq<string>) returns (run: seq<State>, steps: seq<Step>)
    requires cfg.release != "" && cfg.maxActiveSessions > 0 && c > 0
    requires |sessions| == cfg.maxActiveSessions + c - 1 && DistinctSessions(cfg, sessions)
    ensures |run| == |steps| + 1 && IsRun(cfg, run, steps) && forall j :: 0 <= j < |run| ==> |InFlight(run[j])| <= c
    ensures |ActiveSessions(run[|steps|].sandboxes)| == cfg.maxActiveSessions + c - 1
  {
    hide IsRun, Crowd, Queue, Holders, ActiveSessions, InFlight, Names;
    var reqs, tmpls := CrowdOf(cfg, sessions);
    run, steps := AllCreate(cfg, c, reqs, tmpls, c);
    CrowdNames(cfg, reqs, tmpls, |tmpls|);
    ActiveHold(run[|steps|].sandboxes);
    AllHold(run[|steps|], reqs, tmpls);
  }

  lemma AllHold(s: State, reqs: seq<Request>, tmpls: seq<Sandbox>)
    requires Queue(s, reqs, tmpls, |reqs|, |reqs|)
    ensures |reqs| == |tmpls| && Holders(s.sandboxes) == Names(tmpls, |reqs|)
  {
    hide Holders, Names;
  }

  /** With the program's own names there are such sessions, 10^26 of them and more. */
  lemma BoundIsAttainedByName(cfg: Config, c: nat, digest: string -> string, fnv: string -> string)
    returns (run: seq<State>, steps: seq<Step>)
    requires cfg.names == Naming.NamesFor(digest, fnv, cfg.release)
    requires cfg.release != "" && cfg.maxActiveSessions > 0 && c > 0
    requires cfg.maxActiveSessions + c - 1 <= Naming.Power10(Naming.LONGEST_PLAIN_ID)
    ensures |run| == |steps| + 1 && IsRun(cfg, run, steps) && forall j :: 0 <= j < |run| ==> |InFlight(run[j])| <= c
    ensures |ActiveSessions(run[|steps|].sandboxes)| == cfg.maxActiveSessions + c - 1
  {
    hide IsRun, Naming.Power10, Naming.SandboxName;
    var n: nat := cfg.maxActiveSessions + c - 1;
    var sessions := seq(n, i requires 0 <= i < n => Digits(i));
    forall i, j | 0 <= i < j < |sessions|
      ensures cfg.names.sandbox(sessions[i]) != cfg.names.sandbox(sessions[j])
    {
      if cfg.names.sandbox(sessions[i]) == cfg.names.sandbox(sessions[j]) {
        Naming.NumberedNames(fnv, cfg.release, i, j);
      }
    }
    run, steps := BoundIsAttained(cfg, c, sessions);
  }
}
