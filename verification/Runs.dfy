/** Every state of every run satisfies the invariant. */
module Runs {
  import opened Api
  import opened Protocol
  import opened Invariants
  import opened HookSteps
  import opened Safety
  import opened ClusterSteps

  lemma StepKeepsInv(cfg: Config, s: State, step: Step)
    requires ConfigOk(cfg) && Inv(cfg, s) && Enabled(cfg, s, step)
    ensures Inv(cfg, Apply(cfg, s, step))
  {
    hide Inv, ConfigOk, Call, CommitPass;
    match step {
      case Start(h, req, tmpl) => StartKeepsInv(cfg, s, h, req, tmpl);
      case HookCall(h, now, uid, lost) => HookCallKeepsInv(cfg, s, h, now, uid, lost);
      case HookError(h, code) => EndKeepsInv(cfg, s, h, Failed(code));
      case HookStale(h) => EndKeepsInv(cfg, s, h, Retry(cfg, s.hooks[h].pc.tries));
      case HookCrash(h) => EndKeepsInv(cfg, s, h, Crashed);
      case ControllerPass(at, pods, secret, list, now) => PassKeepsInv(cfg, s, at, pods, secret, list, now);
      case See(at) => SeeKeepsInv(cfg, s, at);
      case CreatePod(uid, id) => CreatePodKeepsInv(cfg, s, uid, id);
      case DeletePod(id) => DeletePodKeepsInv(cfg, s, id);
      case Report(name) => ReportKeepsInv(cfg, s, name);
      case PodFinishes(id) => PodFinishesKeepsInv(cfg, s, id);
      case PodGone(id) => PodGoneKeepsInv(cfg, s, id);
      case Finalize(name) => FinalizeKeepsInv(cfg, s, name);
      case CascadeSecret(name) => CascadeSecretKeepsInv(cfg, s, name);
    }
  }

  lemma EndKeepsInv(cfg: Config, s: State, h: nat, pc: Pc)
    requires Inv(cfg, s) && h in s.hooks && (pc.Failed? || pc.Crashed? || pc.Reading?)
    ensures Inv(cfg, SetPc(s, h, pc))
  {
    hide Inv;
    SetPcKeepsInv(cfg, s, h, pc);
  }

  lemma InitInv(cfg: Config)
    ensures Inv(cfg, INIT)
  {
  }

  lemma {:induction false} RunInv(cfg: Config, run: seq<State>, steps: seq<Step>, k: nat)
    requires ConfigOk(cfg) && IsRun(cfg, run, steps) && k < |run|
    ensures Inv(cfg, run[k])
  {
    hide Inv, ConfigOk, Apply, Enabled;
    if k == 0 {
      InitInv(cfg);
    } else {
      RunInv(cfg, run, steps, k - 1);
      StepKeepsInv(cfg, run[k - 1], steps[k - 1]);
    }
  }

  /** A run goes on with any enabled step. */
  lemma OneMore(cfg: Config, run: seq<State>, steps: seq<Step>, step: Step)
    requires IsRun(cfg, run, steps) && Enabled(cfg, run[|steps|], step)
    ensures IsRun(cfg, run + [Apply(cfg, run[|steps|], step)], steps + [step])
  {
    hide Enabled, Apply;
    var longer, more := run + [Apply(cfg, run[|steps|], step)], steps + [step];
    forall k | 0 <= k < |more|
      ensures Enabled(cfg, longer[k], more[k]) && longer[k + 1] == Apply(cfg, longer[k], more[k])
    {
      if k < |steps| {
        assert longer[k] == run[k] && more[k] == steps[k] && longer[k + 1] == run[k + 1];
      }
    }
  }
}
