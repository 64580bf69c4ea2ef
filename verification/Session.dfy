/** runSession's attempt loop and the controller's pass, as they call the API server:
    the imperative programs take the steps of the transition system and no others. */
module Session {
  import opened Api
  import opened Decimal
  import opened Hook
  import opened SessionController
  import opened Protocol
  import opened Invariants
  import opened Runs
  import opened Capacity
  import opened Safety
  import opened Writes
  import MergePatch = Patch
  import Template
  import Wire

  datatype Result<+T> = Ok(value: T) | Error(code: nat)

  /** The API server as one client meets it: between any two of its calls others act,
      here by a schedule nobody controls, and any call may fail. `run` and `steps` record
      what has happened. */
  class ApiServer {
    const cfg: Config
    var state: State
    var schedule: seq<Step>
    ghost var run: seq<State>
    ghost var steps: seq<Step>

    ghost predicate Valid()
      reads this
    {
      ConfigOk(cfg) && |run| == |steps| + 1 && run[|steps|] == state && IsRun(cfg, run, steps)
    }

    constructor (cfg: Config, schedule: seq<Step>)
      requires ConfigOk(cfg)
      ensures Valid() && this.cfg == cfg && state == INIT && this.schedule == schedule
    {
      this.cfg, this.state, this.schedule := cfg, INIT, schedule;
      run, steps := [INIT], [];
    }

    method Advance(step: Step)
      requires Valid() && Enabled(cfg, state, step)
      modifies this`state, this`run, this`steps
      ensures Valid() && state == Apply(cfg, old(state), step)
      ensures run == old(run) + [state] && steps == old(steps) + [step]
    {
      OneMore(cfg, run, steps, step);
      state := Apply(cfg, state, step);
      run, steps := run + [state], steps + [step];
    }

    /** Others act: hooks but `h`, the controllers, the cluster. */
    method Others(h: nat)
      requires Valid() && h in state.hooks
      modifies this
      ensures Valid() && h in state.hooks && state.hooks[h] == old(state.hooks[h])
      ensures old(run) <= run
    {
      while schedule != []
        invariant Valid() && h in state.hooks && state.hooks[h] == old(state.hooks[h])
        invariant old(run) <= run
        decreases |schedule|
      {
        if * {
          break;
        }
        var step := schedule[0];
        schedule := schedule[1..];
        if !ActsFor(step, h) && Enabled(cfg, state, step) {
          OthersKeepHook(cfg, state, step, h);
          Advance(step);
        }
      }
    }

    // ---- The calls of invocation `h`

    /** Where the invocation stands. */
    predicate At(h: nat, inv: Invocation)
      reads this
    {
      h in state.hooks && state.hooks[h] == inv
    }

    /** The invocation is over with a non-zero exit: refused, failed, or its last call's
        answer lost. */
    predicate Ended(h: nat, code: nat, was: Invocation)
      reads this
    {
      code in {EXIT_RETRYABLE, EXIT_NON_RETRYABLE} && (At(h, was.(pc := Failed(code))) || At(h, was.(pc := Crashed)))
    }

    /** The next call fails: it does nothing, or it takes effect and the answer is lost. */
    method Fail(h: nat, now: int, uid: string) returns (code: nat)
      requires Valid() && h in state.hooks && Active(state.hooks[h].pc) &&
               (state.hooks[h].pc.Creating? ==> NewUid(state, uid))
      modifies this`state, this`run, this`steps
      ensures Valid() && Ended(h, code, old(state.hooks[h])) && old(run) <= run
    {
      code := EXIT_RETRYABLE;
      if * {
        CallKeepsHooks(cfg, state, h, now, uid);
        Advance(HookCall(h, now, uid, true));
      } else {
        if * {
          code := EXIT_NON_RETRYABLE;
        }
        Advance(HookError(h, code));
      }
    }

    /** The next call is served. */
    method Serve(h: nat, now: int, uid: string)
      requires Valid() && h in state.hooks && Active(state.hooks[h].pc) &&
               Enabled(cfg, state, HookCall(h, now, uid, false))
      modifies this`state, this`run, this`steps
      ensures Valid() && old(run) <= run
      ensures state == Apply(cfg, old(state), HookCall(h, now, uid, false))
      ensures At(h, old(state.hooks[h]).(pc := Call(cfg, old(state), old(state.hooks[h]), now, uid).pc))
    {
      hide IsRun, ConfigOk, Call;
      CallKeepsHooks(cfg, state, h, now, uid);
      Advance(HookCall(h, now, uid, false));
    }

    method Get(h: nat, inv: Invocation) returns (found: Result<Option<Sandbox>>)
      requires Valid() && At(h, inv) && inv.pc.Reading?
      modifies this
      ensures Valid() && old(run) <= run
      ensures match found
              case Error(code) => Ended(h, code, inv)
              case Ok(None) =>
                At(h, inv.(pc := if cfg.maxActiveSessions <= 0 then Creating(inv.pc.tries)
                           else Admitting(inv.pc.tries)))
              case Ok(Some(sb)) =>
                At(h, inv.(pc := Classified(cfg, inv.req, inv.pc.tries, sb))) &&
                inv.tmpl.name in state.sandboxes && state.sandboxes[inv.tmpl.name] == sb
    {
      hide IsRun, ConfigOk, Classified, Secured, Evaluate, VerifySecret, Mutated, Created, WorkOrderSecret, Holders,
           CountHolders, Retry, Patch, HoldsSlot;
      Others(h);
      if * {
        var code := Fail(h, 0, "");
        return Error(code);
      }
      var name := inv.tmpl.name;
      found := Ok(if name in state.sandboxes then Some(state.sandboxes[name]) else None);
      Serve(h, 0, "");
    }

    /** Lists the Sandboxes; the answer is complete and current. */
    method List(h: nat, inv: Invocation) returns (list: Result<seq<Sandbox>>)
      requires Valid() && At(h, inv) && (inv.pc.Admitting? || inv.pc.AdmittingNewer?)
      modifies this
      ensures Valid() && old(run) <= run
      ensures match list
              case Error(code) => Ended(h, code, inv)
              case Ok(sandboxes) =>
                Enumerates(sandboxes, state.sandboxes) &&
                At(h, inv.(pc := if CountHolders(sandboxes, inv.tmpl.name) >= cfg.maxActiveSessions
                           then Failed(EXIT_RETRYABLE)
                                 else if inv.pc.Admitting? then Creating(inv.pc.tries)
                                 else Securing(inv.pc.tries, inv.pc.snap, true)))
    {
      hide Inv, IsRun, ConfigOk, Classified, Secured, Evaluate, VerifySecret, Mutated, Created, WorkOrderSecret,
           Holders, CountHolders, Retry, Patch, HoldsSlot;
      Others(h);
      if * {
        var code := Fail(h, 0, "");
        return Error(code);
      }
      RunInv(cfg, run, steps, |steps|);
      NamesFit(cfg, state);
      var sandboxes := Enumerate(state.sandboxes);
      CountIsHolders(sandboxes, state.sandboxes, inv.tmpl.name);
      Serve(h, 0, "");
      list := Ok(sandboxes);
    }

    /** Creates a Sandbox from `body`, unless one of that name exists. */
    method Create(h: nat, inv: Invocation, body: Sandbox, now: int) returns (created: Result<Option<Sandbox>>)
      requires Valid() && At(h, inv) && inv.pc.Creating? && body == CreateBody(inv.tmpl, inv.req, now)
      modifies this
      ensures Valid() && old(run) <= run
      ensures match created
              case Error(code) => Ended(h, code, inv)
              case Ok(None) => At(h, inv.(pc := Retry(cfg, inv.pc.tries)))
              case Ok(Some(sb)) =>
                At(h, inv.(pc := Classified(cfg, inv.req, inv.pc.tries, sb))) &&
                body.name in state.sandboxes && state.sandboxes[body.name] == sb
    {
      hide IsRun, ConfigOk, Classified, Secured, Evaluate, VerifySecret, Mutated, FormatInt, WorkOrderSecret,
           Holders, CountHolders, Retry, Patch, HoldsSlot;
      Others(h);
      var uid := FreshUid(state.versions);
      if * {
        var code := Fail(h, now, uid);
        return Error(code);
      }
      var sb := body.(uid := uid, rv := |state.versions|, generation := 1, deleting := false, conditions := map[]);
      created := Ok(if body.name in state.sandboxes then None else Some(sb));
      Serve(h, now, uid);
    }

    /** Creates a Secret; false if one of that name exists. */
    method CreateSecret(h: nat, inv: Invocation, secret: Secret) returns (created: Result<bool>)
      requires Valid() && At(h, inv) && inv.pc.Securing? && secret == DesiredSecret(cfg, inv, inv.pc.snap.uid)
      modifies this
      ensures Valid() && old(run) <= run
      ensures match created
              case Error(code) => Ended(h, code, inv)
              case Ok(true) =>
                At(h, inv.(pc := Secured(cfg, inv.req, inv.pc.tries, inv.pc.snap, inv.pc.newer))) &&
                secret.name in state.secrets && state.secrets[secret.name] == secret
              case Ok(false) => At(h, inv.(pc := Verifying(inv.pc.tries, inv.pc.snap, inv.pc.newer)))
    {
      hide IsRun, ConfigOk, Classified, Secured, Evaluate, VerifySecret, Mutated, Created, WorkOrderSecret, Holders,
           CountHolders, Retry, Patch, HoldsSlot;
      Others(h);
      if * {
        var code := Fail(h, 0, "");
        return Error(code);
      }
      created := Ok(secret.name !in state.secrets);
      Serve(h, 0, "");
    }

    method GetSecret(h: nat, inv: Invocation, name: string) returns (found: Result<Option<Secret>>)
      requires Valid() && At(h, inv) && inv.pc.Verifying? && name == DesiredSecret(cfg, inv, inv.pc.snap.uid).name
      modifies this
      ensures Valid() && old(run) <= run
      ensures match found
              case Error(code) => Ended(h, code, inv)
              case Ok(None) => At(h, inv.(pc := Failed(EXIT_RETRYABLE)))
              case Ok(Some(k)) =>
                name in state.secrets && state.secrets[name] == k &&
                At(h, inv.(pc := if !VerifySecret(k, DesiredSecret(cfg, inv, inv.pc.snap.uid))
                           then Failed(EXIT_NON_RETRYABLE)
                                 else Secured(cfg, inv.req, inv.pc.tries, inv.pc.snap, inv.pc.newer)))
    {
      hide IsRun, ConfigOk, Classified, Secured, Evaluate, VerifySecret, Mutated, Created, WorkOrderSecret, Holders,
           CountHolders, Retry, Patch, HoldsSlot;
      Others(h);
      if * {
        var code := Fail(h, 0, "");
        return Error(code);
      }
      found := Ok(if name in state.secrets then Some(state.secrets[name]) else None);
      Serve(h, 0, "");
    }

    /** The server's answer to the invocation's patch: false if the pins do not hold. */
    method Ask(h: nat, snap: Sandbox, mut: Sandbox, now: int) returns (accepted: bool)
      requires Valid() && h in state.hooks && state.hooks[h].pc.Patching? && snap == state.hooks[h].pc.snap
      requires mut == Mutated(cfg, state.hooks[h], now)
      ensures accepted <==> Current(state, snap)
    {
      hide IsRun, ConfigOk, Inv, Mutated, Current, IsVersion, MergePatch.Send, MergePatch.PinnedPatch, Wire.Encode;
      Sendable(h, now);
      var answer := Wire.SendOptimistic(cfg, state, snap, mut);
      accepted := !MergePatch.IsStale(answer);
    }

    /** Sends `mut` with the pins of the Sandbox it was computed from; false if they no
        longer hold, or the server calls the patch invalid. */
    method SendPatch(h: nat, inv: Invocation, mut: Sandbox, now: int) returns (committed: Result<bool>)
      requires Valid() && At(h, inv) && inv.pc.Patching? && mut == Mutated(cfg, inv, now)
      modifies this
      ensures Valid() && old(run) <= run
      ensures match committed
              case Error(code) => Ended(h, code, inv)
              case Ok(true) =>
                h in state.hooks && state.hooks[h].pc.Done? && At(h, inv.(pc := state.hooks[h].pc)) &&
                mut.name in state.sandboxes && state.sandboxes[mut.name].rv == state.hooks[h].pc.at &&
                state.sandboxes[mut.name].annotations == mut.annotations && state.sandboxes[mut.name].spec == mut.spec
              case Ok(false) => At(h, inv.(pc := Retry(cfg, inv.pc.tries)))
    {
      hide IsRun, ConfigOk, Classified, Secured, Evaluate, VerifySecret, Mutated, Created, WorkOrderSecret, Holders,
           CountHolders, Retry, HoldsSlot;
      Others(h);
      if * {
        var code := Fail(h, now, "");
        return Error(code);
      }
      if * {
        Advance(HookStale(h));
        return Ok(false);
      }
      var accepted := Ask(h, inv.pc.snap, mut, now);
      committed := Ok(accepted);
      Serve(h, now, "");
    }

    /** What a Patching invocation sends is an edit of a Sandbox that was there. */
    lemma Sendable(h: nat, now: int)
      requires Valid() && h in state.hooks && state.hooks[h].pc.Patching?
      ensures Inv(cfg, state) && IsVersion(state, state.hooks[h].pc.snap)
      ensures var snap, mut := state.hooks[h].pc.snap, Mutated(cfg, state.hooks[h], now);
              mut.name == snap.name && mut.uid == snap.uid && mut.rv == snap.rv
    {
      hide IsRun, ConfigOk, Mutated, RequestsOk, VersionsOk, EveryVersionOk, HistoryOk, SecretsOk, SeenOk,
           ConditionsOk, PodsOk, PodGenerationsOk, Evaluate, HasSecret, Repair;
      RunInv(cfg, run, steps, |steps|);
      MutatedIdentity(cfg, state.hooks[h], now);
      assert HookOk(cfg, state, state.hooks[h]);
    }

    // ---- The controller's pass

    method AskPinned(snap: Sandbox, mut: Sandbox) returns (accepted: bool)
      requires Valid() && IsVersion(state, snap) && mut.name == snap.name && mut.uid == snap.uid && mut.rv == snap.rv
      ensures accepted <==> Current(state, snap)
    {
      hide IsRun, ConfigOk, Inv, Mutated, Current, IsVersion, MergePatch.Send, MergePatch.PinnedPatch, Wire.Encode;
      RunInv(cfg, run, steps, |steps|);
      var answer := Wire.SendOptimistic(cfg, state, snap, mut);
      accepted := !MergePatch.IsStale(answer);
    }

    /** Reconcile on whatever the caches held, then the one write it decided on: a pinned
        patch, or a deletion with the same preconditions. */
    method Pass(at: nat, pods: seq<Pod>, secret: Option<Secret>, list: seq<Sandbox>, now: int) returns (committed: bool)
      requires Valid() && Enabled(cfg, state, ControllerPass(at, pods, secret, list, now)) && DistinctSandboxNames(list)
      modifies this
      ensures Valid() && state == Apply(cfg, old(state), ControllerPass(at, pods, secret, list, now))
      ensures committed == (|state.versions| > |old(state).versions|)
    {
      hide IsRun, ConfigOk, Inv, Decide, Stored;
      var snap := state.versions[at];
      var sb := new SandboxObject.Decode(snap);
      var write := Reconcile(cfg, sb, pods, secret, list, now);
      RunInv(cfg, run, steps, |steps|);
      InvVersions(cfg, state);
      committed := false;
      if write.Collect? {
        committed := Current(state, snap);
      } else if write != Nothing {
        DecidedIdentity(cfg, snap, pods, secret, list, now);
        committed := AskPinned(snap, write.mut);
      }
      Advance(ControllerPass(at, pods, secret, list, now));
    }
  }

  lemma DecidedIdentity(cfg: Config, sb: Sandbox, pods: seq<Pod>, secret: Option<Secret>, list: seq<Sandbox>, now: int)
    ensures var write := Decide(cfg, sb, pods, secret, list, now);
            write.Nothing? || write.Collect? ||
            (write.mut.name == sb.name && write.mut.uid == sb.uid && write.mut.rv == sb.rv)
  {
    hide ValidWorkOrderSecret, GcDue, Installed, Acknowledges;
  }

  method Enumerate(sandboxes: map<string, Sandbox>) returns (list: seq<Sandbox>)
    requires forall n :: n in sandboxes ==> sandboxes[n].name == n
    ensures Enumerates(list, sandboxes)
  {
    list := [];
    var left := sandboxes.Keys;
    while left != {}
      invariant left <= sandboxes.Keys && DistinctSandboxNames(list)
      invariant forall sb :: sb in list ==> sb.name in sandboxes && sb.name !in left && sandboxes[sb.name] == sb
      invariant forall n :: n in sandboxes && n !in left ==> sandboxes[n] in list
      decreases |left|
    {
      var n :| n in left;
      left := left - {n};
      list := list + [sandboxes[n]];
    }
  }

  predicate ActsFor(step: Step, h: nat) {
    match step
    case HookCall(g, _, _, _) => g == h
    case HookError(g, _) => g == h
    case HookStale(g) => g == h
    case HookCrash(g) => g == h
    case _ => false
  }

  lemma OthersKeepHook(cfg: Config, s: State, step: Step, h: nat)
    requires Enabled(cfg, s, step) && !ActsFor(step, h) && h in s.hooks
    ensures var t := Apply(cfg, s, step); h in t.hooks && t.hooks[h] == s.hooks[h]
  {
    hide Call, CommitPass, ReportedConditions, Contracted, HasPod, Live;
    if step.HookCall? {
      CallKeepsHooks(cfg, s, step.h, step.now, step.uid);
    } else if step.ControllerPass? {
      PassKeepsHooks(s, s.versions[step.at],
                     Decide(cfg, s.versions[step.at], step.pods, step.secret, step.list, step.now));
    }
  }

  // ---- internal/hook/hook.go: runSession

  /** Where the check leaves an invocation that passes it. */
  function Admitted(own: Option<Sandbox>, t: nat): Pc {
    match own
    case None => Creating(t)
    case Some(sb) => Securing(t, sb, true)
  }

  /** checkCapacity: `own` is the session's Sandbox if it was found. */
  method CheckRoom(server: ApiServer, h: nat, inv: Invocation, own: Option<Sandbox>) returns (room: Result<Invocation>)
    requires server.Valid() && server.At(h, inv) && Active(inv.pc)
    requires inv.pc == match own
                       case None =>
                         if server.cfg.maxActiveSessions <= 0 then Creating(inv.pc.tries) else Admitting(inv.pc.tries)
                       case Some(sb) =>
                         if server.cfg.maxActiveSessions <= 0 || HoldsSlot(sb) then Securing(inv.pc.tries, sb, true)
                         else AdmittingNewer(inv.pc.tries, sb)
    modifies server
    ensures server.Valid() && old(server.run) <= server.run
    ensures match room
            case Error(code) => server.Ended(h, code, inv)
            case Ok(next) =>
              server.At(h, next) &&
              next == inv.(pc := Admitted(own, inv.pc.tries))
  {
    if server.cfg.maxActiveSessions <= 0 || (own.Some? && HoldsSlot(own.value)) {
      return Ok(inv);
    }
    var list := server.List(h, inv);
    if list.Error? {
      return Error(list.code);
    }
    var admitted := CheckCapacity(server.cfg.maxActiveSessions, list.value, inv.tmpl.name);
    if !admitted {
      return Error(EXIT_RETRYABLE);
    }
    return Ok(inv.(pc := Admitted(own, inv.pc.tries)));
  }

  /** ensureSecret: creates the order's Secret, or checks the one that is there. */
  method EnsureSecret(server: ApiServer, h: nat, inv: Invocation) returns (next: Result<Invocation>)
    requires server.Valid() && server.At(h, inv) && inv.pc.Securing?
    modifies server
    ensures server.Valid() && old(server.run) <= server.run
    ensures match next
            case Error(code) => server.Ended(h, code, inv)
            case Ok(after) =>
              server.At(h, after) &&
              after == inv.(pc := Secured(server.cfg, inv.req, inv.pc.tries, inv.pc.snap, inv.pc.newer))
  {
    var desired := DesiredSecret(server.cfg, inv, inv.pc.snap.uid);
    var secured := inv.(pc := Secured(server.cfg, inv.req, inv.pc.tries, inv.pc.snap, inv.pc.newer));
    var created := server.CreateSecret(h, inv, desired);
    if created.Error? {
      return Error(created.code);
    }
    if created.value {
      return Ok(secured);
    }
    var existing := server.GetSecret(h, inv.(pc := Verifying(inv.pc.tries, inv.pc.snap, inv.pc.newer)), desired.name);
    if existing.Error? {
      return Error(existing.code);
    }
    if existing.value.None? {
      return Error(EXIT_RETRYABLE);
    }
    if !VerifySecret(existing.value.value, desired) {
      return Error(EXIT_NON_RETRYABLE);
    }
    return Ok(secured);
  }

  /** What a write of the invocation comes to: true when done, false when the Sandbox
      changed underneath. */
  ghost predicate Settles(server: ApiServer, h: nat, inv: Invocation, t: nat, done: Result<bool>)
    reads server
  {
    match done
    case Error(code) => server.Ended(h, code, inv)
    case Ok(true) =>
      h in server.state.hooks && server.state.hooks[h].pc.Done? && server.At(h, inv.(pc := server.state.hooks[h].pc))
    case Ok(false) => server.At(h, inv.(pc := Retry(server.cfg, t)))
  }

  method RepairAccepted(server: ApiServer, h: nat, inv: Invocation) returns (done: Result<bool>)
    requires server.Valid() && server.At(h, inv) && inv.pc.Securing? && !inv.pc.newer
    modifies server
    ensures server.Valid() && old(server.run) <= server.run && Settles(server, h, inv, inv.pc.tries, done)
  {
    hide IsRun, ConfigOk, Repair, Put, Stored, WorkOrderSecret, VerifySecret;
    var sb := inv.pc.snap;
    var secured := EnsureSecret(server, h, inv);
    if secured.Error? {
      return Error(secured.code);
    }
    var read := new SandboxObject.Decode(sb);
    var repaired := RepairRedelivery(read, inv.req, server.cfg.names.secret(inv.req.session, sb.uid, inv.req.order));
    if repaired.Mismatch? {
      return Error(EXIT_NON_RETRYABLE);
    }
    if repaired.Complete? {
      return Ok(true);
    }
    done := server.SendPatch(h, secured.value, repaired.mut, 0);
  }

  method AcceptNewer(server: ApiServer, h: nat, inv: Invocation) returns (done: Result<bool>)
    requires server.Valid() && server.At(h, inv) && inv.pc.Securing? && inv.pc.newer
    requires VolumeIsSecret(inv.tmpl.spec.template)
    modifies server
    ensures server.Valid() && old(server.run) <= server.run && Settles(server, h, inv, inv.pc.tries, done)
  {
    hide IsRun, ConfigOk, NamedVolume, Publish, Put, Stored, WorkOrderSecret, VerifySecret, Repair, Evaluate;
    var secured := EnsureSecret(server, h, inv);
    if secured.Error? {
      return Error(secured.code);
    }
    var now := Now();
    var mut := NewerBody(server.cfg, secured.value, now);
    done := server.SendPatch(h, secured.value, mut, now);
  }

  method NewerBody(cfg: Config, inv: Invocation, now: int) returns (mut: Sandbox)
    requires inv.pc.Patching? && inv.pc.newer
    requires VolumeIsSecret(inv.tmpl.spec.template)
    ensures mut == Mutated(cfg, inv, now)
  {
    hide NamedVolume, Publish;
    var sb := inv.pc.snap;
    var read := new SandboxObject.Decode(sb);
    var tmpl := new SandboxObject.Decode(inv.tmpl);
    var published := PublishNewer(read, tmpl, inv.req, now, cfg.names.secret(inv.req.session, sb.uid, inv.req.order));
    mut := published.Value();
  }

  /** reconcileExisting. */
  method ReconcileExisting(server: ApiServer, h: nat, inv: Invocation, t: nat, sb: Sandbox) returns (done: Result<bool>)
    requires server.Valid() && server.At(h, inv) && inv.pc == Classified(server.cfg, inv.req, t, sb)
    requires VolumeIsSecret(inv.tmpl.spec.template)
    modifies server
    ensures server.Valid() && old(server.run) <= server.run && Settles(server, h, inv, t, done)
  {
    hide IsRun, ConfigOk, NamedVolume, WorkOrderSecret, Evaluate;
    match Evaluate(server.cfg, sb, inv.req) {
      case Refuse(code) => RefusalCodes(server.cfg, sb, inv.req);
                           return Error(code);
      case Superseded => return Ok(true);
      case Redelivery => done := RepairAccepted(server, h, inv);
      case Newer =>
        var admitted := CheckRoom(server, h, inv, Some(sb));
        if admitted.Error? {
          return Error(admitted.code);
        }
        done := AcceptNewer(server, h, admitted.value);
    }
  }

  lemma RefusalCodes(cfg: Config, sb: Sandbox, req: Request)
    ensures Evaluate(cfg, sb, req).Refuse? ==> Evaluate(cfg, sb, req).code in {EXIT_RETRYABLE, EXIT_NON_RETRYABLE}
  {
  }

  /** The clock. */
  method Now() returns (now: int)
  {
    now := *;
  }

  /** The Sandbox the attempt works on: the one that is there, or a new one; None when
      another appeared meanwhile. */
  method ReadOrCreate(server: ApiServer, h: nat, inv: Invocation) returns (sb: Result<Option<Sandbox>>)
    requires server.Valid() && server.At(h, inv) && inv.pc.Reading?
    modifies server
    ensures server.Valid() && old(server.run) <= server.run
    ensures match sb
            case Error(code) => server.Ended(h, code, inv)
            case Ok(None) => server.At(h, inv.(pc := Retry(server.cfg, inv.pc.tries)))
            case Ok(Some(v)) => server.At(h, inv.(pc := Classified(server.cfg, inv.req, inv.pc.tries, v)))
  {
    hide IsRun, ConfigOk, Classified, CreateBody;
    sb := server.Get(h, inv);
    if sb.Error? || sb.value.Some? {
      return sb;
    }
    var t := inv.pc.tries;
    var at := inv.(pc := if server.cfg.maxActiveSessions <= 0 then Creating(t) else Admitting(t));
    var room := CheckRoom(server, h, at, None);
    if room.Error? {
      return Error(room.code);
    }
    var tmpl := new SandboxObject.Decode(inv.tmpl);
    var now := Now();
    var body := CreateSandbox(tmpl, inv.req, now);
    sb := server.Create(h, room.value, body.Value(), now);
  }

  /** The attempt loop. Whatever others do between its calls, the history is a run of the
      transition system; exit 0 leaves the invocation Done, any other exit leaves it
      Failed with that code, or with an answer lost. */
  method RunSession(server: ApiServer, h: nat, inv: Invocation) returns (code: nat)
    requires server.Valid() && server.At(h, inv) && inv.pc == Reading(0) && server.cfg.maxAttempts > 0
    requires VolumeIsSecret(inv.tmpl.spec.template)
    modifies server
    ensures server.Valid() && old(server.run) <= server.run
    ensures if code == EXIT_SUBMITTED
            then h in server.state.hooks && server.state.hooks[h].pc.Done? &&
                server.At(h, inv.(pc := server.state.hooks[h].pc))
            else server.Ended(h, code, inv)
  {
    hide IsRun, ConfigOk, NamedVolume, Classified;
    for t := 0 to server.cfg.maxAttempts
      invariant server.Valid() && old(server.run) <= server.run
      invariant server.At(h, inv.(pc := if t < server.cfg.maxAttempts then Reading(t) else Failed(EXIT_RETRYABLE)))
    {
      var sb := ReadOrCreate(server, h, inv.(pc := Reading(t)));
      if sb.Error? {
        return sb.code;
      }
      if sb.value.None? {
        continue;
      }
      var at := inv.(pc := Classified(server.cfg, inv.req, t, sb.value.value));
      var done := ReconcileExisting(server, h, at, t, sb.value.value);
      if done.Error? {
        return done.code;
      }
      if done.value {
        return EXIT_SUBMITTED;
      }
    }
    return EXIT_RETRYABLE;
  }

  /** The identity runSession stamps onto the template. */
  function IdentityOf(cfg: Config, namespace: string, req: Request): Template.Identity {
    Template.Identity(cfg.release, namespace, req.session, req.account)
  }

  /** The invocation is not tried: a standby order, a template that does not decode, or
      one the contract rejects. */
  predicate Refused(cfg: Config, namespace: string, req: Request, decoded: Option<Sandbox>, c: Template.Contract) {
    req.session == "" || decoded.None? || Template.Rejection(decoded.value, IdentityOf(cfg, namespace, req), c).Some?
  }

  /** Run: refuses before any API call, or applies the contract and goes into the loop with
      the forced template. `decoded`: what the template file decodes to. */
  method Run(server: ApiServer, h: nat, req: Request, namespace: string, decoded: Option<Sandbox>, c: Template.Contract)
    returns (code: nat)
    requires server.Valid() && server.cfg.maxAttempts > 0 && ValidRequest(req) && h !in server.state.hooks
    requires forall k :: k in server.state.hooks ==>
               SameOrder(req, server.state.hooks[k].req) && SameOrder(server.state.hooks[k].req, req)
    modifies server
    ensures server.Valid() && old(server.run) <= server.run
    ensures Refused(server.cfg, namespace, req, decoded, c) ==>
              code == EXIT_NON_RETRYABLE && server.state == old(server.state)
    ensures !Refused(server.cfg, namespace, req, decoded, c) ==>
              var tmpl := Template.Forced(decoded.value, server.cfg.names, IdentityOf(server.cfg, namespace, req), c);
              if code == EXIT_SUBMITTED
              then h in server.state.hooks && server.state.hooks[h].pc.Done? &&
                   server.At(h, Invocation(req, tmpl, server.state.hooks[h].pc))
              else server.Ended(h, code, Invocation(req, tmpl, Reading(0)))
  {
    hide IsRun, ConfigOk, Template.Rejection, Template.Forced, NamedVolume, Contracted, SameOrder, ValidRequest;
    if req.session == "" || decoded.None? {
      return EXIT_NON_RETRYABLE;
    }
    var id := IdentityOf(server.cfg, namespace, req);
    var tmpl := new SandboxObject.Decode(decoded.value);
    var error := Template.ApplyContract(tmpl, server.cfg.names, id, c);
    if error.Some? {
      return EXIT_NON_RETRYABLE;
    }
    Template.AcceptedTemplateIsContracted(server.cfg, decoded.value, id, c, req);
    var forced := tmpl.Value();
    server.Advance(Start(h, req, forced));
    code := RunSession(server, h, Invocation(req, forced, Reading(0)));
  }
}
