/** internal/hook/template.go: the fields the hook forces onto every Sandbox template,
    whatever the chart and its overlays put there. */
module Template {
  import opened Api
  import opened Decimal
  import opened Hook
  import opened SessionController
  import opened Protocol

  const RUNNER_CONTAINER := "runner"
  const WORKSPACE := "workspace"
  const WORK_ORDER_MOUNT_PATH := "/var/run/claude/work-order"
  const PLACEHOLDER_SECRET := "shock-placeholder-never-materialized"
  const LOCK_FLAG := "--lock-to-account"

  datatype Identity = Identity(release: string, namespace: string, session: string, account: string)
  datatype Contract = Contract(mountPath: string, baseDir: string, grace: int)

  datatype TemplateError =
    | NoRunner
    | NoWorkOrderVolume
    | NoWorkspaceClaim
    | LabelNotRendered(key: LabelKey)
    | NotARunner
    | MountNotAbsolute
    | BaseDirOutside
    | WrongRelease

  // ---- Contract.Validate

  function TrimSlashes(s: string): (r: string)
    ensures r <= s
    ensures r == "" || r[|r| - 1] != '/'
    ensures forall i :: |r| <= i < |s| ==> s[i] == '/'
  {
    if s != "" && s[|s| - 1] == '/' then TrimSlashes(s[..|s| - 1]) else s
  }

  function Validate(c: Contract): Option<TemplateError> {
    if c.mountPath == "" || !("/" <= c.mountPath) then Some(MountNotAbsolute)
    else
      var mount := TrimSlashes(c.mountPath);
      if c.baseDir != mount && !(mount + "/" <= c.baseDir) then Some(BaseDirOutside) else None
  }

  /** The names a path is made of. */
  function Components(path: string): (r: seq<string>)
    ensures r != []
  {
    if path == "" then [""]
    else
      var rest := Components(path[1..]);
      if path[0] == '/' then [""] + rest else [[path[0]] + rest[0]] + rest[1..]
  }

  lemma {:induction false} ComponentsPrefix(m: string, b: string)
    ensures (b == m || m + "/" <= b) <==> Components(m) <= Components(b)
  {
    if m != "" && b != "" {
      ComponentsPrefix(m[1..], b[1..]);
      assert m == [m[0]] + m[1..] && b == [b[0]] + b[1..];
      assert m + "/" == [m[0]] + (m[1..] + "/");
      SameHead(m, b);
    } else if m == "" && b != "" {
      assert m + "/" == "/";
      assert Components(m) <= Components(b) <==> Components(b)[0] == "";
    } else if m != "" {
      assert Components(b) == [""];
      var rest := Components(m[1..]);
      if m[0] == '/' {
        assert |[""] + rest| > 1;
      } else {
        assert ([m[0]] + rest[0])[0] == m[0];
        assert Components(m)[0] != "";
      }
    }
  }

  lemma PrefixCons<T>(a: T, x: seq<T>, b: T, y: seq<T>)
    ensures [a] + x <= [b] + y <==> a == b && x <= y
  {
    assert ([a] + x)[1..] == x && ([b] + y)[1..] == y;
    if a == b && x <= y {
      assert [b] + y == [a] + (x + y[|x|..]) == ([a] + x) + y[|x|..];
    }
    if [a] + x <= [b] + y {
      assert ([a] + x)[0] == ([b] + y)[0];
      assert y == ([a] + x + ([b] + y)[|x| + 1..])[1..] == x + ([b] + y)[|x| + 1..];
    }
  }

  lemma SameHead(m: string, b: string)
    requires m != "" && b != ""
    ensures Components(m) <= Components(b) <==> m[0] == b[0] && Components(m[1..]) <= Components(b[1..])
  {
    var x, y := Components(m[1..]), Components(b[1..]);
    PrefixCons(x[0], x[1..], y[0], y[1..]);
    assert x == [x[0]] + x[1..] && y == [y[0]] + y[1..];
    var p := if m[0] == '/' then "" else [m[0]] + x[0];
    var q := if b[0] == '/' then "" else [b[0]] + y[0];
    PrefixCons(p, if m[0] == '/' then x else x[1..], q, if b[0] == '/' then y else y[1..]);
    assert p != "" ==> p[0] == m[0] && p[1..] == x[0];
    assert q != "" ==> q[0] == b[0] && q[1..] == y[0];
  }

  /** A contract is accepted exactly when the mount path is absolute and every name on
      it, in order, leads the base directory's: sibling directories with a common
      textual prefix do not pass. */
  lemma BaseDirIsAtOrBelowMount(c: Contract)
    ensures Validate(c).None? <==>
              "/" <= c.mountPath && Components(TrimSlashes(c.mountPath)) <= Components(c.baseDir)
  {
    ComponentsPrefix(TrimSlashes(c.mountPath), c.baseDir);
  }

  // ---- Containers and mounts

  /** findContainer: the first runner container, or |containers|. */
  function RunnerIndex(containers: seq<Container>): (i: nat)
    ensures i <= |containers|
    ensures forall j :: 0 <= j < i ==> containers[j].name != RUNNER_CONTAINER
    ensures i < |containers| ==> containers[i].name == RUNNER_CONTAINER
  {
    if containers == [] || containers[0].name == RUNNER_CONTAINER then 0 else 1 + RunnerIndex(containers[1..])
  }

  function MountIndex(mounts: seq<Mount>, name: string): (i: nat)
    ensures i <= |mounts|
    ensures forall j :: 0 <= j < i ==> mounts[j].name != name
    ensures i < |mounts| ==> mounts[i].name == name
  {
    if mounts == [] || mounts[0].name == name then 0 else 1 + MountIndex(mounts[1..], name)
  }

  /** The first mount of a volume is at this path, in this mode, without a sub-path. */
  predicate Mounted(mounts: seq<Mount>, name: string, path: string, readOnly: bool) {
    var i := MountIndex(mounts, name);
    i < |mounts| && mounts[i].mountPath == path && mounts[i].readOnly == readOnly && mounts[i].subPath == ""
  }

  function ForcedMounts(mounts: seq<Mount>, name: string, path: string, readOnly: bool): seq<Mount> {
    var i := MountIndex(mounts, name);
    if i < |mounts| then mounts[i := mounts[i].(mountPath := path, readOnly := readOnly, subPath := "")]
    else mounts + [Mount(name, path, readOnly, "", "")]
  }

  method ForceMount(mounts: seq<Mount>, name: string, path: string, readOnly: bool) returns (forced: seq<Mount>)
    ensures forced == ForcedMounts(mounts, name, path, readOnly)
  {
    for i := 0 to |mounts|
      invariant forall j :: 0 <= j < i ==> mounts[j].name != name
    {
      if mounts[i].name == name {
        return mounts[i := mounts[i].(mountPath := path, readOnly := readOnly, subPath := "")];
      }
    }
    return mounts + [Mount(name, path, readOnly, "", "")];
  }

  lemma ForcedMountsMount(mounts: seq<Mount>, name: string, path: string, readOnly: bool, other: string)
    requires other != name
    ensures var forced := ForcedMounts(mounts, name, path, readOnly);
            && Mounted(forced, name, path, readOnly)
            && (forced == mounts <==> Mounted(mounts, name, path, readOnly))
            && OthersAsBefore(mounts, forced, name)
            && forall p, r :: Mounted(mounts, other, p, r) ==> Mounted(forced, other, p, r)
  {
    var i := MountIndex(mounts, name);
    var forced := ForcedMounts(mounts, name, path, readOnly);
    assert forall j :: 0 <= j < |mounts| && j != i ==> forced[j] == mounts[j];
    assert forced[i].name == name;
    assert MountIndex(forced, name) == i;
    if i < |mounts| {
      assert forced == mounts <==> forced[i] == mounts[i];
    }
    forall p, r | Mounted(mounts, other, p, r)
      ensures Mounted(forced, other, p, r)
    {
      var k := MountIndex(mounts, other);
      assert forced[k] == mounts[k];
      assert forall j :: 0 <= j < k ==> forced[j].name == mounts[j].name;
    }
  }

  /** Every mount but the first of `name` stands where it stood; at most one was added,
      at the end. */
  predicate OthersAsBefore(mounts: seq<Mount>, forced: seq<Mount>, name: string) {
    && |mounts| <= |forced| <= |mounts| + 1
    && (|forced| == |mounts| <==> MountIndex(mounts, name) < |mounts|)
    && forall j :: 0 <= j < |mounts| && j != MountIndex(mounts, name) ==> forced[j] == mounts[j]
  }

  // ---- Arguments

  /** The arguments without any account lock: each flag goes with its value. */
  function Unlocked(args: seq<string>): seq<string>
    decreases |args|
  {
    if args == [] then []
    else if args[0] == LOCK_FLAG then Unlocked(if |args| > 1 then args[2..] else [])
    else [args[0]] + Unlocked(args[1..])
  }

  function Locked(args: seq<string>, account: string): seq<string> {
    Unlocked(args) + [LOCK_FLAG, account]
  }

  method WithLockToAccount(args: seq<string>, account: string) returns (out: seq<string>)
    ensures out == Locked(args, account)
  {
    out := [];
    var i := 0;
    while i < |args|
      invariant 0 <= i <= |args| + 1
      invariant Unlocked(args) == out + Unlocked(if i < |args| then args[i..] else [])
    {
      if args[i] == LOCK_FLAG {
        i := i + 1;
      } else {
        out := out + [args[i]];
      }
      i := i + 1;
    }
    assert Unlocked(args) == out;
    out := out + [LOCK_FLAG, account];
  }

  lemma {:induction false} UnlockedHasNoFlag(args: seq<string>)
    ensures LOCK_FLAG !in Unlocked(args)
    decreases |args|
  {
    if args != [] {
      if args[0] != LOCK_FLAG {
        UnlockedHasNoFlag(args[1..]);
      } else if |args| > 1 {
        UnlockedHasNoFlag(args[2..]);
      }
    }
  }

  lemma {:induction false} UnlockedFront(front: seq<string>, rest: seq<string>)
    requires LOCK_FLAG !in front
    ensures Unlocked(front + rest) == front + Unlocked(rest)
  {
    if front == [] {
      assert front + rest == rest;
    } else {
      UnlockedFront(front[1..], rest);
      assert front[0] in front;
      assert (front + rest)[1..] == front[1..] + rest;
      assert front == [front[0]] + front[1..];
    }
  }

  /** What is removed is exactly each flag and the argument behind it, the rest keeping
      its order: nothing goes before the first flag, and removal starts afresh behind
      its value. */
  lemma UnlockedSplits(front: seq<string>, value: string, rest: seq<string>)
    requires LOCK_FLAG !in front
    ensures Unlocked(front) == front
    ensures Unlocked(front + [LOCK_FLAG]) == front
    ensures Unlocked(front + ([LOCK_FLAG, value] + rest)) == front + Unlocked(rest)
  {
    UnlockedFront(front, []);
    assert front + [] == front;
    UnlockedFront(front, [LOCK_FLAG]);
    UnlockedFront(front, [LOCK_FLAG, value] + rest);
    assert ([LOCK_FLAG, value] + rest)[2..] == rest;
  }

  /** The arguments end with the one lock there is. */
  predicate LockedOnce(args: seq<string>, account: string) {
    |args| >= 2 && args[|args| - 2] == LOCK_FLAG && args[|args| - 1] == account &&
    LOCK_FLAG !in args[..|args| - 2]
  }

  /** Locking ends with the one lock, changes nothing that already does, and leaves
      exactly one flag unless the account is itself spelled like the flag. */
  lemma LockedIsLockedOnce(args: seq<string>, account: string)
    ensures LockedOnce(Locked(args, account), account)
    ensures Locked(args, account) == args <==> LockedOnce(args, account)
    ensures multiset(Locked(args, account))[LOCK_FLAG] == 1 <==> account != LOCK_FLAG
  {
    hide Unlocked;
    UnlockedHasNoFlag(args);
    var locked := Locked(args, account);
    assert locked[..|locked| - 2] == Unlocked(args);
    OneFlag(Unlocked(args), account);
    if LockedOnce(args, account) {
      LockedOnceIsLocked(args, account);
    }
  }

  lemma OneFlag(front: seq<string>, account: string)
    requires LOCK_FLAG !in front
    ensures multiset(front + [LOCK_FLAG, account])[LOCK_FLAG] == 1 <==> account != LOCK_FLAG
  {
    assert multiset(front)[LOCK_FLAG] == 0;
    assert multiset(front + [LOCK_FLAG, account]) == multiset(front) + multiset([LOCK_FLAG, account]);
    assert multiset([LOCK_FLAG, account]) == multiset{LOCK_FLAG, account};
  }

  lemma LockedOnceIsLocked(args: seq<string>, account: string)
    requires LockedOnce(args, account)
    ensures Locked(args, account) == args
  {
    var front := args[..|args| - 2];
    UnlockedSplits(front, account, []);
    assert args == front + ([LOCK_FLAG, account] + []);
    assert Unlocked([]) == [];
  }

  // ---- Volumes

  /** The volumes of other names, in order. */
  function Without(volumes: seq<Volume>, name: string): (r: seq<Volume>)
    ensures forall v :: v in r <==> v in volumes && v.name != name
  {
    if volumes == [] then []
    else
      var init, last := Without(volumes[..|volumes| - 1], name), volumes[|volumes| - 1];
      assert volumes == volumes[..|volumes| - 1] + [last];
      if last.name != name then init + [last] else init
  }

  /** removeVolume: compacts its argument in place and keeps the first `n`. */
  lemma WithoutEmpty(name: string)
    ensures Without([], name) == []
  {
  }

  method RemoveVolume(volumes: array<Volume>, name: string) returns (n: nat)
    modifies volumes
    ensures n <= volumes.Length && volumes[..n] == Without(old(volumes[..]), name)
  {
    WithoutEmpty(name);
    hide Without;
    n := 0;
    for i := 0 to volumes.Length
      invariant n <= i
      invariant volumes[..n] == Without(old(volumes[..i]), name)
      invariant forall j :: i <= j < volumes.Length ==> volumes[j] == old(volumes[j])
    {
      assert old(volumes[..i + 1]) == old(volumes[..i]) + [old(volumes[i])];
      WithoutLast(old(volumes[..i]), old(volumes[i]), name);
      if volumes[i].name != name {
        volumes[n] := volumes[i];
        n := n + 1;
        assert volumes[..n] == volumes[..n - 1] + [old(volumes[i])];
      }
    }
    assert old(volumes[..volumes.Length]) == old(volumes[..]);
  }

  /** The first work-order volume made a Secret volume, with a name. */
  function Sourced(v: Volume): Volume {
    var secret := if v.source.SecretSource? then v.source else SecretSource("", "");
    v.(source := if secret.secretName == "" then secret.(secretName := PLACEHOLDER_SECRET) else secret)
  }

  function VolumeIndex(volumes: seq<Volume>, name: string): (i: nat)
    ensures i <= |volumes|
    ensures forall j :: 0 <= j < i ==> volumes[j].name != name
    ensures i < |volumes| ==> volumes[i].name == name
    ensures NamedVolume(volumes, name) == if i < |volumes| then Some(volumes[i]) else None
  {
    if volumes == [] || volumes[0].name == name then 0 else 1 + VolumeIndex(volumes[1..], name)
  }

  function WithSecretSource(volumes: seq<Volume>): seq<Volume> {
    var i := VolumeIndex(volumes, WORK_ORDER_VOLUME);
    if i < |volumes| then volumes[i := Sourced(volumes[i])] else volumes
  }

  /** The first work-order volume names a Secret. */
  predicate HasSecretSource(volumes: seq<Volume>) {
    var v := NamedVolume(volumes, WORK_ORDER_VOLUME);
    v.Some? && v.value.source.SecretSource? && v.value.source.secretName != ""
  }

  lemma SourcedVolumes(volumes: seq<Volume>)
    requires NamedVolume(volumes, WORK_ORDER_VOLUME).Some?
    ensures HasSecretSource(WithSecretSource(volumes))
    ensures WithSecretSource(volumes) == volumes <==> HasSecretSource(volumes)
    ensures Without(WithSecretSource(volumes), WORK_ORDER_VOLUME) == Without(volumes, WORK_ORDER_VOLUME)
    ensures forall v :: v in WithSecretSource(volumes) ==> v in volumes || v.name == WORK_ORDER_VOLUME
    ensures forall v :: v in volumes ==> v in WithSecretSource(volumes) || v.name == WORK_ORDER_VOLUME
  {
    SourcedMembers(volumes);
    SourcedInPlace(volumes);
  }

  lemma SourcedMembers(volumes: seq<Volume>)
    ensures forall v :: v in WithSecretSource(volumes) ==> v in volumes || v.name == WORK_ORDER_VOLUME
    ensures forall v :: v in volumes ==> v in WithSecretSource(volumes) || v.name == WORK_ORDER_VOLUME
  {
    hide NamedVolume;
    var i, sourced := VolumeIndex(volumes, WORK_ORDER_VOLUME), WithSecretSource(volumes);
    forall v | v in volumes && v.name != WORK_ORDER_VOLUME ensures v in sourced {
      var j :| 0 <= j < |volumes| && volumes[j] == v;
      assert sourced[j] == v;
    }
  }

  lemma SourcedInPlace(volumes: seq<Volume>)
    requires NamedVolume(volumes, WORK_ORDER_VOLUME).Some?
    ensures HasSecretSource(WithSecretSource(volumes))
    ensures WithSecretSource(volumes) == volumes <==> HasSecretSource(volumes)
    ensures Without(WithSecretSource(volumes), WORK_ORDER_VOLUME) == Without(volumes, WORK_ORDER_VOLUME)
  {
    hide NamedVolume, Without;
    var i := VolumeIndex(volumes, WORK_ORDER_VOLUME);
    var sourced := WithSecretSource(volumes);
    assert forall j :: 0 <= j < |volumes| && j != i ==> sourced[j] == volumes[j];
    assert VolumeIndex(sourced, WORK_ORDER_VOLUME) == i;
    assert sourced == volumes <==> sourced[i] == volumes[i];
    WithoutUpdate(volumes, i, Sourced(volumes[i]));
  }

  lemma WithoutLast(init: seq<Volume>, last: Volume, name: string)
    ensures Without(init + [last], name) == if last.name != name then Without(init, name) + [last]
            else Without(init, name)
  {
    assert (init + [last])[..|init|] == init;
  }

  lemma {:induction false} WithoutUpdate(volumes: seq<Volume>, i: nat, v: Volume)
    requires i < |volumes| && v.name == volumes[i].name
    ensures Without(volumes[i := v], v.name) == Without(volumes, v.name)
  {
    hide Without;
    var init, last := volumes[..|volumes| - 1], volumes[|volumes| - 1];
    assert volumes == init + [last];
    WithoutLast(init, last, v.name);
    if i < |volumes| - 1 {
      assert volumes[i := v] == init[i := v] + [last];
      WithoutUpdate(init, i, v);
      WithoutLast(init[i := v], last, v.name);
    } else {
      assert volumes[i := v] == init + [v];
      WithoutLast(init, v, v.name);
    }
  }

  lemma {:induction false} WithoutHead(volumes: seq<Volume>, name: string)
    requires volumes != []
    ensures Without(volumes, name) ==
            (if volumes[0].name != name then [volumes[0]] else []) + Without(volumes[1..], name)
  {
    if |volumes| > 1 {
      var init := volumes[..|volumes| - 1];
      WithoutHead(init, name);
      assert volumes[1..][..|volumes| - 2] == init[1..];
    } else {
      assert volumes[..0] == [] && volumes[1..] == [];
    }
  }

  lemma {:induction false} WithoutNothing(volumes: seq<Volume>, name: string)
    ensures Without(volumes, name) == volumes <==> forall v :: v in volumes ==> v.name != name
  {
    if volumes != [] {
      hide Without;
      var init, last := volumes[..|volumes| - 1], volumes[|volumes| - 1];
      assert volumes == init + [last];
      WithoutNothing(init, name);
      WithoutLast(init, last, name);
      WithoutIsShorter(init, name);
    }
  }

  lemma {:induction false} WithoutIsShorter(volumes: seq<Volume>, name: string)
    ensures |Without(volumes, name)| <= |volumes|
  {
    if volumes != [] {
      WithoutIsShorter(volumes[..|volumes| - 1], name);
    }
  }

  lemma {:induction false} WithoutKeepsNamed(volumes: seq<Volume>, name: string, kept: string)
    requires kept != name
    ensures NamedVolume(Without(volumes, name), kept) == NamedVolume(volumes, kept)
  {
    if volumes != [] {
      WithoutHead(volumes, name);
      WithoutKeepsNamed(volumes[1..], name, kept);
      var tail := Without(volumes[1..], name);
      assert ([volumes[0]] + tail)[1..] == tail;
      assert [] + tail == tail;
    }
  }

  // ---- ValidateAnchors and ApplyContract

  function Anchors(sb: Sandbox): Option<TemplateError> {
    if RunnerIndex(sb.spec.template.containers) == |sb.spec.template.containers| then Some(NoRunner)
    else if NamedVolume(sb.spec.template.volumes, WORK_ORDER_VOLUME).None? then Some(NoWorkOrderVolume)
    else if WORKSPACE !in sb.spec.claims then Some(NoWorkspaceClaim)
    else if Get(sb.labels, ComponentLabel) == "" then Some(LabelNotRendered(ComponentLabel))
    else if Get(sb.labels, InstanceLabel) == "" then Some(LabelNotRendered(InstanceLabel))
    else if Get(sb.labels, PartOfLabel) == "" then Some(LabelNotRendered(PartOfLabel))
    else if Get(sb.labels, ComponentLabel) != COMPONENT_RUNNER then Some(NotARunner)
    else None
  }

  /** Why ApplyContract refuses a template, if it does. */
  function Rejection(sb: Sandbox, id: Identity, c: Contract): Option<TemplateError> {
    if Anchors(sb).Some? then Anchors(sb)
    else if Validate(c).Some? then Validate(c)
    else if Get(sb.labels, InstanceLabel) != id.release then Some(WrongRelease)
    else None
  }

  function ForcedRunner(runner: Container, id: Identity, c: Contract): Container {
    var mounted := ForcedMounts(ForcedMounts(runner.mounts, WORKSPACE, c.mountPath, false),
                                WORK_ORDER_VOLUME, WORK_ORDER_MOUNT_PATH, true);
    runner.(mounts := mounted, args := if id.account != "" then Locked(runner.args, id.account) else runner.args)
  }

  function ForcedTemplate(pt: PodTemplate, labels: Labels, id: Identity, c: Contract): PodTemplate {
    var i := RunnerIndex(pt.containers);
    pt.(labels := pt.labels + labels,
        restartPolicy := Never,
        automountToken := Some(false),
        gracePeriod := Some(c.grace),
        containers := if i < |pt.containers| then pt.containers[i := ForcedRunner(pt.containers[i], id, c)]
        else pt.containers,
        volumes := Without(WithSecretSource(pt.volumes), WORKSPACE))
  }

  function IdentityLabels(names: Names, id: Identity): Labels {
    map[SessionLabel := names.labelValue(id.session), AccountLabel := names.labelValue(id.account)]
  }

  /** The template with everything the contract fixes. */
  function Forced(sb: Sandbox, names: Names, id: Identity, c: Contract): Sandbox {
    var labels := sb.labels + IdentityLabels(names, id);
    sb.(name := names.sandbox(id.session),
        namespace := id.namespace,
        labels := labels,
        spec := Spec(Suspended, None, None, sb.spec.claims, ForcedTemplate(sb.spec.template, labels, id, c)))
  }

  method ForceRunner(containers: seq<Container>, id: Identity, c: Contract) returns (forced: seq<Container>)
    requires RunnerIndex(containers) < |containers|
    ensures forced == containers[RunnerIndex(containers) := ForcedRunner(containers[RunnerIndex(containers)], id, c)]
  {
    var i := RunnerIndex(containers);
    var runner := containers[i];
    var mounts := ForceMount(runner.mounts, WORKSPACE, c.mountPath, false);
    mounts := ForceMount(mounts, WORK_ORDER_VOLUME, WORK_ORDER_MOUNT_PATH, true);
    runner := runner.(mounts := mounts);
    if id.account != "" {
      var args := WithLockToAccount(runner.args, id.account);
      runner := runner.(args := args);
    }
    forced := containers[i := runner];
  }

  method ForceVolumes(volumes: seq<Volume>) returns (forced: seq<Volume>)
    requires NamedVolume(volumes, WORK_ORDER_VOLUME).Some?
    ensures forced == Without(WithSecretSource(volumes), WORKSPACE)
  {
    var i := VolumeIndex(volumes, WORK_ORDER_VOLUME);
    var wo := volumes[i];
    if !wo.source.SecretSource? {
      wo := wo.(source := SecretSource("", ""));
    }
    if wo.source.secretName == "" {
      wo := wo.(source := wo.source.(secretName := PLACEHOLDER_SECRET));
    }
    var sourced := volumes[i := wo];
    var backing := new Volume[|sourced|](k requires 0 <= k < |sourced| => sourced[k]);
    assert backing[..] == sourced == WithSecretSource(volumes);
    var n := RemoveVolume(backing, WORKSPACE);
    forced := backing[..n];
  }

  method ForceTemplate(pt: PodTemplate, labels: Labels, id: Identity, c: Contract) returns (forced: PodTemplate)
    requires RunnerIndex(pt.containers) < |pt.containers| && NamedVolume(pt.volumes, WORK_ORDER_VOLUME).Some?
    ensures forced == ForcedTemplate(pt, labels, id, c)
  {
    forced := pt.(labels := pt.labels + labels);
    forced := forced.(restartPolicy := Never, automountToken := Some(false), gracePeriod := Some(c.grace));
    var containers := ForceRunner(forced.containers, id, c);
    forced := forced.(containers := containers);
    var volumes := ForceVolumes(forced.volumes);
    forced := forced.(volumes := volumes);
  }

  /** Refuses and leaves the template alone, or edits it in place. */
  method ApplyContract(sb: SandboxObject, names: Names, id: Identity, c: Contract)
    returns (error: Option<TemplateError>)
    modifies sb
    ensures error == Rejection(old(sb.Value()), id, c)
    ensures sb.Value() == if error.Some? then old(sb.Value()) else Forced(old(sb.Value()), names, id, c)
  {
    hide Anchors, Validate, ForcedTemplate, IdentityLabels, RunnerIndex, NamedVolume;
    var anchors := Anchors(sb.Value());
    if anchors.Some? {
      return anchors;
    }
    var invalid := Validate(c);
    if invalid.Some? {
      return invalid;
    }
    if Get(sb.labels, InstanceLabel) != id.release {
      return Some(WrongRelease);
    }
    AnchorsHold(sb.Value());
    var labels := sb.labels + IdentityLabels(names, id);
    var template := ForceTemplate(sb.template, labels, id, c);
    sb.name, sb.namespace := names.sandbox(id.session), id.namespace;
    sb.mode, sb.shutdownTime, sb.shutdownPolicy := Suspended, None, None;
    sb.labels, sb.template := labels, template;
    return None;
  }

  lemma AnchorsHold(sb: Sandbox)
    requires Anchors(sb).None?
    ensures RunnerIndex(sb.spec.template.containers) < |sb.spec.template.containers|
    ensures NamedVolume(sb.spec.template.volumes, WORK_ORDER_VOLUME).Some?
  {
  }

  /** What ApplyContract asks of a template and a contract: the three anchors, the three
      labels, and a base directory at or below an absolute mount path. */
  lemma AcceptedIff(sb: Sandbox, id: Identity, c: Contract)
    ensures Rejection(sb, id, c).None? <==>
              && (exists k :: k in sb.spec.template.containers && k.name == "runner")
              && (exists v :: v in sb.spec.template.volumes && v.name == "work-order")
              && (exists claim :: claim in sb.spec.claims && claim == "workspace")
              && Get(sb.labels, ComponentLabel) == "runner"
              && Get(sb.labels, InstanceLabel) == id.release && id.release != ""
              && Get(sb.labels, PartOfLabel) != ""
              && "/" <= c.mountPath && Components(TrimSlashes(c.mountPath)) <= Components(c.baseDir)
  {
    hide Validate, Components, NamedVolume, RunnerIndex;
    BaseDirIsAtOrBelowMount(c);
    var containers := sb.spec.template.containers;
    var i := RunnerIndex(containers);
    if i < |containers| {
      assert containers[i] in containers;
    }
  }

  // ---- What a contracted template is

  predicate RunnerMeets(runner: Container, id: Identity, c: Contract) {
    && Mounted(runner.mounts, WORKSPACE, c.mountPath, false)
    && Mounted(runner.mounts, WORK_ORDER_VOLUME, WORK_ORDER_MOUNT_PATH, true)
    && (id.account != "" ==> LockedOnce(runner.args, id.account))
  }

  predicate VolumesMeet(volumes: seq<Volume>) {
    HasSecretSource(volumes) && forall v :: v in volumes ==> v.name != WORKSPACE
  }

  /** Runs once, without a token, with the grace period; the runner sees its workspace
      and its work order; the work order comes from a Secret; nothing shadows the
      workspace claim. */
  predicate TemplateMeets(pt: PodTemplate, id: Identity, c: Contract) {
    && pt.restartPolicy == Never && pt.automountToken == Some(false) && pt.gracePeriod == Some(c.grace)
    && RunnerIndex(pt.containers) < |pt.containers| && RunnerMeets(pt.containers[RunnerIndex(pt.containers)], id, c)
    && VolumesMeet(pt.volumes)
  }

  /** Every entry of `part` is in `whole`. */
  predicate Carries(whole: Labels, part: Labels) {
    forall k :: k in part ==> k in whole && whole[k] == part[k]
  }

  predicate Meets(sb: Sandbox, names: Names, id: Identity, c: Contract) {
    && sb.name == names.sandbox(id.session) && sb.namespace == id.namespace
    && sb.spec.mode == Suspended && sb.spec.shutdownTime.None? && sb.spec.shutdownPolicy.None?
    && Carries(sb.labels, IdentityLabels(names, id))
    && Carries(sb.spec.template.labels, sb.labels)
    && TemplateMeets(sb.spec.template, id, c)
  }

  lemma ForcedRunnerMeets(runner: Container, id: Identity, c: Contract)
    ensures RunnerMeets(ForcedRunner(runner, id, c), id, c)
    ensures ForcedRunner(runner, id, c) == runner <==> RunnerMeets(runner, id, c)
  {
    hide Mounted, ForcedMounts, OthersAsBefore, LockedOnce, Locked;
    var once := ForcedMounts(runner.mounts, WORKSPACE, c.mountPath, false);
    ForcedMountsMount(runner.mounts, WORKSPACE, c.mountPath, false, WORK_ORDER_VOLUME);
    ForcedMountsMount(once, WORK_ORDER_VOLUME, WORK_ORDER_MOUNT_PATH, true, WORKSPACE);
    LockedIsLockedOnce(runner.args, id.account);
    if RunnerMeets(runner, id, c) {
      assert once == runner.mounts;
    }
  }

  lemma ForcedVolumesMeet(volumes: seq<Volume>)
    requires NamedVolume(volumes, WORK_ORDER_VOLUME).Some?
    ensures VolumesMeet(Without(WithSecretSource(volumes), WORKSPACE))
    ensures Without(WithSecretSource(volumes), WORKSPACE) == volumes <==> VolumesMeet(volumes)
  {
    hide NamedVolume, WithSecretSource, Without;
    SourcedVolumes(volumes);
    var sourced := WithSecretSource(volumes);
    WithoutKeepsNamed(sourced, WORKSPACE, WORK_ORDER_VOLUME);
    WithoutNothing(sourced, WORKSPACE);
  }

  lemma CarriesMerged(whole: Labels, part: Labels)
    ensures Carries(whole + part, part)
    ensures whole + part == whole <==> Carries(whole, part)
  {
    if Carries(whole, part) {
      assert whole + part == whole;
    }
  }

  lemma ForcedTemplateMeets(pt: PodTemplate, labels: Labels, id: Identity, c: Contract)
    requires RunnerIndex(pt.containers) < |pt.containers| && NamedVolume(pt.volumes, WORK_ORDER_VOLUME).Some?
    ensures var forced := ForcedTemplate(pt, labels, id, c);
            && TemplateMeets(forced, id, c) && Carries(forced.labels, labels)
            && (forced == pt <==> TemplateMeets(pt, id, c) && Carries(pt.labels, labels))
  {
    hide RunnerMeets, ForcedRunner, VolumesMeet, Without, WithSecretSource, NamedVolume, Carries;
    var i := RunnerIndex(pt.containers);
    var forced := ForcedTemplate(pt, labels, id, c);
    ForcedRunnerMeets(pt.containers[i], id, c);
    ForcedVolumesMeet(pt.volumes);
    CarriesMerged(pt.labels, labels);
    assert forced.containers[i].name == RUNNER_CONTAINER by { RunnerKeepsName(pt.containers[i], id, c); }
    assert RunnerIndex(forced.containers) == i;
    assert forced.containers == pt.containers <==> forced.containers[i] == pt.containers[i];
  }

  lemma RunnerKeepsName(runner: Container, id: Identity, c: Contract)
    ensures ForcedRunner(runner, id, c).name == runner.name
  {
  }

  /** Whatever the overlay, an accepted template comes out meeting the contract, and one
      that already meets it comes out as it went in. */
  lemma ForcedMeets(sb: Sandbox, names: Names, id: Identity, c: Contract)
    requires Rejection(sb, id, c).None?
    ensures Meets(Forced(sb, names, id, c), names, id, c)
    ensures Forced(sb, names, id, c) == sb <==> Meets(sb, names, id, c)
  {
    hide TemplateMeets, ForcedTemplate, NamedVolume, Carries, Validate;
    var labels := sb.labels + IdentityLabels(names, id);
    ForcedTemplateMeets(sb.spec.template, labels, id, c);
    CarriesMerged(sb.labels, IdentityLabels(names, id));
  }

  /** What was accepted once is accepted again and left alone. */
  lemma ContractIsIdempotent(sb: Sandbox, names: Names, id: Identity, c: Contract)
    requires Rejection(sb, id, c).None?
    ensures Rejection(Forced(sb, names, id, c), id, c).None?
    ensures Forced(Forced(sb, names, id, c), names, id, c) == Forced(sb, names, id, c)
  {
    hide RunnerMeets, ForcedTemplate, NamedVolume, Carries, Validate;
    ForcedMeets(sb, names, id, c);
    ForcedMeets(Forced(sb, names, id, c), names, id, c);
  }

  // ---- What it leaves alone, and what it gives the protocol

  /** Nothing else is touched: identity and history of the object, its claims, every
      other label, container, volume, mount and argument, all in their order. */
  lemma ForcedFrame(sb: Sandbox, names: Names, id: Identity, c: Contract)
    requires Rejection(sb, id, c).None?
    ensures var to := Forced(sb, names, id, c);
            && (to.uid, to.rv, to.generation, to.deleting) == (sb.uid, sb.rv, sb.generation, sb.deleting)
            && to.annotations == sb.annotations && to.conditions == sb.conditions && to.spec.claims == sb.spec.claims
            && forall k :: k !in {SessionLabel, AccountLabel} ==> Get(to.labels, k) == Get(sb.labels, k)
    ensures var was, to := sb.spec.template, Forced(sb, names, id, c).spec.template;
            && to.annotations == was.annotations && to.extra == was.extra
            && (forall k :: k !in Forced(sb, names, id, c).labels ==> Get(to.labels, k) == Get(was.labels, k))
            && OtherVolumes(to.volumes) == OtherVolumes(was.volumes)
            && |to.containers| == |was.containers|
            && forall i :: 0 <= i < |was.containers| ==>
                 if i == RunnerIndex(was.containers) then RunnerFrame(was.containers[i], to.containers[i])
                 else to.containers[i] == was.containers[i]
  {
    hide NamedVolume, WithSecretSource, Without, RunnerFrame, ForcedRunner, OtherVolumes, Validate;
    var was := sb.spec.template;
    RunnerIsFramed(was.containers[RunnerIndex(was.containers)], id, c);
    OtherVolumesStay(was.volumes);
  }

  function OtherVolumes(volumes: seq<Volume>): seq<Volume> {
    Without(Without(volumes, WORKSPACE), WORK_ORDER_VOLUME)
  }

  lemma {:induction false} WithoutCommutes(volumes: seq<Volume>, a: string, b: string)
    ensures Without(Without(volumes, a), b) == Without(Without(volumes, b), a)
  {
    hide Without;
    if volumes == [] {
      WithoutNothing(volumes, a);
      WithoutNothing(volumes, b);
    } else {
      var init, last := volumes[..|volumes| - 1], volumes[|volumes| - 1];
      assert volumes == init + [last];
      WithoutCommutes(init, a, b);
      WithoutLast(init, last, a);
      WithoutLast(init, last, b);
      WithoutLast(Without(init, a), last, b);
      WithoutLast(Without(init, b), last, a);
    }
  }

  lemma WithoutTwice(volumes: seq<Volume>, name: string)
    ensures Without(Without(volumes, name), name) == Without(volumes, name)
  {
    WithoutNothing(Without(volumes, name), name);
  }

  lemma OtherVolumesStay(volumes: seq<Volume>)
    requires NamedVolume(volumes, WORK_ORDER_VOLUME).Some?
    ensures OtherVolumes(Without(WithSecretSource(volumes), WORKSPACE)) == OtherVolumes(volumes)
  {
    hide NamedVolume, WithSecretSource, Without;
    var sourced := WithSecretSource(volumes);
    SourcedVolumes(volumes);
    WithoutTwice(sourced, WORKSPACE);
    WithoutCommutes(sourced, WORKSPACE, WORK_ORDER_VOLUME);
    WithoutCommutes(volumes, WORKSPACE, WORK_ORDER_VOLUME);
  }

  /** The runner keeps its name and image, the mounts but the two forced ones, and the
      arguments but the lock. */
  predicate RunnerFrame(was: Container, to: Container) {
    && to.name == was.name && to.extra == was.extra
    && Unlocked(to.args) == Unlocked(was.args)
    && MountsFrame(was.mounts, to.mounts)
  }

  predicate MountsFrame(was: seq<Mount>, to: seq<Mount>) {
    && |was| <= |to|
    && (forall j :: 0 <= j < |was| && j != MountIndex(was, WORKSPACE) && j != MountIndex(was, WORK_ORDER_VOLUME)
          ==> to[j] == was[j])
    && (forall j :: |was| <= j < |to| ==> to[j].name in {WORKSPACE, WORK_ORDER_VOLUME})
  }

  lemma RunnerIsFramed(runner: Container, id: Identity, c: Contract)
    ensures RunnerFrame(runner, ForcedRunner(runner, id, c))
  {
    hide MountIndex, ForcedMounts, Unlocked, Locked, MountsFrame;
    MountsAreFramed(runner.mounts, c);
    UnlockedStays(runner.args, id.account);
  }

  lemma UnlockedStays(args: seq<string>, account: string)
    ensures Unlocked(Locked(args, account)) == Unlocked(args)
  {
    hide Unlocked;
    UnlockedHasNoFlag(args);
    UnlockedSplits(Unlocked(args), account, []);
    assert Locked(args, account) == Unlocked(args) + ([LOCK_FLAG, account] + []);
    assert Unlocked([]) == [] by { UnlockedSplits([], "", []); }
  }

  lemma MountsAreFramed(mounts: seq<Mount>, c: Contract)
    ensures MountsFrame(mounts, ForcedMounts(ForcedMounts(mounts, WORKSPACE, c.mountPath, false),
                                             WORK_ORDER_VOLUME, WORK_ORDER_MOUNT_PATH, true))
  {
    var once := ForcedMounts(mounts, WORKSPACE, c.mountPath, false);
    SameIndex(mounts, once);
  }

  lemma SameIndex(a: seq<Mount>, b: seq<Mount>)
    requires |a| <= |b| && forall j :: 0 <= j < |a| ==> a[j].name == b[j].name
    ensures MountIndex(a, WORK_ORDER_VOLUME) < |a| ==>
            MountIndex(b, WORK_ORDER_VOLUME) == MountIndex(a, WORK_ORDER_VOLUME)
  {
    var i := MountIndex(a, WORK_ORDER_VOLUME);
    if i < |a| {
      assert forall j :: 0 <= j < i ==> a[j].name == b[j].name;
      assert a[i].name == b[i].name;
    }
  }

  /** What the transition system assumes of an invocation's template is what an
      accepted template has, and a patch made from it can always be built. */
  lemma AcceptedTemplateIsContracted(cfg: Config, sb: Sandbox, id: Identity, c: Contract, req: Request)
    requires Rejection(sb, id, c).None? && id.release == cfg.release && id.session == req.session
    ensures Contracted(cfg, Forced(sb, cfg.names, id, c), req)
    ensures NamedVolume(Forced(sb, cfg.names, id, c).spec.template.volumes,
                        WORK_ORDER_VOLUME).value.source.SecretSource?
  {
    hide TemplateMeets, ForcedTemplate, NamedVolume, Carries, Validate, Forced;
    ForcedMeets(sb, cfg.names, id, c);
    ForcedLabels(sb, cfg.names, id, c);
    MeetsContract(cfg, Forced(sb, cfg.names, id, c), id, c, req);
  }

  lemma ForcedLabels(sb: Sandbox, names: Names, id: Identity, c: Contract)
    requires Rejection(sb, id, c).None?
    ensures var labels := Forced(sb, names, id, c).labels;
            && ComponentLabel in labels && labels[ComponentLabel] == COMPONENT_RUNNER
            && InstanceLabel in labels && labels[InstanceLabel] == id.release
            && PartOfLabel in labels && labels[PartOfLabel] != ""
  {
    hide ForcedTemplate, NamedVolume, Validate, RunnerIndex;
  }

  /** The labels an accepted template comes out with: the session's and the account's, and
      all of the Sandbox's on the Pod too. */
  lemma ForcedLabelsAre(sb: Sandbox, names: Names, id: Identity, c: Contract)
    requires Rejection(sb, id, c).None?
    ensures var to := Forced(sb, names, id, c);
            && SessionLabel in to.labels && to.labels[SessionLabel] == names.labelValue(id.session)
            && AccountLabel in to.labels && to.labels[AccountLabel] == names.labelValue(id.account)
            && (forall k :: k in to.labels <==> k in sb.labels || k in {SessionLabel, AccountLabel})
            && forall k :: k in to.labels ==>
                 k in to.spec.template.labels && to.spec.template.labels[k] == to.labels[k]
  {
    hide NamedVolume, WithSecretSource, Without, ForcedRunner, Validate, RunnerIndex, Anchors;
  }

  lemma MeetsContract(cfg: Config, sb: Sandbox, id: Identity, c: Contract, req: Request)
    requires Meets(sb, cfg.names, id, c) && id.release == cfg.release && id.session == req.session
    requires ComponentLabel in sb.labels && sb.labels[ComponentLabel] == COMPONENT_RUNNER
    requires InstanceLabel in sb.labels && sb.labels[InstanceLabel] == id.release
    ensures Contracted(cfg, sb, req)
    ensures NamedVolume(sb.spec.template.volumes, WORK_ORDER_VOLUME).value.source.SecretSource?
  {
    hide NamedVolume, RunnerMeets;
    assert SessionLabel in IdentityLabels(cfg.names, id);
  }

  lemma SelectedLabel(cfg: Config, labels: Labels)
    requires Selected(cfg, labels)
    ensures Get(labels, InstanceLabel) == cfg.release
  {
  }

  /** The contract does not fix the part-of label. An invocation that creates a Sandbox
      from a template with any other value then refuses its own creation, and so does
      every later one that finds it; otherwise it goes on to the order's Secret. */
  lemma ForeignPartOfIsRefused(cfg: Config, inv: Invocation, now: int, uid: string, rv: nat, t: nat)
    requires ValidRequest(inv.req) && Contracted(cfg, inv.tmpl, inv.req)
    ensures var sb := Created(cfg, inv, now, uid, rv);
            Classified(cfg, inv.req, t, sb) ==
            if Get(inv.tmpl.labels, PartOfLabel) == PART_OF then Securing(t, sb, false) else Failed(EXIT_NON_RETRYABLE)
  {
    hide NamedVolume, FormatInt, ParseInt, Selected;
    ParseFormatInt(inv.req.attempt);
    assert Get(inv.tmpl.labels, InstanceLabel) == cfg.release by { SelectedLabel(cfg, inv.tmpl.labels); }
  }

  /** The least a chart can render that the contract accepts. */
  function LeastTemplate(release: string, partOf: string): Sandbox {
    Sandbox("", "", "", 0, 0, false,
            map[ComponentLabel := COMPONENT_RUNNER, InstanceLabel := release, PartOfLabel := partOf], map[],
            Spec(Suspended, None, None, [WORKSPACE],
                 PodTemplate(map[], map[], Always, None, None, [Container(RUNNER_CONTAINER, [], [], "")],
                             [Volume(WORK_ORDER_VOLUME, OtherSource(""))], "")),
            map[])
  }

  lemma LeastTemplateIsAccepted(id: Identity, c: Contract, partOf: string)
    requires Validate(c).None? && id.release != "" && partOf != ""
    ensures Rejection(LeastTemplate(id.release, partOf), id, c).None?
  {
    hide Validate;
    assert WORKSPACE in LeastTemplate(id.release, partOf).spec.claims;
  }

  /** The same template with another part-of label. */
  function Relabelled(sb: Sandbox, partOf: string): Sandbox {
    sb.(labels := sb.labels[PartOfLabel := partOf])
  }

  /** The contract accepts a template with any part-of label it accepts it with one, and
      keeps it. */
  lemma AnyPartOfIsAccepted(sb: Sandbox, names: Names, id: Identity, c: Contract, partOf: string)
    requires Rejection(sb, id, c).None? && partOf != ""
    ensures Rejection(Relabelled(sb, partOf), id, c).None?
    ensures Get(Forced(Relabelled(sb, partOf), names, id, c).labels, PartOfLabel) == partOf
  {
    hide Validate, RunnerIndex, NamedVolume, ForcedTemplate;
  }

  /** So an accepted template can be one whose every Sandbox is refused: relabelled, it is
      if and only if the label is not "shock". */
  lemma AcceptedTemplateIsRefusedIff(cfg: Config, sb: Sandbox, id: Identity, c: Contract, partOf: string, req: Request,
                                     now: int, uid: string, rv: nat, t: nat)
    requires Rejection(sb, id, c).None? && id.release == cfg.release && id.session == req.session
    requires ValidRequest(req) && partOf != ""
    ensures Rejection(Relabelled(sb, partOf), id, c).None?
    ensures var tmpl := Forced(Relabelled(sb, partOf), cfg.names, id, c);
            var created := Created(cfg, Invocation(req, tmpl, Creating(t)), now, uid, rv);
            Classified(cfg, req, t, created) ==
            if partOf == PART_OF then Securing(t, created, false) else Failed(EXIT_NON_RETRYABLE)
  {
    hide Rejection, Forced, Created, Classified, Contracted, ValidRequest, NamedVolume;
    AnyPartOfIsAccepted(sb, cfg.names, id, c, partOf);
    AcceptedTemplateIsContracted(cfg, Relabelled(sb, partOf), id, c, req);
    var tmpl := Forced(Relabelled(sb, partOf), cfg.names, id, c);
    ForeignPartOfIsRefused(cfg, Invocation(req, tmpl, Creating(t)), now, uid, rv, t);
  }

  // ---- Refreshing a template

  /** publishNewer's refresh keeps the order-id and the Secret that are installed, and
      takes everything else, images and flags included, from the chart: the runner,
      every other volume, every label the chart sets. Cluster labels the chart does not
      set stay. */
  lemma RefreshKeepsInstalledOrder(cur: PodTemplate, tmpl: PodTemplate, id: Identity, c: Contract)
    requires TemplateMeets(tmpl, id, c)
    requires Get(cur.annotations, OrderId) != "" && HasSecretSource(cur.volumes)
    ensures var to := RefreshTemplate(cur, tmpl);
            && Get(to.annotations, OrderId) == Get(cur.annotations, OrderId)
            && WorkOrderSecretOf(to.volumes) == WorkOrderSecretOf(cur.volumes)
            && TemplateMeets(to, id, c)
            && to.containers == tmpl.containers
            && Without(to.volumes, WORK_ORDER_VOLUME) == Without(tmpl.volumes, WORK_ORDER_VOLUME)
            && (forall k :: k != OrderId ==> Get(to.annotations, k) == Get(tmpl.annotations, k))
            && Carries(to.labels, tmpl.labels)
            && forall k :: k in cur.labels && k !in tmpl.labels ==> Get(to.labels, k) == cur.labels[k]
  {
    hide RunnerMeets, NamedVolume, Without, Reinstall, WorkOrderSecretOf, RunnerIndex;
    FirstSecret(cur.volumes);
    ReinstalledVolumes(tmpl.volumes, WorkOrderSecretOf(cur.volumes));
  }

  lemma FirstSecret(volumes: seq<Volume>)
    requires HasSecretSource(volumes)
    ensures WorkOrderSecretOf(volumes) == NamedVolume(volumes, WORK_ORDER_VOLUME).value.source.secretName != ""
  {
  }

  lemma ReinstalledVolumes(volumes: seq<Volume>, secretName: string)
    requires VolumesMeet(volumes) && secretName != ""
    ensures var to := Reinstall(volumes, secretName);
            VolumesMeet(to) && WorkOrderSecretOf(to) == secretName &&
            Without(to, WORK_ORDER_VOLUME) == Without(volumes, WORK_ORDER_VOLUME)
  {
    hide NamedVolume, Without, Reinstall, WorkOrderSecretOf;
    var i := VolumeIndex(volumes, WORK_ORDER_VOLUME);
    ReinstallAt(volumes, i, secretName);
    var v := volumes[i].(source := volumes[i].source.(secretName := secretName));
    var to := volumes[i := v];
    assert forall j :: 0 <= j < |volumes| && j != i ==> to[j] == volumes[j];
    assert to[i].name == WORK_ORDER_VOLUME;
    assert VolumeIndex(to, WORK_ORDER_VOLUME) == i;
    WithoutUpdate(volumes, i, v);
    FirstSecret(to);
  }
}
