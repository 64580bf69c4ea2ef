/** When each decision is taken, in terms of the fields that were read: for every object,
    Pod, Secret, list and request, whether a run can produce it or not. */
module Guards {
  import opened Api
  import opened Decimal
  import opened Hook
  import opened IdleCap
  import opened SessionController

  // ---- The hook

  /** The accepted attempt as the Sandbox spells it: nothing for none, else a decimal of 64
      bits. */
  predicate SpellsAttempt(sb: Sandbox, n: int) {
    if sb.Annotation(LastOrderAttempt) == "" then n == 0 else ParseInt(sb.Annotation(LastOrderAttempt)) == Some(n)
  }

  /** The Sandbox is one the hook of this release and session may work on. */
  predicate IsOurs(cfg: Config, sb: Sandbox, session: string) {
    && Get(sb.labels, PartOfLabel) == "shock" && Get(sb.labels, InstanceLabel) == cfg.release
    && Get(sb.labels, SessionLabel) == cfg.names.labelValue(session)
  }

  /** A Sandbox being deleted is refused for now, a foreign one and one with an unreadable
      attempt for good; otherwise the accepted order is redelivered, a lower attempt is
      superseded, a higher one newer, and another order at the same attempt refused. */
  lemma DecisionIs(cfg: Config, sb: Sandbox, req: Request, n: int)
    ensures sb.deleting ==> Evaluate(cfg, sb, req) == Refuse(1)
    ensures !sb.deleting && !IsOurs(cfg, sb, req.session) ==> Evaluate(cfg, sb, req) == Refuse(2)
    ensures !sb.deleting && (forall m :: !SpellsAttempt(sb, m)) ==> Evaluate(cfg, sb, req) == Refuse(2)
    ensures !sb.deleting && IsOurs(cfg, sb, req.session) && SpellsAttempt(sb, n) ==>
              Evaluate(cfg, sb, req) ==
              if sb.Annotation(LastOrderId) == req.order then Redelivery
              else if req.attempt < n then Superseded
              else if n < req.attempt then Newer
              else Refuse(2)
  {
    hide ParseInt;
    if ParseAttempt(sb.Annotation(LastOrderAttempt)).Some? {
      assert SpellsAttempt(sb, ParseAttempt(sb.Annotation(LastOrderAttempt)).value);
    }
  }

  // ---- The controller

  predicate IsRunnerOf(cfg: Config, labels: Labels) {
    Get(labels, ComponentLabel) == "runner" && Get(labels, InstanceLabel) == cfg.release
  }

  /** The condition is True and was observed for the current spec. */
  predicate Confirms(sb: Sandbox, c: ConditionType) {
    c in sb.conditions && sb.conditions[c].status && sb.conditions[c].observedGeneration == sb.generation
  }

  /** The first Secret-backed work-order volume names the Secret. */
  predicate NamesSecret(volumes: seq<Volume>, secretName: string) {
    exists i :: 0 <= i < |volumes| && IsWorkOrder(volumes[i]) && volumes[i].source.secretName == secretName &&
                forall j :: 0 <= j < i ==> !IsWorkOrder(volumes[j])
  }

  predicate IsWorkOrder(v: Volume) {
    v.name == "work-order" && v.source.SecretSource?
  }

  lemma {:induction false} NamesSecretIff(volumes: seq<Volume>, secretName: string)
    requires secretName != ""
    ensures WorkOrderSecretOf(volumes) == secretName <==> NamesSecret(volumes, secretName)
  {
    if volumes != [] {
      var rest := volumes[1..];
      NamesSecretIff(rest, secretName);
      if IsWorkOrder(volumes[0]) {
        if volumes[0].source.secretName == secretName {
          assert NamesSecret(volumes, secretName);
        }
      } else {
        if NamesSecret(rest, secretName) {
          var i :| 0 <= i < |rest| && IsWorkOrder(rest[i]) && rest[i].source.secretName == secretName &&
                   forall j :: 0 <= j < i ==> !IsWorkOrder(rest[j]);
          assert volumes[i + 1] == rest[i];
        }
        if NamesSecret(volumes, secretName) {
          var i :| 0 <= i < |volumes| && IsWorkOrder(volumes[i]) && volumes[i].source.secretName == secretName &&
                   forall j :: 0 <= j < i ==> !IsWorkOrder(volumes[j]);
          assert rest[i - 1] == volumes[i];
          assert forall j :: 0 <= j < i - 1 ==> rest[j] == volumes[j + 1];
        }
      }
    }
  }

  /** The pending order is applied, and one of the listed Pods runs it. */
  ghost predicate IsAcknowledged(cfg: Config, sb: Sandbox, pods: seq<Pod>) {
    && sb.Annotation(PendingSpawn) != "" && sb.Annotation(AppliedSpawn) == sb.Annotation(PendingSpawn)
    && sb.Annotation(PendingSecret) != ""
    && exists p :: p in pods && p.owner == sb.uid && IsRunnerOf(cfg, p.labels) &&
                   Get(p.annotations, OrderId) == sb.Annotation(PendingSpawn) &&
                   NamesSecret(p.volumes, sb.Annotation(PendingSecret))
  }

  /** The runner has exited for good. */
  predicate IsFinished(sb: Sandbox) {
    sb.spec.mode == Running && sb.Annotation(PendingSpawn) == "" && Confirms(sb, FinishedCondition)
  }

  /** The Secret is this Sandbox's, for this order at its accepted attempt. */
  predicate IsSecretFor(cfg: Config, k: Secret, sb: Sandbox, order: string) {
    && k.immutable && k.workOrder != "" && sb.uid in k.owners
    && Get(k.annotations, OrderId) == order && Get(k.annotations, OrderAttempt) == sb.Annotation(LastOrderAttempt)
    && k.name == cfg.names.secret(Get(k.annotations, SessionId), sb.uid, order)
    && Get(sb.labels, SessionLabel) == cfg.names.labelValue(Get(k.annotations, SessionId))
  }

  /** An order waits on a Sandbox whose suspension is confirmed. */
  predicate IsWaiting(sb: Sandbox) {
    sb.spec.mode == Suspended && sb.Annotation(PendingSpawn) != "" && Confirms(sb, SuspendedCondition)
  }

  /** Nothing is missing to start it. */
  ghost predicate IsReady(cfg: Config, sb: Sandbox, secret: Option<Secret>) {
    && IsWaiting(sb) && sb.Annotation(PendingSecret) != "" && sb.Annotation(LastOrderId) == sb.Annotation(PendingSpawn)
    && secret.Some? && IsSecretFor(cfg, secret.value, sb, sb.Annotation(PendingSpawn))
    && exists v :: v in sb.spec.template.volumes && v.name == "work-order"
  }

  /** A sleeper whose sleep is confirmed and dated. */
  predicate IsSleeper(sb: Sandbox) {
    && !sb.deleting && sb.spec.mode == Suspended && sb.Annotation(PendingSpawn) == ""
    && Confirms(sb, SuspendedCondition)
    && sb.Annotation(LastSuspendedAt) != "" && ParseInt(sb.Annotation(LastSuspendedAt)).Some?
  }

  function SleepTime(sb: Sandbox): int
    requires IsSleeper(sb)
  {
    ParseInt(sb.Annotation(LastSuspendedAt)).value
  }

  /** `y` fell asleep after `x`; of two at one time the later name counts as newer. */
  predicate IsNewer(x: Sandbox, y: Sandbox) {
    && IsSleeper(x) && IsSleeper(y)
    && (SleepTime(x) < SleepTime(y) || (SleepTime(x) == SleepTime(y) && Less(x.name, y.name)))
  }

  /** Strings compare at the first place where they differ; a proper prefix comes first. */
  lemma {:induction false} LessIff(a: string, b: string)
    ensures Less(a, b) <==> exists n :: Differ(a, b, n)
  {
    if a != "" && b != "" {
      LessIff(a[1..], b[1..]);
      if a[0] == b[0] {
        forall n | Differ(a[1..], b[1..], n) ensures Differ(a, b, n + 1) {
          assert a[..n + 1] == [a[0]] + a[1..][..n] && b[..n + 1] == [b[0]] + b[1..][..n];
        }
        forall n | Differ(a, b, n) ensures Differ(a[1..], b[1..], n - 1) {
          assert a[1..][..n - 1] == a[..n][1..] && b[1..][..n - 1] == b[..n][1..];
        }
      } else {
        assert a[0] < b[0] ==> Differ(a, b, 0);
        forall n | Differ(a, b, n) ensures a[0] < b[0] {
          assert n > 0 ==> a[..n][0] == b[..n][0];
        }
      }
    } else if b != "" {
      assert Differ(a, b, 0);
    }
  }

  predicate Differ(a: string, b: string, n: int) {
    0 <= n <= |a| && n < |b| && a[..n] == b[..n] && (n == |a| || a[n] < b[n])
  }

  /** As many listed sleepers as the cap keeps are newer than a listed one of this uid. */
  ghost predicate IsBeyondCap(sb: Sandbox, list: seq<Sandbox>, keep: int) {
    exists x :: x in list && x.uid == sb.uid && IsSleeper(x) && |NewerOf(x, list)| >= keep
  }

  function NewerOf(x: Sandbox, list: seq<Sandbox>): set<Sandbox> {
    set y | y in list && IsNewer(x, y)
  }

  /** Collection is on, and the sleeper too old or beyond the cap. */
  ghost predicate IsDue(cfg: Config, sb: Sandbox, list: seq<Sandbox>, now: int) {
    && cfg.gcEnabled && IsSleeper(sb)
    && (now - SleepTime(sb) >= cfg.gcMaxIdleAge ||
        (cfg.gcMaxIdleSessions > 0 && IsBeyondCap(sb, list, cfg.gcMaxIdleSessions)))
  }

  lemma SleeperIff(sb: Sandbox)
    ensures IdleSince(sb).IdleAt? <==> IsSleeper(sb)
    ensures IsSleeper(sb) ==> IdleSince(sb) == IdleAt(SleepTime(sb))
  {
    hide ParseInt;
  }

  function EntryFor(sb: Sandbox): Entry
    requires IsSleeper(sb)
  {
    Entry(sb.name, sb.uid, SleepTime(sb))
  }

  lemma ListedEntry(list: seq<Sandbox>, e: Entry)
    ensures e in IdleEntries(list) <==> exists x :: x in list && IsSleeper(x) && e == EntryFor(x)
  {
    hide IdleSince, IsSleeper, SleepTime;
    IdleEntriesMembers(list);
    forall x ensures IdleSince(x).IdleAt? <==> IsSleeper(x)
             ensures IsSleeper(x) ==> IdleSince(x) == IdleAt(SleepTime(x))
    {
      SleeperIff(x);
    }
  }

  /** With distinct names, newer entries are newer Sandboxes, one for one. */
  lemma NewerEntries(list: seq<Sandbox>, x: Sandbox)
    requires DistinctSandboxNames(list) && x in list && IsSleeper(x)
    ensures |NewerThan(EntryFor(x), SetOf(IdleEntries(list)))| == |NewerOf(x, list)|
  {
    hide IsSleeper, SleepTime, IdleEntries;
    var newer, entries := NewerOf(x, list), NewerThan(EntryFor(x), SetOf(IdleEntries(list)));
    forall y | y in newer ensures IsSleeper(y) {
      NewerSleeps(x, y);
    }
    forall e ensures e in entries <==> exists y :: y in newer && e == EntryFor(y) {
      ListedEntry(list, e);
      NewerIffBefore(x, e, list);
    }
    NamesTell(list);
    SameSize(newer, entries);
  }

  lemma NewerSleeps(x: Sandbox, y: Sandbox)
    requires IsNewer(x, y)
    ensures IsSleeper(y)
  {
  }

  lemma NewerIffBefore(x: Sandbox, e: Entry, list: seq<Sandbox>)
    requires IsSleeper(x)
    ensures (exists y :: y in list && IsSleeper(y) && e == EntryFor(y) && Before(EntryFor(x), e)) <==>
              exists y :: y in NewerOf(x, list) && IsSleeper(y) && e == EntryFor(y)
  {
    hide IsSleeper, SleepTime;
  }

  lemma NamesTell(list: seq<Sandbox>)
    requires DistinctSandboxNames(list)
    ensures forall x, y :: x in list && y in list && x.name == y.name ==> x == y
  {
  }

  lemma {:induction false} SameSize(sandboxes: set<Sandbox>, entries: set<Entry>)
    requires forall y :: y in sandboxes ==> IsSleeper(y)
    requires forall x, y :: x in sandboxes && y in sandboxes && x.name == y.name ==> x == y
    requires forall e :: e in entries <==> exists y :: y in sandboxes && e == EntryFor(y)
    ensures |entries| == |sandboxes|
    decreases |sandboxes|
  {
    hide IsSleeper, SleepTime;
    if sandboxes == {} {
      assert entries == {};
    } else {
      var y :| y in sandboxes;
      assert EntryFor(y) in entries;
      SameSize(sandboxes - {y}, entries - {EntryFor(y)});
    }
  }

  lemma BeyondCapIff(sb: Sandbox, list: seq<Sandbox>, keep: int)
    requires DistinctSandboxNames(list)
    ensures IsBeyondCap(sb, list, keep) <==>
              exists e :: e in SetOf(IdleEntries(list)) && e.uid == sb.uid &&
                          IsVictim(e, SetOf(IdleEntries(list)), keep)
  {
    hide IsSleeper, SleepTime, IdleEntries, NewerThan, NewerOf;
    forall e ensures e in IdleEntries(list) <==> exists x :: x in list && IsSleeper(x) && e == EntryFor(x) {
      ListedEntry(list, e);
    }
    forall x | x in list && IsSleeper(x)
      ensures |NewerThan(EntryFor(x), SetOf(IdleEntries(list)))| == |NewerOf(x, list)|
      ensures EntryFor(x) in SetOf(IdleEntries(list))
    {
      NewerEntries(list, x);
    }
  }

  lemma DueIff(cfg: Config, sb: Sandbox, list: seq<Sandbox>, now: int)
    requires DistinctSandboxNames(list)
    ensures GcDue(cfg, sb, list, now) <==> IsDue(cfg, sb, list, now)
  {
    hide IsSleeper, SleepTime, IdleEntries, IdleSince, IsBeyondCap, IsVictim;
    SleeperIff(sb);
    BeyondCapIff(sb, list, cfg.gcMaxIdleSessions);
  }

  lemma AcknowledgedIff(cfg: Config, sb: Sandbox, pods: seq<Pod>)
    ensures Observe(sb, OwnedPods(cfg, pods, sb.uid)).Some? <==> IsAcknowledged(cfg, sb, pods)
  {
    hide OwnedPods, NamesSecret, WorkOrderSecretOf;
    OwnedPodsMembers(cfg, pods, sb.uid);
    if sb.Annotation(PendingSecret) != "" {
      forall p: Pod ensures WorkOrderSecretOf(p.volumes) == sb.Annotation(PendingSecret) <==>
                              NamesSecret(p.volumes, sb.Annotation(PendingSecret))
      {
        NamesSecretIff(p.volumes, sb.Annotation(PendingSecret));
      }
    }
  }

  lemma ReadyIff(cfg: Config, sb: Sandbox, secret: Option<Secret>)
    ensures Wake(cfg, sb, secret).Woken? <==> IsReady(cfg, sb, secret)
    ensures Wake(cfg, sb, secret).NotDue? <==> !IsWaiting(sb)
  {
    hide NamedVolume, OrderInstalled;
  }

  /** What a pass decides, for whatever it reads: nothing on a Sandbox that is being deleted
      or is not this release's; else it acknowledges, puts to sleep, wakes or collects,
      each under its own condition and in that order. */
  lemma PassIs(cfg: Config, sb: Sandbox, pods: seq<Pod>, secret: Option<Secret>, list: seq<Sandbox>, now: int)
    requires DistinctSandboxNames(list)
    ensures var write := Decide(cfg, sb, pods, secret, list, now);
            if sb.deleting || !IsRunnerOf(cfg, sb.labels) then write == Nothing
            else if IsAcknowledged(cfg, sb, pods) then write.Observed?
            else if IsFinished(sb) then write.Slept?
            else if IsReady(cfg, sb, secret) then write.Awoke?
            else if IsWaiting(sb) then write == Nothing
            else if IsDue(cfg, sb, list, now) then write == Collect
            else write == Nothing
  {
    hide IsAcknowledged, IsReady, IsWaiting, IsDue, Observe, Wake, GcDue;
    AcknowledgedIff(cfg, sb, pods);
    ReadyIff(cfg, sb, secret);
    DueIff(cfg, sb, list, now);
  }

  /** Why an order that waits is not started: the first thing that is missing. */
  lemma BlockedIs(cfg: Config, sb: Sandbox, secret: Option<Secret>)
    requires IsWaiting(sb) && !IsReady(cfg, sb, secret)
    ensures Wake(cfg, sb, secret) ==
            Blocked(if sb.Annotation(PendingSecret) == "" then NoPendingSecret
                    else if sb.Annotation(LastOrderId) != sb.Annotation(PendingSpawn) then NotLastOrder
                    else if secret.None? then SecretUnreadable
                    else if !IsSecretFor(cfg, secret.value, sb, sb.Annotation(PendingSpawn)) then SecretRejected
                    else NoVolume)
  {
    hide NamedVolume, OrderInstalled;
  }
}
