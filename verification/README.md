# SHOCK: the spawn protocol and what it promises

SHOCK starts one runner Pod per accepted spawn order of a session. Two programs share the
work through one Kubernetes object, the session's Sandbox: the `spawn-runner` hook records
an order and its Secret, the session controller wakes, observes, puts to sleep and collects
Sandboxes, and the sandbox controller of agent-sandbox makes and deletes Pods. No lock
protects the Sandbox. Every write is a merge patch pinned to the uid and resourceVersion it
was computed from.

This project models that protocol, the decisions of the two programs, the names they derive,
the template contract they force and the patch they send, and proves what they promise.

## How it is laid out

| file | what it holds |
|---|---|
| `Api.dfy`, `Decimal.dfy` | the stored objects; annotation integers as text |
| `Hook.dfy`, `SessionController.dfy`, `IdleCap.dfy` | what one hook call or one controller pass decides: a specification function each, and a method that edits a copy in place, loops or sorts as the program does, proved equal to it |
| `Guards.dfy` | when each of them decides what, in the fields of the objects, whatever was read |
| `Naming.dfy`, `Template.dfy`, `Patch.dfy`, `Wire.dfy` | names, the template contract, the pinned merge patch; a Sandbox as JSON, and the protocol's patch as the JSON patch |
| `Protocol.dfy` | the transition system: store, hook invocations as program counters, controller passes, the sandbox controller, the API server |
| `Invariants.dfy` | what holds in every reachable state |
| `Preservation.dfy`, `Writes.dfy`, `HookSteps.dfy`, `ClusterSteps.dfy`, `Safety.dfy`, `Runs.dfy` | every step keeps it |
| `PodSafety.dfy`, `OnePod.dfy`, `Orders.dfy`, `Agreement.dfy`, `Atomicity.dfy`, `Capacity.dfy`, `Overshoot.dfy`, `IdleFleet.dfy`, `SleepDates.dfy` | theorems about runs |
| `Effects.dfy`, `Provenance.dfy`, `Collection.dfy` | what every write of every run changes, where the parts of Sandboxes, Pods and Secrets come from, what is ever collected |
| `Progress.dfy`, `Liveness.dfy`, `Lifecycle.dfy` | a rank that every step lowers; runs without end; runs that exist |
| `Acceptance.dfy`, `Continuing.dfy`, `Recovery.dfy` | what an undisturbed invocation achieves from its start and from anywhere; crashes and redeliveries |
| `Session.dfy` | `Run`, `runSession` and a controller pass as programs against an API server that others use at the same time: they take the steps of the transition system and no others |

`dafny verify dfyconfig.toml` checks the whole project.

## What is assumed

* An order id determines its attempt, session and work order (`SameOrder`). What becomes of
  an order delivered again with another attempt is `Agreement.ChangedAttemptIsCaught`: the
  hook rejects the standing Secret, or the controller rejects the new one and Wake blocks.
  Orders that share an attempt are allowed: the hook refuses the second.
* The release is not empty (internal/hook/inputs.go refuses it). Work-order Secret names are
  injective and never empty; `Naming.NamesForBehave` derives this from a digest that does not
  collide. Nothing is assumed of the FNV hash but its width, and only where a length is
  claimed.
* Nobody but the modelled actors edits these objects. One release in one namespace.
* The API server: a fresh resourceVersion on every write, a new generation exactly when the
  spec changed, uids never reused. A List names each object once, and the hook's Lists are
  complete and current. The session controller may read any Sandbox version, any mixture of
  Pod versions and any Secret version that ever existed.
* The sandbox controller (test/e2e/e2e_test.go:480-545 spells out what is expected of it) works from
  a Sandbox version that may lag without bound but never moves back, and from the actual Pods:
  it creates a Pod only when that version is Running, not deleting and owns none, deletes one
  only when that version is Suspended, and reports conditions for the generation of that
  version. Pods of a Sandbox that no longer lives may be deleted at any time.
* Times are whole seconds as decimal text instead of RFC 3339.
* Liveness assumes weak fairness, kind by kind and for one Sandbox (`Liveness.WeaklyFair`): if
  from some point on the sandbox controller could always see its newest version, delete,
  remove or make its Pod or report, or the session controller could always make a pass that
  reads it, its Pods and its Secret as they are, then that is done at some later point. A Pod
  stuck in deletion breaks that, and is what the zombie alarm is for.

## Where code and documentation differ

The model follows the code.

* The design's concurrency protocol ends an invocation whose Sandbox vanished or was replaced
  under it. `IsStale` counts a missing object and another uid as stale
  (internal/patch/patch.go:53-55) and the loop goes round (internal/hook/hook.go:161-164).
  `Recovery.VanishedSandboxIsRecreatedIff` says exactly when a vanished Sandbox comes back
  under another uid, `Continuing.ReplacedSandboxIsServedIff` exactly when one of another uid is
  served instead, and `Lifecycle.SandboxCanVanishUnderItsHook` builds the run in which both
  befall an invocation. Order properties are therefore stated per uid.
* `LabelValue` does not always give a label value: `Naming.LabelValueIsValidIff`,
  `Naming.LabelValueCanBeInvalid`.
* Sandbox names of two releases can coincide, exactly when the scope of one, its prefix and
  "cs-", starts with that of the other: `Naming.ReleasesMeetIff`. The instance label check
  (internal/hook/hook.go:213-215) then refuses the second session, and the second release's
  controller leaves the Sandbox alone: `Agreement.OtherReleaseIsRefused`.
* The contract accepts and keeps any part-of label, while every hook insists on "shock":
  `Template.AcceptedTemplateIsRefusedIff`.
* A merge patch cannot set a field to null: `Patch.RoundTrip`, `Patch.NewNullIsLost`.
* The active-session cap is soft; by how much is exact: `Capacity.OvershootIsBounded`,
  `Overshoot.BoundIsAttained`, `Overshoot.BoundIsAttainedByName`.

## Model

| member | source | states |
|---|---|---|
| Decimal.ParseFormatInt | internal/hook/hook.go:236-241 | an attempt written into an annotation is read back, over the whole 64-bit range |
| Decimal.FormatIs | internal/hook/hook.go:189 | what is written are the decimal digits of the number, without sign or leading zero, a minus before those below zero |
| Decimal.ParseIs | internal/hook/hook.go:236-241 | what is read are digits with or without a sign, of a value within 64 bits |
| Decimal.OnlyNumbersAreRead | internal/hook/hook.go:236-241 | and nothing else is |
| Hook.CheckCapacity | internal/hook/hook.go:266-295 | admits exactly when fewer than the limit of the listed Sandboxes other than its own are undeleted and Running or with an order pending |
| Guards.DecisionIs | internal/hook/hook.go:206-241 | deleting refuses with 1, another release, session or part-of label and an unreadable attempt with 2; else the accepted order is redelivered, a lower attempt superseded, a higher one newer, and another order at the same attempt refused with 2 |
| Capacity.CountIsHolders | internal/hook/hook.go:282-289 | over a complete list, what the loop counts is the number of other holders in the store |
| Hook.CreateSandbox | internal/hook/hook.go:177-195 | the create body: Suspended, the order pending and accepted, every pointer of an earlier life removed, the template otherwise untouched; the template object is not modified |
| Hook.RepairRedelivery | internal/hook/hook.go:299-329 | fills in just the missing pointers of the accepted order, never re-arms it, and refuses a foreign pointer |
| Hook.PublishNewer | internal/hook/hook.go:334-378 | one object with pointers moved, suspension requested and the template refreshed, everything else kept |
| Hook.RefreshPodTemplate | internal/hook/hook.go:351-370 | the chart's template with the installed order-id, Secret and extra labels carried over |
| Hook.WorkOrderVolume | internal/hook/template.go:185-192 | finds the first work-order volume, or none |
| SessionController.ListOwnedPods | internal/sessioncontroller/reconciler.go:129-141 | collects the selected Pods this uid controls, in order |
| SessionController.OwnedPodsMembers | internal/sessioncontroller/reconciler.go:129-141 | exactly those Pods, for every list |
| SessionController.SpawnObservation | internal/sessioncontroller/reconciler.go:160-187 | clears the pending annotations exactly when the applied order is pending and a listed Pod carries it with its Secret |
| SessionController.SleepPass | internal/sessioncontroller/reconciler.go:190-213 | suspends and dates a Running Sandbox without pending order whose runner finished for the current generation |
| SessionController.InstallSecret | internal/sessioncontroller/reconciler.go:249-262 | in place, every work-order volume becomes a Secret volume naming the Secret and no other volume changes |
| SessionController.InstalledSecret | internal/sessioncontroller/reconciler.go:150-157 | a Pod made from the installed template names that Secret |
| SessionController.WakePass | internal/sessioncontroller/reconciler.go:216-275 | the imperative pass is Wake, of which `Guards.PassIs` and `Guards.BlockedIs` say when it wakes and why not, and `Effects.WakingIsKnown` what it changes |
| Effects.WakingIsKnown | internal/sessioncontroller/reconciler.go:248-266 | a woken Sandbox differs from the one read in the mode, the applied order, the suspension date, the template's order-id and its work-order volumes' sources, and in nothing else of the object or of its Pod template |
| Guards.BlockedIs | internal/sessioncontroller/reconciler.go:216-247 | an order that waits and is not started is blocked for the first of five things that is missing |
| IdleCap.SelectVictims | internal/sessioncontroller/reconciler.go:383-393 | whatever the list order, the victims are exactly the entries with at least K newer ones by (time, name), oldest first, n - K of them |
| SessionController.IdleEntriesMembers | internal/sessioncontroller/reconciler.go:375-382 | the idle entries of a list are exactly its asleep Sandboxes |
| SessionController.IdleVictims | internal/sessioncontroller/reconciler.go:368-394 | the victims of a list are its asleep Sandboxes beyond the cap |
| SessionController.Gc | internal/sessioncontroller/reconciler.go:399-438 | the imperative pass is GcDue, of which `Guards.DueIff` says what it means in the fields of the Sandbox and the list |
| Guards.DueIff | internal/sessioncontroller/reconciler.go:344-421 | collection is on, the Sandbox sleeps confirmed and dated, and it is past the age limit or as many listed sleepers as the cap keeps are newer than it |
| Guards.LessIff | internal/sessioncontroller/reconciler.go:383-388 | names compare at the first character in which they differ |
| SessionController.Reconcile | internal/sessioncontroller/reconciler.go:77-120 | one pass decides the write of the first predicate that holds |
| Guards.PassIs | internal/sessioncontroller/reconciler.go:77-120 | for whatever Sandbox, Pods, Secret, list and clock: which of the four writes a pass decides, or none, each under a condition on the fields that were read |
| IdleCap.NewerByPosition | internal/sessioncontroller/reconciler.go:383-388 | in sorted order the position of an entry tells how many are newer |
| IdleCap.VictimStaysVictim | internal/sessioncontroller/reconciler.go:399-428 | collecting one victim changes nobody else's fate |
| IdleCap.PassesConverge | internal/sessioncontroller/reconciler.go:396-398 | passes in any order and with any repetition keep the K newest, and leave just them once every other sleeper had its pass |
| IdleCap.NewestCount | internal/sessioncontroller/reconciler.go:45-46 | the newest kept are min(K, n) |
| IdleFleet.DueIsVictim | internal/sessioncontroller/reconciler.go:403-418 | under the age limit, a pass on a current list collects a sleeper exactly when K sleepers of the store are newer |
| IdleFleet.CapIsExact | internal/sessioncontroller/reconciler.go:396-438 | over any stretch of a run that adds no sleeper, wakes none and has none past the age limit, whatever else happens, controller passes in any order and repetition collect none of the K newest sleepers, and leave exactly those once every other had its pass |
| Collection.OffDeletesNothing | internal/sessioncontroller/reconciler.go:400-402 | with collection switched off no version of any Sandbox in any run is being deleted |
| Collection.OffLosesNothing | internal/sessioncontroller/reconciler.go:400-402 | and no Sandbox is ever lost or replaced |
| Collection.CollectedIff | internal/sessioncontroller/reconciler.go:399-438 | on a live Sandbox and with a current list, a pass collects if and only if collection is on and the Sandbox sleeps, confirmed, since longer than the age limit or with as many newer sleepers in the store as the cap keeps |
| Collection.SleeperIsCollectedIff | internal/sessioncontroller/reconciler.go:399-438 | the same over runs with both limits, either or none, the age counted from the pass that put it to sleep |
| Naming.SanitizeRFC1123 | internal/naming/naming.go:190-208 | the loop yields Sanitized, which the five laws below determine, and reports altered exactly when the input was not already clean |
| Naming.CapitalsAreLowered | internal/naming/naming.go:194-197 | a capital anywhere is read as its small letter |
| Naming.OthersAreDashes | internal/naming/naming.go:194-204 | anything but a letter or digit is read as a dash; of the rest of Unicode two characters have a small letter in [a-z] |
| Naming.DashesCollapse | internal/naming/naming.go:198-208 | doubled dashes collapse, first and last ones go |
| Naming.LettersAreKept | internal/naming/naming.go:190-208 | of an ASCII string no letter or digit is lost, moved or changed but in case |
| Naming.SanitizedIsClean | internal/naming/naming.go:188-208 | no leading, trailing or doubled dash, only lower-case alphanumerics and dashes, for every input |
| Naming.SanitizedFixpoints | internal/naming/naming.go:188-208 | the sanitizer leaves alone exactly what is clean, hence is idempotent |
| Naming.MakeReleasePrefix | internal/naming/naming.go:142-151 | the sanitized release cut to 24, or nothing |
| Naming.ReleasePrefixIs | internal/naming/naming.go:142-151 | at most 24 characters of the sanitized release, without the dashes they end in, and a dash |
| Naming.MakeSandboxName | internal/naming/naming.go:107-123 | the name as its specification function gives it, without ever cutting below zero |
| Naming.SandboxNameIs | internal/naming/naming.go:104-123 | the id itself if it is clean and fits, else the sanitized id, cut to what fits into 63, and the hash of the id |
| Naming.SandboxNameIsDnsLabel | internal/naming/naming.go:104-123 | for every release and id: a non-empty label of at most 63 in [a-z0-9-], alphanumeric at both ends (section 2.1 of RFC 1123) |
| Naming.EqualNamesOfOneRelease | internal/naming/naming.go:111-123 | equal names of one release mean the same id, colliding hashes, or one id being literally the other's sanitized-and-hashed form |
| Naming.ReleasesMeetIff | internal/naming/naming.go:107-123 | two releases have a Sandbox name in common, for some two sessions, if and only if what all names of one start with is a prefix of what all names of the other start with |
| Naming.MakeLabelValue | internal/naming/naming.go:155-167 | the label value as its specification function gives it |
| Naming.LabelValueIs | internal/naming/naming.go:153-186 | an id that may be a label value is its own; any other gets its sanitized form cut to 54 and its hash |
| Naming.LabelValueIsValidIff | internal/naming/naming.go:153-186 | the result is a valid label value if and only if the id already is one or has a character the sanitizer keeps |
| Naming.LabelValueCanBeInvalid | internal/naming/naming.go:153-167 | "_" is an id whose label value is none |
| Naming.MakeWorkOrderSecretName | internal/naming/naming.go:133-139 | the loop feeds the digest the length-prefixed encoding of release, session, uid and order |
| Naming.WorkOrderSecretNameIs | internal/naming/naming.go:130-139 | the release prefix, "wo-" and the digest of release, session, uid and order, each behind its length |
| Naming.DecodeEncode | internal/naming/naming.go:133-138 | a decoder inverts the encoding of any list of parts |
| Naming.EncodeInjective | internal/naming/naming.go:130-138 | so no two part lists share an encoding |
| Naming.EqualSecretNames | internal/naming/naming.go:130-139 | equal Secret names, of any releases, mean the same release, session, uid and order unless the digest collides on these two |
| Naming.NamesForBehave | internal/naming/naming.go:130-139 | what the protocol assumes of Secret names follows from a digest without collisions |
| Template.BaseDirIsAtOrBelowMount | internal/hook/template.go:54-63 | a contract is accepted if and only if the mount path is absolute and its path components lead the base directory's |
| Template.ForceMount | internal/hook/template.go:163-173 | edits the first mount of the volume or appends one |
| Template.WithLockToAccount | internal/hook/template.go:151-161 | the index-skipping loop removes every lock and appends one |
| Template.UnlockedSplits | internal/hook/template.go:151-161 | what is removed is each flag and the argument behind it, everything else keeps its order |
| Template.LockedIsLockedOnce | internal/hook/template.go:150-161 | the arguments end with the one lock, one that already do are left alone, and the flag occurs once if and only if the account is not itself spelled like it |
| Template.RemoveVolume | internal/hook/template.go:194-202 | the in-place compaction leaves the other volumes, in order |
| Template.ApplyContract | internal/hook/template.go:88-148 | refuses with the right reason and leaves the object alone, or edits it into the forced template |
| Template.AcceptedIff | internal/hook/template.go:53-93 | a template is accepted if and only if it has a runner container, a work-order volume and a workspace claim, is labelled as a runner of this release and with a part-of label, and the base directory is at or below the absolute mount path |
| Template.ForcedMeets | internal/hook/template.go:87-148 | whatever the overlay, an accepted template comes out meeting the contract; it comes out unchanged if and only if it met it |
| Template.ContractIsIdempotent | internal/hook/template.go:87-88 | accepted once, accepted again and left alone |
| Template.ForcedFrame | internal/hook/template.go:88-148 | all other labels, containers, volumes, mounts and arguments are kept, in order |
| Template.ForcedLabelsAre | internal/hook/template.go:103-120 | an accepted template comes out labelled for the session and the account, the Pod with every label of the Sandbox |
| Template.AcceptedTemplateIsContracted | internal/hook/template.go:66-148 | an accepted template has what the transition system assumes of one |
| Template.ForeignPartOfIsRefused | internal/hook/hook.go:210-212 | an invocation goes on from a Sandbox it has just created if and only if the template's part-of label is "shock"; otherwise it exits 2 |
| Template.AcceptedTemplateIsRefusedIff | internal/hook/template.go:77-93 | every accepted template is accepted with any part-of label too, and the Sandbox created from it is then refused if and only if the label is not "shock" |
| Template.RefreshKeepsInstalledOrder | internal/hook/hook.go:351-370 | the refresh keeps the installed order-id and Secret, still meets the contract, and takes everything else from the chart |
| Patch.Optimistic | internal/patch/patch.go:18-50 | the merge patch with both pins put into its metadata; none without uid or resourceVersion |
| Patch.EmptyDiff | internal/patch/patch.go:32-36 | the patch is empty if and only if nothing changed |
| Patch.RoundTrip | internal/patch/patch.go:18-50 | applying the patch to the object it was computed from (section 2 of RFC 7396) gives the edited object if and only if no null is new |
| Patch.NewNullIsLost | internal/patch/patch.go:32-36 | setting a field to null removes it |
| Patch.PinnedRoundTrip | internal/patch/patch.go:36-46 | with the pins, the edited object comes back with the uid and resourceVersion that were read, losing no other metadata change, under the same condition |
| Patch.CommitsOnlyOnItsVersion | internal/patch/patch.go:1-4 | a pinned patch commits on the version it was computed from and on no other; missing, recreated and changed objects are told apart; what commits is the edited object, if that has no null |
| Wire.EncodingTells | internal/patch/patch.go:18-31 | two Sandboxes with the same JSON are the same |
| Wire.PatchOnTheWire | internal/patch/patch.go:18-50 | the patch of the transition system is the JSON patch: sent against the stored object it is accepted exactly when the pins hold, a missing and a recreated object are told apart, and the store then holds the JSON of the edited Sandbox with the server's stamps |
| Session.ApiServer.SendPatch | internal/hook/hook.go:381-393 | computes the pinned JSON patch, sends it and reads the answer; done means the store now holds the annotations and spec that were meant, stale means go round again |
| Session.ApiServer.Pass | internal/sessioncontroller/reconciler.go:77-120 | a pass of the controller program, its pinned JSON patch or its deletion with preconditions included, is the pass of the transition system, and tells whether it was accepted |
| Session.CheckRoom | internal/hook/hook.go:273-295 | the capacity check as the invocation's next step, with its early exits |
| Session.EnsureSecret | internal/hook/hook.go:397-412 | creates the order's Secret or verifies the one that is there |
| Session.RepairAccepted | internal/hook/hook.go:299-329 | a redelivery as the steps of the transition system |
| Session.AcceptNewer | internal/hook/hook.go:334-378 | a newer order as the steps of the transition system |
| Session.ReconcileExisting | internal/hook/hook.go:244-263 | classification and what follows, with every exit code |
| Session.ReadOrCreate | internal/hook/hook.go:138-159 | the Sandbox an attempt works on |
| Session.RunSession | internal/hook/hook.go:124-173 | whatever others do between its calls, the loop extends a run of the transition system; exit 0 leaves the invocation done, any other exit failed with that code or with an answer lost |
| Session.Run | internal/hook/hook.go:91-131 | a standby order, an undecodable template and one the contract rejects exit 2 with the store untouched; otherwise the invocation starts with the forced template and ends as the loop does |
| Safety.CallKeepsInv | internal/hook/hook.go:124-173 | every API call of every invocation keeps the invariant of the store |
| Safety.PassKeepsInv | internal/sessioncontroller/reconciler.go:456-465 | so does every pass, from any version, any Pods and any Secret that ever existed |
| Runs.StepKeepsInv | test/e2e/e2e_test.go:480-545 | so does every other step of the system |
| Runs.RunInv | internal/patch/patch.go:1-4 | the invariant holds in every state of every run |
| Effects.EveryWriteIsKnown | internal/hook/hook.go:177-378 | whatever a step of any run writes is a new Sandbox or the next version of the live one, changed in the fields of one of eight kinds of write and in no other |
| Provenance.EveryVersionIsTraced | internal/hook/hook.go:334-378 | every version has the Pod template of the invocation whose order it has accepted, but for what Wake installs and for labels the chart does not set, and its last-order-secret is empty or that order's |
| Provenance.EveryVersionMeetsTheContract | internal/hook/template.go:87-148 | if every invocation's template meets the contract, every version of every Sandbox does, for the account of its accepted order |
| Provenance.EveryPodMeetsTheContract | internal/hook/template.go:87-148 | and so does every Pod there ever was, for the order it runs |
| Provenance.EverySecretIsMade | internal/hook/hook.go:397-445 | every Secret there ever was is immutable, carries the order, attempt, session and work order of an invocation, has one owner, and is labelled by its session and account |
| PodSafety.ConfirmedSuspensionMeansNoPod | internal/sessioncontroller/reconciler.go:144-147 | Suspended=True for the current generation: the spec asks for suspension and no owned Pod exists |
| PodSafety.RunningPodsCarryTheAppliedOrder | internal/sessioncontroller/reconciler.go:238-262 | in Running mode every owned Pod carries the applied, last accepted order and its Secret |
| PodSafety.AtMostOnePod | internal/sessioncontroller/reconciler.go:440-454 | at most one Pod per Sandbox uid |
| OnePod.OnePodPerOrder | internal/sessioncontroller/reconciler.go:216-275 | over a whole run and as long as its Sandbox lives, no order is ever given two Pods of one uid |
| PodSafety.WakeFindsNoPod | internal/sessioncontroller/reconciler.go:216-275 | Wake never installs an order while a Pod of its Sandbox exists |
| PodSafety.SleepFindsFinishedPod | internal/sessioncontroller/reconciler.go:190-213 | Sleep commits only while the Sandbox's Pod exists and has terminated |
| PodSafety.ObservationFindsThePod | internal/sessioncontroller/reconciler.go:160-187 | an acknowledgement commits only in Running mode, on the applied order, while a Pod of this uid with that order and Secret stands, though Pod list and Sandbox were read stale |
| Orders.ExactlyOnePhase | internal/sessioncontroller/reconciler.go:100-117 | every version of every Sandbox is in exactly one of four phases |
| Orders.PredicatesAreDisjoint | internal/sessioncontroller/reconciler.go:100-117 | each predicate of a pass holds only in its own phase; the opposite order decides the same write |
| Orders.AcceptedAttemptsNeverDecrease | internal/hook/hook.go:224-233 | per uid the accepted attempt never decreases and the order changes only with a larger one |
| Orders.HighestAttemptWins | internal/hook/hook.go:206-263 | the accepted order was asked for, and no invocation that exited 0 on this uid asked for a higher attempt, or for another order at the same one |
| Orders.WakesStrictlyIncrease | internal/sessioncontroller/reconciler.go:216-275 | the orders installed on one uid have strictly increasing attempts, so none is started twice |
| Orders.CollectionFollowsSleep | internal/sessioncontroller/reconciler.go:399-438 | a collected Sandbox has no Pod and no pending order, and its last accepted order was woken, observed and put to sleep |
| Orders.SleepersAreDated | internal/sessioncontroller/reconciler.go:344-358 | a Suspended Sandbox without pending order counts as idle if and only if its suspension is confirmed and it is not deleting: none escapes collection |
| Agreement.PendingSecretIsReady | internal/hook/hook.go:397-445 | whenever pending-secret is set, that Secret exists and the controller's validator accepts it |
| Agreement.WakeIsBlockedOnlyUnprepared | internal/sessioncontroller/reconciler.go:228-246 | Wake is blocked if and only if preparation is incomplete or the Secret was not read; its other errors cannot occur |
| Agreement.HookMismatchesAreUnreachable | internal/hook/hook.go:307-314 | nor can the hook's pointer and Secret mismatches |
| Agreement.VerifiersAgree | internal/hook/hook.go:447-467 | under an order's name the hook accepts a Secret if and only if the controller would and it holds this request's work order |
| Agreement.ChangedAttemptIsCaught | internal/hook/hook.go:224-231 | an order delivered again with another attempt is taken for a redelivery, and then the hook rejects the Secret that stands, or the controller the one the redelivery makes: each accepts if and only if the attempts are the same, the hook also comparing work orders |
| Agreement.OtherReleaseIsRefused | internal/hook/hook.go:207-216 | whatever Sandbox of whatever state of a run, hooks of another release refuse it, with the code that says whether to try again, and its controller writes nothing |
| Acceptance.ExitsZeroIffWelcome | internal/hook/hook.go:124-173 | in any reachable state, delivered anew or at any attempt of its loop, an invocation then left undisturbed exits 0 if and only if nothing refuses it and the cap has room; its order is then accepted with its Secret published, or a higher attempt was there and nothing changed |
| Acceptance.ExitCodeIs | internal/hook/hook.go:29-33 | left undisturbed, an unwelcome request exits 1 on a Sandbox being deleted or a full cap, and 2 otherwise; on a Sandbox that is there nothing is written |
| Continuing.ContinuingExitsZeroIff | internal/hook/hook.go:133-172 | in any reachable state, from before any of its calls and on however old a snapshot, an invocation then left undisturbed exits 0 if and only if the store still gives it what it needs from there: a current snapshot, nothing left to write, or an attempt left and a welcome; its order is then in, or it wrote no Sandbox |
| Continuing.ReplacedSandboxIsServedIff | internal/patch/patch.go:52-55 | an invocation whose Sandbox was replaced by one of another uid before its patch exits 0 if and only if an attempt is left and that one welcomes it, and then it serves that one |
| Continuing.StaleIsRedelivered | internal/hook/hook.go:161-164 | with an attempt left, going on from a stale snapshot exits 0 if and only if a redelivery would |
| SleepDates.AgeCountsFromSleep | internal/sessioncontroller/reconciler.go:403-411 | every sleeper was put to sleep by a pass of the run and its age counts from that pass's clock: the age limit collects it if and only if it is confirmed asleep and that long past |
| Atomicity.StepIsAtomic | internal/patch/patch.go:1-4 | every step has the effect of one action that reads, decides and writes at once |
| Atomicity.EveryRunIsAtomic | internal/hook/hook.go:133-172 | every interleaved run has the Sandbox history of such actions |
| Atomicity.StaleWritesNeverCommit | internal/sessioncontroller/reconciler.go:456-465 | once a Sandbox is written, nothing computed from an earlier version of it ever commits |
| Capacity.ControllersAddNoHolder | internal/sessioncontroller/reconciler.go:160-275 | no step but a hook's ever adds a slot holder |
| Capacity.OvershootIsBounded | internal/hook/hook.go:266-295 | with c invocations in flight and cap L, at most L + c - 1 Sandboxes hold a slot |
| Capacity.SerialHooksRespectTheCap | internal/hook/hook.go:271-295 | invocations that never overlap respect the cap |
| Capacity.ActiveSessionsAreBounded | internal/hook/hook.go:266-295 | the same bound on the live Sandboxes that are undeleted and Running or with an order pending |
| Capacity.AdmittedIff | internal/hook/hook.go:273-295 | over a complete list the check admits exactly when fewer other sessions than the cap are active in the store |
| Capacity.CapIsConsultedIff | internal/hook/hook.go:273-280 | a newer order passes the check by if and only if there is no cap or its own Sandbox is active already |
| Overshoot.BoundIsAttained | internal/hook/hook.go:271-295 | for every L and c, any L + c - 1 sessions with Sandbox names of their own attain the bound in some run |
| Overshoot.BoundIsAttainedByName | internal/naming/naming.go:107-123 | with the names the program derives there are such sessions, for L + c - 1 up to 10^26 |
| Progress.EveryStepAdvances | internal/sessioncontroller/reconciler.go:77-120 | while no hook writes the Sandbox, every step leaves a prepared order pending or observed and lowers a rank unless it does not bear on it |
| Liveness.SomeStepIsPossible | internal/sessioncontroller/reconciler.go:160-275 | and a step that lowers the rank is always possible |
| Liveness.PendingIsObserved | internal/sessioncontroller/reconciler.go:77-120 | on every endless run that is weakly fair to the named kinds of steps and on which no hook writes the Sandbox, the order is started and its Pod observed |
| Liveness.ExitZeroIsObserved | internal/hook/hook.go:26-32 | exit 0 is a promise: an accepted order, or one of a higher attempt that replaced it, is eventually started and observed |
| Lifecycle.CanBeObserved | internal/sessioncontroller/reconciler.go:100-117 | from every state of every run a prepared order can be started and observed by the controllers and the cluster alone |
| Lifecycle.SandboxCanVanishUnderItsHook | internal/patch/patch.go:52-55 | for any accepted template, any session and two of its orders there is a run in which the first is created, started, observed and put to sleep, the second's hook reads the sleeper and gets to its patch, and the sleeper is collected and removed; and one that goes on until another Sandbox has the name |
| Recovery.AfterIsReachable | internal/hook/hook.go:124-173 | what an undisturbed invocation does in k calls, a run does in k steps |
| Recovery.CrashRecovery | internal/hook/hook.go:297-329 | stopped after any number of calls and delivered again with another clock, an invocation ends with the store and exit of one that was never stopped |
| Recovery.FurtherRedeliveryWritesNothing | internal/hook/hook.go:297-329 | after exit 0 a further delivery of the order writes nothing and exits 0 |
| Recovery.VanishedSandboxIsRecreatedIff | internal/patch/patch.go:52-55 | an invocation whose Sandbox vanished before its patch recreates it if and only if an attempt is left and the cap has room |

## Left out

- Zombie and multiple-Pods alarms, events, metrics, logs and message texts: they decide nothing about the store.
- Requeue delays, back-off sleeps and contexts: time passes between any two steps anyway.
- Environment and file parsing, YAML decoding: only what they guarantee is assumed.
- Client, cache, leader election and manager wiring, Helm templates, network policy, images and scripts.
- The Ready condition and the sandbox controller's refusal to act on two owned Pods: `PodSafety.AtMostOnePod` shows there never are two.
- Error wrapping and the text of exit errors: an exit is its code. Which API errors map to which code is left open; any call may fail with 1 or 2.
- SHA-256 and FNV internals: parameters. Strings are sequences of characters; in the encoded Secret name and its length prefix one character stands for one byte.
- Numbers in JSON are text: the float conversion of integers beyond 2^53 in the decoded patch is not modelled.
- A template whose first work-order volume has no Secret source makes publishNewer dereference nil; ApplyContract rules it out, and the methods require what it guarantees.
- Patch.Optimistic: the diff itself is the merge-patch library's, modelled from its documented behaviour; the library's source is not part of this model.
- Patch.Send: the API server's own validation, defaulting and field management are not part of this model.
- Wire.EncodingTells: the JSON has the fields the model's Sandbox has, each of its `extra` fields as one text, and a deletion time only as set or not.
- Recovery.CrashRecovery: compares the store an interrupted invocation leaves with an uninterrupted one's, so nobody else writes in between; with other writers, `Acceptance.ExitsZeroIffWelcome` and `Continuing.ContinuingExitsZeroIff` say what becomes of either. The redelivery carries the same template.
