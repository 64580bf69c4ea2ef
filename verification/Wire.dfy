/** A Sandbox as it goes over the wire, and the protocol's pinned patch as the JSON merge
    patch it is sent as. */
module Wire {
  import opened Api
  import opened Decimal
  import opened Patch
  import opened Protocol
  import opened Invariants

  // ---- Keys

  /** No two keys are written alike. */
  lemma OwnTextsDiffer()
    ensures forall i, j :: 0 <= i < j < |OWN_ANNOTATIONS| ==> OWN_ANNOTATIONS[i] != OWN_ANNOTATIONS[j]
    ensures forall i, j :: 0 <= i < j < |OWN_LABELS| ==> OWN_LABELS[i] != OWN_LABELS[j]
  {
  }

  lemma AnnotationTexts(a: AnnotationKey, b: AnnotationKey)
    requires a.Text() == b.Text()
    ensures a == b
  {
    OwnTextsDiffer();
  }

  lemma LabelTexts(a: LabelKey, b: LabelKey)
    requires a.Text() == b.Text()
    ensures a == b
  {
    OwnTextsDiffer();
  }

  lemma TextsTell()
    ensures forall a: AnnotationKey, b: AnnotationKey :: a.Text() == b.Text() ==> a == b
    ensures forall a: LabelKey, b: LabelKey :: a.Text() == b.Text() ==> a == b
  {
    forall a: AnnotationKey, b: AnnotationKey | a.Text() == b.Text() ensures a == b {
      AnnotationTexts(a, b);
    }
    forall a: LabelKey, b: LabelKey | a.Text() == b.Text() ensures a == b {
      LabelTexts(a, b);
    }
  }

  // ---- Encoding

  function AnnotationFields(m: Annotations): Fields {
    TextsTell();
    map k | k in m :: k.Text() := Str(m[k])
  }

  function LabelFields(m: Labels): Fields {
    TextsTell();
    map k | k in m :: k.Text() := Str(m[k])
  }

  /** A field that is left out when unset. */
  function Optionally(key: string, v: Option<Json>): Fields {
    match v
    case None => map[]
    case Some(json) => map[key := json]
  }

  function Items<T>(list: seq<T>, item: T -> Json): seq<Json> {
    seq(|list|, i requires 0 <= i < |list| => item(list[i]))
  }

  function VolumeJson(v: Volume): Json {
    match v.source
    case SecretSource(name, extra) => Obj(map["name" := Str(v.name), "secret" := Str(name), "extra" := Str(extra)])
    case OtherSource(extra) => Obj(map["name" := Str(v.name), "extra" := Str(extra)])
  }

  function MountJson(m: Mount): Json {
    Obj(map["name" := Str(m.name), "mountPath" := Str(m.mountPath), "readOnly" := Bool(m.readOnly),
            "subPath" := Str(m.subPath), "extra" := Str(m.extra)])
  }

  function ContainerJson(c: Container): Json {
    Obj(map["name" := Str(c.name),
            "args" := Arr(Items(c.args, s => Str(s))),
            "volumeMounts" := Arr(Items(c.mounts, MountJson)),
            "extra" := Str(c.extra)])
  }

  function RestartText(p: RestartPolicy): string {
    match p
    case Always => "Always"
    case OnFailure => "OnFailure"
    case Never => "Never"
  }

  function TokenJson(token: Option<bool>): Option<Json> {
    match token
    case None => None
    case Some(b) => Some(Bool(b))
  }

  function NumJson(n: Option<int>): Option<Json> {
    match n
    case None => None
    case Some(i) => Some(Num(FormatInt(i)))
  }

  function TextJson(t: Option<string>): Option<Json> {
    match t
    case None => None
    case Some(text) => Some(Str(text))
  }

  function TemplateFields(pt: PodTemplate): Fields {
    map["labels" := Obj(LabelFields(pt.labels)),
        "annotations" := Obj(AnnotationFields(pt.annotations)),
        "restartPolicy" := Str(RestartText(pt.restartPolicy)),
        "containers" := Arr(Items(pt.containers, ContainerJson)),
        "volumes" := Arr(Items(pt.volumes, VolumeJson)),
        "extra" := Str(pt.extra)]
    + Optionally("automountServiceAccountToken", TokenJson(pt.automountToken))
    + Optionally("terminationGracePeriodSeconds", NumJson(pt.gracePeriod))
  }

  function SpecFields(spec: Spec): Fields {
    map["operatingMode" := Str(if spec.mode == Running then "Running" else "Suspended"),
        "volumeClaimTemplates" := Arr(Items(spec.claims, s => Str(s))),
        "podTemplate" := Obj(TemplateFields(spec.template))]
    + Optionally("shutdownTime", NumJson(spec.shutdownTime))
    + Optionally("shutdownPolicy", TextJson(spec.shutdownPolicy))
  }

  function ConditionJson(sb: Sandbox, c: ConditionType): Option<Json> {
    if c in sb.conditions
    then Some(Obj(map["status" := Bool(sb.conditions[c].status),
                      "observedGeneration" := Num(FormatInt(sb.conditions[c].observedGeneration))]))
    else None
  }

  function MetaFields(sb: Sandbox): Fields {
    map["name" := Str(sb.name),
        "namespace" := Str(sb.namespace),
        UID := Str(sb.uid),
        RESOURCE_VERSION := Str(FormatInt(sb.rv)),
        "generation" := Num(FormatInt(sb.generation)),
        "labels" := Obj(LabelFields(sb.labels)),
        "annotations" := Obj(AnnotationFields(sb.annotations))]
    + Optionally("deletionTimestamp", if sb.deleting then Some(Str("set")) else None)
  }

  function Encode(sb: Sandbox): Fields {
    map[METADATA := Obj(MetaFields(sb)),
        "spec" := Obj(SpecFields(sb.spec)),
        "status" := Obj(Optionally("suspended", ConditionJson(sb, SuspendedCondition)) +
                        Optionally("finished", ConditionJson(sb, FinishedCondition)))]
  }

  // ---- The encoding has no nulls

  lemma NullFreeSum(a: Fields, b: Fields)
    requires NullFree(Obj(a)) && NullFree(Obj(b))
    ensures NullFree(Obj(a + b))
  {
  }

  lemma NullFreeOptionally(key: string, v: Option<Json>)
    requires v.Some? ==> !v.value.Null? && NullFree(v.value)
    ensures NullFree(Obj(Optionally(key, v)))
  {
  }

  lemma NullFreeMaps(labels: Labels, annotations: Annotations)
    ensures NullFree(Obj(LabelFields(labels))) && NullFree(Obj(AnnotationFields(annotations)))
  {
  }

  lemma NullFreeTemplate(pt: PodTemplate)
    ensures NullFree(Obj(TemplateFields(pt)))
  {
    hide AnnotationFields, LabelFields, Optionally;
    NullFreeMaps(pt.labels, pt.annotations);
    NullFreeOptionally("automountServiceAccountToken", TokenJson(pt.automountToken));
    NullFreeOptionally("terminationGracePeriodSeconds", NumJson(pt.gracePeriod));
    var fixed: Fields := map[
      "labels" := Obj(LabelFields(pt.labels)),
      "annotations" := Obj(AnnotationFields(pt.annotations)),
      "restartPolicy" := Str(RestartText(pt.restartPolicy)),
      "containers" := Arr(Items(pt.containers, ContainerJson)),
      "volumes" := Arr(Items(pt.volumes, VolumeJson)),
      "extra" := Str(pt.extra)];
    assert NullFree(Obj(fixed));
    NullFreeSum(fixed, Optionally("automountServiceAccountToken", TokenJson(pt.automountToken)));
    NullFreeSum(fixed + Optionally("automountServiceAccountToken", TokenJson(pt.automountToken)),
                Optionally("terminationGracePeriodSeconds", NumJson(pt.gracePeriod)));
  }

  lemma NullFreeSpec(spec: Spec)
    ensures NullFree(Obj(SpecFields(spec)))
  {
    hide TemplateFields, Optionally;
    NullFreeTemplate(spec.template);
    NullFreeOptionally("shutdownTime", NumJson(spec.shutdownTime));
    NullFreeOptionally("shutdownPolicy", TextJson(spec.shutdownPolicy));
    var fixed: Fields := map[
      "operatingMode" := Str(if spec.mode == Running then "Running" else "Suspended"),
      "volumeClaimTemplates" := Arr(Items(spec.claims, s => Str(s))),
      "podTemplate" := Obj(TemplateFields(spec.template))];
    assert NullFree(Obj(fixed));
    NullFreeSum(fixed, Optionally("shutdownTime", NumJson(spec.shutdownTime)));
    NullFreeSum(fixed + Optionally("shutdownTime", NumJson(spec.shutdownTime)),
                Optionally("shutdownPolicy", TextJson(spec.shutdownPolicy)));
  }

  lemma NullFreeMeta(sb: Sandbox)
    ensures NullFree(Obj(MetaFields(sb)))
  {
    hide LabelFields, AnnotationFields, Optionally;
    NullFreeMaps(sb.labels, sb.annotations);
    NullFreeOptionally("deletionTimestamp", if sb.deleting then Some(Str("set")) else None);
  }

  lemma NullFreeStatus(sb: Sandbox)
    ensures NullFree(Obj(Optionally("suspended", ConditionJson(sb, SuspendedCondition)) +
                         Optionally("finished", ConditionJson(sb, FinishedCondition))))
  {
    hide Optionally;
    NullFreeOptionally("suspended", ConditionJson(sb, SuspendedCondition));
    NullFreeOptionally("finished", ConditionJson(sb, FinishedCondition));
    NullFreeSum(Optionally("suspended", ConditionJson(sb, SuspendedCondition)),
                Optionally("finished", ConditionJson(sb, FinishedCondition)));
  }

  lemma EncodingIsNullFree(sb: Sandbox)
    ensures NullFree(Obj(Encode(sb)))
  {
    hide MetaFields, SpecFields, Optionally, ConditionJson;
    NullFreeMeta(sb);
    NullFreeSpec(sb.spec);
    NullFreeStatus(sb);
  }

  // ---- Pins

  lemma MetaPins(sb: Sandbox)
    ensures MetaOf(Encode(sb)) == MetaFields(sb)
    ensures MetaText(Encode(sb), UID) == sb.uid && MetaText(Encode(sb), RESOURCE_VERSION) == FormatInt(sb.rv)
  {
    hide FormatInt, LabelFields, AnnotationFields, SpecFields, ConditionJson;
    assert "deletionTimestamp" != UID && "deletionTimestamp" != RESOURCE_VERSION;
  }

  /** Of two Sandboxes with one uid and one resourceVersion the pins are the same, and of
      no others. */
  lemma PinsTell(a: Sandbox, b: Sandbox)
    ensures SamePins(Encode(a), Encode(b)) <==> a.uid == b.uid && a.rv == b.rv
  {
    hide Encode;
    MetaPins(a);
    MetaPins(b);
    if FormatInt(a.rv) == FormatInt(b.rv) {
      DigitsTell(a.rv, b.rv);
    }
  }

  // ---- Nothing is lost on the wire

  lemma AnnotationsTell(a: Annotations, b: Annotations)
    requires AnnotationFields(a) == AnnotationFields(b)
    ensures a == b
  {
    AnnotationsWithin(a, b);
    AnnotationsWithin(b, a);
  }

  lemma AnnotationsWithin(a: Annotations, b: Annotations)
    requires AnnotationFields(a) == AnnotationFields(b)
    ensures forall k :: k in a ==> k in b && a[k] == b[k]
  {
    hide AnnotationKey.Text;
    TextsTell();
    forall k | k in a ensures k in b && a[k] == b[k] {
      assert k.Text() in AnnotationFields(a) && AnnotationFields(a)[k.Text()] == Str(a[k]);
      var j :| j in b && j.Text() == k.Text();
    }
  }

  lemma LabelsTell(a: Labels, b: Labels)
    requires LabelFields(a) == LabelFields(b)
    ensures a == b
  {
    LabelsWithin(a, b);
    LabelsWithin(b, a);
  }

  lemma LabelsWithin(a: Labels, b: Labels)
    requires LabelFields(a) == LabelFields(b)
    ensures forall k :: k in a ==> k in b && a[k] == b[k]
  {
    hide LabelKey.Text;
    TextsTell();
    forall k | k in a ensures k in b && a[k] == b[k] {
      assert k.Text() in LabelFields(a) && LabelFields(a)[k.Text()] == Str(a[k]);
      var j :| j in b && j.Text() == k.Text();
    }
  }

  /** Lists that are encoded item by item. */
  lemma ItemsTell<T>(a: seq<T>, b: seq<T>, item: T -> Json)
    requires forall x, y :: item(x) == item(y) ==> x == y
    requires Arr(Items(a, item)) == Arr(Items(b, item))
    ensures a == b
  {
    assert |Items(a, item)| == |Items(b, item)|;
    forall i | 0 <= i < |a| ensures a[i] == b[i] {
      assert Items(a, item)[i] == Items(b, item)[i];
    }
  }

  lemma VolumesTell()
    ensures forall a, b :: VolumeJson(a) == VolumeJson(b) ==> a == b
  {
    forall a, b | VolumeJson(a) == VolumeJson(b) ensures a == b {
      var x, y := VolumeJson(a).fields, VolumeJson(b).fields;
      assert x["name"] == y["name"] && x["extra"] == y["extra"] && ("secret" in x <==> "secret" in y);
      assert "secret" in x ==> x["secret"] == y["secret"];
    }
  }

  lemma MountsTell()
    ensures forall a, b :: MountJson(a) == MountJson(b) ==> a == b
  {
    forall a, b | MountJson(a) == MountJson(b) ensures a == b {
      var x, y := MountJson(a).fields, MountJson(b).fields;
      assert x["name"] == y["name"] && x["mountPath"] == y["mountPath"] && x["readOnly"] == y["readOnly"];
      assert x["subPath"] == y["subPath"] && x["extra"] == y["extra"];
    }
  }

  lemma ContainersTell()
    ensures forall a, b :: ContainerJson(a) == ContainerJson(b) ==> a == b
  {
    hide MountJson;
    MountsTell();
    forall a, b | ContainerJson(a) == ContainerJson(b) ensures a == b {
      var x, y := ContainerJson(a).fields, ContainerJson(b).fields;
      assert x["name"] == y["name"] && x["args"] == y["args"] && x["extra"] == y["extra"];
      assert x["volumeMounts"] == y["volumeMounts"];
      ItemsTell(a.args, b.args, s => Str(s));
      ItemsTell(a.mounts, b.mounts, MountJson);
    }
  }

  function Lookup(m: Fields, k: string): Option<Json> {
    if k in m then Some(m[k]) else None
  }

  lemma TemplateMembers(pt: PodTemplate)
    ensures var x := TemplateFields(pt);
            && Lookup(x, "labels") == Some(Obj(LabelFields(pt.labels)))
            && Lookup(x, "annotations") == Some(Obj(AnnotationFields(pt.annotations)))
            && Lookup(x, "restartPolicy") == Some(Str(RestartText(pt.restartPolicy)))
            && Lookup(x, "containers") == Some(Arr(Items(pt.containers, ContainerJson)))
            && Lookup(x, "volumes") == Some(Arr(Items(pt.volumes, VolumeJson)))
            && Lookup(x, "extra") == Some(Str(pt.extra))
            && Lookup(x, "automountServiceAccountToken") == TokenJson(pt.automountToken)
            && Lookup(x, "terminationGracePeriodSeconds") == NumJson(pt.gracePeriod)
  {
    hide LabelFields, AnnotationFields, FormatInt, VolumeJson, ContainerJson, Items, RestartText, TokenJson, NumJson;
  }

  lemma TemplatesTell(a: PodTemplate, b: PodTemplate)
    requires TemplateFields(a) == TemplateFields(b)
    ensures a == b
  {
    hide LabelFields, AnnotationFields, NumJson, VolumeJson, ContainerJson, Items, TemplateFields, Lookup;
    TemplateMembers(a);
    TemplateMembers(b);
    LabelsTell(a.labels, b.labels);
    AnnotationsTell(a.annotations, b.annotations);
    ContainersTell();
    VolumesTell();
    ItemsTell(a.containers, b.containers, ContainerJson);
    ItemsTell(a.volumes, b.volumes, VolumeJson);
    NumsTell(a.gracePeriod, b.gracePeriod);
  }

  lemma NumsTell(a: Option<int>, b: Option<int>)
    requires NumJson(a) == NumJson(b)
    ensures a == b
  {
    hide FormatInt;
    if a.Some? {
      FormatTells(a.value, b.value);
    }
  }

  lemma SpecMembers(spec: Spec)
    ensures var x := SpecFields(spec);
            && Lookup(x, "operatingMode") == Some(Str(if spec.mode == Running then "Running" else "Suspended"))
            && Lookup(x, "volumeClaimTemplates") == Some(Arr(Items(spec.claims, s => Str(s))))
            && Lookup(x, "podTemplate") == Some(Obj(TemplateFields(spec.template)))
            && Lookup(x, "shutdownTime") == NumJson(spec.shutdownTime)
            && Lookup(x, "shutdownPolicy") == TextJson(spec.shutdownPolicy)
  {
    hide TemplateFields, NumJson, TextJson, Items;
  }

  lemma SpecsTell(a: Spec, b: Spec)
    requires SpecFields(a) == SpecFields(b)
    ensures a == b
  {
    hide TemplateFields, NumJson, SpecFields, Lookup, Items;
    SpecMembers(a);
    SpecMembers(b);
    TemplatesTell(a.template, b.template);
    ItemsTell(a.claims, b.claims, s => Str(s));
    NumsTell(a.shutdownTime, b.shutdownTime);
  }

  lemma MetaMembers(sb: Sandbox)
    ensures var x := MetaFields(sb);
            && Lookup(x, "name") == Some(Str(sb.name)) && Lookup(x, "namespace") == Some(Str(sb.namespace))
            && Lookup(x, UID) == Some(Str(sb.uid))
            && Lookup(x, RESOURCE_VERSION) == Some(Str(FormatInt(sb.rv)))
            && Lookup(x, "generation") == Some(Num(FormatInt(sb.generation)))
            && Lookup(x, "labels") == Some(Obj(LabelFields(sb.labels)))
            && Lookup(x, "annotations") == Some(Obj(AnnotationFields(sb.annotations)))
            && Lookup(x, "deletionTimestamp").Some? == sb.deleting
  {
    hide LabelFields, AnnotationFields, FormatInt;
  }

  lemma MetaTells(a: Sandbox, b: Sandbox)
    requires MetaFields(a) == MetaFields(b)
    ensures a.name == b.name && a.namespace == b.namespace && a.uid == b.uid && a.rv == b.rv
    ensures a.generation == b.generation && a.deleting == b.deleting
    ensures a.labels == b.labels && a.annotations == b.annotations
  {
    hide LabelFields, AnnotationFields, FormatInt, MetaFields, Lookup;
    MetaMembers(a);
    MetaMembers(b);
    FormatTells(a.rv, b.rv);
    FormatTells(a.generation, b.generation);
    LabelsTell(a.labels, b.labels);
    AnnotationsTell(a.annotations, b.annotations);
  }

  lemma ConditionTells(a: Sandbox, b: Sandbox, c: ConditionType)
    requires ConditionJson(a, c) == ConditionJson(b, c)
    ensures c in a.conditions <==> c in b.conditions
    ensures c in a.conditions ==> a.conditions[c] == b.conditions[c]
  {
    hide FormatInt;
    if c in a.conditions {
      var x, y := ConditionJson(a, c).value.fields, ConditionJson(b, c).value.fields;
      assert x["status"] == y["status"] && x["observedGeneration"] == y["observedGeneration"];
      FormatTells(a.conditions[c].observedGeneration, b.conditions[c].observedGeneration);
    }
  }

  lemma SameConditions(a: map<ConditionType, Condition>, b: map<ConditionType, Condition>)
    requires SuspendedCondition in a <==> SuspendedCondition in b
    requires FinishedCondition in a <==> FinishedCondition in b
    requires SuspendedCondition in a ==> a[SuspendedCondition] == b[SuspendedCondition]
    requires FinishedCondition in a ==> a[FinishedCondition] == b[FinishedCondition]
    ensures a == b
  {
    forall c: ConditionType ensures c in a <==> c in b {
      assert c == SuspendedCondition || c == FinishedCondition;
    }
    forall c | c in a ensures a[c] == b[c] {
      assert c == SuspendedCondition || c == FinishedCondition;
    }
  }

  /** Two Sandboxes with the same encoding are the same. */
  lemma EncodingTells(a: Sandbox, b: Sandbox)
    requires Encode(a) == Encode(b)
    ensures a == b
  {
    hide MetaFields, SpecFields, ConditionJson;
    var x, y := Encode(a), Encode(b);
    assert x[METADATA] == y[METADATA] && x["spec"] == y["spec"] && x["status"] == y["status"];
    MetaTells(a, b);
    SpecsTell(a.spec, b.spec);
    var s, t := x["status"].fields, y["status"].fields;
    assert Lookup(s, "suspended") == ConditionJson(a, SuspendedCondition);
    assert Lookup(t, "suspended") == ConditionJson(b, SuspendedCondition);
    assert Lookup(s, "finished") == ConditionJson(a, FinishedCondition);
    assert Lookup(t, "finished") == ConditionJson(b, FinishedCondition);
    ConditionTells(a, b, SuspendedCondition);
    ConditionTells(a, b, FinishedCondition);
    SameConditions(a.conditions, b.conditions);
  }

  /** The object with another resourceVersion and generation, as the server stamps it. */
  function Stamped(doc: Fields, rv: nat, generation: nat): Fields {
    var meta := MetaOf(doc)[RESOURCE_VERSION := Str(FormatInt(rv))]["generation" := Num(FormatInt(generation))];
    doc[METADATA := Obj(meta)]
  }

  lemma StampedEncoding(sb: Sandbox, rv: nat, generation: nat)
    ensures Encode(sb.(rv := rv, generation := generation)) == Stamped(Encode(sb), rv, generation)
  {
    hide FormatInt, MetaFields, SpecFields, Optionally, ConditionJson;
    MetaPins(sb);
    var to := sb.(rv := rv, generation := generation);
    MetaStamped(sb, rv, generation);
    SameReport(to, sb);
  }

  lemma SameReport(a: Sandbox, b: Sandbox)
    requires a.conditions == b.conditions
    ensures forall c :: ConditionJson(a, c) == ConditionJson(b, c)
  {
  }

  lemma MetaStamped(sb: Sandbox, rv: nat, generation: nat)
    ensures MetaFields(sb.(rv := rv, generation := generation)) ==
            MetaFields(sb)[RESOURCE_VERSION := Str(FormatInt(rv))]["generation" := Num(FormatInt(generation))]
  {
    hide FormatInt, LabelFields, AnnotationFields;
  }

  lemma OwnPins(sb: Sandbox)
    ensures WithPins(Encode(sb), FormatInt(sb.rv), sb.uid) == Encode(sb)
  {
    hide FormatInt, LabelFields, AnnotationFields, SpecFields, ConditionJson, Optionally;
    MetaPins(sb);
    MetaHasPins(sb);
  }

  lemma MetaHasPins(sb: Sandbox)
    ensures MetaFields(sb)[RESOURCE_VERSION := Str(FormatInt(sb.rv))][UID := Str(sb.uid)] == MetaFields(sb)
  {
    hide FormatInt, LabelFields, AnnotationFields;
  }

  // ---- The protocol's patch is the JSON patch

  function OnTheWire(s: State, n: string): Option<Fields> {
    if n in s.sandboxes then Some(Encode(s.sandboxes[n])) else None
  }

  /** The live Sandbox of the snapshot's name has the snapshot's pins exactly when the
      protocol calls the snapshot current. */
  lemma PinsAreCurrent(cfg: Config, s: State, snap: Sandbox)
    requires Inv(cfg, s) && IsVersion(s, snap)
    ensures snap.name in s.sandboxes && SamePins(Encode(s.sandboxes[snap.name]), Encode(snap)) <==> Current(s, snap)
    ensures Current(s, snap) ==> OnTheWire(s, snap.name) == Some(Encode(snap))
    ensures OnTheWire(s, snap.name) == Some(Encode(snap)) ==> Current(s, snap)
  {
    hide Inv, Encode, SamePins;
    SameVersion(cfg, s, snap);
    if snap.name in s.sandboxes {
      PinsTell(s.sandboxes[snap.name], snap);
      SelfPins(Encode(snap));
    }
  }

  lemma SelfPins(doc: Fields)
    ensures SamePins(doc, doc)
  {
    hide MetaText;
  }

  lemma OtherUid(s: State, snap: Sandbox)
    requires snap.name in s.sandboxes
    ensures MetaText(Encode(s.sandboxes[snap.name]), UID) != MetaText(Encode(snap), UID) <==>
              s.sandboxes[snap.name].uid != snap.uid
  {
    hide Encode, FormatInt, MetaText;
    MetaPins(snap);
    MetaPins(s.sandboxes[snap.name]);
  }

  lemma CanPin(cfg: Config, s: State, snap: Sandbox)
    requires Inv(cfg, s) && IsVersion(s, snap)
    ensures Pinnable(Encode(snap))
  {
    hide Inv, Encode, FormatInt, MetaText;
    MetaPins(snap);
    VersionHasUid(cfg, s, snap);
  }

  /** Sending the pinned JSON patch from `snap` to `mut` is the protocol's Patch: it is
      accepted exactly when the pins hold; refused, the answer tells a missing object from
      a recreated one; accepted, the merged object is `mut`, and what the store then holds
      is that with the server's stamps. */
  lemma PatchOnTheWire(cfg: Config, s: State, snap: Sandbox, mut: Sandbox)
    requires Inv(cfg, s) && IsVersion(s, snap)
    requires mut.name == snap.name && mut.uid == snap.uid && mut.rv == snap.rv
    ensures Pinnable(Encode(snap))
    ensures var answer := Send(OnTheWire(s, snap.name), PinnedPatch(Encode(snap), Encode(mut)));
            && (answer.Accepted? <==> Current(s, snap))
            && (answer.NotFound? <==> snap.name !in s.sandboxes)
            && (answer.Invalid? <==> snap.name in s.sandboxes && s.sandboxes[snap.name].uid != snap.uid)
            && (answer.Accepted? ==>
                  var stored := Protocol.Patch(s, snap, mut).sandboxes[snap.name];
                  answer.merged == Encode(mut) &&
                  Encode(stored) == Stamped(answer.merged, stored.rv, stored.generation))
  {
    hide Inv, Encode, Send, PinnedPatch, FormatInt, Pinnable, MetaText, SamePins, WithPins, NullFree, Stamped,
         Current, MetaOf;
    var cur := OnTheWire(s, snap.name);
    PinsAreCurrent(cfg, s, snap);
    CanPin(cfg, s, snap);
    EncodedMeta(mut);
    CommitsOnlyOnItsVersion(Encode(snap), Encode(mut), cur);
    if snap.name in s.sandboxes {
      OtherUid(s, snap);
    }
    if Current(s, snap) {
      AcceptedIsMut(s, snap, mut);
    }
  }

  /** patch.Optimistic and the server's answer to it. */
  method SendOptimistic(cfg: Config, s: State, snap: Sandbox, mut: Sandbox) returns (answer: Answer)
    requires Inv(cfg, s) && IsVersion(s, snap)
    requires mut.name == snap.name && mut.uid == snap.uid && mut.rv == snap.rv
    ensures answer == Send(OnTheWire(s, snap.name), PinnedPatch(Encode(snap), Encode(mut)))
    ensures answer.Accepted? <==> Current(s, snap)
    ensures answer.Accepted? ==> answer.merged == Encode(mut)
  {
    hide Inv, Encode, Send, PinnedPatch, Current;
    PatchOnTheWire(cfg, s, snap, mut);
    var patch := Optimistic(Encode(snap), Encode(mut));
    answer := Send(OnTheWire(s, snap.name), patch.value);
  }

  lemma AcceptedIsMut(s: State, snap: Sandbox, mut: Sandbox)
    requires Current(s, snap) && mut.name == snap.name && mut.uid == snap.uid && mut.rv == snap.rv
    ensures NullFree(Obj(Encode(mut)))
    ensures WithPins(Encode(mut), MetaText(Encode(snap), RESOURCE_VERSION), MetaText(Encode(snap), UID)) == Encode(mut)
    ensures var stored := Protocol.Patch(s, snap, mut).sandboxes[snap.name];
            Encode(stored) == Stamped(Encode(mut), stored.rv, stored.generation)
  {
    hide Encode, FormatInt, MetaText, WithPins, NullFree, Stamped, MetaOf;
    EncodingIsNullFree(mut);
    MetaPins(snap);
    OwnPins(mut);
    var stored := Stored(s.sandboxes[snap.name], mut, |s.versions|);
    StampedEncoding(mut, stored.rv, stored.generation);
  }

  lemma EncodedMeta(sb: Sandbox)
    ensures METADATA in Encode(sb) && Encode(sb)[METADATA].Obj?
  {
    hide MetaFields, SpecFields, Optionally, ConditionJson;
  }

  lemma VersionHasUid(cfg: Config, s: State, snap: Sandbox)
    requires Inv(cfg, s) && IsVersion(s, snap)
    ensures snap.uid != ""
  {
    hide EveryVersionOk, HistoryOk, SecretsOk, SeenOk, ConditionsOk, PodsOk, PodGenerationsOk, HooksOk, RequestsOk;
  }

  lemma SameVersion(cfg: Config, s: State, snap: Sandbox)
    requires Inv(cfg, s) && IsVersion(s, snap)
    ensures snap.name in s.sandboxes && s.sandboxes[snap.name].rv == snap.rv ==> s.sandboxes[snap.name] == snap
  {
    hide EveryVersionOk, HistoryOk, SecretsOk, SeenOk, ConditionsOk, PodsOk, PodGenerationsOk, HooksOk, RequestsOk;
  }
}
