/**
 The admission webhook's patch builder: which operations it emits for a pod, when they apply one
 after another, and what the pod they produce is.
 */
module Webhook {
  import opened Bytes
  import opened JsonPatch

  const VOLUME_NAME := "syntriass-overlay"
  const INIT_CONTAINER_NAME := "syntriass-binary-copier"
  const APP_MOUNT_PATH := "/usr/lib/syntriass"
  const INIT_MOUNT_PATH := "/syntriass"
  const OVERLAY_LIBRARY_NAME := "libsyntriass_overlay.so"
  const PRELOAD := "LD_PRELOAD"
  const ENFORCEMENT_LABEL := "syntriass.io/enforcement"
  const SUITE_ANNOTATION := "syntriass.io/pqc-suite"

  /** What the webhook reads from its environment. */
  datatype Settings = Settings(kernelNative: bool, image: string, source: string)

  function Volume(): Json {
    Obj(map["name" := Str(VOLUME_NAME), "emptyDir" := Obj(map["medium" := Str("Memory")])])
  }

  function InitContainer(settings: Settings): Json {
    var library := INIT_MOUNT_PATH + "/" + OVERLAY_LIBRARY_NAME;
    Obj(map[
      "name" := Str(INIT_CONTAINER_NAME),
      "image" := Str(settings.image),
      "imagePullPolicy" := Str("IfNotPresent"),
      "command" := Arr([Str("/bin/sh"), Str("-ec")]),
      "args" := Arr([Str("cp " + settings.source + " " + library + " && chmod 0555 " + library)]),
      "volumeMounts" := Arr([Obj(map["name" := Str(VOLUME_NAME), "mountPath" := Str(INIT_MOUNT_PATH)])]),
      "securityContext" := Obj(map[
        "allowPrivilegeEscalation" := Bool(false),
        "readOnlyRootFilesystem" := Bool(true),
        "runAsNonRoot" := Bool(true),
        "runAsUser" := Number(65532),
        "runAsGroup" := Number(65532),
        "capabilities" := Obj(map["drop" := Arr([Str("ALL")])])])])
  }

  function Mount(): Json {
    Obj(map["name" := Str(VOLUME_NAME), "mountPath" := Str(APP_MOUNT_PATH), "readOnly" := Bool(true)])
  }

  function Preload(): Json {
    Obj(map["name" := Str(PRELOAD), "value" := Str(APP_MOUNT_PATH + "/" + OVERLAY_LIBRARY_NAME)])
  }

  /** One volume carries the library from the init container to the application: the path that is preloaded is the
      file the init container copies, seen through the application's own mount of the same volume. */
  lemma PreloadIsTheCopiedFile(settings: Settings)
    ensures Volume().Obj? && Mount().Obj? && Preload().Obj? && InitContainer(settings).Obj?
    ensures var volume, mount, env, init :=
              Volume().fields, Mount().fields, Preload().fields, InitContainer(settings).fields;
            && {"name", "mountPath"} <= mount.Keys && "name" in volume && {"name", "value"} == env.Keys
            && {"volumeMounts", "args"} <= init.Keys
            && var initMount := Obj(map["name" := volume["name"], "mountPath" := Str(INIT_MOUNT_PATH)]);
            && init["volumeMounts"] == Arr([initMount])
            && mount["name"] == volume["name"] && mount["mountPath"].Str?
            && env["name"] == Str("LD_PRELOAD")
            && env["value"] == Str(mount["mountPath"].text + "/" + OVERLAY_LIBRARY_NAME)
            && var copy := INIT_MOUNT_PATH + "/" + OVERLAY_LIBRARY_NAME;
            && init["args"] == Arr([Str("cp " + settings.source + " " + copy + " && chmod 0555 " + copy)])
  {
  }

  /** What runs beside the application has no way to more than copying: no root, no new privileges, no capabilities and
      a root file system it cannot write; and the application cannot write what it preloads. */
  lemma InjectionIsConfined(settings: Settings)
    ensures Mount().Obj? && "readOnly" in Mount().fields && Mount().fields["readOnly"] == Bool(true)
    ensures InitContainer(settings).Obj? && "securityContext" in InitContainer(settings).fields
    ensures var context := InitContainer(settings).fields["securityContext"];
            && Get(context, ["allowPrivilegeEscalation"]) == Some(Bool(false))
            && Get(context, ["readOnlyRootFilesystem"]) == Some(Bool(true))
            && Get(context, ["runAsNonRoot"]) == Some(Bool(true))
            && Get(context, ["capabilities", "drop"]) == Some(Arr([Str("ALL")]))
  {
    var context := InitContainer(settings).fields["securityContext"];
    var capabilities := context.fields["capabilities"];
    assert ["capabilities", "drop"][1..] == ["drop"];
    assert Get(capabilities, ["drop"]) == Some(Arr([Str("ALL")]));
  }

  // ------------------------------------ look-ups -----------------------------------

  predicate Named(item: Json, name: string) {
    item.Obj? && "name" in item.fields && item.fields["name"] == Str(name)
  }

  /** The first item of that name. */
  function NamedItemIndex(items: seq<Json>, name: string): (r: Option<nat>)
    ensures r.None? <==> forall i :: 0 <= i < |items| ==> !Named(items[i], name)
    ensures r.Some? ==> r.value < |items| && Named(items[r.value], name)
    ensures r.Some? ==> forall i :: 0 <= i < r.value ==> !Named(items[i], name)
  {
    if items == [] then None
    else if Named(items[0], name) then Some(0)
    else
      match NamedItemIndex(items[1..], name)
      case None => assert items == [items[0]] + items[1..]; None
      case Some(i) => Some(i + 1)
  }

  predicate HasNamedItem(items: seq<Json>, name: string) {
    NamedItemIndex(items, name).Some?
  }

  /** The key as the webhook writes it into a path: slashes escaped, tildes left alone. */
  function EncodeKey(key: string): string {
    if key == [] then [] else (if key[0] == '/' then "~1" else [key[0]]) + EncodeKey(key[1..])
  }

  // -------------------------- the operations for one place --------------------------

  /** Operations that make sure a list at `at`, now holding `was`, has an item of that name. */
  function ListOps(was: Option<Json>, at: seq<string>, name: string, item: Json): seq<Op> {
    match was
    case Some(Arr(items)) =>
      if HasNamedItem(items, name) then [] else [Op(Add, Pointer(at + ["-"]), item)]
    case _ => [Op(Add, Pointer(at), Arr([item]))]
  }

  function PreloadOps(was: Option<Json>, at: seq<string>): seq<Op> {
    match was
    case Some(Arr(items)) =>
      (match NamedItemIndex(items, PRELOAD)
       case Some(i) => [Op(Replace, Pointer(at + [Decimal(i)]), Preload())]
       case None => [Op(Add, Pointer(at + ["-"]), Preload())])
    case _ => [Op(Add, Pointer(at), Arr([Preload()]))]
  }

  function FieldOps(was: Option<Json>, at: seq<string>, key: string, value: string): seq<Op> {
    match was
    case Some(Obj(fields)) =>
      if key in fields && fields[key] == Str(value) then []
      else [Op(if key in fields then Replace else Add, Pointer(at) + "/" + EncodeKey(key), Str(value))]
    case _ => [Op(Add, Pointer(at), Obj(map[key := Str(value)]))]
  }

  // -------------------------------- building a patch --------------------------------

  class Patch {
    var ops: seq<Op>

    constructor ()
      ensures ops == []
    {
      ops := [];
    }

    method Push(op: Op)
      modifies this
      ensures ops == old(ops) + [op]
    {
      ops := ops + [op];
    }
  }

  method PushVolumePatch(pod: Json, patch: Patch)
    modifies patch
    ensures patch.ops == old(patch.ops)
              + ListOps(Get(pod, ["spec", "volumes"]), ["spec", "volumes"], VOLUME_NAME, Volume())
  {
    hide Pointer, Get, Volume, HasNamedItem;
    var at := ["spec", "volumes"];
    match Get(pod, at) {
      case Some(Arr(volumes)) =>
        if !HasNamedItem(volumes, VOLUME_NAME) {
          patch.Push(Op(Add, Pointer(at + ["-"]), Volume()));
        }
      case _ => patch.Push(Op(Add, Pointer(at), Arr([Volume()])));
    }
  }

  method PushInitContainerPatch(pod: Json, settings: Settings, patch: Patch)
    modifies patch
    ensures patch.ops == old(patch.ops)
      + ListOps(Get(pod, ["spec", "initContainers"]), ["spec", "initContainers"], INIT_CONTAINER_NAME,
        InitContainer(settings))
  {
    hide Pointer, Get, InitContainer, HasNamedItem;
    var at := ["spec", "initContainers"];
    var container := InitContainer(settings);
    match Get(pod, at) {
      case Some(Arr(containers)) =>
        if !HasNamedItem(containers, INIT_CONTAINER_NAME) {
          patch.Push(Op(Add, Pointer(at + ["-"]), container));
        }
      case _ => patch.Push(Op(Add, Pointer(at), Arr([container])));
    }
  }

  function ContainerPath(index: nat): seq<string> {
    ["spec", "containers", Decimal(index)]
  }

  function TargetOps(container: Json, index: nat): seq<Op> {
    ListOps(Child(container, "volumeMounts"), ContainerPath(index) + ["volumeMounts"], VOLUME_NAME, Mount())
    + PreloadOps(Child(container, "env"), ContainerPath(index) + ["env"])
  }

  method PushMount(container: Json, patch: Patch, at: seq<string>)
    modifies patch
    ensures patch.ops == old(patch.ops) + ListOps(Child(container, "volumeMounts"), at, VOLUME_NAME, Mount())
  {
    hide Pointer, Child, Mount, HasNamedItem;
    match Child(container, "volumeMounts") {
      case Some(Arr(mounts)) =>
        if !HasNamedItem(mounts, VOLUME_NAME) {
          patch.Push(Op(Add, Pointer(at + ["-"]), Mount()));
        }
      case _ => patch.Push(Op(Add, Pointer(at), Arr([Mount()])));
    }
  }

  method PushPreload(container: Json, patch: Patch, at: seq<string>)
    modifies patch
    ensures patch.ops == old(patch.ops) + PreloadOps(Child(container, "env"), at)
  {
    hide Pointer, Child, Preload, Decimal, NamedItemIndex;
    match Child(container, "env") {
      case Some(Arr(envs)) =>
        match NamedItemIndex(envs, PRELOAD) {
          case Some(i) => patch.Push(Op(Replace, Pointer(at + [Decimal(i)]), Preload()));
          case None => patch.Push(Op(Add, Pointer(at + ["-"]), Preload()));
        }
      case _ => patch.Push(Op(Add, Pointer(at), Arr([Preload()])));
    }
  }

  method PushTargetContainerPatch(pod: Json, patch: Patch, index: nat) returns (r: Result<(), string>)
    modifies patch
    ensures r.Ok? <==> Get(pod, ContainerPath(index)).Some?
    ensures r.Ok? ==> patch.ops == old(patch.ops) + TargetOps(Get(pod, ContainerPath(index)).value, index)
    ensures r.Err? ==> patch.ops == old(patch.ops) && r.error == "target container is missing"
  {
    hide Get, Child, ContainerPath, ListOps, PreloadOps;
    var found := Get(pod, ContainerPath(index));
    if found.None? {
      return Err("target container is missing");
    }
    PushMount(found.value, patch, ContainerPath(index) + ["volumeMounts"]);
    PushPreload(found.value, patch, ContainerPath(index) + ["env"]);
    return Ok(());
  }

  method PushMetadataField(pod: Json, patch: Patch, at: seq<string>, key: string, value: string)
    modifies patch
    ensures patch.ops == old(patch.ops) + FieldOps(Get(pod, at), at, key, value)
  {
    hide Pointer, Get, EncodeKey;
    var path := Pointer(at) + "/" + EncodeKey(key);
    match Get(pod, at) {
      case Some(Obj(fields)) =>
        if key in fields && fields[key] == Str(value) {
        } else if key in fields {
          patch.Push(Op(Replace, path, Str(value)));
        } else {
          patch.Push(Op(Add, path, Str(value)));
        }
      case _ => patch.Push(Op(Add, Pointer(at), Obj(map[key := Str(value)])));
    }
  }

  // --------------------------------- what a patch does ------------------------------

  /** A list that has an item of that name: as it was, or with `item` at its end. */
  function WithItem(was: Option<Json>, name: string, item: Json): Json {
    match was
    case Some(Arr(items)) => if HasNamedItem(items, name) then Arr(items) else Arr(items + [item])
    case _ => Arr([item])
  }

  /** An environment whose first `LD_PRELOAD` is the overlay's. */
  function WithPreload(was: Option<Json>): Json {
    match was
    case Some(Arr(items)) =>
      (match NamedItemIndex(items, PRELOAD)
       case Some(i) => Arr(items[i := Preload()])
       case None => Arr(items + [Preload()]))
    case _ => Arr([Preload()])
  }

  function WithField(was: Option<Json>, key: string, value: string): Json {
    match was
    case Some(Obj(fields)) => Obj(fields[key := Str(value)])
    case _ => Obj(map[key := Str(value)])
  }

  lemma {:induction false} GetSnoc(v: Json, base: seq<string>, token: string)
    requires Get(v, base).Some?
    ensures Get(v, base + [token]) == Child(Get(v, base).value, token)
    decreases |base|
  {
    hide Child;
    if base == [] {
      assert base + [token] == [token];
    } else {
      assert (base + [token])[1..] == base[1..] + [token];
      GetSnoc(Child(v, base[0]).value, base[1..], token);
    }
  }

  lemma {:induction false} UpdateSnoc(v: Json, base: seq<string>, token: string, x: Json)
    requires Get(v, base).Some? && Get(v, base + [token]).Some? && Child(Get(v, base).value, token).Some?
    ensures Update(v, base + [token], x) == Update(v, base, Put(Get(v, base).value, token, x))
    decreases |base|
  {
    hide Child, Put;
    if base == [] {
      assert base + [token] == [token];
    } else {
      assert (base + [token])[1..] == base[1..] + [token];
      UpdateSnoc(Child(v, base[0]).value, base[1..], token, x);
    }
  }

  lemma ApplyOne(op: Op, v: Json)
    ensures ApplyAll([op], v) == Apply(op, v)
  {
    hide Apply;
    match Apply(op, v) {
      case None =>
      case Some(w) => assert [op][1..] == [];
    }
  }

  lemma ListOpsApply(doc: Json, base: seq<string>, fields: map<string, Json>, key: string, name: string, item: Json)
    requires Get(doc, base) == Some(Obj(fields))
    ensures ApplyAll(ListOps(Child(Obj(fields), key), base + [key], name, item), doc)
         == Some(Update(doc, base, Obj(fields[key := WithItem(Child(Obj(fields), key), name, item)])))
  {
    hide Apply, Get, Update, Pointer, HasNamedItem;
    GetSnoc(doc, base, key);
    var was := Child(Obj(fields), key);
    match was {
      case Some(Arr(items)) =>
        if HasNamedItem(items, name) {
          UpdateSame(doc, base);
          assert fields[key := Arr(items)] == fields;
        } else {
          ApplyOne(Op(Add, Pointer(base + [key] + ["-"]), item), doc);
          ApplyAt(Add, doc, base + [key], "-", item);
          UpdateSnoc(doc, base, key, Arr(items + [item]));
        }
      case _ =>
        ApplyOne(Op(Add, Pointer(base + [key]), Arr([item])), doc);
        ApplyAt(Add, doc, base, key, Arr([item]));
    }
  }

  lemma PreloadOpsApply(doc: Json, base: seq<string>, fields: map<string, Json>, key: string)
    requires Get(doc, base) == Some(Obj(fields))
    ensures ApplyAll(PreloadOps(Child(Obj(fields), key), base + [key]), doc)
         == Some(Update(doc, base, Obj(fields[key := WithPreload(Child(Obj(fields), key))])))
  {
    hide Apply, Get, Update, Pointer, NamedItemIndex, Decimal, Preload, ParseIndex;
    GetSnoc(doc, base, key);
    var was := Child(Obj(fields), key);
    match was {
      case Some(Arr(items)) =>
        match NamedItemIndex(items, PRELOAD) {
          case Some(i) =>
            IndexRoundTrip(i);
            ApplyOne(Op(Replace, Pointer(base + [key] + [Decimal(i)]), Preload()), doc);
            ApplyAt(Replace, doc, base + [key], Decimal(i), Preload());
            UpdateSnoc(doc, base, key, Arr(items[i := Preload()]));
          case None =>
            ApplyOne(Op(Add, Pointer(base + [key] + ["-"]), Preload()), doc);
            ApplyAt(Add, doc, base + [key], "-", Preload());
            UpdateSnoc(doc, base, key, Arr(items + [Preload()]));
        }
      case _ =>
        ApplyOne(Op(Add, Pointer(base + [key]), Arr([Preload()])), doc);
        ApplyAt(Add, doc, base, key, Arr([Preload()]));
    }
  }

  lemma FieldOpsApply(doc: Json, base: seq<string>, fields: map<string, Json>, key: string, name: string, value: string)
    requires Get(doc, base) == Some(Obj(fields)) && Plain(name)
    ensures ApplyAll(FieldOps(Child(Obj(fields), key), base + [key], name, value), doc)
         == Some(Update(doc, base, Obj(fields[key := WithField(Child(Obj(fields), key), name, value)])))
  {
    hide Apply, Get, Update, Pointer, Unescape, EncodeKey, Plain;
    GetSnoc(doc, base, key);
    var at := base + [key];
    EncodeKeyReadsBack(name);
    EncodeKeyHasNoSlash(name);
    var was := Child(Obj(fields), key);
    match was {
      case Some(Obj(inner)) =>
        if name in inner && inner[name] == Str(value) {
          UpdateSame(doc, base);
          assert inner[name := Str(value)] == inner;
          assert fields[key := Obj(inner)] == fields;
        } else {
          var verb := if name in inner then Replace else Add;
          ApplyOne(Op(verb, Pointer(at) + "/" + EncodeKey(name), Str(value)), doc);
          ApplyByHand(verb, doc, at, EncodeKey(name), Str(value));
          UpdateSnoc(doc, base, key, Obj(inner[name := Str(value)]));
        }
      case _ =>
        ApplyOne(Op(Add, Pointer(at), Obj(map[name := Str(value)])), doc);
        ApplyAt(Add, doc, base, key, Obj(map[name := Str(value)]));
    }
  }

  lemma {:induction false} UpdateUpdate(v: Json, base: seq<string>, x: Json, y: Json)
    requires Get(v, base).Some?
    ensures Get(Update(v, base, x), base) == Some(x)
    ensures Update(Update(v, base, x), base, y) == Update(v, base, y)
    decreases |base|
  {
    if base != [] {
      UpdateUpdate(Child(v, base[0]).value, base[1..], x, y);
    }
  }

  // ------------------------------- the preload injection ----------------------------

  predicate HasContainers(pod: Json) {
    match Get(pod, ["spec", "containers"])
    case Some(Arr(items)) => items != []
    case _ => false
  }

  /** The pod with the `spec` object replaced. */
  function WithSpec(pod: map<string, Json>, spec: map<string, Json>): Json {
    Obj(pod["spec" := Obj(spec)])
  }

  function InjectedSpec(spec: map<string, Json>, settings: Settings): map<string, Json> {
    spec["volumes" := WithItem(Child(Obj(spec), "volumes"), VOLUME_NAME, Volume())]
        ["initContainers" := WithItem(Child(Obj(spec), "initContainers"), INIT_CONTAINER_NAME, InitContainer(settings))]
  }

  function InjectedContainer(container: map<string, Json>): map<string, Json> {
    container["volumeMounts" := WithItem(Child(Obj(container), "volumeMounts"), VOLUME_NAME, Mount())]
             ["env" := WithPreload(Child(Obj(container), "env"))]
  }

  /** The pod the preload patch is to produce. */
  function Injected(
    pod: map<string, Json>, spec: map<string, Json>, containers: seq<Json>, index: nat, container: map<string, Json>,
    settings: Settings): Json
    requires index < |containers|
  {
    var patched := containers[index := Obj(InjectedContainer(container))];
    WithSpec(pod, InjectedSpec(spec, settings)["containers" := Arr(patched)])
  }

  function SpecOps(spec: map<string, Json>, settings: Settings): seq<Op> {
    ListOps(Child(Obj(spec), "volumes"), ["spec"] + ["volumes"], VOLUME_NAME, Volume())
    + ListOps(Child(Obj(spec), "initContainers"), ["spec"] + ["initContainers"], INIT_CONTAINER_NAME,
              InitContainer(settings))
  }

  lemma SpecOpsApply(doc: Json, spec: map<string, Json>, settings: Settings)
    requires Get(doc, ["spec"]) == Some(Obj(spec))
    ensures ApplyAll(SpecOps(spec, settings), doc) == Some(Update(doc, ["spec"], Obj(InjectedSpec(spec, settings))))
  {
    hide ListOps, WithItem, Volume, InitContainer, Update, Get, ApplyAll;
    var base, one, two := ["spec"], "volumes", "initContainers";
    var first := spec[one := WithItem(Child(Obj(spec), one), VOLUME_NAME, Volume())];
    ListOpsApply(doc, base, spec, one, VOLUME_NAME, Volume());
    var mid := Update(doc, base, Obj(first));
    UpdateUpdate(doc, base, Obj(first), Obj(InjectedSpec(spec, settings)));
    assert |one| != |two|;
    assert Child(Obj(first), two) == Child(Obj(spec), two);
    ListOpsApply(mid, base, first, two, INIT_CONTAINER_NAME, InitContainer(settings));
    ApplyAppend(
      ListOps(Child(Obj(spec), one), base + [one], VOLUME_NAME, Volume()),
      ListOps(Child(Obj(spec), two), base + [two], INIT_CONTAINER_NAME, InitContainer(settings)), doc);
  }

  lemma TargetOpsApply(doc: Json, index: nat, container: map<string, Json>)
    requires Get(doc, ContainerPath(index)) == Some(Obj(container))
    ensures ApplyAll(TargetOps(Obj(container), index), doc)
         == Some(Update(doc, ContainerPath(index), Obj(InjectedContainer(container))))
  {
    hide ListOps, PreloadOps, WithItem, WithPreload, Mount, Update, Get, ApplyAll, ContainerPath;
    var base, one, two := ContainerPath(index), "volumeMounts", "env";
    var first := container[one := WithItem(Child(Obj(container), one), VOLUME_NAME, Mount())];
    ListOpsApply(doc, base, container, one, VOLUME_NAME, Mount());
    var mid := Update(doc, base, Obj(first));
    UpdateUpdate(doc, base, Obj(first), Obj(InjectedContainer(container)));
    assert |one| != |two|;
    assert Child(Obj(first), two) == Child(Obj(container), two);
    PreloadOpsApply(mid, base, first, two);
    ApplyAppend(
      ListOps(Child(Obj(container), one), base + [one], VOLUME_NAME, Mount()),
      PreloadOps(Child(Obj(container), two), base + [two]), doc);
  }

  /** A container that is not an object fails the patch. */
  lemma TargetOpsFail(doc: Json, index: nat, container: Json)
    requires Get(doc, ContainerPath(index)) == Some(container) && !container.Obj?
    ensures ApplyAll(TargetOps(container, index), doc) == None
  {
    hide Get, ContainerPath, PreloadOps, Apply, Update, Mount, Pointer;
    var base := ContainerPath(index);
    var op := Op(Add, Pointer(base + ["volumeMounts"]), Arr([Mount()]));
    NotAnIndex();
    assert ListOps(Child(container, "volumeMounts"), base + ["volumeMounts"], VOLUME_NAME, Mount()) == [op];
    ApplyAt(Add, doc, base, "volumeMounts", Arr([Mount()]));
    assert Apply(op, doc) == None;
    assert TargetOps(container, index)[0] == op;
  }

  /** None of the member names on the webhook's paths reads as an array index. */
  lemma NotAnIndex()
    ensures ParseIndex("spec").None? && ParseIndex("containers").None? && ParseIndex("metadata").None?
    ensures ParseIndex("volumeMounts").None? && ParseIndex("labels").None?
    ensures "volumeMounts" != "-" && "labels" != "-"
  {
    LetterLast("spec");
    LetterLast("containers");
    LetterLast("metadata");
    LetterLast("volumeMounts");
    LetterLast("labels");
  }

  lemma LetterLast(token: string)
    requires token != [] && token[|token| - 1] > '9'
    ensures ParseIndex(token).None?
  {
  }

  /** A pod passes the webhook's check exactly when it is an object with an object `spec`
      whose `containers` is an array of at least one item. */
  lemma PodShape(pod: Json)
    ensures HasContainers(pod) <==>
      && pod.Obj? && "spec" in pod.fields
      && var spec := pod.fields["spec"];
      && spec.Obj? && "containers" in spec.fields
      && spec.fields["containers"].Arr? && spec.fields["containers"].items != []
  {
    hide ParseIndex, Get;
    NotAnIndex();
    GetTwo(pod, "spec", "containers");
  }

  lemma GetTwo(v: Json, a: string, b: string)
    ensures Get(v, [a]) == Child(v, a)
    ensures Get(v, [a, b]) == match Child(v, a) { case None => None case Some(w) => Child(w, b) }
  {
    hide Child;
    assert [a, b][1..] == [b] && [a][1..] == [] && [b][1..] == [];
    match Child(v, a) {
      case None =>
      case Some(w) => assert Get(w, [b]) == Child(w, b) by { assert Get(v, [a, b]) == Get(w, [b]); }
    }
  }

  function SpecOf(pod: Json): map<string, Json>
    requires HasContainers(pod)
  {
    PodShape(pod);
    pod.fields["spec"].fields
  }

  function ContainersOf(pod: Json): (containers: seq<Json>)
    requires HasContainers(pod)
    ensures containers != []
  {
    PodShape(pod);
    SpecOf(pod)["containers"].items
  }

  /** What the patch needs of the pod beyond the webhook's own check. */
  predicate Patchable(pod: Json, settings: Settings)
    requires HasContainers(pod)
  {
    PodShape(pod);
    if settings.kernelNative then "metadata" in pod.fields && pod.fields["metadata"].Obj?
    else ContainersOf(pod)[0].Obj?
  }

  function MarkedMetadata(metadata: map<string, Json>): map<string, Json> {
    metadata["labels" := WithField(Child(Obj(metadata), "labels"), ENFORCEMENT_LABEL, "kernel-native")]
            ["annotations" := WithField(Child(Obj(metadata), "annotations"), SUITE_ANNOTATION, "policy")]
  }

  /** The pod the patch is to produce. */
  function Patched(pod: Json, settings: Settings): Json
    requires HasContainers(pod) && Patchable(pod, settings)
  {
    PodShape(pod);
    if settings.kernelNative then Obj(pod.fields["metadata" := Obj(MarkedMetadata(pod.fields["metadata"].fields))])
    else Injected(pod.fields, SpecOf(pod), ContainersOf(pod), 0, ContainersOf(pod)[0].fields, settings)
  }

  function MetadataOps(metadata: Json): seq<Op> {
    FieldOps(Child(metadata, "labels"), ["metadata"] + ["labels"], ENFORCEMENT_LABEL, "kernel-native")
    + FieldOps(Child(metadata, "annotations"), ["metadata"] + ["annotations"], SUITE_ANNOTATION, "policy")
  }

  lemma MetadataOpsApply(doc: Json, metadata: map<string, Json>)
    requires Get(doc, ["metadata"]) == Some(Obj(metadata))
    ensures ApplyAll(MetadataOps(Obj(metadata)), doc) == Some(Update(doc, ["metadata"], Obj(MarkedMetadata(metadata))))
  {
    KeysArePlain();
    hide Plain, FieldOps, WithField, Update, Get, ApplyAll;
    var base, one, two := ["metadata"], "labels", "annotations";
    var first := metadata[one := WithField(Child(Obj(metadata), one), ENFORCEMENT_LABEL, "kernel-native")];
    FieldOpsApply(doc, base, metadata, one, ENFORCEMENT_LABEL, "kernel-native");
    var mid := Update(doc, base, Obj(first));
    UpdateUpdate(doc, base, Obj(first), Obj(MarkedMetadata(metadata)));
    assert |one| != |two|;
    assert Child(Obj(first), two) == Child(Obj(metadata), two);
    FieldOpsApply(mid, base, first, two, SUITE_ANNOTATION, "policy");
    ApplyAppend(
      FieldOps(Child(Obj(metadata), one), base + [one], ENFORCEMENT_LABEL, "kernel-native"),
      FieldOps(Child(Obj(metadata), two), base + [two], SUITE_ANNOTATION, "policy"), doc);
  }

  lemma KeysArePlain()
    ensures Plain(ENFORCEMENT_LABEL) && Plain(SUITE_ANNOTATION)
  {
    assert '~' !in ENFORCEMENT_LABEL && '~' !in SUITE_ANNOTATION;
  }

  /** Metadata that is missing or not an object fails the patch. */
  lemma MetadataOpsFail(doc: Json)
    requires match Get(doc, ["metadata"]) { case Some(Obj(_)) => false case _ => true }
    ensures ApplyAll(FieldOps(Get(doc, ["metadata", "labels"]), ["metadata", "labels"], ENFORCEMENT_LABEL,
              "kernel-native"), doc) == None
  {
    hide Apply, Pointer, Update, EncodeKey, PerformAt;
    NotAnIndex();
    var base, at := ["metadata"], ["metadata", "labels"];
    var op := Op(Add, Pointer(at), Obj(map[ENFORCEMENT_LABEL := Str("kernel-native")]));
    assert at == base + ["labels"];
    GetTwo(doc, "metadata", "labels");
    assert Get(doc, at).None?;
    PerformDeep(Add, doc, base, "labels", op.value);
    ParsePointerSpelled(at);
    assert Apply(op, doc) == None by { ApplySpelled(op, at, doc); }
    ApplyOne(op, doc);
  }

  lemma ApplySpelled(op: Op, at: seq<string>, doc: Json)
    requires op.path == Pointer(at)
    ensures Apply(op, doc) == PerformAt(op.verb, doc, at, op.value)
  {
    hide Pointer, PerformAt;
    ParsePointerSpelled(at);
  }

  /** The preload operations together. */
  lemma PreloadPatchApplies(pod: Json, settings: Settings)
    requires HasContainers(pod) && !settings.kernelNative
    ensures ApplyAll(SpecOps(SpecOf(pod), settings) + TargetOps(ContainersOf(pod)[0], 0), pod)
         == if Patchable(pod, settings) then Some(Patched(pod, settings)) else None
  {
    PodShape(pod);
    hide SpecOps, TargetOps, ApplyAll, Get, InjectedContainer, HasContainers, Child, Update;
    var spec, containers := SpecOf(pod), ContainersOf(pod);
    SpecReads(pod.fields, spec, spec);
    SpecOpsApply(pod, spec, settings);
    var inner := InjectedSpec(spec, settings);
    SpecReads(pod.fields, spec, inner);
    var mid := WithSpec(pod.fields, inner);
    InjectedSpecKeepsContainers(spec, settings);
    ContainerReads(pod.fields, inner, containers, 0, containers[0]);
    ApplyAppend(SpecOps(spec, settings), TargetOps(containers[0], 0), pod);
    if containers[0].Obj? {
      var container := containers[0].fields;
      TargetOpsApply(mid, 0, container);
      ContainerReads(pod.fields, inner, containers, 0, Obj(InjectedContainer(container)));
    } else {
      TargetOpsFail(mid, 0, containers[0]);
    }
  }

  lemma SpecReads(pod: map<string, Json>, was: map<string, Json>, spec: map<string, Json>)
    requires "spec" in pod && pod["spec"] == Obj(was)
    ensures Get(Obj(pod), ["spec"]) == Some(Obj(was))
    ensures Update(Obj(pod), ["spec"], Obj(spec)) == WithSpec(pod, spec)
    ensures WithSpec(pod, was) == Obj(pod)
  {
    GetTwo(Obj(pod), "spec", "");
    assert ["spec"][1..] == [];
    assert pod["spec" := Obj(was)] == pod;
  }

  lemma InjectedSpecKeepsContainers(spec: map<string, Json>, settings: Settings)
    requires "containers" in spec
    ensures "containers" in InjectedSpec(spec, settings)
              && InjectedSpec(spec, settings)["containers"] == spec["containers"]
  {
    hide WithItem, Volume, InitContainer;
    assert |"containers"| != |"volumes"| && |"containers"| != |"initContainers"|;
  }

  lemma ContainerReads(pod: map<string, Json>, spec: map<string, Json>, containers: seq<Json>, index: nat,
                       container: Json)
    requires "containers" in spec && spec["containers"] == Arr(containers) && index < |containers|
    ensures var doc := WithSpec(pod, spec);
      && Get(doc, ContainerPath(index)) == Some(containers[index])
      && Update(doc, ContainerPath(index), container)
         == WithSpec(pod, spec["containers" := Arr(containers[index := container])])
  {
    hide Decimal, ParseIndex;
    var doc := WithSpec(pod, spec);
    IndexRoundTrip(index);
    var last := Decimal(index);
    assert ContainerPath(index)[1..] == ["containers", last];
    assert ["containers", last][1..] == [last];
    assert [last][1..] == [];
    var list := Arr(containers);
    assert Child(list, last) == Some(containers[index]);
    assert Get(list, [last]) == Some(containers[index]);
    assert Get(Obj(spec), ["containers", last]) == Some(containers[index]);
    assert Get(doc, ContainerPath(index)) == Some(containers[index]);
    assert Update(list, [last], container) == Arr(containers[index := container]);
    assert Update(Obj(spec), ["containers", last], container)
      == Obj(spec["containers" := Arr(containers[index := container])]);
    assert pod["spec" := Obj(spec)]["spec" := Obj(spec["containers" := Arr(containers[index := container])])]
        == pod["spec" := Obj(spec["containers" := Arr(containers[index := container])])];
  }

  function KernelNativeOps(pod: Json): seq<Op> {
    FieldOps(Get(pod, ["metadata", "labels"]), ["metadata", "labels"], ENFORCEMENT_LABEL, "kernel-native")
    + FieldOps(Get(pod, ["metadata", "annotations"]), ["metadata", "annotations"], SUITE_ANNOTATION, "policy")
  }

  lemma KernelNativePatchApplies(pod: Json, settings: Settings)
    requires HasContainers(pod) && settings.kernelNative
    ensures ApplyAll(KernelNativeOps(pod), pod)
         == if Patchable(pod, settings) then Some(Patched(pod, settings)) else None
  {
    PodShape(pod);
    GetTwo(pod, "metadata", "labels");
    GetTwo(pod, "metadata", "annotations");
    hide FieldOps, ApplyAll, Get, HasContainers, MarkedMetadata;
    assert ["metadata"] + ["labels"] == ["metadata", "labels"];
    assert ["metadata"] + ["annotations"] == ["metadata", "annotations"];
    if Patchable(pod, settings) {
      var metadata := pod.fields["metadata"].fields;
      MetadataOpsApply(pod, metadata);
      assert KernelNativeOps(pod) == MetadataOps(Obj(metadata));
      assert ["metadata"][1..] == [];
    } else {
      MetadataOpsFail(pod);
      ApplyAppend(
        FieldOps(Get(pod, ["metadata", "labels"]), ["metadata", "labels"], ENFORCEMENT_LABEL, "kernel-native"),
        FieldOps(Get(pod, ["metadata", "annotations"]), ["metadata", "annotations"], SUITE_ANNOTATION, "policy"), pod);
    }
  }

  method PushKernelNativeMetadataPatch(pod: Json, patch: Patch)
    modifies patch
    ensures patch.ops == old(patch.ops) + KernelNativeOps(pod)
  {
    hide FieldOps, Get;
    PushMetadataField(pod, patch, ["metadata", "labels"], ENFORCEMENT_LABEL, "kernel-native");
    PushMetadataField(pod, patch, ["metadata", "annotations"], SUITE_ANNOTATION, "policy");
  }

  /** `build_patch`: refuses exactly the pods without containers; for every other pod the
      operations, applied one by one, turn the pod into `Patched`, or fail when it is not
      `Patchable`. */
  method BuildPatch(pod: Json, settings: Settings) returns (r: Result<seq<Op>, string>)
    ensures r.Ok? <==> HasContainers(pod)
    ensures r.Err? ==> r.error == match Get(pod, ["spec", "containers"]) {
      case Some(Arr(_)) => "Pod spec.containers cannot be empty"
      case _ => "Pod spec.containers must be an array"
    }
    ensures r.Ok? ==> ApplyAll(r.value, pod) == if Patchable(pod, settings) then Some(Patched(pod, settings)) else None
    ensures r.Ok? && !settings.kernelNative ==> r.value != []
  {
    hide ApplyAll, Patchable, Patched, ListOps, FieldOps, PreloadOps, Get, Volume, InitContainer, KernelNativeOps;
    var containers := Get(pod, ["spec", "containers"]);
    if containers.None? || !containers.value.Arr? {
      return Err("Pod spec.containers must be an array");
    }
    if containers.value.items == [] {
      return Err("Pod spec.containers cannot be empty");
    }
    var patch := new Patch();
    if settings.kernelNative {
      PushKernelNativeMetadataPatch(pod, patch);
      KernelNativePatchApplies(pod, settings);
      assert patch.ops == KernelNativeOps(pod);
    } else {
      PushVolumePatch(pod, patch);
      PushInitContainerPatch(pod, settings, patch);
      SpecOpsFromPod(pod, settings);
      assert patch.ops == SpecOps(SpecOf(pod), settings);
      var pushed := PushTargetContainerPatch(pod, patch, 0);
      TargetFromPod(pod);
      assert pushed.Ok?;  // container 0 is there, so the missing-container error never comes back
      PreloadPatchApplies(pod, settings);
    }
    return Ok(patch.ops);
  }

  lemma SpecOpsFromPod(pod: Json, settings: Settings)
    requires HasContainers(pod)
    ensures SpecOps(SpecOf(pod), settings)
         == ListOps(Get(pod, ["spec", "volumes"]), ["spec", "volumes"], VOLUME_NAME, Volume())
          + ListOps(Get(pod, ["spec", "initContainers"]), ["spec", "initContainers"], INIT_CONTAINER_NAME,
            InitContainer(settings))
  {
    PodShape(pod);
    GetTwo(pod, "spec", "volumes");
    GetTwo(pod, "spec", "initContainers");
    hide ListOps, Get, Volume, InitContainer, HasContainers;
    assert ["spec"] + ["volumes"] == ["spec", "volumes"];
    assert ["spec"] + ["initContainers"] == ["spec", "initContainers"];
  }

  lemma TargetFromPod(pod: Json)
    requires HasContainers(pod)
    ensures Get(pod, ContainerPath(0)) == Some(ContainersOf(pod)[0])
    ensures TargetOps(ContainersOf(pod)[0], 0) != []
  {
    PodShape(pod);
    hide Get, ListOps, HasContainers, ContainerPath;
    SpecReads(pod.fields, SpecOf(pod), SpecOf(pod));
    ContainerReads(pod.fields, SpecOf(pod), ContainersOf(pod), 0, Null);
  }

  // ------------------------------ what the patched pod is ---------------------------

  /** A list after `WithItem` begins with the list before it and has an item of that name,
      the given one if there was none. */
  lemma ItemIsThere(was: Option<Json>, name: string, item: Json)
    requires Named(item, name)
    ensures var v := WithItem(was, name, item);
      && v.Arr? && HasNamedItem(v.items, name)
      && (if was.Some? && was.value.Arr? then was.value.items <= v.items <= was.value.items + [item]
          else v == Arr([item]))
      && WithItem(Some(v), name, item) == v
  {
    match was {
      case Some(Arr(items)) =>
        if !HasNamedItem(items, name) {
          assert Named((items + [item])[|items|], name);
        }
      case _ => assert Named([item][0], name);
    }
  }

  /** An environment after `WithPreload`: the overlay's `LD_PRELOAD` is the first one, and every
      other entry is where it was. */
  lemma PreloadIsThere(was: Option<Json>)
    ensures var v := WithPreload(was);
      && v.Arr?
      && NamedItemIndex(v.items, PRELOAD).Some? && v.items[NamedItemIndex(v.items, PRELOAD).value] == Preload()
      && (was.Some? && was.value.Arr? ==>
            && |v.items| == |was.value.items| + (if NamedItemIndex(was.value.items, PRELOAD).Some? then 0 else 1)
            && forall i :: 0 <= i < |was.value.items| && NamedItemIndex(was.value.items, PRELOAD) != Some(i)
                 ==> v.items[i] == was.value.items[i])
      && (!(was.Some? && was.value.Arr?) ==> v == Arr([Preload()]))
      && WithPreload(Some(v)) == v
  {
    assert Named(Preload(), PRELOAD);
    var v := WithPreload(was);
    match was {
      case Some(Arr(items)) =>
        match NamedItemIndex(items, PRELOAD) {
          case Some(i) => FirstNamed(v.items, PRELOAD, i);
          case None => FirstNamed(v.items, PRELOAD, |items|);
        }
      case _ => FirstNamed(v.items, PRELOAD, 0);
    }
    var i := NamedItemIndex(v.items, PRELOAD).value;
    assert v.items[i := Preload()] == v.items;
  }

  lemma FirstNamed(items: seq<Json>, name: string, i: nat)
    requires i < |items| && Named(items[i], name) && forall j :: 0 <= j < i ==> !Named(items[j], name)
    ensures NamedItemIndex(items, name) == Some(i)
  {
    var r := NamedItemIndex(items, name);
    assert r.Some?;
    assert r.value <= i;
  }

  /** Everything the preload injection promises is in the patched pod. */
  lemma InjectionIsComplete(pod: Json, settings: Settings)
    requires HasContainers(pod) && !settings.kernelNative && Patchable(pod, settings)
    ensures var v := Patched(pod, settings);
      && HasContainers(v) && ContainersOf(v)[0].Obj?
      && var spec, first := SpecOf(v), ContainersOf(v)[0].fields;
      && "volumes" in spec && spec["volumes"].Arr? && HasNamedItem(spec["volumes"].items, VOLUME_NAME)
      && "initContainers" in spec && spec["initContainers"].Arr?
           && HasNamedItem(spec["initContainers"].items, INIT_CONTAINER_NAME)
      && "volumeMounts" in first && first["volumeMounts"].Arr? && HasNamedItem(first["volumeMounts"].items, VOLUME_NAME)
      && "env" in first && first["env"].Arr?
      && NamedItemIndex(first["env"].items, PRELOAD).Some?
      && first["env"].items[NamedItemIndex(first["env"].items, PRELOAD).value] == Preload()
  {
    PodShape(pod);
    var v := Patched(pod, settings);
    var spec, container := SpecOf(pod), ContainersOf(pod)[0].fields;
    InjectedParts(spec, container, settings);
    PodShape(v);
    hide HasContainers, HasNamedItem, NamedItemIndex, WithItem, WithPreload, InitContainer, Volume, Mount, Preload;
    OursAreNamed(settings);
    ItemIsThere(Child(Obj(spec), "volumes"), VOLUME_NAME, Volume());
    ItemIsThere(Child(Obj(spec), "initContainers"), INIT_CONTAINER_NAME, InitContainer(settings));
    ItemIsThere(Child(Obj(container), "volumeMounts"), VOLUME_NAME, Mount());
    PreloadIsThere(Child(Obj(container), "env"));
  }

  lemma OursAreNamed(settings: Settings)
    ensures Named(Volume(), VOLUME_NAME) && Named(Mount(), VOLUME_NAME)
    ensures Named(InitContainer(settings), INIT_CONTAINER_NAME)
  {
  }

  lemma InjectedParts(spec: map<string, Json>, container: map<string, Json>, settings: Settings)
    ensures var s := InjectedSpec(spec, settings);
      && s.Keys == spec.Keys + {"volumes", "initContainers"}
      && s["volumes"] == WithItem(Child(Obj(spec), "volumes"), VOLUME_NAME, Volume())
      && s["initContainers"]
           == WithItem(Child(Obj(spec), "initContainers"), INIT_CONTAINER_NAME, InitContainer(settings))
    ensures var c := InjectedContainer(container);
      && c.Keys == container.Keys + {"volumeMounts", "env"}
      && c["volumeMounts"] == WithItem(Child(Obj(container), "volumeMounts"), VOLUME_NAME, Mount())
      && c["env"] == WithPreload(Child(Obj(container), "env"))
  {
    hide WithItem, WithPreload, Volume, InitContainer, Mount, Child;
    assert |"volumes"| != |"initContainers"| && |"volumeMounts"| != |"env"|;
  }

  /** Outside the named places the maps agree. */
  ghost predicate SameBut(a: map<string, Json>, b: map<string, Json>, names: set<string>) {
    && a.Keys - names == b.Keys - names
    && forall k :: k in a && k !in names ==> k in b && a[k] == b[k]
  }

  /** A list kept in order, at most with `item` at its end; what was no list is a list of `item` alone. */
  ghost predicate Extends(fields: map<string, Json>, was: map<string, Json>, key: string, item: Json) {
    && key in fields && fields[key].Arr?
    && if key in was && was[key].Arr? then was[key].items <= fields[key].items <= was[key].items + [item]
       else fields[key] == Arr([item])
  }

  /** Every entry but the first `LD_PRELOAD` stays where it was, and nothing is added but a missing `LD_PRELOAD`. */
  ghost predicate EnvKept(fields: map<string, Json>, was: map<string, Json>) {
    && "env" in fields && fields["env"].Arr?
    && var now := fields["env"].items;
    && if "env" in was && was["env"].Arr? then
         var before := was["env"].items;
         var preload := NamedItemIndex(before, PRELOAD);
         && |now| == |before| + (if preload.Some? then 0 else 1)
         && forall i :: 0 <= i < |before| && preload != Some(i) ==> now[i] == before[i]
       else now == [Preload()]
  }

  /** The preload injection leaves everything else alone: every other member of the pod, of its
      spec and of container 0, every other container, and the order of every list. */
  lemma InjectionFrame(pod: Json, settings: Settings)
    requires HasContainers(pod) && !settings.kernelNative && Patchable(pod, settings)
    ensures var v := Patched(pod, settings);
      && HasContainers(v) && ContainersOf(v)[0].Obj?
      && SameBut(v.fields, pod.fields, {"spec"})
      && SameBut(SpecOf(v), SpecOf(pod), {"volumes", "initContainers", "containers"})
      && Extends(SpecOf(v), SpecOf(pod), "volumes", Volume())
      && Extends(SpecOf(v), SpecOf(pod), "initContainers", InitContainer(settings))
      && ContainersOf(v)[1..] == ContainersOf(pod)[1..]
      && var a, b := ContainersOf(v)[0].fields, ContainersOf(pod)[0].fields;
      && SameBut(a, b, {"volumeMounts", "env"}) && Extends(a, b, "volumeMounts", Mount())
      && EnvKept(a, b)
  {
    PatchedReads(pod, settings);
    hide HasContainers, Patched, SpecOf, ContainersOf, Patchable, Extends, EnvKept, SameBut, InjectedSpec,
         InjectedContainer;
    var v := Patched(pod, settings);
    SpecFrame(SpecOf(pod), ContainersOf(v), settings);
    ContainerFrame(ContainersOf(pod)[0].fields);
    assert SameBut(v.fields, pod.fields, {"spec"}) by { SetIsSameBut(pod.fields, "spec", Obj(SpecOf(v))); }
  }

  lemma SetIsSameBut(fields: map<string, Json>, key: string, value: Json)
    requires key in fields
    ensures SameBut(fields[key := value], fields, {key})
  {
  }

  /** What the injected pod reads as. */
  lemma PatchedReads(pod: Json, settings: Settings)
    requires HasContainers(pod) && !settings.kernelNative && Patchable(pod, settings)
    ensures pod.Obj? && "spec" in pod.fields
    ensures var v := Patched(pod, settings);
      && HasContainers(v) && Patchable(v, settings) && v == Obj(pod.fields["spec" := Obj(SpecOf(v))])
      && SpecOf(v) == InjectedSpec(SpecOf(pod), settings)["containers" := Arr(ContainersOf(v))]
      && ContainersOf(v) == ContainersOf(pod)[0 := Obj(InjectedContainer(ContainersOf(pod)[0].fields))]
  {
    PodShape(pod);
    PodShape(Patched(pod, settings));
    hide HasContainers, InjectedSpec, InjectedContainer;
  }

  lemma SpecFrame(spec: map<string, Json>, containers: seq<Json>, settings: Settings)
    ensures var s := InjectedSpec(spec, settings)["containers" := Arr(containers)];
      && SameBut(s, spec, {"volumes", "initContainers", "containers"})
      && Extends(s, spec, "volumes", Volume()) && Extends(s, spec, "initContainers", InitContainer(settings))
  {
    InjectedParts(spec, map[], settings);
    hide WithItem, InitContainer, Volume, HasNamedItem;
    OursAreNamed(settings);
    ItemIsThere(Child(Obj(spec), "volumes"), VOLUME_NAME, Volume());
    ItemIsThere(Child(Obj(spec), "initContainers"), INIT_CONTAINER_NAME, InitContainer(settings));
    assert |"containers"| != |"volumes"| && |"containers"| != |"initContainers"|;
  }

  lemma ContainerFrame(b: map<string, Json>)
    ensures var a := InjectedContainer(b);
      && SameBut(a, b, {"volumeMounts", "env"}) && Extends(a, b, "volumeMounts", Mount())
      && EnvKept(a, b)
  {
    InjectedParts(map[], b, Settings(false, "", ""));
    hide WithItem, WithPreload, Mount, Preload, NamedItemIndex, HasNamedItem;
    OursAreNamed(Settings(false, "", ""));
    ItemIsThere(Child(Obj(b), "volumeMounts"), VOLUME_NAME, Mount());
    PreloadIsThere(Child(Obj(b), "env"));
  }

  /** Marking the metadata sets the two fields and leaves everything else alone. */
  lemma MarkingFrame(pod: Json, settings: Settings)
    requires HasContainers(pod) && settings.kernelNative && Patchable(pod, settings)
    ensures var v := Patched(pod, settings);
      && v.Obj? && SameBut(v.fields, pod.fields, {"metadata"})
      && "metadata" in v.fields && v.fields["metadata"].Obj?
      && "metadata" in pod.fields && pod.fields["metadata"].Obj?
      && var a, b := v.fields["metadata"].fields, pod.fields["metadata"].fields;
      && SameBut(a, b, {"labels", "annotations"})
      && Child(a["labels"], ENFORCEMENT_LABEL) == Some(Str("kernel-native"))
      && Child(a["annotations"], SUITE_ANNOTATION) == Some(Str("policy"))
      && ("labels" in b && b["labels"].Obj? ==> SameBut(a["labels"].fields, b["labels"].fields, {ENFORCEMENT_LABEL}))
      && ("annotations" in b && b["annotations"].Obj? ==>
            SameBut(a["annotations"].fields, b["annotations"].fields, {SUITE_ANNOTATION}))
  {
    PodShape(pod);
    hide HasContainers;
    assert |"labels"| != |"annotations"|;
  }

  /** Patching the patched pod once more changes nothing. */
  lemma PatchIsIdempotent(pod: Json, settings: Settings)
    requires HasContainers(pod) && Patchable(pod, settings)
    ensures var v := Patched(pod, settings);
      HasContainers(v) && Patchable(v, settings) && Patched(v, settings) == v
  {
    if settings.kernelNative {
      MarkingIsIdempotent(pod, settings);
    } else {
      InjectionIsIdempotent(pod, settings);
    }
  }

  lemma MarkingIsIdempotent(pod: Json, settings: Settings)
    requires HasContainers(pod) && settings.kernelNative && Patchable(pod, settings)
    ensures var v := Patched(pod, settings);
      HasContainers(v) && Patchable(v, settings) && Patched(v, settings) == v
  {
    PodShape(pod);
    var v := Patched(pod, settings);
    assert |"labels"| != |"annotations"| && "spec"[0] != "metadata"[0];
    PodShape(v);
    hide HasContainers;
    var metadata := pod.fields["metadata"].fields;
    var marked := MarkedMetadata(metadata);
    var labels, annotations := "labels", "annotations";
    FieldStays(Child(Obj(metadata), labels), ENFORCEMENT_LABEL, "kernel-native");
    FieldStays(Child(Obj(metadata), annotations), SUITE_ANNOTATION, "policy");
    hide WithField;
    assert marked[labels] == WithField(Child(Obj(metadata), labels), ENFORCEMENT_LABEL, "kernel-native");
    assert marked[annotations] == WithField(Child(Obj(metadata), annotations), SUITE_ANNOTATION, "policy");
    assert MarkedMetadata(marked) == marked;
  }

  lemma FieldStays(was: Option<Json>, key: string, value: string)
    ensures var v := WithField(was, key, value); WithField(Some(v), key, value) == v
  {
    var v := WithField(was, key, value);
    assert v.fields[key := Str(value)] == v.fields;
  }

  lemma InjectionIsIdempotent(pod: Json, settings: Settings)
    requires HasContainers(pod) && !settings.kernelNative && Patchable(pod, settings)
    ensures var v := Patched(pod, settings);
      HasContainers(v) && Patchable(v, settings) && Patched(v, settings) == v
  {
    PatchedReads(pod, settings);
    hide HasContainers, Patched, SpecOf, ContainersOf, Patchable, InjectedSpec, InjectedContainer;
    var v := Patched(pod, settings);
    PatchedReads(v, settings);
    ContainerStays(ContainersOf(pod)[0].fields);
    SpecStays(SpecOf(pod), ContainersOf(v), settings);
    var w := Patched(v, settings);
    var cs := ContainersOf(v);
    assert cs[0] == Obj(InjectedContainer(ContainersOf(pod)[0].fields));
    assert ContainersOf(w) == cs[0 := cs[0]] == cs;
    assert SpecOf(w) == SpecOf(v)["containers" := Arr(cs)];
    SetTwice(InjectedSpec(SpecOf(pod), settings), "containers", Arr(cs));
    SetTwice(pod.fields, "spec", Obj(SpecOf(v)));
  }

  lemma SetTwice(fields: map<string, Json>, key: string, value: Json)
    ensures fields[key := value][key := value] == fields[key := value]
  {
  }

  lemma ContainerStays(container: map<string, Json>)
    ensures InjectedContainer(InjectedContainer(container)) == InjectedContainer(container)
  {
    hide WithItem, WithPreload, Mount, Preload, NamedItemIndex, HasNamedItem, Named;
    var one, two := "volumeMounts", "env";
    var c := InjectedContainer(container);
    InjectedParts(map[], container, Settings(false, "", ""));
    OursAreNamed(Settings(false, "", ""));
    ItemIsThere(Child(Obj(container), one), VOLUME_NAME, Mount());
    PreloadIsThere(Child(Obj(container), two));
    assert c[one := c[one]][two := c[two]] == c;
  }

  lemma SpecStays(spec: map<string, Json>, containers: seq<Json>, settings: Settings)
    ensures var s := InjectedSpec(spec, settings)["containers" := Arr(containers)]; InjectedSpec(s, settings) == s
  {
    hide WithItem, Volume, InitContainer, HasNamedItem, Named;
    var injected := InjectedSpec(spec, settings);
    var one, two, three := "volumes", "initContainers", "containers";
    var s := injected[three := Arr(containers)];
    InjectedParts(spec, map[], settings);
    OursAreNamed(settings);
    ItemIsThere(Child(Obj(spec), one), VOLUME_NAME, Volume());
    ItemIsThere(Child(Obj(spec), two), INIT_CONTAINER_NAME, InitContainer(settings));
    assert |three| != |one| && |three| != |two| && |one| != |two|;
    assert s[one] == injected[one] && s[two] == injected[two];
    assert s[one := s[one]][two := s[two]] == s;
  }

  // ------------------------------------ key spelling --------------------------------

  /** The key has no tilde followed by a digit that would make it an escape. */
  ghost predicate Plain(key: string) {
    forall i :: 0 <= i < |key| - 1 && key[i] == '~' ==> key[i + 1] != '0' && key[i + 1] != '1'
  }

  /** The webhook's spelling of a key is read back as that key exactly when the key is plain;
      the two keys it writes are. */
  lemma {:induction false} EncodeKeyReadsBack(key: string)
    ensures Unescape(EncodeKey(key)) == key <==> Plain(key)
    ensures |Unescape(EncodeKey(key))| <= |key|
    decreases |key|
  {
    if key != [] {
      var text := EncodeKey(key);
      var rest := key[1..];
      EncodeKeyReadsBack(rest);
      assert key == [key[0]] + rest;
      if key[0] == '/' {
        assert text[2..] == EncodeKey(rest);
        assert Plain(key) <==> Plain(rest) by { PlainTail(key); }
      } else if key[0] == '~' && rest != [] && (rest[0] == '0' || rest[0] == '1') {
        EncodeKeyReadsBack(rest[1..]);
        assert text[1..] == EncodeKey(rest);
        assert EncodeKey(rest)[1..] == EncodeKey(rest[1..]);
        assert text[2..] == EncodeKey(rest[1..]);
        assert !Plain(key) by { assert key[0] == '~' && key[0 + 1] == rest[0]; }
      } else {
        assert text[1..] == EncodeKey(rest);
        assert Plain(key) <==> Plain(rest) by { PlainTail(key); }
      }
    }
  }

  lemma {:induction false} EncodeKeyHasNoSlash(key: string)
    ensures '/' !in EncodeKey(key)
  {
    if key != [] {
      EncodeKeyHasNoSlash(key[1..]);
    }
  }

  lemma PlainTail(key: string)
    requires key != [] && (|key| > 1 && key[0] == '~' ==> key[1] != '0' && key[1] != '1')
    ensures Plain(key) <==> Plain(key[1..])
  {
    var rest := key[1..];
    if Plain(rest) {
      forall i | 0 <= i < |key| - 1 && key[i] == '~'
        ensures key[i + 1] != '0' && key[i + 1] != '1'
      {
        if i > 0 {
          assert rest[i - 1] == '~' && rest[i - 1 + 1] == key[i + 1];
        }
      }
    }
    if Plain(key) {
      forall i | 0 <= i < |rest| - 1 && rest[i] == '~'
        ensures rest[i + 1] != '0' && rest[i + 1] != '1'
      {
        assert key[i + 1] == '~' && key[i + 1 + 1] == rest[i + 1];
      }
    }
  }
}
