/**
 The registry of model versions (backend/app/services/model_registry.py): a dict of dicts updated
 in place, and the simple thing it stands for, which versions there are and which one, if any, is
 active for each type.
 */
module ModelRegistries {
  import opened Wrappers

  type Version = string

  datatype ModelType = ImageEmbedding | TextEmbedding | Reranker

  datatype Status = Active | Inactive | Deprecated | Experimental

  datatype Info = Info(name: string, version: Version, modelType: ModelType, dimension: nat, status: Status)

  datatype RegistryError = Conflict | NotFound

  type Versions = map<Version, Info>

  // ----- What a registry stands for -----

  datatype Slot = Slot(modelType: ModelType, version: Version)

  /** Every registered version as it was registered, status aside, and the active version of each type. */
  datatype Abstract = Abstract(registered: map<Slot, Info>, active: map<ModelType, Version>)

  function Plain(i: Info): Info {
    i.(status := Inactive)
  }

  datatype Op = Register(info: Info) | Activate(modelType: ModelType, version: Version) | Deactivate(modelType: ModelType, version: Version)

  const EMPTY := Abstract(map[], map[])

  predicate Accepts(a: Abstract, op: Op) {
    match op
    case Register(i) => Slot(i.modelType, i.version) !in a.registered
    case Activate(t, v) => Slot(t, v) in a.registered
    case Deactivate(t, v) => Slot(t, v) in a.registered
  }

  function Apply(a: Abstract, op: Op): Abstract {
    if !Accepts(a, op) then a
    else
      match op
      case Register(i) =>
        Abstract(a.registered[Slot(i.modelType, i.version) := Plain(i)],
                 if i.status.Active? then a.active[i.modelType := i.version] else a.active)
      case Activate(t, v) => a.(active := a.active[t := v])
      case Deactivate(t, v) => if t in a.active && a.active[t] == v then a.(active := a.active - {t}) else a
  }

  function TypeOf(op: Op): ModelType {
    match op
    case Register(i) => i.modelType
    case Activate(t, _) => t
    case Deactivate(t, _) => t
  }

  function ApplyAll(a: Abstract, ops: seq<Op>): Abstract {
    if ops == [] then a else Apply(ApplyAll(a, ops[..|ops| - 1]), ops[|ops| - 1])
  }

  predicate ActiveIs(a: Abstract, t: ModelType, v: Version) {
    t in a.active && a.active[t] == v
  }

  /** Over any run no registered version is lost or changed. */
  lemma {:induction false} NothingLost(a: Abstract, ops: seq<Op>, slot: Slot)
    requires slot in a.registered
    ensures slot in ApplyAll(a, ops).registered && ApplyAll(a, ops).registered[slot] == a.registered[slot]
  {
    if ops != [] {
      NothingLost(a, ops[..|ops| - 1], slot);
    }
  }

  /** An accepted operation that makes a version active. */
  predicate Promotes(a: Abstract, op: Op, t: ModelType, v: Version) {
    && Accepts(a, op) && TypeOf(op) == t
    && match op
       case Register(i) => i.status.Active? && i.version == v
       case Activate(_, w) => w == v
       case Deactivate(_, _) => false
  }

  /** An accepted operation after which a version cannot be the active one. */
  predicate Displaces(a: Abstract, op: Op, t: ModelType, v: Version) {
    && Accepts(a, op) && TypeOf(op) == t
    && match op
       case Register(i) => i.status.Active? && i.version != v
       case Activate(_, w) => w != v
       case Deactivate(_, w) => w == v
  }

  lemma OneOp(a: Abstract, op: Op, t: ModelType, v: Version)
    ensures ActiveIs(Apply(a, op), t, v) <==> Promotes(a, op, t, v) || (ActiveIs(a, t, v) && !Displaces(a, op, t, v))
  {
  }

  /** Of the first n operations, operation k made v active and no later one displaced it. */
  ghost predicate LastWord(ops: seq<Op>, n: nat, t: ModelType, v: Version, k: nat)
    requires n <= |ops|
  {
    && k < n && Promotes(ApplyAll(EMPTY, ops[..k]), ops[k], t, v)
    && forall j :: k < j < n ==> !Displaces(ApplyAll(EMPTY, ops[..j]), ops[j], t, v)
  }

  /** Who has the last word after one more operation. */
  lemma LaterWord(ops: seq<Op>, m: nat, n: nat, t: ModelType, v: Version)
    requires m < |ops| && n == m + 1
    ensures forall k: nat :: k < m ==>
              (LastWord(ops, n, t, v, k) <==> LastWord(ops, m, t, v, k) && !Displaces(ApplyAll(EMPTY, ops[..m]), ops[m], t, v))
    ensures LastWord(ops, n, t, v, m) <==> Promotes(ApplyAll(EMPTY, ops[..m]), ops[m], t, v)
  {
  }

  ghost predicate SomeLastWord(ops: seq<Op>, n: nat, t: ModelType, v: Version)
    requires n <= |ops|
  {
    exists k: nat :: LastWord(ops, n, t, v, k)
  }

  /** Some operation has the last word on v after one more, if this one promoted v, or one had it before and this one did not displace it. */
  lemma LastWordStep(ops: seq<Op>, m: nat, n: nat, t: ModelType, v: Version)
    requires m < |ops| && n == m + 1
    ensures var before := ApplyAll(EMPTY, ops[..m]);
            SomeLastWord(ops, n, t, v) <==>
            Promotes(before, ops[m], t, v) || (SomeLastWord(ops, m, t, v) && !Displaces(before, ops[m], t, v))
  {
    LaterWord(ops, m, n, t, v);
    if SomeLastWord(ops, n, t, v) {
      var k: nat :| LastWord(ops, n, t, v, k);
      assert k < m || k == m;
    }
  }

  lemma ApplyLast(ops: seq<Op>, m: nat, n: nat)
    requires m < |ops| && n == m + 1
    ensures ApplyAll(EMPTY, ops[..n]) == Apply(ApplyAll(EMPTY, ops[..m]), ops[m])
  {
    assert ops[..n][..m] == ops[..m];
  }

  /**
   The active version of a type, in a registry that began empty, is the one that had the last word;
   none is active if none had.
   */
  lemma {:induction false} ActiveHadLastWord(ops: seq<Op>, n: nat, t: ModelType, v: Version)
    requires n <= |ops|
    ensures ActiveIs(ApplyAll(EMPTY, ops[..n]), t, v) <==> exists k: nat :: LastWord(ops, n, t, v, k)
  {
    if n > 0 {
      var m: nat := n - 1;
      ActiveHadLastWord(ops, m, t, v);
      ApplyLast(ops, m, n);
      OneOp(ApplyAll(EMPTY, ops[..m]), ops[m], t, v);
      LastWordStep(ops, m, n, t, v);
      assert SomeLastWord(ops, m, t, v) <==> exists k: nat :: LastWord(ops, m, t, v, k);
      assert SomeLastWord(ops, n, t, v) <==> exists k: nat :: LastWord(ops, n, t, v, k);
    }
  }

  // ----- The registry -----

  /** What the inner dict of a type has to do with the abstract registry. */
  ghost predicate Stands(vs: Versions, a: Abstract, t: ModelType) {
    && (forall v :: Slot(t, v) in a.registered <==> v in vs)
    && (forall v :: v in vs ==> a.registered[Slot(t, v)] == Plain(vs[v]))
    && (forall v :: v in vs ==> vs[v].version == v && vs[v].modelType == t)
    && (forall v :: ActiveIs(a, t, v) <==> v in vs && vs[v].status.Active?)
  }

  ghost predicate Represents(models: map<ModelType, Versions>, a: Abstract) {
    forall t: ModelType :: t in models && Stands(models[t], a, t)
  }

  /** In a registry that represents anything at all, no type has two active versions. */
  lemma OneActive(models: map<ModelType, Versions>, a: Abstract, t: ModelType, u: Version, v: Version)
    requires Represents(models, a) && u in models[t] && v in models[t]
    requires models[t][u].status.Active? && models[t][v].status.Active?
    ensures u == v
  {
    assert ActiveIs(a, t, u) && ActiveIs(a, t, v);
  }

  function Demoted(vs: Versions): Versions {
    map v | v in vs :: if vs[v].status.Active? then vs[v].(status := Inactive) else vs[v]
  }

  /** An operation says nothing about the other types. */
  lemma OthersStand(vs: Versions, a: Abstract, op: Op, t: ModelType)
    requires Stands(vs, a, t) && TypeOf(op) != t
    ensures Stands(vs, Apply(a, op), t)
  {
  }

  lemma Placed(models: map<ModelType, Versions>, a: Abstract, op: Op, vs: Versions)
    requires Represents(models, a) && Stands(vs, Apply(a, op), TypeOf(op))
    ensures Represents(models[TypeOf(op) := vs], Apply(a, op))
  {
    forall t: ModelType ensures t in models && Stands(models[TypeOf(op) := vs][t], Apply(a, op), t) {
      if t != TypeOf(op) { OthersStand(models[t], a, op, t); }
    }
  }

  lemma RegisterKeeps(models: map<ModelType, Versions>, a: Abstract, info: Info)
    requires Represents(models, a) && info.version !in models[info.modelType]
    ensures var t := info.modelType;
            var vs := if info.status.Active? then Demoted(models[t]) else models[t];
            Represents(models[t := vs[info.version := info]], Apply(a, Op.Register(info)))
  {
    var t := info.modelType;
    var vs := if info.status.Active? then Demoted(models[t]) else models[t];
    Placed(models, a, Op.Register(info), vs[info.version := info]);
  }

  lemma ActivateKeeps(models: map<ModelType, Versions>, a: Abstract, t: ModelType, version: Version)
    requires Represents(models, a) && version in models[t]
    ensures var info := models[t][version].(status := Active);
            Represents(models[t := Demoted(models[t])[version := info]], Apply(a, Op.Activate(t, version)))
  {
    var info := models[t][version].(status := Active);
    Placed(models, a, Op.Activate(t, version), Demoted(models[t])[version := info]);
  }

  lemma DeactivateKeeps(models: map<ModelType, Versions>, a: Abstract, t: ModelType, version: Version)
    requires Represents(models, a) && version in models[t]
    ensures var info := models[t][version].(status := Inactive);
            Represents(models[t := models[t][version := info]], Apply(a, Op.Deactivate(t, version)))
  {
    var info := models[t][version].(status := Inactive);
    assert ActiveIs(a, t, version) <==> models[t][version].status.Active?;
    Placed(models, a, Op.Deactivate(t, version), models[t][version := info]);
  }

  class ModelRegistry {
    var models: map<ModelType, Versions>
    ghost var view: Abstract

    ghost predicate Valid()
      reads this
    {
      Represents(models, view)
    }

    constructor ()
      ensures Valid() && view == EMPTY
    {
      models := map[ImageEmbedding := map[], TextEmbedding := map[], Reranker := map[]];
      view := EMPTY;
      new;
      forall t: ModelType ensures t in models {
        assert t.ImageEmbedding? || t.TextEmbedding? || t.Reranker?;
      }
    }

    method DeactivateAll(t: ModelType)
      requires t in models
      modifies this`models
      ensures models == old(models)[t := Demoted(old(models)[t])]
    {
      var versions := models[t].Keys;
      ghost var before := models[t];
      while versions != {}
        invariant versions <= before.Keys && t in models && models == old(models)[t := models[t]]
        invariant models[t].Keys == before.Keys
        invariant forall v :: v in before ==> models[t][v] == if v in versions then before[v] else Demoted(before)[v]
        decreases versions
      {
        var v :| v in versions;
        if models[t][v].status.Active? {
          models := models[t := models[t][v := models[t][v].(status := Inactive)]];
        }
        versions := versions - {v};
      }
      assert models[t] == Demoted(before);
    }

    method Register(info: Info) returns (r: Result<Info, RegistryError>)
      requires Valid()
      modifies this
      ensures Valid() && view == Apply(old(view), Op.Register(info))
      ensures r == (if Accepts(old(view), Op.Register(info)) then Ok(info) else Err(Conflict))
      ensures r.Err? ==> models == old(models)
      ensures forall t: ModelType :: t != info.modelType ==> models[t] == old(models)[t]
    {
      var t := info.modelType;
      if info.version in models[t] {
        return Err(Conflict);
      }
      ghost var before := models;
      RegisterKeeps(models, view, info);
      view := Apply(view, Op.Register(info));
      if info.status.Active? {
        DeactivateAll(t);
      }
      var vs := models[t];
      models := models[t := vs[info.version := info]];
      assert models == before[t := vs[info.version := info]];
      r := Ok(info);
    }

    method GetModel(t: ModelType, version: Version) returns (r: Result<Info, RegistryError>)
      requires Valid()
      ensures r == (if Slot(t, version) in view.registered then Ok(models[t][version]) else Err(NotFound))
      ensures r.Ok? ==> Plain(r.value) == view.registered[Slot(t, version)]
    {
      r := if version in models[t] then Ok(models[t][version]) else Err(NotFound);
    }

    method GetActiveModel(t: ModelType) returns (r: Result<Info, RegistryError>)
      requires Valid()
      ensures r == (if t in view.active then Ok(models[t][view.active[t]]) else Err(NotFound))
      ensures r.Ok? ==> r.value.status.Active? && r.value.modelType == t
    {
      assert t in view.active ==> ActiveIs(view, t, view.active[t]);
      if v :| v in models[t] && models[t][v].status.Active? {
        assert ActiveIs(view, t, v);
        return Ok(models[t][v]);
      }
      return Err(NotFound);
    }

    method Activate(t: ModelType, version: Version) returns (r: Result<Info, RegistryError>)
      requires Valid()
      modifies this
      ensures Valid() && view == Apply(old(view), Op.Activate(t, version))
      ensures r == (if Accepts(old(view), Op.Activate(t, version)) then Ok(old(models)[t][version].(status := Active)) else Err(NotFound))
      ensures r.Err? ==> models == old(models)
      ensures forall u: ModelType :: u != t ==> models[u] == old(models)[u]
    {
      r := GetModel(t, version);
      if r.Err? { return; }
      ghost var before := models;
      ActivateKeeps(models, view, t, version);
      view := Apply(view, Op.Activate(t, version));
      DeactivateAll(t);
      var vs := models[t];
      r := Ok(r.value.(status := Active));
      models := models[t := vs[version := r.value]];
      assert models == before[t := vs[version := r.value]];
    }

    method Deactivate(t: ModelType, version: Version) returns (r: Result<Info, RegistryError>)
      requires Valid()
      modifies this
      ensures Valid() && view == Apply(old(view), Op.Deactivate(t, version))
      ensures r == (if Accepts(old(view), Op.Deactivate(t, version)) then Ok(old(models)[t][version].(status := Inactive)) else Err(NotFound))
      ensures r.Err? ==> models == old(models)
      ensures forall u: ModelType :: u != t ==> models[u] == old(models)[u]
    {
      r := GetModel(t, version);
      if r.Err? { return; }
      DeactivateKeeps(models, view, t, version);
      view := Apply(view, Op.Deactivate(t, version));
      r := Ok(r.value.(status := Inactive));
      models := models[t := models[t][version := r.value]];
    }
  }
}
