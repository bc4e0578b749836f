/** The four decorator factories of src/decorators.ts. A decorator application is one
    step on the metadata store (`Step`, on values), and the `Registry` class performs
    the same step in place, field by field, as the source does. */
module Decorators {
  import opened Wrappers
  import opened ReflectiveOptions
  import opened Metadata

  /** One application of a decorator: the factory's argument together with what the
      runtime passes to the returned closure. `member` is the `propertyKey` a parameter
      decorator receives, `None` (`undefined`) for a constructor parameter. */
  datatype Decoration =
    | ClassDecoration(arg: Arg, target: Target)
    | PropertyDecoration(arg: Arg, target: Target, key: Ident)
    | MethodDecoration(arg: Arg, target: Target, key: Ident)
    | ParameterDecoration(arg: Arg, target: Target, member: Option<Ident>, index: nat)

  /** The decoration annotates a parameter of the constructor of `t`. */
  predicate IsConstructorParam(d: Decoration, t: Target)
  {
    d.ParameterDecoration? && d.member.None? && d.target == t
  }

  /** The one slot a decoration writes; a parameter of an ordinary method writes none. */
  function Written(d: Decoration): (r: Option<Slot>)
    ensures r.None? <==> d.ParameterDecoration? && d.member.Some?
    ensures r.Some? ==> r.value.target == d.target
  {
    match d
    case ClassDecoration(_, t) => Some(ClassSlot(t))
    case PropertyDecoration(_, t, k) => Some(PropertySlot(t, k))
    case MethodDecoration(_, t, k) => Some(MethodSlot(t, k))
    case ParameterDecoration(_, t, member, i) =>
      if member.Some? then None else Some(ParamSlot(t, i))
  }

  /** The store after one decorator application (lines 17-25, 32-43, 50-66, 73-89). */
  function Step(s: Store, d: Decoration): (r: Store)
    ensures Written(d).Some? ==> Lookup(r, Written(d).value) == Some(Normalize(d.arg))
    ensures Written(d).None? ==> r == s
    ensures s.reflectiveClasses <= r.reflectiveClasses
  {
    match d
    case ClassDecoration(arg, t) =>
      s.(reflectiveClasses := s.reflectiveClasses + {t},
         classOptions := s.classOptions[t := Normalize(arg)])
    case PropertyDecoration(arg, t, k) =>
      s.(propertyOptions := s.propertyOptions[t := OwnMap(s.propertyOptions, t)[k := Normalize(arg)]])
    case MethodDecoration(arg, t, k) =>
      s.(methodOptions := s.methodOptions[t := OwnMap(s.methodOptions, t)[k := Normalize(arg)]])
    case ParameterDecoration(arg, t, member, i) =>
      if member.Some? then s
      else s.(paramOptions := s.paramOptions[t := AssignIndex(OwnArray(s.paramOptions, t), i, Normalize(arg))])
  }

  /** A decoration writes the normalised record into its own slot and nothing else:
      every other slot, of every target and every kind, reads as before. */
  lemma StepWritesOnlyItsSlot(s: Store, d: Decoration, q: Slot)
    ensures Lookup(Step(s, d), q) == if Written(d) == Some(q) then Some(Normalize(d.arg)) else Lookup(s, q)
  {
    match d
    case ClassDecoration(_, _) =>
    case PropertyDecoration(_, _, _) =>
    case MethodDecoration(_, _, _) =>
    case ParameterDecoration(arg, t, member, i) =>
      if member.None? && q.ParamSlot? && q.target == t {
        var a := OwnArray(s.paramOptions, t);
        assert OwnArray(Step(s, d).paramOptions, t) == AssignIndex(a, i, Normalize(arg));
      }
  }

  /** Only a class decoration changes `reflectiveClasses`, and it only adds its target. */
  lemma StepReflectiveClasses(s: Store, d: Decoration)
    ensures Step(s, d).reflectiveClasses ==
      if d.ClassDecoration? then s.reflectiveClasses + {d.target} else s.reflectiveClasses
  {
  }

  /** Only a constructor-parameter decoration of `t` changes the length of `t`'s
      parameter array, and it becomes `max(length, index + 1)`. */
  lemma StepParamLength(s: Store, d: Decoration, t: Target)
    ensures ParamLength(Step(s, d), t) ==
      if IsConstructorParam(d, t) && ParamLength(s, t) <= d.index then d.index + 1
      else ParamLength(s, t)
  {
  }

  /** A parameter decorator applied to an ordinary method's parameter is a no-op. */
  lemma MethodParameterIsNoOp(s: Store, d: Decoration)
    requires d.ParameterDecoration? && d.member.Some?
    ensures Step(s, d) == s
  {
  }

  /** Applying a class decorator again keeps the set as it is. */
  lemma ReflectiveClassIdempotent(s: Store, arg: Arg, t: Target)
    requires t in s.reflectiveClasses
    ensures Step(s, ClassDecoration(arg, t)).reflectiveClasses == s.reflectiveClasses
  {
  }

  /** Last write wins: a second decoration of the same slot leaves the store exactly as
      if the first had never been applied. */
  lemma SameSlotLastWriteWins(s: Store, d1: Decoration, d2: Decoration)
    requires Written(d1).Some? && Written(d1) == Written(d2)
    ensures Step(Step(s, d1), d2) == Step(s, d2)
  {
    match d1
    case ClassDecoration(_, _) =>
    case PropertyDecoration(arg, t, k) =>
      MemberUpdateOverwrite(s.propertyOptions, t, k, Normalize(arg), Normalize(d2.arg));
    case MethodDecoration(arg, t, k) =>
      MemberUpdateOverwrite(s.methodOptions, t, k, Normalize(arg), Normalize(d2.arg));
    case ParameterDecoration(arg, t, _, i) =>
      AssignIndexOverwrite(OwnArray(s.paramOptions, t), i, Normalize(arg), Normalize(d2.arg));
  }

  /** Two decorations that do not write the same slot with different records (including
      two that write nothing) give the same store in either order, so the host's order of application does not matter
      for them. */
  lemma IndependentCommute(s: Store, d1: Decoration, d2: Decoration)
    requires Written(d1) != Written(d2) || Written(d1).None? || Normalize(d1.arg) == Normalize(d2.arg)
    ensures Step(Step(s, d1), d2) == Step(Step(s, d2), d1)
  {
    match d1
    case ClassDecoration(_, _) => CommuteClass(s, d1, d2);
    case PropertyDecoration(_, _, _) => CommuteProperty(s, d1, d2);
    case MethodDecoration(_, _, _) => CommuteMethod(s, d1, d2);
    case ParameterDecoration(_, _, _, _) => CommuteParameter(s, d1, d2);
  }

  /** `IndependentCommute` when the first decoration is a class decoration. */
  lemma CommuteClass(s: Store, d1: Decoration, d2: Decoration)
    requires d1.ClassDecoration?
    requires Written(d1) != Written(d2) || Normalize(d1.arg) == Normalize(d2.arg)
    ensures Step(Step(s, d1), d2) == Step(Step(s, d2), d1)
  {
    if d2.ClassDecoration? && d2.target == d1.target {
      assert Normalize(d1.arg) == Normalize(d2.arg);
    }
  }

  /** `IndependentCommute` when the first decoration is a property decoration. */
  lemma CommuteProperty(s: Store, d1: Decoration, d2: Decoration)
    requires d1.PropertyDecoration?
    requires Written(d1) != Written(d2) || Normalize(d1.arg) == Normalize(d2.arg)
    ensures Step(Step(s, d1), d2) == Step(Step(s, d2), d1)
  {
    if d2.PropertyDecoration? {
      MemberUpdateCommute(s.propertyOptions, d1.target, d1.key, Normalize(d1.arg), d2.target, d2.key, Normalize(d2.arg));
    }
  }

  /** `IndependentCommute` when the first decoration is a method decoration. */
  lemma CommuteMethod(s: Store, d1: Decoration, d2: Decoration)
    requires d1.MethodDecoration?
    requires Written(d1) != Written(d2) || Normalize(d1.arg) == Normalize(d2.arg)
    ensures Step(Step(s, d1), d2) == Step(Step(s, d2), d1)
  {
    if d2.MethodDecoration? {
      MemberUpdateCommute(s.methodOptions, d1.target, d1.key, Normalize(d1.arg), d2.target, d2.key, Normalize(d2.arg));
    }
  }

  /** `IndependentCommute` when the first decoration is a parameter decoration. */
  lemma CommuteParameter(s: Store, d1: Decoration, d2: Decoration)
    requires d1.ParameterDecoration?
    requires Written(d1) != Written(d2) || Written(d1).None? || Normalize(d1.arg) == Normalize(d2.arg)
    ensures Step(Step(s, d1), d2) == Step(Step(s, d2), d1)
  {
    if d1.member.Some? {
      assert Step(s, d1) == s;
    } else if !d2.ParameterDecoration? {
    } else if d2.member.Some? {
      assert Step(s, d2) == s;
    } else {
      ParamUpdateCommute(s.paramOptions, d1.target, d1.index, Normalize(d1.arg), d2.target, d2.index, Normalize(d2.arg));
    }
  }

  /** Assignments to two different (target, index) pairs, or of the same record, commute. */
  lemma ParamUpdateCommute(m: map<Target, ParamArray>, t1: Target, i1: nat, v1: Options,
                           t2: Target, i2: nat, v2: Options)
    requires t1 != t2 || i1 != i2 || v1 == v2
    ensures var a := m[t1 := AssignIndex(OwnArray(m, t1), i1, v1)];
            var b := m[t2 := AssignIndex(OwnArray(m, t2), i2, v2)];
            a[t2 := AssignIndex(OwnArray(a, t2), i2, v2)] == b[t1 := AssignIndex(OwnArray(b, t1), i1, v1)]
  {
    if t1 == t2 && i1 != i2 {
      AssignIndexCommute(OwnArray(m, t1), i1, v1, i2, v2);
    }
  }

  /** Writing key `k` of `t`'s own map twice keeps only the second record. */
  lemma MemberUpdateOverwrite(m: map<Target, MemberMap>, t: Target, k: Ident, v: Options, w: Options)
    ensures var m1 := m[t := OwnMap(m, t)[k := v]];
            m1[t := OwnMap(m1, t)[k := w]] == m[t := OwnMap(m, t)[k := w]]
  {
    assert OwnMap(m, t)[k := v][k := w] == OwnMap(m, t)[k := w];
  }

  /** Writes of two different (target, key) pairs, or of the same record, commute. */
  lemma MemberUpdateCommute(m: map<Target, MemberMap>, t1: Target, k1: Ident, v1: Options,
                            t2: Target, k2: Ident, v2: Options)
    requires t1 != t2 || k1 != k2 || v1 == v2
    ensures var a := m[t1 := OwnMap(m, t1)[k1 := v1]];
            var b := m[t2 := OwnMap(m, t2)[k2 := v2]];
            a[t2 := OwnMap(a, t2)[k2 := v2]] == b[t1 := OwnMap(b, t1)[k1 := v1]]
  {
    if t1 == t2 {
      assert OwnMap(m, t1)[k1 := v1][k2 := v2] == OwnMap(m, t1)[k2 := v2][k1 := v1];
    }
  }

  /** The annotation registry: `reflectiveClasses` and the own-metadata slots of every
      target, one field per metadata key, updated in place by the decorators. */
  class Registry {
    var reflectiveClasses: set<Target>
    var classOptions: map<Target, Options>
    var propertyOptions: map<Target, MemberMap>
    var methodOptions: map<Target, MemberMap>
    var paramOptions: map<Target, ParamArray>

    /** The registry's current contents as a value. */
    function Snapshot(): Store
      reads this
    {
      Store(reflectiveClasses, classOptions, propertyOptions, methodOptions, paramOptions)
    }

    /** `new Set<Function>()` at line 12, with nothing yet defined in the store. */
    constructor ()
      ensures Snapshot() == EmptyStore
    {
      reflectiveClasses := {};
      classOptions := map[];
      propertyOptions := map[];
      methodOptions := map[];
      paramOptions := map[];
    }

    /** `ReflectiveClass(arg)` applied to `target`. */
    method ReflectiveClass(arg: Arg, target: Target)
      modifies this`reflectiveClasses, this`classOptions
      ensures reflectiveClasses == old(reflectiveClasses) + {target}
      ensures classOptions == old(classOptions)[target := Normalize(arg)]
      ensures Snapshot() == Step(old(Snapshot()), ClassDecoration(arg, target))
    {
      reflectiveClasses := reflectiveClasses + {target};
      var options := Normalize(arg);
      classOptions := classOptions[target := options];
    }

    /** `ReflectiveProperty(arg)` applied to `(target, propertyKey)`. */
    method ReflectiveProperty(arg: Arg, target: Target, propertyKey: Ident)
      modifies this`propertyOptions
      ensures target in propertyOptions && propertyKey in propertyOptions[target]
      ensures propertyOptions[target][propertyKey] == Normalize(arg)
      ensures forall q :: q != propertyKey ==>
        MapAt(propertyOptions[target], q) == MapAt(OwnMap(old(propertyOptions), target), q)
      ensures forall u :: u != target ==> OwnMap(propertyOptions, u) == OwnMap(old(propertyOptions), u)
      ensures Snapshot() == Step(old(Snapshot()), PropertyDecoration(arg, target, propertyKey))
    {
      var existing := OwnMap(propertyOptions, target);
      var options := Normalize(arg);
      existing := existing[propertyKey := options];
      propertyOptions := propertyOptions[target := existing];
    }

    /** `ReflectiveMethod(arg)` applied to `(target, propertyKey, descriptor)`; the
        descriptor is not used. */
    method ReflectiveMethod(arg: Arg, target: Target, propertyKey: Ident)
      modifies this`methodOptions
      ensures target in methodOptions && propertyKey in methodOptions[target]
      ensures methodOptions[target][propertyKey] == Normalize(arg)
      ensures forall q :: q != propertyKey ==>
        MapAt(methodOptions[target], q) == MapAt(OwnMap(old(methodOptions), target), q)
      ensures forall u :: u != target ==> OwnMap(methodOptions, u) == OwnMap(old(methodOptions), u)
      ensures Snapshot() == Step(old(Snapshot()), MethodDecoration(arg, target, propertyKey))
    {
      var existing := OwnMap(methodOptions, target);
      var options := Normalize(arg);
      existing := existing[propertyKey := options];
      methodOptions := methodOptions[target := existing];
    }

    /** `ReflectiveParameter(arg)` applied to `(target, propertyKey, parameterIndex)`. */
    method ReflectiveParameter(arg: Arg, target: Target, propertyKey: Option<Ident>, parameterIndex: nat)
      modifies this`paramOptions
      ensures propertyKey.Some? ==> paramOptions == old(paramOptions)
      ensures propertyKey.None? ==> (paramOptions ==
        old(paramOptions)[target := AssignIndex(OwnArray(old(paramOptions), target), parameterIndex, Normalize(arg))])
      ensures forall u :: u != target ==> OwnArray(paramOptions, u) == OwnArray(old(paramOptions), u)
      ensures Snapshot() == Step(old(Snapshot()), ParameterDecoration(arg, target, propertyKey, parameterIndex))
    {
      if propertyKey.Some? {
        return;
      }
      var existing := OwnArray(paramOptions, target);
      var options := Normalize(arg);
      existing := AssignIndex(existing, parameterIndex, options);
      paramOptions := paramOptions[target := existing];
    }
  }

  /** Three example uses of the registry, checked by verification against its contracts. */
  method Scenarios()
  {
    var r := new Registry();
    var foo, proto := Target(1), Target(2);

    r.ReflectiveClass(Token(Str("svc")), foo);
    assert foo in r.reflectiveClasses;
    assert r.classOptions[foo] == Options(Some(Str("svc")));

    r.ReflectiveMethod(Opts(Options(Some(Str("m1")))), proto, Str("run"));
    r.ReflectiveMethod(Token(Str("m1b")), proto, Str("run"));
    assert r.methodOptions[proto][Str("run")] == Options(Some(Str("m1b")));

    r.ReflectiveParameter(NoArg, foo, None, 2);
    var a := r.paramOptions[foo];
    assert |a| == 3 && a[0] == None && a[1] == None && a[2] == Some(EmptyOptions);
  }
}
