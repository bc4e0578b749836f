/** A host program applies many decorators, in an order it alone determines. These
    lemmas say what the store holds after any sequence of applications. */
module History {
  import opened Wrappers
  import opened ReflectiveOptions
  import opened Metadata
  import opened Decorators

  /** The store after applying `ds` in order, first to last. */
  function Replay(s: Store, ds: seq<Decoration>): Store
    decreases |ds|
  {
    if ds == [] then s else Step(Replay(s, ds[..|ds| - 1]), ds[|ds| - 1])
  }

  /** The targets of the class decorations in `ds`. */
  function ClassTargets(ds: seq<Decoration>): set<Target>
  {
    set k | 0 <= k < |ds| && ds[k].ClassDecoration? :: ds[k].target
  }

  /** Applying `a` and then `b` is applying `a + b`. */
  lemma {:induction false} ReplayAppend(s: Store, a: seq<Decoration>, b: seq<Decoration>)
    ensures Replay(s, a + b) == Replay(Replay(s, a), b)
    decreases |b|
  {
    if b == [] {
      assert a + b == a;
    } else {
      var b' := b[..|b| - 1];
      assert (a + b)[..|a + b| - 1] == a + b';
      ReplayAppend(s, a, b');
    }
  }

  /** A slot that no decoration in `ds` writes reads as it did before. This covers the
      base-class map when only a subclass is annotated, the method map when only
      properties are, and every parameter position never annotated. */
  lemma {:induction false} ReplayUnwritten(s: Store, ds: seq<Decoration>, q: Slot)
    requires forall k :: 0 <= k < |ds| ==> Written(ds[k]) != Some(q)
    ensures Lookup(Replay(s, ds), q) == Lookup(s, q)
    decreases |ds|
  {
    if ds != [] {
      ReplayUnwritten(s, ds[..|ds| - 1], q);
      StepWritesOnlyItsSlot(Replay(s, ds[..|ds| - 1]), ds[|ds| - 1], q);
    }
  }

  /** Last write wins: a slot reads as the record of the last decoration that wrote it. */
  lemma ReplayLastWriteWins(s: Store, ds: seq<Decoration>, q: Slot, k: nat)
    requires k < |ds| && Written(ds[k]) == Some(q)
    requires forall j :: k < j < |ds| ==> Written(ds[j]) != Some(q)
    ensures Lookup(Replay(s, ds), q) == Some(Normalize(ds[k].arg))
  {
    var pre, post := ds[..k + 1], ds[k + 1..];
    assert ds == pre + post;
    ReplayAppend(s, pre, post);
    assert pre[..|pre| - 1] == ds[..k];
    StepWritesOnlyItsSlot(Replay(s, ds[..k]), ds[k], q);
    forall j | 0 <= j < |post| ensures Written(post[j]) != Some(q) {
      assert post[j] == ds[k + 1 + j];
    }
    ReplayUnwritten(Replay(s, pre), post, q);
  }

  /** `reflectiveClasses` grows by exactly the class-decorated targets, however often
      each one is decorated. */
  lemma {:induction false} ReplayReflectiveClasses(s: Store, ds: seq<Decoration>)
    ensures Replay(s, ds).reflectiveClasses == s.reflectiveClasses + ClassTargets(ds)
    decreases |ds|
  {
    if ds != [] {
      var init := ds[..|ds| - 1];
      ReplayReflectiveClasses(s, init);
      StepReflectiveClasses(Replay(s, init), ds[|ds| - 1]);
      var last := if ds[|ds| - 1].ClassDecoration? then {ds[|ds| - 1].target} else {};
      assert ClassTargets(ds) == ClassTargets(init) + last by {
        forall t | t in ClassTargets(ds) ensures t in ClassTargets(init) + last {
          var k :| 0 <= k < |ds| && ds[k].ClassDecoration? && ds[k].target == t;
          if k < |ds| - 1 {
            assert init[k] == ds[k];
          }
        }
        forall t | t in ClassTargets(init) ensures t in ClassTargets(ds) {
          var k :| 0 <= k < |init| && init[k].ClassDecoration? && init[k].target == t;
          assert ds[k] == init[k];
        }
      }
    }
  }

  /** The length of `t`'s parameter array never shrinks, exceeds every annotated
      constructor index, and is either what it was or one more than such an index. */
  lemma {:induction false} ReplayParamLength(s: Store, ds: seq<Decoration>, t: Target)
    ensures ParamLength(Replay(s, ds), t) >= ParamLength(s, t)
    ensures forall k :: 0 <= k < |ds| && IsConstructorParam(ds[k], t) ==>
      ds[k].index < ParamLength(Replay(s, ds), t)
    ensures ParamLength(Replay(s, ds), t) == ParamLength(s, t) ||
      exists k :: 0 <= k < |ds| && IsConstructorParam(ds[k], t) &&
        ParamLength(Replay(s, ds), t) == ds[k].index + 1
    decreases |ds|
  {
    if ds != [] {
      var init := ds[..|ds| - 1];
      var d := ds[|ds| - 1];
      ReplayParamLength(s, init, t);
      StepParamLength(Replay(s, init), d, t);
      forall k | 0 <= k < |ds| - 1 ensures ds[k] == init[k] {
      }
      if ParamLength(Replay(s, ds), t) != ParamLength(Replay(s, init), t) {
        assert IsConstructorParam(ds[|ds| - 1], t);
      } else if ParamLength(Replay(s, init), t) != ParamLength(s, t) {
        var k :| 0 <= k < |init| && IsConstructorParam(init[k], t) &&
          ParamLength(Replay(s, init), t) == init[k].index + 1;
        assert ds[k] == init[k];
      }
    }
  }

  /** From the empty store, the parameter array of `t` is empty when no constructor
      parameter of `t` is annotated, and otherwise exactly one longer than the highest
      annotated index; an index never annotated is a hole. */
  lemma FreshParamArray(ds: seq<Decoration>, t: Target, i: nat)
    ensures (forall k :: 0 <= k < |ds| ==> !IsConstructorParam(ds[k], t)) ==>
      ParamLength(Replay(EmptyStore, ds), t) == 0
    ensures forall k :: 0 <= k < |ds| && IsConstructorParam(ds[k], t) ==>
      ds[k].index < ParamLength(Replay(EmptyStore, ds), t)
    ensures ParamLength(Replay(EmptyStore, ds), t) > 0 ==>
      exists k :: 0 <= k < |ds| && IsConstructorParam(ds[k], t) &&
        ParamLength(Replay(EmptyStore, ds), t) == ds[k].index + 1
    ensures (forall k :: 0 <= k < |ds| ==> !(IsConstructorParam(ds[k], t) && ds[k].index == i)) ==>
      Lookup(Replay(EmptyStore, ds), ParamSlot(t, i)) == None
  {
    ReplayParamLength(EmptyStore, ds, t);
    if forall k :: 0 <= k < |ds| ==> !(IsConstructorParam(ds[k], t) && ds[k].index == i) {
      forall k | 0 <= k < |ds| ensures Written(ds[k]) != Some(ParamSlot(t, i)) {
      }
      ReplayUnwritten(EmptyStore, ds, ParamSlot(t, i));
    }
  }
}
