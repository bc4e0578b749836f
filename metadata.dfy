/** The own-metadata store the decorators write through `Reflect.defineMetadata` and
    read back through `Reflect.getOwnMetadata`. Both address exactly one target object
    and never follow its prototype chain, so the store is a map per metadata key,
    keyed by the target, plus the process-wide `reflectiveClasses` set. */
module Metadata {
  import opened Wrappers
  import opened ReflectiveOptions

  /** The identity of an annotated JavaScript object: a class constructor, or the
      prototype that member decorators receive. Two targets are the same object exactly
      when their identities are equal. */
  datatype Target = Target(identity: nat)

  /** A property or method map, as built by `new Map<string | symbol, ...>()`. */
  type MemberMap = map<Ident, Options>

  /** A JavaScript array of parameter options: its `length` is the sequence length and a
      hole (an index never assigned) is `None`. */
  type ParamArray = seq<Option<Options>>

  /** Everything the decorators have written. The four maps are the four metadata keys. */
  datatype Store = Store(
    reflectiveClasses: set<Target>,                 // `reflectiveClasses`, line 12
    classOptions: map<Target, Options>,             // key 'reflective:options'
    propertyOptions: map<Target, MemberMap>,        // key 'reflective:propertyoptions'
    methodOptions: map<Target, MemberMap>,          // key 'reflective:methodoptions'
    paramOptions: map<Target, ParamArray>)          // key 'reflective:paramoptions'

  /** The state when the module is first loaded: an empty set and no metadata. */
  const EmptyStore := Store({}, map[], map[], map[], map[])

  /** `Reflect.getOwnMetadata(key, target) || new Map()`: the target's own map, or a
      fresh empty one when the target has none of its own. */
  function OwnMap(m: map<Target, MemberMap>, t: Target): (r: MemberMap)
    ensures t in m ==> r == m[t]
    ensures t !in m ==> r == map[]
  {
    if t in m then m[t] else map[]
  }

  /** `Reflect.getOwnMetadata(key, target) || []`. */
  function OwnArray(m: map<Target, ParamArray>, t: Target): (r: ParamArray)
    ensures t in m ==> r == m[t]
    ensures t !in m ==> r == []
  {
    if t in m then m[t] else []
  }

  /** The holes JavaScript leaves when an assignment lands past the end of an array. */
  function Holes(n: nat): (r: ParamArray)
    ensures |r| == n
    ensures forall j :: 0 <= j < n ==> r[j] == None
  {
    seq(n, _ => None)
  }

  /** The JavaScript assignment `a[i] = v`: entry `i` becomes `v`, every other entry is
      kept, and an index at or past the end grows `length` to `i + 1`, leaving holes
      in between. */
  function AssignIndex(a: ParamArray, i: nat, v: Options): (r: ParamArray)
    ensures |r| == if i < |a| then |a| else i + 1
    ensures r[i] == Some(v)
    ensures forall j :: 0 <= j < |r| && j != i ==> r[j] == if j < |a| then a[j] else None
  {
    if i < |a| then a[i := Some(v)] else a + Holes(i - |a|) + [Some(v)]
  }

  /** Reading index `i` of a JavaScript array: `undefined` for a hole or past the end. */
  function ArrayAt(a: ParamArray, i: nat): Option<Options>
  {
    if i < |a| then a[i] else None
  }

  /** Reading key `k` of a `Map`: `undefined` when the key is absent. */
  function MapAt(m: MemberMap, k: Ident): Option<Options>
  {
    if k in m then Some(m[k]) else None
  }

  /** One options record that a consumer can read back from the store. */
  datatype Slot =
    | ClassSlot(target: Target)
    | PropertySlot(target: Target, key: Ident)
    | MethodSlot(target: Target, key: Ident)
    | ParamSlot(target: Target, index: nat)

  /** What an own-metadata read of that slot yields. */
  function Lookup(s: Store, q: Slot): Option<Options>
  {
    match q
    case ClassSlot(t) => if t in s.classOptions then Some(s.classOptions[t]) else None
    case PropertySlot(t, k) => MapAt(OwnMap(s.propertyOptions, t), k)
    case MethodSlot(t, k) => MapAt(OwnMap(s.methodOptions, t), k)
    case ParamSlot(t, i) => ArrayAt(OwnArray(s.paramOptions, t), i)
  }

  /** The `length` of the target's own parameter-options array (0 when it has none). */
  function ParamLength(s: Store, t: Target): nat
  {
    |OwnArray(s.paramOptions, t)|
  }

  /** Assigning an index twice leaves the array as if only the second assignment had
      happened. */
  lemma AssignIndexOverwrite(a: ParamArray, i: nat, v: Options, w: Options)
    ensures AssignIndex(AssignIndex(a, i, v), i, w) == AssignIndex(a, i, w)
  {
    var b, c := AssignIndex(AssignIndex(a, i, v), i, w), AssignIndex(a, i, w);
    assert |b| == |c|;
    forall j | 0 <= j < |b| ensures b[j] == c[j] {
    }
  }

  /** Assignments to two different indices can be made in either order. */
  lemma AssignIndexCommute(a: ParamArray, i: nat, v: Options, j: nat, w: Options)
    requires i != j
    ensures AssignIndex(AssignIndex(a, i, v), j, w) == AssignIndex(AssignIndex(a, j, w), i, v)
  {
    var b, c := AssignIndex(AssignIndex(a, i, v), j, w), AssignIndex(AssignIndex(a, j, w), i, v);
    assert |b| == |c|;
    forall k | 0 <= k < |b| ensures b[k] == c[k] {
    }
  }
}
