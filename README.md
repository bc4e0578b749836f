# Reflective decorators: a verified model of the annotation registry

The repository is one TypeScript file, `src/decorators.ts`. It defines four decorator
factories: `ReflectiveClass`, `ReflectiveProperty`, `ReflectiveMethod` and
`ReflectiveParameter`. Each takes one optional argument: a string or symbol
identifier, an options record `{ identifier?: string | symbol }`, or nothing. Each
normalises that argument to a canonical `ReflectiveOptions` record. It then writes the
record into the own metadata of the annotated target, using `reflect-metadata`'s
`defineMetadata` and `getOwnMetadata`. `ReflectiveClass` also adds the class to the
process-wide set `reflectiveClasses`.

The model has five modules:

- `Wrappers` (wrappers.dfy): `Option`, which stands for JavaScript's `undefined`.
- `ReflectiveOptions` (reflective_options.dfy): identifier tokens, the options record,
  the decorator argument as a tagged union, and `Normalize`.
- `Metadata` (metadata.dfy): the own-metadata store as a value. There is one map per
  metadata key, keyed by target, plus the class set. It also holds the JavaScript
  `a[i] = v` assignment on sparse arrays (`AssignIndex`) and `Lookup`, the reads a
  consumer can make.
- `Decorators` (decorators.dfy): a decorator application as a value (`Decoration`); its
  effect on the store (`Step`); the single-step laws; and the class `Registry`, whose
  methods perform the four decorators in place, field by field, as the source does.
  Each method states its new fields and that its new state is `Step` of the old one.
- `History` (history.dfy): what the store holds after any sequence of decorator
  applications. The host program decides that order, so these lemmas hold for every
  order.

## Model

| member | source | states |
|---|---|---|
| `ReflectiveOptions.Normalize` | src/decorators.ts:20-23 | a string or symbol token becomes `{identifier: token}` (the empty string included), an options record passes through unchanged, an omitted argument becomes `{}` |
| `ReflectiveOptions.TokenSameAsOptions` | src/decorators.ts:20-23 | annotating with `id` stores the same record as annotating with `{identifier: id}` |
| `ReflectiveOptions.OmittedSameAsEmpty` | src/decorators.ts:20-23 | omitting the argument stores the same record as passing `{}` |
| `Metadata.OwnMap` | src/decorators.ts:33-34 | the target's own map if it has one, else a new empty map, never another target's map |
| `Metadata.OwnArray` | src/decorators.ts:80 | the target's own parameter array if it has one, else a new empty array |
| `Metadata.Holes` | src/decorators.ts:87 | the gap an out-of-range assignment leaves: `n` entries, all unset |
| `Metadata.AssignIndex` | src/decorators.ts:87 | `a[i] = v` sets entry `i` to `v`, keeps every other entry (set or hole), and makes the length `max(length, i+1)` with new positions unset |
| `Metadata.AssignIndexOverwrite` | src/decorators.ts:87 | assigning an index twice leaves the array as if only the second assignment had been made |
| `Metadata.AssignIndexCommute` | src/decorators.ts:87 | assignments to two different indices give the same array in either order |
| `Decorators.Written` | src/decorators.ts:78 | a decoration writes no slot exactly when it is a parameter decoration with a defined `propertyKey`; otherwise it writes a slot of its own target |
| `Decorators.Step` | src/decorators.ts:14-91 | the store after one decorator application: the class set gains the target and its class slot is overwritten, the own property or method map is updated at the key, the own parameter array is assigned by `AssignIndex`, or the store is unchanged for a method parameter |
| `Decorators.StepWritesOnlyItsSlot` | src/decorators.ts:14-91 | after one decoration its own slot reads as the normalised record, and every other slot (other targets, other keys, other indices, the other metadata kinds) reads as before |
| `Decorators.StepReflectiveClasses` | src/decorators.ts:18 | only a class decoration changes `reflectiveClasses`, and it adds exactly its target |
| `Decorators.StepParamLength` | src/decorators.ts:78-89 | only a constructor-parameter decoration of `t` changes the length of `t`'s array, to `max(length, index+1)` |
| `Decorators.MethodParameterIsNoOp` | src/decorators.ts:78 | a parameter decoration with `propertyKey !== undefined` leaves the whole store unchanged |
| `Decorators.ReflectiveClassIdempotent` | src/decorators.ts:18 | decorating a class that is already in `reflectiveClasses` leaves the set unchanged |
| `Decorators.SameSlotLastWriteWins` | src/decorators.ts:14-91 | two decorations of the same slot leave the store exactly as the second one alone does |
| `Decorators.IndependentCommute` | src/decorators.ts:14-91 | two decorations that do not write different records to the same slot (two that write nothing included) give the same store in either order |
| `Decorators.MemberUpdateCommute` | src/decorators.ts:41-43 | writes of two different (target, key) pairs into the own maps commute |
| `Decorators.ParamUpdateCommute` | src/decorators.ts:87-89 | writes of two different (target, index) pairs into the own arrays commute |
| `Decorators.Registry.constructor` | src/decorators.ts:12 | the registry starts with an empty `reflectiveClasses` set and no metadata |
| `Decorators.Registry.ReflectiveClass` | src/decorators.ts:14-27 | adds the target to `reflectiveClasses` and overwrites its class options with the normalised record; only those two fields change, and only at that target |
| `Decorators.Registry.ReflectiveProperty` | src/decorators.ts:29-45 | binds `propertyKey` in the target's own property map, created empty if missing, to the normalised record; every other key of that map and every other target's map is unchanged; only the property options change |
| `Decorators.Registry.ReflectiveMethod` | src/decorators.ts:47-68 | the same as `ReflectiveProperty`, but in the separate method-options slot |
| `Decorators.Registry.ReflectiveParameter` | src/decorators.ts:70-91 | with `propertyKey` defined, nothing changes; otherwise the target's own parameter array, created empty if missing, gets the normalised record at the index by `AssignIndex`, and other targets' arrays are unchanged |
| `History.ReplayAppend` | src/decorators.ts:14-91 | applying one sequence of decorations and then another is applying their concatenation |
| `History.ReplayUnwritten` | src/decorators.ts:33-34 | a slot no decoration in a sequence writes reads as before: for example a base class's map while only a subclass is annotated |
| `History.ReplayLastWriteWins` | src/decorators.ts:41-43 | after any sequence, a slot reads as the record of the last decoration that wrote it |
| `History.ReplayReflectiveClasses` | src/decorators.ts:12-18 | after any sequence, `reflectiveClasses` is the old set plus exactly the class-decorated targets |
| `History.ReplayParamLength` | src/decorators.ts:80-89 | the parameter array's length never shrinks, exceeds every annotated constructor index, and is either its old value or one more than an annotated index |
| `History.FreshParamArray` | src/decorators.ts:80-89 | from an empty store, the array is empty when no constructor parameter is annotated, and otherwise exactly one longer than the highest annotated index; never-annotated indices are unset |

`Decorators.Scenarios` checks three example uses against the registry's contracts:
`ReflectiveClass("svc")` puts `Foo` in the set with `{identifier: "svc"}`; two method
annotations of one method leave only the second record; and `ReflectiveParameter()` at
index 2 gives an array of length 3 whose indices 0 and 1 are holes.

## Left out

- The `reflect-metadata` library itself is not part of this model. Only its exact-target `defineMetadata` and `getOwnMetadata` are used, and they are modelled as map reads and writes keyed by target. The prototype-chain `getMetadata` is never called.
- TypeScript decorator mechanics: the closures the factories return and when the runtime calls them. A decorator application is one method call, or one `Decoration` value, that carries both the factory's argument and the closure's arguments.
- The `descriptor` parameter of method decorators (src/decorators.ts:53-54) is unused, so it is not modelled.
- Object identity and aliasing. The source mutates the fetched `Map` or array in place and writes the same object back. It also stores the caller's options object by reference, not a copy. The model treats maps, arrays and options as values, so it cannot show a later mutation of a shared options object becoming visible in the store.
- Symbols are modelled as `Sym(n)`. Their runtime uniqueness is assumed, not modelled.
- Parameter indices are natural numbers. The runtime only passes non-negative integer positions.
- An options record carries only `identifier`. Extra or malformed fields, which the source passes through unchecked, and falsy non-`undefined` arguments such as `null`, which `|| {}` would also map to `{}`, are outside the typed interface that is modelled.
- The second `options || {}` at src/decorators.ts:25 can never change the value, since `options` is always an object there. It is not modelled separately.
- Downstream consumers of the metadata are not part of the repository. `Lookup` stands for every read they could make.
- Insertion order. A JavaScript `Map` or `Set` iterates in insertion order, and re-setting a key or re-adding a class keeps its first position. The model's `map` and `set` have no order, so a consumer that iterates `reflectiveClasses` or a property map could observe an order the model does not capture.
