# lint-no-global-mutations, modelled in Dafny

A Dafny model of the analyser behind the "no global mutation" lint rule. Given a
JavaScript program and a schema of the globals it may read (`state`, `scenes`,
...), the analyser reports every place where the program could change global
state. It reports assignments and updates through a name that may alias a global,
calls of mutating `Array.prototype` methods on such a value, and mutating static
`Object` methods (`Object.assign`, `Object.defineProperty`, ...) applied to one.

The repository contains three analysers, and all three are modelled.

- **The possibility analyser** (`get_possible_references.ts`, `set_possible_references.ts`,
  `bindings.ts`, `functions.ts`, `array.ts`, `object.ts`, `scopes.ts`,
  `object_to_references.ts`, `deep_references.ts`, `reference.ts`). It maps every
  expression to the list of values it may evaluate to (a *Reference*). Arrays and
  objects synthesized by the program live on a heap, and writes are weak: a write
  keeps the old possibilities beside the new ones. A global's schema value is
  turned into heap objects, and the path from the global to each object is
  recorded, so that a mutation of any of them can be reported with the global path
  it reaches.
- **The draft analyser** (`no_mutation.ts`). It resolves expressions through a
  stack of records of binding records `{start, end, references}`. A bound name
  resolves to its binding record itself, so spreading it throws; the walk resolves
  every variable initialiser and keeps only the errors.
- **The flag linter** (`main.ts`, `stopGlobalMutationLinter`). Every name in scope
  has a record of three flags: globally dependent, mutating function, `Object`
  prototype. A stack of block scopes holds these records while the program is
  walked, and assignments, updates and calls on flagged names are reported. Two
  names can share one record; the model keeps records in an arena and binds names
  to arena indices.

Modules, one per source file:

| module | file | models |
|---|---|---|
| `Common`, `Syntax`, `JsValues` | common.dfy, syntax.dfy, js_values.dfy | errors as thrown values, property keys with `ANY_STRING`, the ESTree subset with node ranges, plain JavaScript values |
| `References` | reference.dfy | `class Reference` and its `get` projection |
| `DeepReferences` | deep_references.dfy | `pathToString` and `collectDeepReferences` over a possibly cyclic object graph |
| `ObjectToReferences` | object_to_references.dfy | `objectToPossibleReferences` and its back-map |
| `Values` | values.dfy | abstract values, the heap, the built-in method tables, `getKey` / weak `setKey`, the analyser state |
| `Resolver` | resolver.dfy | `getPossibleReferences` |
| `SetPossibleReferences` | set_possible_references.dfy | `setPossibleReferences`, as written and corrected |
| `Bindings` | bindings.dfy | `getPossibleBindings` for destructuring patterns |
| `Functions` | functions.dfy | `evaluateFunction` |
| `ArrayInstanceMethods` | array.dfy | the `Array.prototype` method table |
| `ObjectStaticMethods` | object.dfy | the static `Object` method table |
| `Scopes` | scopes.dfy | `constructScopes`, the hoisting pre-pass |
| `NoMutation` | no_mutation.dfy | `getPossibleReferences` and `noMutation` of the draft analyser |
| `FlagLinter` | flag_linter.dfy | `mergeFlags`, `getLocalIdentifier`, `getDeepFlags`, `setDeepFlags`, the linter hooks and the `NON_MUTATING` method sets |

Code that changes state step by step is modelled imperatively. `Reference`,
the scope builder, the draft analyser's walker and the flag linter are classes whose
methods update fields. The loops are methods with invariants. Each such method is
proved equal to a specification function, and the properties are proved about
that function. Collaborators whose source is not part of the model
(`evaluateCallExpression`, `evaluateFnNode`, `noMutationRecursive`) are the fields
of a `Host` value of pure functions. The analyser state is passed in and returned.

## Model

| member | source | states |
|---|---|---|
| References.Reference.constructor | reference.ts:2-6 | the new Reference holds the given possibilities in iteration order, duplicates included |
| References.Reference.Get | reference.ts:10-18 | a fresh Reference whose possibilities are `Project(possibilities, key)`; the receiver is left as it was |
| References.Reference.Possibilities | reference.ts:20-22 | a fresh array holding exactly the current possibilities |
| References.PossibilitiesAreACopy | reference.ts:20-22 | writing into the array the getter returned does not change the Reference |
| References.ProjectAppend | reference.ts:12-16 | projection distributes over concatenation, so the order of possibilities is kept |
| References.ProjectLength | reference.ts:12-16 | one entry per object-like possibility, so never more entries than possibilities |
| References.ProjectOne | reference.ts:13-14 | one possibility contributes `x[key]` exactly when it is object-like, and nothing otherwise |
| References.ProjectPrimitives | reference.ts:13 | a list of primitives projects to the empty list |
| References.GetOnObjectExample | reference.test.ts:9-14 | `new Reference([{key: "value"}]).get("key")` holds `["value"]` |
| References.ChainedGetExample | reference.test.ts:16-24 | four chained `get`s over two nested objects give the leaves `["a", "b"]` in order |
| DeepReferences.PathToStringShape | deep_references.ts:1-9 | the rendering is empty exactly for the empty path and never starts with a dot |
| DeepReferences.PathToStringExtend | deep_references.ts:2-8 | extending a path appends `.seg` for a word segment and `["seg"]` otherwise; the first word segment loses its dot |
| DeepReferences.PathToStringEmpty | deep_references.ts:1-9 | the empty path renders as the empty string |
| DeepReferences.PathToStringExample | deep_references.ts:1-9 | `["a", "b", "x y"]` renders as `a.b["x y"]` |
| DeepReferences.NonWordSegments | deep_references.ts:3-7 | the empty segment and a segment with a space are bracketed and quoted (`\w+` needs one character) |
| DeepReferences.CollectDeepReferences | deep_references.ts:11-37 | a non-object adds nothing; an object is recorded under `path`; entries already present are kept; every child of a newly recorded object is recorded; each new non-root object has a recorded parent whose path extended by the edge's segment is its own path |
| DeepReferences.VisitChildren | deep_references.ts:19-34 | after the loop over an object's elements or entries, every child is recorded and the parent relation holds for all new entries |
| DeepReferences.UnseenShrinks | deep_references.ts:21 | recording a new object strictly shrinks the number of unvisited objects, so the recursion on a cyclic graph terminates |
| DeepReferences.NestedArraysExample | deep_references.test.ts:4-14 | collecting `[[[]]]` records exactly three objects: outer, middle and inner |
| ObjectToReferences.ConvertSpec | object_to_references.ts:28-62 | conversion succeeds exactly on values built from primitives, arrays and objects; a primitive becomes `[x]` with heap and map unchanged; on success the single result mirrors the input and every synthesized object maps back to its source |
| ObjectToReferences.ConvertArrSpec | object_to_references.ts:36-42 | an array becomes one new array of its elements' conversions, mapped back to the source array |
| ObjectToReferences.ConvertObjSpec | object_to_references.ts:44-59 | an object becomes one new record with one single-element list per key, mapped back to the source object |
| ObjectToReferences.ConvertRecordAny | object_to_references.ts:51-56 | an `ANY_STRING` entry is converted as well, and the whole conversion succeeds iff its value converts |
| ObjectToReferences.ConvertElemsSpec | object_to_references.ts:37-39 | the element conversion succeeds iff every remaining element converts, and then gives one mirror per element |
| ObjectToReferences.ConvertPropsSpec | object_to_references.ts:45-49 | the entry conversion succeeds iff every remaining value converts, and keeps each key with a one-element list |
| ObjectToReferences.MirrorsGrow | object_to_references.ts:30 | because the map is shared and only grows, earlier results keep mirroring their sources |
| ObjectToReferences.ArrayExample | object_to_references.test.ts:14-17 | `[1, 2, 3]` becomes one array `[1, 2, 3]` mapped back to the source |
| ObjectToReferences.AnyStringExample | object_to_references.test.ts:24-27 | `{[ANY_STRING]: true}` becomes `{[ANY_STRING]: [true]}` |
| ObjectToReferences.NullThrows | object_to_references.ts:61 | `null` throws, also when nested in an array |
| Values.LookupField | get_possible_references.ts:102-115 | a record lookup finds the entry stored under the key, or none exactly when no entry has that key |
| Values.PutField | get_possible_references.ts:104-115 | after storing, the key reads back the new possibilities and every other key reads as before |
| Values.FindArrayMethod | array.ts:68-258 | finds a table method with the given name, or none exactly when no method of the table has that name |
| Values.FindObjectMethod | object.ts:46-148 | finds a static with the given name, or none exactly when no static of the table has that name |
| Values.GetKeyAppend | set_possible_references.ts:113-127 | a key read distributes over concatenation, so each possibility contributes in order |
| Values.GetKeyOne | set_possible_references.ts:113-127 | a single possibility contributes exactly its own reading |
| Values.GetKeyRule | set_possible_references.ts:114-126 | primitives give nothing; an array read at an integer key gives all its elements; `ANY_STRING` gives every property value; a named key on a record gives that entry and, when present, the `ANY_STRING` entry |
| Values.GetKeyArrayExample | get_possible_references.test.ts:90-98 | reading index 0 of an array gives its elements |
| Values.GetKeyComputedExample | get_possible_references.test.ts:138-150 | a record with only an `ANY_STRING` entry gives `undefined` and that entry for any named key |
| Values.WriteOneKeepsOld | set_possible_references.ts:134-137 | a weak write into a record keeps the old possibilities (or `undefined`) in front of the new ones |
| Values.WriteOneFrame | set_possible_references.ts:132-139 | a weak write changes no cell other than the one written |
| Values.SetKeySnoc | set_possible_references.ts:132-139 | the writes happen one possibility at a time, in order |
| Values.SetKeyFrame | set_possible_references.ts:132-139 | cells not among the possibilities are unchanged |
| Values.WriteOneExtends | set_possible_references.ts:134-137 | a weak write never loses a possibility: every element and entry stays, with the new possibilities after it |
| Values.SetKeyExtends | set_possible_references.ts:132-139 | the whole write loop never loses a possibility |
| Resolver.LookupName | get_possible_references.ts:26-30 | the first frame that has the name gives its bindings; none exactly when no frame has the name |
| Resolver.IdentifierRule | get_possible_references.ts:25-38 | an identifier takes the first binding frame's possibilities; an unbound `Object` or `Array` gives the constructor and any other unbound name gives nothing; the state is untouched |
| Resolver.InnermostWins | get_possible_references.ts:26-30 | a binding in the innermost frame hides all outer ones |
| Resolver.ResolvePreserves | get_possible_references.ts:16-200 | resolving any expression only adds heap objects and errors and leaves the stacks as they were, provided the collaborators do |
| Resolver.BranchesPreserve | get_possible_references.ts:42-55 | the same for logical and conditional expressions |
| Resolver.ForwardPreserves | get_possible_references.ts:56-175 | the same for assignments, member, chain and sequence expressions |
| Resolver.ElementsPreserve | get_possible_references.ts:67-89 | the same for the elements of an array literal |
| Resolver.PropertiesPreserve | get_possible_references.ts:90-150 | the same for the properties of an object literal |
| Resolver.NewArray | get_possible_references.ts:88 | an error passes through unchanged; otherwise one new array holding the collected elements is allocated on top of the heap |
| Resolver.NewRecord | get_possible_references.ts:149 | an error passes through unchanged; otherwise one new record holding the collected entries is allocated on top of the heap |
| Resolver.ArrayLiteral | get_possible_references.ts:67-89 | the loop over the present elements gives exactly the resolution of the array literal |
| Resolver.ObjectLiteral | get_possible_references.ts:90-150 | the loop over the properties gives exactly the resolution of the object literal |
| Resolver.ArrayLiteralIsOneArray | get_possible_references.ts:67-89 | a resolved array literal is one possibility: the array just allocated |
| Resolver.HolesDropped | get_possible_references.ts:70-71 | holes are filtered out, so an array literal resolves like the literal of its present elements |
| Resolver.ArrayItemsRule | get_possible_references.ts:73-81 | a spread adds the elements of array-shaped possibilities only, in order |
| Resolver.ObjectSpreadThrows | get_possible_references.ts:93-94 | a spread anywhere in an object literal throws; with only patterns before it the error is "TODO: Spread" |
| Resolver.ObjectLiteralIsOneRecord | get_possible_references.ts:90-150 | a resolved object literal is one possibility: the record just allocated |
| Resolver.MemberRule | get_possible_references.ts:151-166 | `super.x` gives nothing; otherwise the key is read from every possibility of the object; `a.b` uses `b`, `a[x]` any string and `a[0]` the literal's value |
| Resolver.SequenceRule | get_possible_references.ts:170-175 | a comma sequence gives its last expression's possibilities |
| Resolver.LogicalExample | get_possible_references.test.ts:56-88 | `a \|\| b`, `a && b`, `a ?? b` and `c ? a : b` give `a`'s possibilities, then `b`'s |
| Resolver.ArrayExample | get_possible_references.test.ts:90-98 | `[a]` is one array whose index 0 gives `a`'s value |
| Resolver.ArraySpreadExample | get_possible_references.test.ts:100-111 | `[...a, ...b]` is one array holding their elements in order |
| Resolver.SpreadElements | get_possible_references.ts:73-81 | spreading two one-element arrays collects both elements |
| Resolver.ObjectExample | get_possible_references.test.ts:113-122 | `({key: a})` is one record whose `key` gives `a`'s value |
| Resolver.ComputedKeyExample | get_possible_references.test.ts:138-150 | a computed key is stored as any string, so every name reads `undefined` and `a` |
| Resolver.ObjectMemberExample | get_possible_references.test.ts:157-160 | `Object.assign` resolves to the `assign` static |
| Resolver.ObjectStatics | get_possible_references.ts:160-165 | any computed key on `Object` reads every static of the table |
| Resolver.ObjectComputedMemberExample | get_possible_references.test.ts:162-166 | `Object['as' + 'sign']` gives several possibilities, `assign` among them |
| SetPossibleReferences.Root | set_possible_references.ts:54-59 | the root of a decomposable chain is an identifier |
| SetPossibleReferences.Segments | set_possible_references.ts:50-65 | a decomposable chain has at least one segment |
| SetPossibleReferences.DecomposeSpec | set_possible_references.ts:50-95 | decomposition succeeds exactly on chains rooted in an identifier, and then gives the root and the segments in source order in front of the given path |
| SetPossibleReferences.DeepPathExample | set_possible_references.test.ts:19-24 | `a.b.c.d` decomposes into `a` and `b`, `c`, `d` |
| SetPossibleReferences.ComplexPathExample | set_possible_references.test.ts:25-30 | `a['b'[0]].c[String.fromCharCode(100)]` decomposes into `a` and `ANY_STRING`, `c`, `ANY_STRING` |
| SetPossibleReferences.CallRootThrows | set_possible_references.ts:71-93 | a chain rooted in a call cannot be decomposed and throws |
| SetPossibleReferences.SetPossibleReferences | set_possible_references.ts:97-140 | the loops give exactly the specified write: follow the root along every segment but the last, then weakly write the last key of each possibility reached |
| SetPossibleReferences.WriteAlongPath | set_possible_references.ts:106-139 | from the last segment's removal on, the effect is the specified write: the root's throw, or the write of the last key on every possibility reached |
| SetPossibleReferences.FollowPath | set_possible_references.ts:111-130 | the possibilities reached are the root's followed through each inner segment in turn |
| SetPossibleReferences.NextLevel | set_possible_references.ts:112-128 | one level gathers the key's possibilities of every current possibility, in order |
| SetPossibleReferences.WriteReached | set_possible_references.ts:132-139 | the final loop weakly writes the last key on every possibility reached, in order |
| SetPossibleReferences.SetThrows | set_possible_references.ts:102-105 | the write throws exactly when the right side throws or the left side is not rooted in an identifier |
| SetPossibleReferences.SetPreserves | set_possible_references.ts:97-140 | the write keeps the analyser invariant, never loses a possibility and adds no error of its own |
| SetPossibleReferences.SetFrame | set_possible_references.ts:132-139 | objects not reached along the path are unchanged |
| SetPossibleReferences.VisitAsWrittenResult | set_possible_references.ts:113-128 | as written, the next level holds only the elements of arrays met at an integer segment |
| SetPossibleReferences.WalkAsWrittenNamed | set_possible_references.ts:111-130 | as written, a level reached through a non-integer segment is empty |
| SetPossibleReferences.WalkEmpty | set_possible_references.ts:111-130 | as written, nothing reached stays nothing |
| SetPossibleReferences.AsWrittenMissesNestedWrite | set_possible_references.ts:111-130 | as written, `a.b.c = 1` with `a` being `{b: {}}` writes nothing |
| SetPossibleReferences.NestedWrite | set_possible_references.ts:111-139 | with each level read as intended, `a.b.c = 1` gives the inner record `c` of `undefined` or `1` and leaves `a` alone |
| ArrayInstanceMethods.GlobalPaths | array.ts:52-54 | the global paths of the receiver's possibilities: none exactly when no possibility is a global object, and never more paths than possibilities |
| ArrayInstanceMethods.GlobalPathsFrom | array.ts:52-54 | each reported path is the one recorded for some possibility that is a global object |
| ArrayInstanceMethods.GlobalPathsAppend | array.ts:52-54 | the paths are collected possibility by possibility, in order |
| ArrayInstanceMethods.MutationErrors | array.ts:55-63 | one error per path, with the path in its message and anchored at the call |
| ArrayInstanceMethods.ReportMutations | array.ts:52-64 | the loop appends exactly one error per global path of the receiver and changes nothing else |
| ArrayInstanceMethods.MutatingMethodCall | array.ts:45-67 | the method gives exactly `mutatingMethod`'s result and state |
| ArrayInstanceMethods.MutatingMethodReports | array.ts:45-67 | `mutatingMethod` gives the receiver back, leaves the heap alone and adds, after the receiver's errors, exactly one error per global possibility; a receiver that is no global adds nothing |
| ArrayInstanceMethods.FnCallbacks | array.ts:35 | exactly the function-node possibilities of the first argument are kept as callbacks |
| ArrayInstanceMethods.CallCallbacks | array.ts:35-41 | the loop calls every callback in order with the same arguments |
| ArrayInstanceMethods.CallAllCollects | array.ts:117-125 | the run does not depend on the accumulator: it ends in the same state and throws the same error as a run from nothing, and when it returns, its values are the accumulator followed by that run's values; with no callbacks the accumulator and the state come back unchanged |
| ArrayInstanceMethods.CallAllPreserves | array.ts:35-41 | calling the callbacks keeps the analyser invariant, provided the collaborators do |
| ArrayInstanceMethods.RunCallbacks | array.ts:22-44 | the method gives exactly the specified callback run: element, receiver and collected returns |
| ArrayInstanceMethods.NoCallbackCallsNothing | array.ts:31-41 | when the first argument may be no function, nothing is called and nothing is returned |
| ArrayInstanceMethods.FoldArguments | array.ts:160-164 | the loop over the arguments gives exactly the specified fold |
| ArrayInstanceMethods.FoldArgsGivesReceiver | array.ts:239-248 | a successful fold gives the receiver back |
| ArrayInstanceMethods.FoldArgsPreserves | array.ts:160-164 | the fold keeps the analyser invariant |
| ArrayInstanceMethods.FoldArgsPastSkip | array.ts:241-242 | past the skipped positions, where counting starts does not matter |
| ArrayInstanceMethods.SpliceSkipsTwo | array.ts:241-246 | `splice` folds its arguments after the first two exactly as `push` folds its own; with fewer than two it folds nothing |
| ArrayInstanceMethods.SpreadArgThrows | array.ts:161 | a spread argument that is not skipped throws `TODO` |
| ArrayInstanceMethods.ReduceCall | array.ts:167-195 | the method gives exactly the specified `reduce` handler |
| ArrayInstanceMethods.ReduceRightNeedsFunction | array.ts:210-211 | `reduceRight` throws when its first argument is missing or not a function node |
| ArrayInstanceMethods.ReducePreserves | array.ts:167-219 | both reductions keep the analyser invariant |
| ArrayInstanceMethods.HandleCall | array.ts:68-258 | the method gives exactly the handler the table keeps for the method |
| ArrayInstanceMethods.HandlePreserves | array.ts:68-258 | every handler keeps the analyser invariant, provided the collaborators do |
| ArrayInstanceMethods.MutatorsReport | array.ts:153-257 | every method that goes through `mutatingMethod` keeps its reports in front of any later errors |
| ArrayInstanceMethods.CallbackShapes | array.ts:72-130 | `every`/`some` give `true, false`; `findIndex`/`findLastIndex` give `undefined, ANY_STRING`; `forEach` gives nothing; `find`/`findLast` the receiver's `ANY_STRING` possibilities (for an array: its elements, its length and the array method built-ins); `filter` the receiver; `flatMap` what the callbacks return |
| ArrayInstanceMethods.MutatorShapes | array.ts:69-257 | `push`/`shift`/`unshift` give `[ANY_STRING]`; `pop` the receiver's `ANY_STRING` possibilities (for an array: its elements, its length and the array method built-ins); `copyWithin`, `fill`, `reverse`, `sort` and `splice` the receiver |
| ArrayInstanceMethods.MapShape | array.ts:131-152 | `map` gives one new array holding everything the callbacks return |
| ArrayInstanceMethods.ArrayCallbackMethod | array.ts:260-279 | the loop over the callee's possibilities gives exactly the specified dispatch |
| ArrayInstanceMethods.DispatchSkipsOthers | array.ts:270-273 | possibilities that are no array method contribute nothing |
| ArrayInstanceMethods.DispatchAppend | array.ts:267-276 | the results of several handlers are their union, taken in order |
| ArrayInstanceMethods.DispatchPreserves | array.ts:267-276 | the dispatch keeps the analyser invariant |
| ArrayInstanceMethods.ArrayCallbackRules | array.ts:263-279 | a callee that is no member expression gives nothing and changes nothing; the dispatch keeps the analyser invariant |
| ArrayInstanceMethods.PushExample | array.ts:158-166 | `a.push(2)` with `a` a global array reports one error naming `a`, adds `2` to the array's elements and gives `[ANY_STRING]` |
| ArrayInstanceMethods.OneGlobalReport | array.ts:52-63 | a receiver that is one global object gives exactly one error |
| ArrayInstanceMethods.MessageForA | array.ts:58-60 | the message for the path `a` is "Can't call mutating array instance method on a" |
| ObjectStaticMethods.CommaJoined | object.ts:36 | a path interpolated into a template literal: empty for the empty path, the segment itself for one segment, segments joined with commas otherwise |
| ObjectStaticMethods.CommaJoinedExample | object.ts:36 | the message for the path `a`, `b` ends in `a,b` |
| ObjectStaticMethods.TargetPaths | object.ts:30-32 | the global paths of the target's possibilities: none exactly when no possibility is a global object |
| ObjectStaticMethods.TargetPathsAppend | object.ts:30-32 | the paths are collected possibility by possibility, in order |
| ObjectStaticMethods.TargetPathsMembers | object.ts:30-32 | a path is reported exactly when some target possibility is the global object recorded under it |
| ObjectStaticMethods.MutationErrorsMembers | object.ts:30-40 | an error is added exactly when it names the recorded path of some target possibility that is a global object, anchored at the call |
| ObjectStaticMethods.MutationErrors | object.ts:33-40 | one error per path, with the path in its message and anchored at the call |
| ObjectStaticMethods.MutatesTarget | object.ts:26-41 | the loop appends exactly one error per global path of the target and changes nothing else |
| ObjectStaticMethods.GetTarget | object.ts:7-24 | the method gives exactly the specified target |
| ObjectStaticMethods.TargetRules | object.ts:10-22 | no arguments give nothing and change nothing; a spread first argument gives its operand's `ANY_STRING` possibilities |
| ObjectStaticMethods.TargetPreserves | object.ts:7-24 | resolving the target keeps the analyser invariant |
| ObjectStaticMethods.HandleCall | object.ts:46-148 | the method gives exactly the handler the table keeps for the static |
| ObjectStaticMethods.HandlePreserves | object.ts:46-148 | every handler keeps the analyser invariant, provided the collaborators do |
| ObjectStaticMethods.MutatorsReport | object.ts:47-143 | `assign`, `defineProperty`, `defineProperties`, `freeze`, `preventExtensions`, `seal` and `setPrototypeOf` give their target back and add exactly one error per global target possibility, naming its path; nothing else changes |
| ObjectStaticMethods.OthersNeverReport | object.ts:52-147 | no other static except `getPrototypeOf` adds an error of its own |
| ObjectStaticMethods.PrototypeAlwaysReported | object.ts:101-106 | `getPrototypeOf` always adds "Don't touch prototypes" at the call and gives nothing |
| ObjectStaticMethods.ArgumentsIgnored | object.ts:52-128 | the statics that take no target ignore their arguments |
| ObjectStaticMethods.TargetlessShapes | object.ts:52-128 | `hasOwn`, `is` and the `is...` tests give `true, false`; `keys`, `getOwnPropertyNames` and `getOwnPropertySymbols` give one new `[ANY_STRING]` array; `create` gives nothing |
| ObjectStaticMethods.WrapReadsBack | object.ts:65-147 | what `values`, `entries`, `fromEntries`, `groupBy` and the descriptor statics build gives the target's `ANY_STRING` possibilities back at the documented place; only the heap grows |
| ObjectStaticMethods.ValuesReadsBack | object.ts:144-147 | element 0 of `values`' array gives the target's values |
| ObjectStaticMethods.EntriesReadsBack | object.ts:65-70 | element 1 of the `entries` pair gives `ANY_STRING` and the target's values |
| ObjectStaticMethods.RecordReadsBack | object.ts:76-110 | any key of the `fromEntries`/`groupBy` record gives `undefined` and the target's values |
| ObjectStaticMethods.DescriptorReadsBack | object.ts:80-86 | the descriptor's `value` gives the target's values |
| ObjectStaticMethods.DescriptorsReadsBack | object.ts:87-94 | the `value` of any key of the descriptors gives the target's values |
| ObjectStaticMethods.ObjectCallbackMethod | object.ts:150-162 | the loop over the callee's possibilities gives exactly the specified dispatch |
| ObjectStaticMethods.DispatchSkipsOthers | object.ts:156-157 | possibilities that are no `Object` static contribute nothing |
| ObjectStaticMethods.DispatchAppend | object.ts:154-159 | the results of several handlers are their union, taken in order |
| ObjectStaticMethods.DispatchPreserves | object.ts:154-159 | the dispatch keeps the analyser invariant and never drops a result collected earlier |
| ObjectStaticMethods.ObjectCallbackRules | object.ts:150-162 | the whole call keeps the analyser invariant; a callee that is no `Object` static gives nothing |
| Bindings.GetPossibleBindings | bindings.ts:11-99 | the pattern walk with its two loops gives exactly the specified bindings, error and state |
| Bindings.ArrayPatternBindings | bindings.ts:24-60 | the array case reads index 0 once and then binds the present elements in order, as specified |
| Bindings.ElementBindings | bindings.ts:28-57 | one element of an array pattern binds as specified |
| Bindings.ObjectPatternBindings | bindings.ts:62-92 | the object case binds each property against its own key, as specified |
| Bindings.IdentifierBinds | bindings.ts:20-22 | an identifier binds its name to the initialiser's possibilities and nothing else |
| Bindings.UnknownPatternThrows | bindings.ts:94-96 | a member expression or a defaulted pattern in pattern position throws "Unknown destructuring pattern" |
| Bindings.PlainArrayPattern | bindings.ts:24-60 | an array pattern of identifiers and holes binds exactly the names present, each to every element's possibilities; holes bind nothing and the state is untouched |
| Bindings.ElementRules | bindings.ts:29-49 | `[a = d]` binds `a` to the element possibilities followed by the default's; `[...r]` binds `r` to one new array of them; a rest or default target that is no identifier throws its message |
| Bindings.PropertyRules | bindings.ts:63-90 | `{k: p}` binds `p` against key `k` (any string when computed); `{...r}` binds `r` to one new record whose `ANY_STRING` holds every property value; a key that is no identifier, or a rest as a property's value, throws |
| Bindings.IdentifierElementRule | bindings.ts:50-56 | an identifier element adds its name bound to the element possibilities |
| Bindings.DefaultElementRule | bindings.ts:37-49 | a defaulted identifier element adds its name bound to the element possibilities followed by the default's |
| Bindings.BindPreserves | bindings.ts:11-99 | binding keeps the analyser invariant, provided the collaborators do |
| Bindings.ElementsPreserve | bindings.ts:26-58 | the same for the elements of an array pattern |
| Bindings.PropertiesPreserve | bindings.ts:63-90 | the same for the properties of an object pattern |
| Bindings.ArrayDestructureExample | bindings.test.ts:27-31 | `const [a, b] = [1, 2]` binds both names to `1` and `2` |
| Bindings.ArrayDefaultExample | bindings.test.ts:37-41 | `const [a = 5, b] = [1, 2]` binds `a` to `1`, `2`, `5` and `b` to `1`, `2` |
| Bindings.ObjectDestructureExample | bindings.test.ts:72-76 | `const {a: a1, b: b1} = {a: 'a', b: 'b'}` binds `a1` to `'a'` and `b1` to `'b'` |
| Bindings.ObjectDestructureHeap | bindings.test.ts:72-76 | the record `{a: 'a', b: 'b'}` reads `'a'` at `a` and `'b'` at `b` |
| Functions.BuildArgumentStack | functions.ts:23-28 | the loop over the parameters gives exactly the specified argument stack or error |
| Functions.ArgumentStackOk | functions.ts:24-28 | binding succeeds exactly when every parameter is an identifier with an argument at its index |
| Functions.FirstFailureThrown | functions.ts:25-26 | on failure the error is that of the first parameter that fails: "TODO: destructuring" for a pattern, "Missing argument at index i" for a missing argument |
| Functions.ArgumentStackBinds | functions.ts:24-28 | on success the frame binds exactly the parameter names, each to its argument (a later parameter of the same name wins) |
| Functions.ExtraArgumentsIgnored | functions.ts:24-28 | arguments past the last parameter make no difference |
| Functions.EvaluateFunction | functions.ts:16-46 | the method gives exactly the specified call: bind, push the frame, walk the body, pop the frame |
| Functions.ParametersShadow | functions.ts:31 | inside the body a parameter hides every outer binding of its name; other names resolve as outside |
| Functions.ParameterErrorThrows | functions.ts:24-28 | a parameter error throws before the stack is touched |
| Functions.CallRestoresStack | functions.ts:31-45 | a call that returns gives back the stack it found and the body's return possibilities |
| Scopes.Initial | scopes.ts:20-23 | the starting state is well formed: one empty scope registered under `-1` |
| Scopes.Enter | scopes.ts:27-34 | entering a block keeps the state well formed and loses no scope or registered stack |
| Scopes.Declare | scopes.ts:54-56 | a declaration keeps the state well formed, keeps the current stack and changes only the innermost scope |
| Scopes.Declarators | scopes.ts:44-66 | the declarator loop keeps the state well formed and changes only the innermost scope |
| Scopes.Hook | scopes.ts:40-80 | the two declaration visitors keep the state well formed and change only the innermost scope |
| Scopes.Walk | scopes.ts:25-81 | the traversal keeps the state well formed, loses nothing and gives back the stack it found |
| Scopes.WalkAll | scopes.ts:25-81 | the same for a list of statements |
| Scopes.ScopeBuilder.constructor | scopes.ts:20-23 | a new builder is in the starting state |
| Scopes.ScopeBuilder.EnterBlock | scopes.ts:27-34 | follows `Enter` on the builder's state |
| Scopes.ScopeBuilder.LeaveBlock | scopes.ts:35-37 | drops the innermost scope from the current stack |
| Scopes.ScopeBuilder.DeclareName | scopes.ts:54-56 | follows `Declare` on the builder's state |
| Scopes.ScopeBuilder.VariableDeclaration | scopes.ts:40-67 | follows the `VariableDeclaration` visitor on the builder's state |
| Scopes.ScopeBuilder.FunctionDeclaration | scopes.ts:69-80 | follows the `FunctionDeclaration` visitor on the builder's state |
| Scopes.ScopeBuilder.Traverse | scopes.ts:25-81 | follows the traversal on the builder's state |
| Scopes.ScopeBuilder.TraverseAll | scopes.ts:25-81 | follows the traversal of a statement list |
| Scopes.ScopeBuilder.Result | scopes.ts:83 | gives every registered stack with its scopes |
| Scopes.Construct | scopes.ts:17-84 | the imperative pre-pass gives exactly `constructScopes`' result |
| Scopes.EnterLeave | scopes.ts:26-37 | entering registers, under the block's start, a new empty scope in front of the enclosing stack; leaving gives the enclosing stack back; a block without a position throws |
| Scopes.DeclareRules | scopes.ts:54-56 | a name goes into the innermost scope with its identifier's range, and only there; a name already there throws |
| Scopes.OnlyVarRecorded | scopes.ts:43 | `let` and `const` declarations record nothing |
| Scopes.PatternsIgnored | scopes.ts:59-64 | pattern targets record nothing |
| Scopes.MissingPositionThrows | scopes.ts:46-53 | declarators and declared functions without a position throw "Node does not have position" |
| Scopes.SharedScopeExample | scopes.ts:32-33 | after `{} var a = 1`, the block's stack shares the program scope, so `a` declared later is seen there too |
| Scopes.DuplicateExample | scopes.ts:55 | `var a; var a;` throws |
| Scopes.WalkRegistersBlocks | scopes.ts:27-34 | every block the traversal passes registers a stack under its start |
| Scopes.ConstructScopesRegisters | scopes.ts:17-84 | the result holds a non-empty program-level stack and a non-empty stack for every block of the program |
| NoMutation.Lookup | no_mutation.ts:24-28 | the first record in stack order that has the name (an own key, or a member inherited from `Object.prototype`) gives what it holds under it; none exactly when no record has the name |
| NoMutation.IdentifierRule | no_mutation.ts:23-29 | an identifier gives, as it is, the binding record of the first record that binds it, an `Object.prototype` member when that record only inherits the name, and an empty array when no record has it |
| NoMutation.OperatorRules | no_mutation.ts:21-44 | literals, binary expressions and the listed kinds give an empty array; logical and conditional expressions return exactly when both spread sides give arrays, then the left (consequent) items before the right (alternate) ones, and throw "not iterable" when the first side gives anything else |
| NoMutation.BoundNameResolves | no_mutation.ts:24-28 | a name bound in some record resolves to a binding record or inherited member, never to an array |
| NoMutation.BoundNameThrows | no_mutation.ts:35-56 | a bound name cannot be spread: `n \|\| x` and `c ? n : x` throw "not iterable", and `[...n]` throws that the result has no `filter` |
| NoMutation.ArrayMembersSpec | no_mutation.ts:50-56 | a spread contributes exactly the items of the array-shaped values |
| NoMutation.ContributionRule | no_mutation.ts:47-59 | a spread element gives the items of its operand's arrays, or throws when the operand is not an array; any other element gives an array's items, and any other value itself (one level of `flatMap` flattening) |
| NoMutation.ElementsMembers | no_mutation.ts:47-60 | the `flatMap` returns exactly when every present element's callback returns, and then a value is in it exactly when some element contributes it |
| NoMutation.ArrayLiteralRule | no_mutation.ts:45-62 | an array literal throws exactly when some present element's contribution throws, and otherwise gives an array holding one array whose items are exactly what the present elements contribute |
| NoMutation.ObjectLiteral | no_mutation.ts:63-93 | the loop over the properties builds exactly the object the resolver gives, or stops with the first property's error |
| NoMutation.PropsDefined | no_mutation.ts:65-91 | an object literal returns exactly when every property it stores resolves |
| NoMutation.PropsKeys | no_mutation.ts:65-91 | an object literal has a key exactly when some property stores under it (an identifier by name, a literal by its raw text; spreads and patterns store nothing) |
| NoMutation.PropsLastWins | no_mutation.ts:65-91 | the last property naming a key decides what the key holds |
| NoMutation.PropsUntouched | no_mutation.ts:65-91 | a key no property names keeps what it had |
| NoMutation.PossibleErrors | no_mutation.ts:16-115 | resolution throws only "not iterable" or "no `filter`" |
| NoMutation.SpreadlessResolves | no_mutation.ts:16-115 | an expression that reaches no logical, conditional or spread expression resolves on every stack |
| NoMutation.EmptyRefs | no_mutation.ts:129-134 | a hoisted scope becomes a record with the same names, each bound to a record with its position and no references |
| NoMutation.HoistedRefs | no_mutation.ts:126-136 | every registered stack becomes a stack of such records of the same length |
| NoMutation.BuildGlobals | no_mutation.ts:137-140 | the loop over the schema entries builds exactly the global record |
| NoMutation.GlobalsBinding | no_mutation.ts:137-140 | every schema key is a global binding, whose record has no position and whose one reference is the value of the last entry with that key |
| NoMutation.EnterShadows | no_mutation.ts:153-159 | entering succeeds exactly when the block has a position and a hoisted stack; inside, its own record hides the outer bindings and every other name resolves as outside |
| NoMutation.Walk | no_mutation.ts:149-179 | a walk that returns gives back the stack it found: every block entered is left |
| NoMutation.WalkAll | no_mutation.ts:149-179 | the same for a list of statements |
| NoMutation.WalkErrors | no_mutation.ts:153-178 | the walk fails only by a position or hoisted-record assertion or by an initialiser's `TypeError` |
| NoMutation.WalkSucceeds | no_mutation.ts:153-178 | the walk runs to the end wherever every block has a hoisted stack, every block and declaration a position and every initialiser is spread-free |
| NoMutation.WalkAllSucceeds | no_mutation.ts:153-178 | the same for a list of statements |
| NoMutation.AnalyseWalks | no_mutation.ts:118-149 | once the hoisted-scope pass and `Object.entries` succeed, the analysis is the walk from the program record above the global record |
| NoMutation.AnalyseSucceeds | no_mutation.ts:118-180 | the analysis runs to the end whenever the hoisted-scope pass succeeds, the schema is neither `null` nor `undefined`, every block and declaration has a position and no initialiser spreads |
| NoMutation.Analysis.constructor | no_mutation.ts:147 | the analysis starts from the given hoisted records and stack |
| NoMutation.Analysis.EnterBlock | no_mutation.ts:153-159 | puts the block's own hoisted record in front of the stack, or throws the assertion error |
| NoMutation.Analysis.LeaveBlock | no_mutation.ts:160-162 | drops the innermost record |
| NoMutation.Analysis.VariableDeclaration | no_mutation.ts:165-178 | a declaration without a position fails the assertion; otherwise each present initialiser is resolved on the current stack, in order, and the first error ends the visit |
| NoMutation.Analysis.Traverse | no_mutation.ts:149-179 | follows the specified walk: the same error, or the same stack when it returns |
| NoMutation.Analysis.TraverseAll | no_mutation.ts:149-179 | follows the specified walk of a statement list |
| NoMutation.Run | no_mutation.ts:118-180 | the imperative analysis gives exactly the specified outcome |
| NoMutation.ArrayExample | no_mutation.ts:45-62 | `[n]` with `n` bound gives an array holding an array that holds `n`'s binding record itself |
| NoMutation.ObjectExampleSteps | no_mutation.ts:75-88 | the properties `a: n` and `'b': 1` store `a` (holding `n`'s binding record) and `'b'` (raw text, quotes included) |
| NoMutation.ObjectExample | no_mutation.ts:63-93 | `({a: n, 'b': 1})` gives an array holding one object with those two keys, `a` holding `n`'s binding record |
| NoMutation.InheritedExample | no_mutation.ts:24-28 | `toString`, bound nowhere, resolves to the `Object.prototype` member, not to nothing |
| NoMutation.ShortCircuitThrows | no_mutation.ts:165-176 | `var x = state \|\| 1;` with the schema `{state: 1}` throws "not iterable": `state` resolves to its global binding record |
| FlagLinter.Merge | main.ts:106-117 | the merged record is the least upper bound of the two: every flag set in either is set in the result, and the result is below any record both are below |
| FlagLinter.MergeLaws | main.ts:106-117 | merging onto `NO_FLAGS` gives the override, merging is idempotent, commutative and associative |
| FlagLinter.LocalIdentifier | main.ts:121-131 | no record exactly when no scope binds the name; otherwise the record of a scope binding it with no later (inner) scope binding it |
| FlagLinter.RebindOthers | main.ts:342-348 | assigning `currentScope[name]` leaves the resolution of every other name unchanged |
| FlagLinter.IdentFlags | main.ts:156-173 | a stored record is only returned when it exists in the arena |
| FlagLinter.IdentifierResolves | main.ts:156-173 | an identifier's flags are those of its innermost binding, or globally dependent (and the `Object` prototype exactly for `Object`) when bound nowhere; the record itself, not a copy, is returned exactly when the innermost scope binds the name |
| FlagLinter.DeepFlags | main.ts:141-261 | every stored record returned exists in the arena |
| FlagLinter.DeepFlagsOpt | main.ts:149-150 | a missing node gives no flags; stored records returned exist |
| FlagLinter.DeepFlagsDefined | main.ts:141-261 | `getDeepFlags` returns exactly on the kinds it handles, all the way down, and otherwise throws "Unhandled case" |
| FlagLinter.CompoundDefined | main.ts:175-194 | for arrays, objects, spreads and properties: returns exactly when every part is handled, else throws "Unhandled case" |
| FlagLinter.AccessDefined | main.ts:201-234 | for member accesses and calls: returns exactly when object, property and arguments are handled, else throws "Unhandled case" |
| FlagLinter.MergeAllDefined | main.ts:175-194 | the merging loops over elements or properties return exactly when every part is handled, else throw "Unhandled case" |
| FlagLinter.MergeAllJoin | main.ts:175-194 | a flag is set in the merged record exactly when it was set in the starting record or in one part's flags |
| FlagLinter.ArrayFlags | main.ts:175-182 | an array literal gets a fresh record with a flag set exactly when one of its present elements has it; holes contribute nothing |
| FlagLinter.MemberOfIdentifier | main.ts:201-224 | a member of a local object keeps the object's flags; of a global one it is also a mutating function, and the `Object` prototype, exactly when the object is `Object` (or flagged so) and the property is not a listed non-mutating method; computed or not makes no difference |
| FlagLinter.ChainFlags | main.ts:156-224 | a chain of member accesses on an identifier is handled and is globally dependent exactly when its root name is |
| FlagLinter.SetFlags | main.ts:263-323 | the arena keeps its size |
| FlagLinter.SetAll | main.ts:286-293 | the arena keeps its size |
| FlagLinter.SetFlagsChain | main.ts:277-285 | marking a member chain merges the flags into the record its root name resolves to, and changes nothing when the root is bound nowhere |
| FlagLinter.SetFlagsOnlyMerges | main.ts:263-323 | every record is either left alone or has the flags merged in; no record is cleared |
| FlagLinter.SetAllOnlyMerges | main.ts:286-293 | the pattern loops only merge the flags into records, never clear one |
| FlagLinter.VisitShape | main.ts:340-448 | a hook keeps the state well formed and never drops a record or an error; entering a block pushes one empty scope, and every other hook keeps the depth and all but the innermost scope |
| FlagLinter.DeclareShape | main.ts:340-360 | a declarator keeps every binding pointing into the arena and changes only the innermost scope |
| FlagLinter.DeclareBinds | main.ts:340-360 | an identifier declarator binds its name in the innermost scope to a record holding its initialiser's flags; no other binding, record or error changes; it throws exactly when the initialiser's flags do |
| FlagLinter.DeclareAliases | main.ts:345-348 | `let b = a` with `a` in the innermost scope binds `b` to `a`'s very record, so a later mark through one name is seen through the other |
| FlagLinter.AssignToChain | main.ts:369-392 | an assignment to a member chain adds one error spanning it exactly when the root is globally dependent; a globally dependent right side marks the root's binding; otherwise the records stay the same |
| FlagLinter.UpdateOfChain | main.ts:405-414 | an update of a member chain adds one error spanning it exactly when the root is globally dependent, and changes nothing else |
| FlagLinter.CallOnChain | main.ts:415-444 | a method call on a member chain adds one error when the callee is a mutating function and another when the root is globally dependent and the method is not a listed non-mutating array method |
| FlagLinter.Walk | main.ts:331-449 | the walk keeps the state well formed, drops no record or error, keeps the scope stack's depth and every scope but the innermost, and leaves a block with the scopes it entered with |
| FlagLinter.WalkAll | main.ts:331-449 | walking a statement list does the same, statement by statement |
| FlagLinter.GlobalMutationLinter.constructor | main.ts:328-329 | one empty program scope, no records and no errors |
| FlagLinter.GlobalMutationLinter.MergeFlags | main.ts:106-117 | merges in place into the record itself, so every name bound to it sees the change; scopes and errors unchanged |
| FlagLinter.GlobalMutationLinter.GetDeepFlags | main.ts:141-261 | returns what `DeepFlags` gives on the current scopes and records, and changes nothing |
| FlagLinter.GlobalMutationLinter.LiteralFlags | main.ts:175-188 | an array or object literal gives a fresh record merging the flags of each element or property, or the first part's throw |
| FlagLinter.GlobalMutationLinter.MemberFlags | main.ts:201-224 | a member read gives the flags `DeepFlags` specifies: its object's flags, plus the prototype-mutation flags when the object is `Object` or an alias of it and the property is not a listed non-mutating method |
| FlagLinter.GlobalMutationLinter.CallFlags | main.ts:226-234 | a call merges its callee's flags (none for `super`) with every argument's, as `DeepFlags` specifies |
| FlagLinter.GlobalMutationLinter.MergeEach | main.ts:175-194 | the merging loops return what `MergeAll` gives, and change nothing |
| FlagLinter.GlobalMutationLinter.SetDeepFlags | main.ts:263-323 | the new records are `SetFlags` of the old ones; scopes and errors unchanged |
| FlagLinter.GlobalMutationLinter.SetPattern | main.ts:286-291 | on an object or array pattern the new records are `SetFlags` of the old ones, each property or present element in order; scopes and errors unchanged |
| FlagLinter.GlobalMutationLinter.SetEach | main.ts:286-293 | the new records are `SetAll` of the old ones; scopes and errors unchanged |
| FlagLinter.GlobalMutationLinter.VariableDeclarator | main.ts:340-360 | the new state, or the throw, is the declarator hook's on the old state |
| FlagLinter.GlobalMutationLinter.AssignmentExpression | main.ts:369-392 | the new state, or the throw, is the assignment hook's on the old state |
| FlagLinter.GlobalMutationLinter.UpdateExpression | main.ts:405-414 | the new state, or the throw, is the update hook's on the old state |
| FlagLinter.GlobalMutationLinter.CallExpression | main.ts:415-444 | the new state, or the throw, is the call hook's on the old state; a `super` callee is passed by |
| FlagLinter.GlobalMutationLinter.BlockEnter | main.ts:397-399 | pushes one empty scope |
| FlagLinter.GlobalMutationLinter.BlockLeave | main.ts:400-402 | pops the innermost scope |
| FlagLinter.GlobalMutationLinter.Traverse | main.ts:331-449 | the new state, or the throw, is the pre-order walk's from the old state |
| FlagLinter.GlobalMutationLinter.TraverseAll | main.ts:331-449 | the same for a list of nodes, in order |
| FlagLinter.GlobalMutationLinter.Enter | main.ts:331-449 | the hooks fired on entering a node give the specified visit's state or throw |
| FlagLinter.StopGlobalMutationLinter | main.ts:325-452 | returns the errors of the walk from one empty scope, or its throw |
| FlagLinter.ObjectAssignExample | main_test.ts:126-128 | `Object.assign(state, {key: "value"})` with `Object` unbound is reported, spanning the call |
| FlagLinter.ObjectKeysExample | main_test.ts:123-125 | `Object.keys(state.values)` is not reported |
| FlagLinter.GlobalPopExample | main_test.ts:177-181 | `scenes.pop()` on a global is reported, spanning the call |
| FlagLinter.GlobalUpdateExample | main_test.ts:92-94 | `state++;` is reported, spanning the update |
| FlagLinter.BlockScopeExample | main_test.ts:71-77 | a name declared in a block is unbound after it, so `state++` there is reported |
| FlagLinter.AliasExample | main.ts:345-348 | `let a = {}; let b = a; b = state; a.x = 1;` reports the write through `a`, since `b` shares `a`'s record |
| Syntax.FromNode | main.ts:84-94 | the error carries the message, and the node's start and end exactly when the node has a position |

## Left out

- Parsing (`espree`) and the traversal library (`estree-toolkit`). Programs are given as syntax trees, and every walk is an explicit recursion over the children in source order.
- `rule.ts`, `linter.ts`, `global_access_tracker.ts` and the playground are not part of this model. set_possible_references.ts:7 imports `isInteger` from util.ts, but util.ts defines no `isInteger`. It is modelled as "a non-empty string of decimal digits".
- functions.ts exports only `evaluateFunction`. `evaluateCallExpression`, `evaluateFnNode` and `noMutationRecursive` are imported but defined in no file of this model. They are parameters (`Values.Host`); each is only assumed to keep the invariant `Values.Preserves` wherever a lemma needs it.
- `Values.GetKey`: `reference.ts` defines no `getKey`/`setKey`, though the core calls both. Reads follow the loop at set_possible_references.ts:113-127, and writes follow set_possible_references.ts:132-139.
- `getAllProperties` walks the host prototype chain. Here an array's properties are its elements, its `length` and the array method table; an object's are its own entries; `Object`'s are the static method table. Other built-in prototypes are not modelled.
- Property enumeration order of JavaScript objects is modelled as insertion order. Integer-like keys are not moved to the front.
- Numbers are non-negative integers. A minus sign is a unary operator, and floating point is not modelled.
- Outside `NoMutation`, keys inherited from `Object.prototype` are not modelled. Records are plain association lists and maps, so `state["toString"]` finds nothing. `NoMutation.Lookup` does model them, because `name in references` finds them in every record of the draft's stack.
- Object identity of `Reference` instances is not modelled. Every `Reference` the core writes to is a fresh local, so a `Reference` is a value (a list of possibilities); heap objects keep their identity through addresses.
- `currentRefs` aliasing between the caller's and the callee's state is not modelled. The state is passed by value, which gives the same result for the code shown.
- array.ts imports `assertIsFnNode` from util.ts, but util.ts defines no `assertIsFnNode`, so its error text is unknown. The model throws with the empty message, the same message `assertIsNodePos` uses, when `reduceRight`'s callback is not a function node.
- `Values.WriteOne`: `setPossibleReferences` writes `poss[finalSegment] = new Reference([poss[finalSegment], value])` on every possibility that is an object. The model writes the union of the old and new possibilities, and differs in four ways. A named, non-integer key written on an array is dropped, because array cells hold only elements. A write on a function or built-in possibility is dropped, because those values have no property cells. A write at an integer index appends the new possibilities to the array's elements, instead of putting a nested `Reference` at that index. A write at `ANY_STRING` on an array also appends to its elements. The source stores it under the array's `ANY_STRING` property, which a later integer read (set_possible_references.ts:115) does not see. Every write of `fill`, `push`, `shift`, `splice` and `unshift` (array.ts:82, 163, 228, 245, 254) takes this path, and so do `ArrayInstanceMethods.FoldArguments`, `ArrayInstanceMethods.HandleCall` and `ArrayInstanceMethods.PushExample`.
- `SetPossibleReferences.SetPossibleReferences`, `SetPossibleReferences.WriteAlongPath` and `SetPossibleReferences.WriteReached`: their final write is `Values.WriteOne`'s, so they inherit the four differences above.
- `ArrayInstanceMethods.ReduceCall`, `ArrayInstanceMethods.DispatchAppend`, `ObjectStaticMethods.GetTarget`, `ObjectStaticMethods.DispatchAppend`, `Resolver.ResolveNode`, `SetPossibleReferences.WriteFrom` and `SetPossibleReferences.WriteAlongPath`: `Reference` in reference.ts has no `set` method, no `get()` without a key and no constructor without arguments. array.ts and object.ts call all three. get_possible_references.ts calls `new Reference()` and the key-less `get()`, and set_possible_references.ts:109 calls `rootRef.get()`. The model reads `set(r)` as adding `r`'s possibilities to the union, `get()` as the list of possibilities, and `new Reference()` as the empty list.
- `Bindings.BindElement`, `Bindings.ElementRules`, `ArrayInstanceMethods.Handle`, `ArrayInstanceMethods.CallbackShapes` and `ObjectStaticMethods.Wrap`: a `Reference` stored inside a new value is stored as its list of possibilities. `Reference`'s constructor (reference.ts:2-6) stores each given possibility as it is, so the source holds a nested `Reference` as one element in these places: `new Reference([[possValues]])` for a rest element (an array whose one element is the `Reference`) and `new Reference([possValues, defaultValue])` for a default (bindings.ts:34-48); `map`'s `new Reference([returnValues])`; `flatMap`'s `new Reference(returnValues)`, whose possibilities are the callbacks' `Reference`s (array.ts:106-125); `entries`' `[ANY_STRING, target.getKey(ANY_STRING)]` (object.ts:67-69); `values`' `[[target.getKey(ANY_STRING)]]` (object.ts:146); and the descriptor statics. The model splices those possibilities into the new cell or field instead, which is how the repository's own tests read the result (bindings.test.ts:37-47).
- `FlagLinter.IdentFlags` and `FlagLinter.LocalIdentifier`: a scope is a `{}` in the source, so `currentScope?.[name]` (main.ts:130, 166) also finds members inherited from `Object.prototype`. For an undeclared `toString`, the source gets `Object.prototype.toString`, which has none of the flags, so `toString.x = 1` is not reported. The model treats the name as bound nowhere, so it is global and the write is reported.
- `ObjectStaticMethods.CommaJoined`: `${path}` on a path array joins its segments with commas. This is what the template literal does, not `pathToString`.
- `NoMutation.Analysis.EnterBlock`: the block key is the block's own start offset. The source passes the traversal path object to `assertIsNodePos` and reads `path.start` from it. If that object has no numeric `start` and `end`, every block makes `noMutation` throw the assertion error, including programs that `NoMutation.AnalyseSucceeds` says run to the end. The traversal library is not part of this model, so the model assumes the path carries the block's own range.
- `NoMutation.Walk`: an initialiser's resolution is computed for its errors and then discarded, as in the source. Node kinds outside ESTree's `Expression` type, which the resolver's signature excludes, resolve to an empty array.
- `NoMutation.PropsKeys`: an object literal's `__proto__` key is stored as an own key. In JavaScript, assigning `object["__proto__"]` on a `{}` sets its prototype instead.
- `NoMutation.Lookup`: the `Object.prototype` members are the standard ones. Members a host adds to `Object.prototype` are not modelled.
- `FlagLinter.DeepFlags`: kinds that `getDeepFlags` does not handle, such as arrow and function expressions, throw "Unhandled case". So the source's own tests "allows a for loop" and "allows function calls" (main_test.ts:159-176) would throw as written. The model keeps the throw, and `FlagLinter.DeepFlagsDefined` characterises exactly when it happens.
- `FlagLinter.DeepFlags`: the `console.log(ex.type)` before that throw is output only and is left out.
- `FlagLinter.Walk`: function parameters are not declared in any scope, as in the source. Computed member properties are never evaluated for flags, as in the source.
- `SetPossibleReferences.SetAsWritten`: the as-written loop appends to the list it iterates over, so it is bounded by a `fuel` count of visits. It uses a `Boxed` entry for the `Reference` objects pushed into that list. A result beyond the fuel bound is `None`; the finding below holds for every fuel value.

## Findings

| source | as written | input that shows it | evidently intended | confidence | as-written member | corrected member |
|---|---|---|---|---|---|---|
| set_possible_references.ts:111-130 | for every possibility that is not an array read at an integer segment, the values found are pushed onto `possibilities`, the list being iterated, instead of `nextPossibilities` | `a.b.c = 1` with `a = {b: {}}`: the walk to `a.b` ends with no possibilities, so nothing is written | every property value reached along the path is carried to the next segment, so `a.b.c` gains the possibility `1` | not executed | SetPossibleReferences.AsWrittenMissesNestedWrite | SetPossibleReferences.NestedWrite |
