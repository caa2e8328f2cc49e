# RevealLight in Dafny

This project models the runtime core of the RevealLight system for Unreal Engine.
Reveal lights are scene components. Each one registers itself in a global list when
play begins and removes itself when play ends. Every frame a manager actor takes the
four lights nearest the player's camera and writes their position, direction, cone
cosine and range into a material parameter collection, which the reveal shader reads.
An example flashlight actor switches a spot light on and off. It mirrors that state
into two vector parameters of another collection.

The modules follow the C++ files:

- `Scene` (`Scene.dfy`) holds the engine-side values and objects the code touches:
  - `Vec3` and `LinearColor`;
  - the `SpotLightComponent` state that is read (transform, outer cone angle,
    attenuation radius) or set (visibility);
  - `ParameterCollection`, the collection instance, as two maps from parameter
    names to values.
- `RevealLights` (`RevealLightComponent.dfy`) holds:
  - `URevealLightComponent` with its `BeginPlay` and `EndPlay`;
  - the static `AllRevealLights` array, held by a `LightRegistry` object so that
    registration is an in-place update of a `seq` field;
  - `RemoveAll`, the meaning of `TArray::Remove`.
- `RevealManager` (`RevealLightManager.dfy`) holds `ARevealLightManager`:
  - the constructor's table of cached parameter names (`SlotName`, built from a
    model of `%d` formatting);
  - the in-place sort of the local copy of the registry (an insertion sort on an
    `array`, proved sorted and a permutation);
  - the four-slot fill with its sentinel and fallbacks (`Selection`);
  - the writes to the collection (`PublishVectors`, `PublishScalars`);
  - `Tick`, which ties all of these together.
- `FlashlightActor` (`Flashlight.dfy`) holds `AFlashlight`: its `BeginPlay`, `Tick`,
  `SetFlashlightActive` and `UpdateMPC`, over the `isFlashlightActive` field. The
  pure functions `SwitchedOff` and `Updated` give the resulting parameter map.

Engine queries are inputs to the modelled methods:

- the net mode: `isDedicatedServer`;
- the player controller and its view point: `viewPoint`, which is `None` when
  there is no controller;
- the owner's spot light lookup: `owner`;
- the value of an unread local colour: `uninitialized`;
- the collection's own getters and setters (`GetVectorParameterValue`, `SetVectorParameterValue`, `SetScalarParameterValue`): methods of `ParameterCollection` over its two maps;
- `FMath::Cos(FMath::DegreesToRadians(.))`: an uninterpreted `cosOfDegrees`.

The ranking is proved for any distance function `distanceTo`. `Tick` instantiates it
with the squared distance to the view location (`DistanceFrom`), just as the
sort predicate in `ARevealLightManager::Tick` compares `FVector::DistSquared`.

In two places the code does less than one might expect, and the model follows the code:

- Registration is not idempotent: `TArray::Add` does not check for duplicates.
  `DoubleRegisterSingleUnregister` shows that one `EndPlay` still removes every copy.
- The sort is not stable: `TArray::Sort` leaves the order of equally distant lights
  open. `SortByDistance` promises only sortedness and permutation.
  `RankingsAgreeOnDistances` shows that any two such rankings agree on the distance
  at every rank.

## Model

| member | source | states |
|---|---|---|
| RevealLights.LightRegistry.constructor | Source/RevealLight_MP/Private/RevealLightComponent.cpp:10 | the global list of reveal lights starts empty |
| RevealLights.RevealLightComponent.constructor | Source/RevealLight_MP/Public/RevealLightComponent.h:55-71 | a new component has fallback cone cosine 0.8, is switched on and has no cached spot light |
| RevealLights.RevealLightComponent.BeginPlay | Source/RevealLight_MP/Private/RevealLightComponent.cpp:19-32 | the spot light cache is set from the owner's lookup only when there is an owner (otherwise it keeps its value); exactly one entry, this component, is appended at the end and earlier entries are untouched, with no duplicate check |
| RevealLights.RevealLightComponent.EndPlay | Source/RevealLight_MP/Private/RevealLightComponent.cpp:34-40 | the list becomes the old list with every occurrence of this component removed, and the component is no longer in it |
| RevealLights.RemoveAll | Source/RevealLight_MP/Private/RevealLightComponent.cpp:37 | the result does not contain x, holds every other element exactly as often as before, and is shorter by the number of occurrences of x |
| RevealLights.RemoveAllDistributes | Source/RevealLight_MP/Private/RevealLightComponent.cpp:37 | removing from a concatenation removes from each part, so the survivors keep their relative order |
| RevealLights.RemoveAllAbsent | Source/RevealLight_MP/Private/RevealLightComponent.cpp:37 | EndPlay of a component that is not registered leaves the list unchanged |
| RevealLights.RegisterThenUnregister | Source/RevealLight_MP/Private/RevealLightComponent.cpp:19-38 | from a list without the component, BeginPlay then EndPlay restores the original list |
| RevealLights.RemoveAllIdempotent | Source/RevealLight_MP/Private/RevealLightComponent.cpp:37 | a second EndPlay changes nothing |
| RevealLights.DoubleRegisterSingleUnregister | Source/RevealLight_MP/Private/RevealLightComponent.cpp:31-37 | registering twice and unregistering once still restores the original list |
| RevealManager.NatToString | Source/RevealLight_MP/Private/RevealLightManager.cpp:19-22 | `%d` of a natural number is non-empty, and is one character long exactly when the number is below 10 |
| RevealManager.NatToStringValue | Source/RevealLight_MP/Private/RevealLightManager.cpp:19-22 | `%d` prints decimal digits with no leading zero, and their decimal value is the number printed |
| RevealManager.NatToStringInjective | Source/RevealLight_MP/Private/RevealLightManager.cpp:19-22 | different numbers print differently |
| RevealManager.SlotNameReadsBack | Source/RevealLight_MP/Private/RevealLightManager.cpp:19-22 | the name `SlotName` gives parameter kind p of slot i is p's prefix ("LightPos_", "LightDir_", "LightCone_" or "LightRange_") followed by decimal digits whose value is i |
| RevealManager.SlotNamesSpelledOut | Source/RevealLight_MP/Private/RevealLightManager.cpp:17-23 | the cached names of each of the slots 0, 1, 2 and 3 are "LightPos_i", "LightDir_i", "LightCone_i" and "LightRange_i" |
| RevealManager.SlotNamesDistinct | Source/RevealLight_MP/Private/RevealLightManager.cpp:17-23 | two slot parameter names are equal if and only if they have the same kind and slot number |
| RevealManager.RevealLightManager.constructor | Source/RevealLight_MP/Private/RevealLightManager.cpp:17-23 | the four name arrays have four entries each, and entry i is the name of kind Pos, Dir, Cone or Range for slot i |
| RevealManager.DistanceFromNonnegative | Source/RevealLight_MP/Private/RevealLightManager.cpp:56 | the squared-distance sort key (`DistanceFrom`) is never negative and is zero at the view location |
| RevealManager.Distances | Source/RevealLight_MP/Private/RevealLightManager.cpp:55-57 | one distance per light |
| RevealManager.DistanceAt | Source/RevealLight_MP/Private/RevealLightManager.cpp:56 | the k-th distance is the distance of the k-th light |
| RevealManager.SortByDistance | Source/RevealLight_MP/Private/RevealLightManager.cpp:55-57 | after the in-place sort the array is ordered by non-decreasing distance and is a permutation of its old contents |
| RevealManager.InsertIntoPrefix | Source/RevealLight_MP/Private/RevealLightManager.cpp:55-57 | one insertion step extends the sorted prefix by one element and keeps the array a permutation |
| RevealManager.ShiftFarther | Source/RevealLight_MP/Private/RevealLightManager.cpp:55-57 | the shift loop stops at a place j: the lights from j up to the new light's old index are all farther than it and move up one place, the light just before j is no farther, and every other entry stays |
| RevealManager.InsertionStep | Source/RevealLight_MP/Private/RevealLightManager.cpp:55-57 | moving an element down past the farther lights of a sorted prefix yields a longer sorted prefix and a permutation |
| RevealManager.InsertionPlace | Source/RevealLight_MP/Private/RevealLightManager.cpp:55-57 | a light placed after nearer-or-equal lights and before farther ones keeps the ranking sorted |
| RevealManager.DistancesAround | Source/RevealLight_MP/Private/RevealLightManager.cpp:55-57 | the distances of a list with one light singled out are the distances before it, that light's distance, and the distances after it |
| RevealManager.DistancesOfPermutation | Source/RevealLight_MP/Private/RevealLightManager.cpp:52-57 | reordering the lights reorders their distances |
| RevealManager.SortedUnique | Source/RevealLight_MP/Private/RevealLightManager.cpp:55-57 | two sorted lists with the same elements are equal |
| RevealManager.RankingsAgreeOnDistances | Source/RevealLight_MP/Private/RevealLightManager.cpp:55-57 | any two sorted permutations of the registry have the same distance at every rank, so the unstable sort decides only among equally distant lights |
| RevealManager.ViewsNearestFirst | Source/RevealLight_MP/Private/RevealLightManager.cpp:55-60 | a ranking sorted by distance presents the lights' locations nearest first to the slot fill |
| RevealManager.NearestFirstSorted | Source/RevealLight_MP/Private/RevealLightManager.cpp:55-60 | conversely, a list whose views are nearest first is sorted by distance, so `Nearest` and `RankedFirstAreNearest` apply to the ranking `Tick` promises |
| RevealManager.Nearest | Source/RevealLight_MP/Private/RevealLightManager.cpp:59-60 | the lights given a slot are a prefix of the ranking, four of them or all of them when fewer |
| RevealManager.RankedFirstAreNearest | Source/RevealLight_MP/Private/RevealLightManager.cpp:54-60 | no registered light left without a slot is nearer than a light that got one |
| RevealManager.RankLights | Source/RevealLight_MP/Private/RevealLightManager.cpp:51-57 | the local copy is a fresh array, a permutation of the registry, sorted by distance to the view location |
| RevealManager.Selection | Source/RevealLight_MP/Private/RevealLightManager.cpp:60-86 | exactly four slots; slot i is the sentinel when there is no light at rank i or it is switched off; otherwise it carries that light's position and direction, with cone and range from the cached spot light if present, else the light's fallback cosine and range 5000 |
| RevealManager.LitSlot | Source/RevealLight_MP/Private/RevealLightManager.cpp:70-85 | a lit light's slot has its position and direction; cone and range are the cosine of the cached spot light's outer cone angle and its attenuation radius when there is one, and the light's fallback cosine and range 5000 otherwise |
| RevealManager.SlotAt | Source/RevealLight_MP/Private/RevealLightManager.cpp:62-86 | slot i is the sentinel when there is no light at rank i or it is switched off, and otherwise carries that light's position and direction |
| RevealManager.SlotDependsOnlyOnItsRank | Source/RevealLight_MP/Private/RevealLightManager.cpp:67 | slot i depends only on the light at rank i, so a switched-off light blanks its slot and the next light is not promoted |
| RevealManager.ReadSlot | Source/RevealLight_MP/Private/RevealLightManager.cpp:62-86 | the locals after the branch are the selected slot of the light at rank i |
| RevealManager.PublishVectors | Source/RevealLight_MP/Private/RevealLightManager.cpp:89-90 | the vector writes of slots 0..n-1, in slot order, never remove a parameter; their values are stated by `PublishedVectors` and `PublishLeavesOtherNames` |
| RevealManager.PublishScalars | Source/RevealLight_MP/Private/RevealLightManager.cpp:91-92 | the scalar writes of slots 0..n-1, in slot order, never remove a parameter; their values are stated by `PublishedScalars` and `PublishLeavesOtherNames` |
| RevealManager.PublishedVectors | Source/RevealLight_MP/Private/RevealLightManager.cpp:89-90 | after the writes of slots 0..n-1, each of them holds its own position and direction (alpha 1), whatever later slots wrote |
| RevealManager.PublishedScalars | Source/RevealLight_MP/Private/RevealLightManager.cpp:91-92 | after the writes of slots 0..n-1, each of them holds its own cone and range |
| RevealManager.PublishLeavesOtherNames | Source/RevealLight_MP/Private/RevealLightManager.cpp:88-92 | a parameter whose name is not a slot parameter is neither added nor changed |
| RevealManager.RevealLightManager.Tick | Source/RevealLight_MP/Private/RevealLightManager.cpp:31-94 | the registry is never changed; on a dedicated server, without a collection or without a player controller the collection is untouched; otherwise there is a permutation of the registry, nearest the view location first, whose four selected slots are exactly what was written |
| RevealManager.RevealLightManager.PublishSlots | Source/RevealLight_MP/Private/RevealLightManager.cpp:60-93 | the loop writes the selection of the ranked lights into the slot parameters, nothing else |
| RevealManager.RevealLightManager.PublishSlot | Source/RevealLight_MP/Private/RevealLightManager.cpp:61-92 | one loop turn writes slot i's position, direction, cone and range under slot i's names and leaves the lights as they were |
| RevealManager.RevealLightManager.WriteSlot | Source/RevealLight_MP/Private/RevealLightManager.cpp:89-92 | the four writes under the cached names are the writes under slot i's names |
| FlashlightActor.Flashlight.constructor | ExampleCpp/Flashlight.cpp:12-28 | the constructor creates the spot light with a 25 degree outer cone (line 27); the flashlight starts inactive with the default parameter names, the member initialisers at ExampleCpp/Flashlight.h:39-50 |
| FlashlightActor.Flashlight.BeginPlay | ExampleCpp/Flashlight.cpp:30-34 | after BeginPlay the flashlight is inactive, the spot light invisible, and the position-and-state alpha is cleared |
| FlashlightActor.Flashlight.Tick | ExampleCpp/Flashlight.cpp:36-43 | the collection is updated from the spot light while the flashlight is active and left untouched otherwise |
| FlashlightActor.Flashlight.SetFlashlightActive | ExampleCpp/Flashlight.cpp:45-59 | the active flag and the spot light's visibility both become the argument; switching on writes nothing; switching off rewrites only the position-and-state parameter, with alpha 0 |
| FlashlightActor.Flashlight.UpdateMPC | ExampleCpp/Flashlight.cpp:61-79 | nothing happens without a collection; otherwise the two vector parameters are written, scalars are untouched |
| FlashlightActor.SwitchedOff | ExampleCpp/Flashlight.cpp:49-57 | the position-and-state parameter gets alpha 0 and keeps the RGB it had (or the unread local's when the collection has none); every other parameter is unchanged |
| FlashlightActor.Updated | ExampleCpp/Flashlight.cpp:65-77 | position with alpha 1, direction with alpha the cone cosine, no other parameter touched; if the two names coincide the direction wins |
| FlashlightActor.SwitchOffKeepsLastPosition | ExampleCpp/Flashlight.cpp:45-79 | switching off after an update leaves the last position with alpha 0 |
| FlashlightActor.SwitchOffIdempotent | ExampleCpp/Flashlight.cpp:49-57 | switching off a second time writes what the first time wrote |
| FlashlightActor.UpdateIdempotent | ExampleCpp/Flashlight.cpp:61-79 | two updates from the same spot light state write what one does |

## Left out

- Floating point: coordinates, angles and colours are reals, so float rounding and the `float` truncation of the cone cosine are not modelled.
- `FMath::Cos` and `FMath::DegreesToRadians` are one uninterpreted function, `cosOfDegrees`.
- Engine queries are method inputs: `GetNetMode`, `GetPlayerController`/`GetPlayerViewPoint`, `GetOwner`/`FindComponentByClass`. The component transforms are fields the engine is assumed to keep current.
- The null test on a registry entry in `Tick` is not modelled, because entries are never null: only `BeginPlay` adds entries, and it adds `this`.
- Object lifetime, garbage collection and `TObjectPtr` semantics are not modelled. A light destroyed without `EndPlay` is not modelled either.
- Undeclared parameter names: the engine drops a write to a name the collection asset does not declare, but the model's setters always store the value. The two maps of a `ParameterCollection` hold every declared parameter with its current value, and every name the code writes is taken to be declared. So the `name !in vectors` branch of `GetVectorParameterValue`, and with it the `uninitialized` case of `SwitchedOff`, covers only a read of an undeclared name.
- `FName` comparison is case-insensitive in the engine. The model compares names as exact strings, which matters only for the configurable flashlight names.
- `Updated`: when both flashlight names are the same, the result states only the winning direction write, because the position write is overwritten.
- The `EEndPlayReason` argument of `EndPlay`, `DeltaTime`, the `Super::` calls, tick settings, the manager's empty `BeginPlay`, and the flashlight constructor's mesh and root subobjects and spot light intensity are not modelled. They are engine wiring with no behaviour here.
- The static registry is an explicit `LightRegistry` object passed to the methods that use it, not a global.
- Concurrency is not modelled: all of this runs on the game thread.
