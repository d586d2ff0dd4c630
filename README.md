# UMC3DLocationController — strategy binding and dispatch

This project models the location controller of the UPhysicsBasedMC plugin
(`Source/UPhysicsBasedMC/Private/MC3DLocationController.cpp`). A controller
holds a motion controller (MC) component and a driven mesh, either skeletal
or static. `Init` stores these references. It then makes a single decision on
two inputs: whether the offset transform equals the identity, and the
`EMCControlType`. That decision binds exactly one of 21 update methods to
`UpdateFunctionPointer`. `Update` calls whatever was bound. Only the four
Position methods have an effect: they teleport the driven mesh to the MC's
location, or to that location plus an `Offset` fixed at `Init`. The other 16
methods (Velocity, Acceleration, Force and Impulse, with or without offset)
only log "Not implemented". `Update_NONE` does nothing.

Files:

- `vectors.dfy` (module `Vectors`): locations as exact 3-vectors with `Add` and `Sub`.
- `strategies.dfy` (module `Strategies`): pure functions and lemmas.
  - `Bind` is the four switches of the two `Init` overloads.
  - `VariantOf` and `Handler` translate between an update method and its
    coordinates (body kind, mode, offset or not).
  - `StepEffect` is what one call of a bound method does.
  - `AfterTicks` is the driven mesh's location after a run of `Update` calls.
- `controller.dfy` (module `LocationController`):
  - the class `MC3DLocationController`, with the fields the source assigns
    (`mc`, `skeletalMesh`, `staticMesh`, `offset`, `strategy`);
  - its two `Init` overloads (`InitSkeletal`, `InitStatic`), `Update`, and the
    four Position handlers;
  - engine components as `SceneComponent` objects whose `location` field is
    read and written.
- `scenarios.dfy` (module `Scenarios`): callers that rely only on the class's
  contracts. They cover updating before `Init`, the static Position scenario,
  `Offset` staying fixed while the MC moves, and the inert strategies.

Where a prose description of the controller and the code disagree, the model
follows the code:

- The identity test is on the whole `FTransform`
  (`InOffset.Equals(FTransform::Identity)`), not only its location. It is the
  `equalsIdentity` field of `Transform`.
- `Offset` is `InOffset.GetLocation()` minus the mesh's location at `Init`. It
  is not the MC's location minus the mesh's.
- There are 21 update methods (1 + 2 body kinds × 5 modes × 2 offset variants),
  not 12.

## Model

| member | source | states |
|---|---|---|
| Strategies.ModeRoundTrip | Source/UPhysicsBasedMC/Private/MC3DLocationController.cpp:36-58 | NONE and unrecognised values select no mode; every other enumerator selects a mode that maps back to it |
| Strategies.HandlerRoundTrip | Source/UPhysicsBasedMC/Private/MC3DLocationController.cpp:172-289 | each (body kind, mode, offset flag) names its own update method, never Update_NONE, and decoding that method gives the triple back |
| Strategies.VariantRoundTrip | Source/UPhysicsBasedMC/Private/MC3DLocationController.cpp:172-289 | every update method except Update_NONE is the one named by its own body kind, mode and offset flag, so the 21 methods are distinct |
| Strategies.Bind | Source/UPhysicsBasedMC/Private/MC3DLocationController.cpp:33-161 | binds Update_NONE exactly when the control type is NONE or unrecognised, whatever the body kind or offset branch; otherwise binds the method for the overload's body kind and the selected mode, the `_Offset` variant exactly when the transform is not the identity |
| Strategies.BindDecodes | Source/UPhysicsBasedMC/Private/MC3DLocationController.cpp:36-161 | no cross-talk: the skeletal overload binds only Skel methods or Update_NONE and the static overload only Static ones; the offset flag of the bound method is the negation of the identity test |
| Strategies.BindInjective | Source/UPhysicsBasedMC/Private/MC3DLocationController.cpp:36-161 | two Init inputs that bind the same method other than Update_NONE agree on body kind, identity outcome and control type |
| Strategies.BindCoversEveryStrategy | Source/UPhysicsBasedMC/Private/MC3DLocationController.cpp:33-161 | every one of the 21 update methods, Update_NONE included, is bound by some Init input |
| Strategies.StepEffect | Source/UPhysicsBasedMC/Private/MC3DLocationController.cpp:172-289 | Update_NONE is idle and nothing else is; exactly the four Position methods teleport, to the MC's location (no-offset) or the MC's location plus Offset (offset); all other methods report not implemented |
| Strategies.InertAfterTicks | Source/UPhysicsBasedMC/Private/MC3DLocationController.cpp:183-201 | any number of updates through Update_NONE or a Velocity/Acceleration/Force/Impulse method, with or without offset, leaves the driven mesh where it was |
| Strategies.PositionAfterTicks | Source/UPhysicsBasedMC/Private/MC3DLocationController.cpp:173-265 | after one or more updates through a Position method, the mesh is at the MC's location at the last update, plus the unchanged Offset for the offset variant, wherever the MC was earlier |
| LocationController.MC3DLocationController.constructor | Source/UPhysicsBasedMC/Private/MC3DLocationController.cpp:9-13 | a new controller is bound to Update_NONE and drives no mesh |
| LocationController.MC3DLocationController.InitSkeletal | Source/UPhysicsBasedMC/Private/MC3DLocationController.cpp:21-90 | stores the MC and the skeletal mesh and leaves the static mesh alone; binds Bind(Skeletal, identity test, control type); with an identity transform Offset keeps its old value, otherwise Offset is the transform's location minus the skeletal mesh's location |
| LocationController.MC3DLocationController.InitStatic | Source/UPhysicsBasedMC/Private/MC3DLocationController.cpp:93-163 | the same for the static mesh: binds Bind(Static, identity test, control type); Offset is unwritten for an identity transform and is the transform's location minus the static mesh's location otherwise |
| LocationController.MC3DLocationController.Update | Source/UPhysicsBasedMC/Private/MC3DLocationController.cpp:166-169 | runs exactly the bound method: its effect is StepEffect of the binding, the MC's current location and Offset; only the driven mesh may change, and the binding, Offset and references stay unchanged |
| LocationController.MC3DLocationController.UpdateSkelPosition | Source/UPhysicsBasedMC/Private/MC3DLocationController.cpp:173-181 | the skeletal mesh ends at the MC's location |
| LocationController.MC3DLocationController.UpdateSkelPositionOffset | Source/UPhysicsBasedMC/Private/MC3DLocationController.cpp:204-208 | the skeletal mesh ends at the MC's location plus Offset |
| LocationController.MC3DLocationController.UpdateStaticPosition | Source/UPhysicsBasedMC/Private/MC3DLocationController.cpp:232-239 | the static mesh ends at the MC's location |
| LocationController.MC3DLocationController.UpdateStaticPositionOffset | Source/UPhysicsBasedMC/Private/MC3DLocationController.cpp:262-269 | the static mesh ends at the MC's location plus Offset |
| Scenarios.UpdateBeforeInit | Source/UPhysicsBasedMC/Private/MC3DLocationController.cpp:9-169 | Update on a freshly constructed controller is idle and moves neither the mesh nor the MC |
| Scenarios.StaticPositionFollows | Source/UPhysicsBasedMC/Private/MC3DLocationController.cpp:106-235 | static mesh, identity offset, Position: the binding is Update_Static_Position, and after the MC moves one Update puts the mesh exactly at the MC's new location |
| Scenarios.OffsetIsFixedAtInit | Source/UPhysicsBasedMC/Private/MC3DLocationController.cpp:61-265 | with a non-identity transform and Position control, for either body kind, Offset is the transform's location minus the mesh's Init-time location and stays so over two updates; the mesh ends at the MC's latest location plus that Offset |
| Scenarios.InertControlMovesNothing | Source/UPhysicsBasedMC/Private/MC3DLocationController.cpp:183-289 | for Velocity, Acceleration, Force or Impulse control, with either body kind and either offset branch, Update reports not implemented and moves neither the mesh nor the MC |

## Left out

- `PIDController.Init(P, I, D, Max)` (lines 30 and 103): it belongs to the separate UPIDController module, and no update method uses it. The gains are not parameters of the model.
- `bApplyToAllChildBodies` and `DeltaTime`: the source accepts them and never reads them. `Update` keeps a `deltaTime` parameter that it ignores.
- `UE_LOG` diagnostics: the inert methods return the tag `NotImplemented` instead of logging. `Update_NONE` returns `Idle`.
- Engine behaviour: `SetWorldLocation` with teleport semantics, sweeping, `FHitResult` and physics are reduced to a write of a component's `location`. The tolerance and the rotation and scale comparison of `FTransform::Equals` are reduced to the boolean `Transform.equalsIdentity`.
- Floating point: locations are exact reals, so float32 rounding in `+` and `-` is not modelled.
- Null references: the source dereferences the MC and mesh pointers without checking them. The model's `Init` methods take non-null components.
- Update_NONE is declared in MC3DLocationController.h, which is not part of this model; it is modelled as doing nothing.
- MC3DLocationController.constructor: the source never assigns `Offset` in the constructor. The model starts it at the zero vector, the value of an engine object's zero-filled memory.
- The fixation grasp controller (MCFixationGraspController.h): the header only declares its state and methods, with no bodies, so there is no behaviour to model.
- UPhysicsBasedMC.Build.cs: build configuration only.
