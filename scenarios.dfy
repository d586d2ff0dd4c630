/** Callers of MC3DLocationController that use only its contracts: each
    builds its own components, drives the controller through Init and
    Update, and reports what the driven mesh ends up at. */
module Scenarios {
  import opened Vectors
  import opened Strategies
  import opened LocationController

  /** Update on a freshly constructed controller runs Update_NONE and moves nothing. */
  method UpdateBeforeInit(mcLocation: Vec3, meshLocation: Vec3)
    returns (effect: Effect, meshAfter: Vec3, mcAfter: Vec3)
    ensures effect == Idle
    ensures meshAfter == meshLocation && mcAfter == mcLocation
  {
    var mc := new SceneComponent(mcLocation);
    var mesh := new SceneComponent(meshLocation);
    var controller := new MC3DLocationController();
    effect := controller.Update(0.0);
    meshAfter, mcAfter := mesh.location, mc.location;
  }

  /** A static mesh initialised with an identity offset and Position control
      is bound to Update_Static_Position and, after the motion controller
      moves, an Update puts the mesh exactly at the controller's new location. */
  method StaticPositionFollows(mcLocation: Vec3, meshLocation: Vec3, offsetLocation: Vec3, moved: Vec3)
    returns (bound: Strategy, meshAfter: Vec3)
    ensures bound == StaticPosition
    ensures meshAfter == moved
  {
    var mc := new SceneComponent(mcLocation);
    var mesh := new SceneComponent(meshLocation);
    var controller := new MC3DLocationController();
    controller.InitStatic(mc, mesh, Transform(offsetLocation, true), Position);
    bound := controller.strategy;
    mc.location := moved;
    var _ := controller.Update(0.0);
    meshAfter := mesh.location;
  }

  /** With a non-identity offset transform, Init fixes Offset from the
      transform's location and the mesh's location at that moment; two
      updates with the motion controller moving in between keep that Offset
      and leave the mesh at the controller's latest location plus it. */
  method OffsetIsFixedAtInit(kind: BodyKind, mcLocation: Vec3, meshLocation: Vec3,
                             offsetLocation: Vec3, first: Vec3, second: Vec3)
    returns (offsetAfter: Vec3, meshAfter: Vec3)
    ensures offsetAfter == Sub(offsetLocation, meshLocation)
    ensures meshAfter == Add(second, Sub(offsetLocation, meshLocation))
  {
    var mc := new SceneComponent(mcLocation);
    var mesh := new SceneComponent(meshLocation);
    var controller := new MC3DLocationController();
    if kind == Skeletal {
      controller.InitSkeletal(mc, mesh, Transform(offsetLocation, false), Position);
    } else {
      controller.InitStatic(mc, mesh, Transform(offsetLocation, false), Position);
    }
    mc.location := first;
    var _ := controller.Update(0.0);
    mc.location := second;
    var _ := controller.Update(0.0);
    offsetAfter, meshAfter := controller.offset, mesh.location;
  }

  /** A controller bound to a Velocity, Acceleration, Force or Impulse method
      reports "not implemented" and moves nothing, with or without offset. */
  method InertControlMovesNothing(kind: BodyKind, isIdentity: bool, controlType: ControlType,
                                  mcLocation: Vec3, meshLocation: Vec3, offsetLocation: Vec3)
    returns (effect: Effect, meshAfter: Vec3, mcAfter: Vec3)
    requires controlType in {Velocity, Acceleration, Force, Impulse}
    ensures effect == NotImplemented
    ensures meshAfter == meshLocation && mcAfter == mcLocation
  {
    var mc := new SceneComponent(mcLocation);
    var mesh := new SceneComponent(meshLocation);
    var controller := new MC3DLocationController();
    if kind == Skeletal {
      controller.InitSkeletal(mc, mesh, Transform(offsetLocation, isIdentity), controlType);
    } else {
      controller.InitStatic(mc, mesh, Transform(offsetLocation, isIdentity), controlType);
    }
    effect := controller.Update(0.0);
    meshAfter, mcAfter := mesh.location, mc.location;
  }
}
