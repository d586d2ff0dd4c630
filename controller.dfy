/** UMC3DLocationController as a class: Init binds one update method and
    may fix an Offset, Update runs whatever was bound, and the Position
    methods teleport the driven mesh. */
module LocationController {
  import opened Vectors
  import opened Strategies

  /** An engine scene component (motion controller, skeletal or static mesh)
      reduced to the one thing the controller reads or writes: its world
      location. Moving it with teleport semantics is a write of this field. */
  class SceneComponent {
    var location: Vec3

    constructor (location: Vec3)
      ensures this.location == location
    {
      this.location := location;
    }
  }

  /** The offset transform handed to Init: its location, and the engine's
      verdict of FTransform::Equals(FTransform::Identity), which compares the
      whole transform (rotation, translation, scale) within a tolerance. */
  datatype Transform = Transform(location: Vec3, equalsIdentity: bool)

  class MC3DLocationController {
    var mc: SceneComponent?
    var skeletalMesh: SceneComponent?
    var staticMesh: SceneComponent?
    var offset: Vec3
    var strategy: Strategy

    /** The mesh the bound update method writes, if it writes one. */
    function Driven(): SceneComponent?
      reads this
    {
      match VariantOf(strategy)
      case None => null
      case Some(v) => if v.body == Skeletal then skeletalMesh else staticMesh
    }

    /** Every bound method other than Update_NONE has the references it dereferences. */
    ghost predicate Valid()
      reads this
    {
      strategy != UpdateNone ==> mc != null && Driven() != null
    }

    /** The constructor points the update at Update_NONE. */
    constructor ()
      ensures Valid()
      ensures strategy == UpdateNone && Driven() == null
      ensures mc == null && skeletalMesh == null && staticMesh == null && offset == Zero
    {
      mc := null;
      skeletalMesh := null;
      staticMesh := null;
      offset := Zero;
      strategy := UpdateNone;
    }

    /** Init for a skeletal mesh. */
    method InitSkeletal(inMC: SceneComponent, inSkelMesh: SceneComponent,
                        inOffset: Transform, controlType: ControlType)
      modifies this
      ensures Valid()
      ensures mc == inMC && skeletalMesh == inSkelMesh && staticMesh == old(staticMesh)
      ensures strategy == Bind(Skeletal, inOffset.equalsIdentity, controlType)
      ensures strategy != UpdateNone ==> Driven() == inSkelMesh
      ensures offset == if inOffset.equalsIdentity then old(offset)
                        else Sub(inOffset.location, inSkelMesh.location)
    {
      mc := inMC;
      skeletalMesh := inSkelMesh;
      if inOffset.equalsIdentity {
        strategy := Bind(Skeletal, true, controlType);
      } else {
        offset := Sub(inOffset.location, skeletalMesh.location);
        strategy := Bind(Skeletal, false, controlType);
      }
      BindDecodes(Skeletal, inOffset.equalsIdentity, controlType);
    }

    /** Init for a static mesh. */
    method InitStatic(inMC: SceneComponent, inStaticMesh: SceneComponent,
                      inOffset: Transform, controlType: ControlType)
      modifies this
      ensures Valid()
      ensures mc == inMC && staticMesh == inStaticMesh && skeletalMesh == old(skeletalMesh)
      ensures strategy == Bind(Static, inOffset.equalsIdentity, controlType)
      ensures strategy != UpdateNone ==> Driven() == inStaticMesh
      ensures offset == if inOffset.equalsIdentity then old(offset)
                        else Sub(inOffset.location, inStaticMesh.location)
    {
      mc := inMC;
      staticMesh := inStaticMesh;
      if inOffset.equalsIdentity {
        strategy := Bind(Static, true, controlType);
      } else {
        offset := Sub(inOffset.location, staticMesh.location);
        strategy := Bind(Static, false, controlType);
      }
      BindDecodes(Static, inOffset.equalsIdentity, controlType);
    }

    /** Runs exactly the bound update method. Nothing but the driven mesh's
        location may change; the binding and the Offset stay as they are. */
    method Update(deltaTime: real) returns (effect: Effect)
      requires Valid()
      modifies Driven()
      ensures unchanged(this)
      ensures strategy == UpdateNone ==> effect == Idle
      ensures strategy != UpdateNone ==>
                effect == StepEffect(strategy, old(mc.location), offset) &&
                Driven().location == Apply(effect, old(Driven().location))
    {
      match strategy
      case UpdateNone =>
        effect := Idle;
      case SkelPosition =>
        effect := UpdateSkelPosition();
      case SkelPositionOffset =>
        effect := UpdateSkelPositionOffset();
      case StaticPosition =>
        effect := UpdateStaticPosition();
      case StaticPositionOffset =>
        effect := UpdateStaticPositionOffset();
      case SkelVelocity | SkelAcceleration | SkelForce | SkelImpulse
         | SkelVelocityOffset | SkelAccelerationOffset | SkelForceOffset | SkelImpulseOffset
         | StaticVelocity | StaticAcceleration | StaticForce | StaticImpulse
         | StaticVelocityOffset | StaticAccelerationOffset | StaticForceOffset | StaticImpulseOffset =>
        // these handlers only log that they are not implemented
        effect := NotImplemented;
    }

    /** Teleports the skeletal mesh to the motion controller's location. */
    method UpdateSkelPosition() returns (effect: Effect)
      requires mc != null && skeletalMesh != null
      modifies skeletalMesh
      ensures skeletalMesh.location == old(mc.location)
      ensures effect == Teleport(old(mc.location))
    {
      var target := mc.location;
      skeletalMesh.location := target;
      effect := Teleport(target);
    }

    /** Teleports the skeletal mesh to the motion controller's location plus Offset. */
    method UpdateSkelPositionOffset() returns (effect: Effect)
      requires mc != null && skeletalMesh != null
      modifies skeletalMesh
      ensures skeletalMesh.location == Add(old(mc.location), offset)
      ensures effect == Teleport(Add(old(mc.location), offset))
    {
      var target := Add(mc.location, offset);
      skeletalMesh.location := target;
      effect := Teleport(target);
    }

    /** Teleports the static mesh to the motion controller's location. */
    method UpdateStaticPosition() returns (effect: Effect)
      requires mc != null && staticMesh != null
      modifies staticMesh
      ensures staticMesh.location == old(mc.location)
      ensures effect == Teleport(old(mc.location))
    {
      var target := mc.location;
      staticMesh.location := target;
      effect := Teleport(target);
    }

    /** Teleports the static mesh to the motion controller's location plus Offset. */
    method UpdateStaticPositionOffset() returns (effect: Effect)
      requires mc != null && staticMesh != null
      modifies staticMesh
      ensures staticMesh.location == Add(old(mc.location), offset)
      ensures effect == Teleport(Add(old(mc.location), offset))
    {
      var target := Add(mc.location, offset);
      staticMesh.location := target;
      effect := Teleport(target);
    }
  }
}
