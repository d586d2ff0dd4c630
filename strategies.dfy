/** The strategy binding of UMC3DLocationController as pure functions: which
    of its 21 update methods Init binds, and what one call of a bound method
    does to the driven body. */
module Strategies {
  import opened Vectors

  datatype Option<T> = None | Some(value: T)

  /** The kind of mesh a controller drives; one Init overload per kind. */
  datatype BodyKind = Skeletal | Static

  /** EMCControlType. Unrecognised stands for any value outside the five
      named enumerators, which the switches send to their default case. */
  datatype ControlType =
    | NONE
    | Position
    | Velocity
    | Acceleration
    | Force
    | Impulse
    | Unrecognised(code: nat)

  /** The quantity a (non-NONE) update method controls. */
  datatype Mode = PositionMode | VelocityMode | AccelerationMode | ForceMode | ImpulseMode

  /** The coordinates of an update method other than Update_NONE. */
  datatype Variant = Variant(body: BodyKind, mode: Mode, withOffset: bool)

  /** The 21 update methods an UpdateFunctionPointer can point at. */
  datatype Strategy =
    | UpdateNone
    | SkelPosition | SkelVelocity | SkelAcceleration | SkelForce | SkelImpulse
    | SkelPositionOffset | SkelVelocityOffset | SkelAccelerationOffset | SkelForceOffset | SkelImpulseOffset
    | StaticPosition | StaticVelocity | StaticAcceleration | StaticForce | StaticImpulse
    | StaticPositionOffset | StaticVelocityOffset | StaticAccelerationOffset | StaticForceOffset | StaticImpulseOffset

  /** What one call of a bound update method does: Update_NONE does nothing,
      the Velocity/Acceleration/Force/Impulse methods only report that they
      are not implemented, and the Position methods teleport the driven body. */
  datatype Effect = Idle | NotImplemented | Teleport(to: Vec3)

  /** The mode a control type selects; none for NONE and for unrecognised values. */
  function ModeOf(ct: ControlType): Option<Mode> {
    match ct
    case NONE => None
    case Position => Some(PositionMode)
    case Velocity => Some(VelocityMode)
    case Acceleration => Some(AccelerationMode)
    case Force => Some(ForceMode)
    case Impulse => Some(ImpulseMode)
    case Unrecognised(_) => None
  }

  /** The enumerator that selects a mode. */
  function ControlTypeOf(m: Mode): ControlType {
    match m
    case PositionMode => Position
    case VelocityMode => Velocity
    case AccelerationMode => Acceleration
    case ForceMode => Force
    case ImpulseMode => Impulse
  }

  lemma ModeRoundTrip(ct: ControlType)
    ensures ModeOf(ct).Some? ==> ControlTypeOf(ModeOf(ct).value) == ct
    ensures ModeOf(ct).None? <==> ct.NONE? || ct.Unrecognised?
  {
  }

  /** The update method with the given coordinates. */
  function Handler(v: Variant): Strategy {
    match (v.body, v.mode, v.withOffset)
    case (Skeletal, PositionMode, false) => SkelPosition
    case (Skeletal, VelocityMode, false) => SkelVelocity
    case (Skeletal, AccelerationMode, false) => SkelAcceleration
    case (Skeletal, ForceMode, false) => SkelForce
    case (Skeletal, ImpulseMode, false) => SkelImpulse
    case (Skeletal, PositionMode, true) => SkelPositionOffset
    case (Skeletal, VelocityMode, true) => SkelVelocityOffset
    case (Skeletal, AccelerationMode, true) => SkelAccelerationOffset
    case (Skeletal, ForceMode, true) => SkelForceOffset
    case (Skeletal, ImpulseMode, true) => SkelImpulseOffset
    case (Static, PositionMode, false) => StaticPosition
    case (Static, VelocityMode, false) => StaticVelocity
    case (Static, AccelerationMode, false) => StaticAcceleration
    case (Static, ForceMode, false) => StaticForce
    case (Static, ImpulseMode, false) => StaticImpulse
    case (Static, PositionMode, true) => StaticPositionOffset
    case (Static, VelocityMode, true) => StaticVelocityOffset
    case (Static, AccelerationMode, true) => StaticAccelerationOffset
    case (Static, ForceMode, true) => StaticForceOffset
    case (Static, ImpulseMode, true) => StaticImpulseOffset
  }

  /** The coordinates of an update method, read off its name; none for Update_NONE. */
  function VariantOf(s: Strategy): Option<Variant> {
    match s
    case UpdateNone => None
    case SkelPosition => Some(Variant(Skeletal, PositionMode, false))
    case SkelVelocity => Some(Variant(Skeletal, VelocityMode, false))
    case SkelAcceleration => Some(Variant(Skeletal, AccelerationMode, false))
    case SkelForce => Some(Variant(Skeletal, ForceMode, false))
    case SkelImpulse => Some(Variant(Skeletal, ImpulseMode, false))
    case SkelPositionOffset => Some(Variant(Skeletal, PositionMode, true))
    case SkelVelocityOffset => Some(Variant(Skeletal, VelocityMode, true))
    case SkelAccelerationOffset => Some(Variant(Skeletal, AccelerationMode, true))
    case SkelForceOffset => Some(Variant(Skeletal, ForceMode, true))
    case SkelImpulseOffset => Some(Variant(Skeletal, ImpulseMode, true))
    case StaticPosition => Some(Variant(Static, PositionMode, false))
    case StaticVelocity => Some(Variant(Static, VelocityMode, false))
    case StaticAcceleration => Some(Variant(Static, AccelerationMode, false))
    case StaticForce => Some(Variant(Static, ForceMode, false))
    case StaticImpulse => Some(Variant(Static, ImpulseMode, false))
    case StaticPositionOffset => Some(Variant(Static, PositionMode, true))
    case StaticVelocityOffset => Some(Variant(Static, VelocityMode, true))
    case StaticAccelerationOffset => Some(Variant(Static, AccelerationMode, true))
    case StaticForceOffset => Some(Variant(Static, ForceMode, true))
    case StaticImpulseOffset => Some(Variant(Static, ImpulseMode, true))
  }

  /** Every variant names its own update method, distinct from Update_NONE. */
  lemma HandlerRoundTrip(v: Variant)
    ensures Handler(v) != UpdateNone
    ensures VariantOf(Handler(v)) == Some(v)
  {
  }

  /** Every update method other than Update_NONE is the one its coordinates name. */
  lemma VariantRoundTrip(s: Strategy)
    ensures VariantOf(s).None? <==> s == UpdateNone
    ensures VariantOf(s).Some? ==> Handler(VariantOf(s).value) == s
  {
  }

  /** The update method Init binds, for the overload of the given body kind,
      the outcome of the offset transform's identity test and the control
      type: the four switches of the two Init overloads. */
  function Bind(kind: BodyKind, isIdentity: bool, controlType: ControlType): (s: Strategy)
    ensures s == UpdateNone <==> controlType.NONE? || controlType.Unrecognised?
    ensures ModeOf(controlType).Some? ==>
              s == Handler(Variant(kind, ModeOf(controlType).value, !isIdentity))
  {
    match kind
    case Skeletal =>
      if isIdentity then
        (match controlType
          case NONE => UpdateNone
          case Position => SkelPosition
          case Velocity => SkelVelocity
          case Acceleration => SkelAcceleration
          case Force => SkelForce
          case Impulse => SkelImpulse
          case Unrecognised(_) => UpdateNone)
      else
        (match controlType
          case NONE => UpdateNone
          case Position => SkelPositionOffset
          case Velocity => SkelVelocityOffset
          case Acceleration => SkelAccelerationOffset
          case Force => SkelForceOffset
          case Impulse => SkelImpulseOffset
          case Unrecognised(_) => UpdateNone)
    case Static =>
      if isIdentity then
        (match controlType
          case NONE => UpdateNone
          case Position => StaticPosition
          case Velocity => StaticVelocity
          case Acceleration => StaticAcceleration
          case Force => StaticForce
          case Impulse => StaticImpulse
          case Unrecognised(_) => UpdateNone)
      else
        (match controlType
          case NONE => UpdateNone
          case Position => StaticPositionOffset
          case Velocity => StaticVelocityOffset
          case Acceleration => StaticAccelerationOffset
          case Force => StaticForceOffset
          case Impulse => StaticImpulseOffset
          case Unrecognised(_) => UpdateNone)
  }

  /** Reading the bound method's name back gives exactly the overload's body
      kind, the selected mode and "offset" precisely when the transform is not
      the identity: no cross-talk between body kinds or offset branches. */
  lemma BindDecodes(kind: BodyKind, isIdentity: bool, controlType: ControlType)
    ensures VariantOf(Bind(kind, isIdentity, controlType)) ==
              match ModeOf(controlType)
              case None => None
              case Some(m) => Some(Variant(kind, m, !isIdentity))
  {
  }

  /** Distinct inputs that bind a method other than Update_NONE bind distinct
      methods: the binding is one-to-one on body kind, offset branch and mode. */
  lemma BindInjective(k1: BodyKind, i1: bool, c1: ControlType, k2: BodyKind, i2: bool, c2: ControlType)
    requires Bind(k1, i1, c1) == Bind(k2, i2, c2) != UpdateNone
    ensures k1 == k2 && i1 == i2 && c1 == c2
  {
  }

  /** Every one of the 21 update methods is bound by some Init call. */
  lemma BindCoversEveryStrategy(s: Strategy)
    ensures exists kind, isIdentity, controlType :: Bind(kind, isIdentity, controlType) == s
  {
    if s == UpdateNone {
      assert Bind(Skeletal, true, NONE) == s;
    } else {
      VariantRoundTrip(s);
      var v := VariantOf(s).value;
      assert Bind(v.body, !v.withOffset, ControlTypeOf(v.mode)) == s;
    }
  }

  /** What one call of the bound method does, given the motion controller's
      location at that call and the stored Offset. */
  function StepEffect(s: Strategy, mcLocation: Vec3, offset: Vec3): (e: Effect)
    ensures e == Idle <==> s == UpdateNone
    ensures e.Teleport? <==> VariantOf(s).Some? && VariantOf(s).value.mode == PositionMode
    ensures e.Teleport? ==>
              e.to == if VariantOf(s).value.withOffset then Add(mcLocation, offset) else mcLocation
  {
    match s
    case UpdateNone => Idle
    case SkelPosition => Teleport(mcLocation)
    case SkelPositionOffset => Teleport(Add(mcLocation, offset))
    case StaticPosition => Teleport(mcLocation)
    case StaticPositionOffset => Teleport(Add(mcLocation, offset))
    case SkelVelocity | SkelAcceleration | SkelForce | SkelImpulse
       | SkelVelocityOffset | SkelAccelerationOffset | SkelForceOffset | SkelImpulseOffset
       | StaticVelocity | StaticAcceleration | StaticForce | StaticImpulse
       | StaticVelocityOffset | StaticAccelerationOffset | StaticForceOffset | StaticImpulseOffset
      => NotImplemented
  }

  /** The driven body's location after an effect. */
  function Apply(e: Effect, body: Vec3): Vec3 {
    if e.Teleport? then e.to else body
  }

  /** The driven body's location after one Update per entry of mcTrace, the
      motion controller being at mcTrace[i] during the i-th call. The bound
      method and the Offset are parameters because Update changes neither. */
  function AfterTicks(s: Strategy, offset: Vec3, body: Vec3, mcTrace: seq<Vec3>): Vec3
    decreases |mcTrace|
  {
    if |mcTrace| == 0 then body
    else AfterTicks(s, offset, Apply(StepEffect(s, mcTrace[0], offset), body), mcTrace[1..])
  }

  /** A bound method that does not teleport leaves the body where it was,
      however many updates run. */
  lemma {:induction false} InertAfterTicks(s: Strategy, offset: Vec3, body: Vec3, mcTrace: seq<Vec3>)
    requires VariantOf(s).None? || VariantOf(s).value.mode != PositionMode
    ensures AfterTicks(s, offset, body, mcTrace) == body
    decreases |mcTrace|
  {
    if |mcTrace| > 0 {
      InertAfterTicks(s, offset, body, mcTrace[1..]);
    }
  }

  /** A Position method leaves the body at the motion controller's location
      during the last update, plus the unchanged Offset for the offset
      variant, wherever the controller was before. */
  lemma {:induction false} PositionAfterTicks(s: Strategy, offset: Vec3, body: Vec3, mcTrace: seq<Vec3>)
    requires VariantOf(s).Some? && VariantOf(s).value.mode == PositionMode
    requires |mcTrace| > 0
    ensures AfterTicks(s, offset, body, mcTrace) ==
              var last := mcTrace[|mcTrace| - 1];
              if VariantOf(s).value.withOffset then Add(last, offset) else last
    decreases |mcTrace|
  {
    var next := Apply(StepEffect(s, mcTrace[0], offset), body);
    if |mcTrace| > 1 {
      PositionAfterTicks(s, offset, next, mcTrace[1..]);
    }
  }
}
