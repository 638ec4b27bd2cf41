/** The plain component records the systems read and write. The
    `GameComponent` ids (`id`, `entityId`) are never read by the systems and
    are left out of these records; the query layer identifies components by
    the entity's type-name map instead. */
module Components {

  /** 16-bit signed height samples of the terrain grid. */
  newtype int16 = x: int | -0x8000 <= x < 0x8000

  datatype Vec2 = Vec2(x: real, y: real)

  /** The generic force shape shared by forces, rates and limits. Its `y`
      slot is the forward (speed) component and its `rotZ` slot the heading
      (turn) component, as the entity factory fills them. */
  datatype Force = Force(x: real, forward: real, z: real, rotX: real, rotY: real, heading: real)

  /** The sailing driver: generic locomotion plus the sail's state. */
  datatype BoatLocomotion = BoatLocomotion(
    rates: Force,
    forces: Force,
    limits: Force,
    effSailArea: real,
    trimAngle: real,
    trimRate: real,
    maxTrimAngle: real,
    AoA: real,
    localWind: Vec2,
    sailForce: Vec2,
    lift: real,
    drag: real)

  /** The motor driver: generic locomotion only. */
  datatype MotorLocomotion = MotorLocomotion(rates: Force, forces: Force, limits: Force)

  /** Position and orientation; `heading` is the `rotZ` slot. */
  datatype Position = Position(x: real, y: real, z: real, rotX: real, rotY: real, heading: real)

  /** A pending displacement, consumed by `applyTransform`. */
  datatype Transform = Transform(x: real, y: real, z: real, rotX: real, rotY: real, rotZ: real)

  datatype Wind = Wind(windHeading: real, windSpeed: real)

  /** The logical keys of the input scheme, each pressed or not. */
  datatype InputState = InputState(
    up: bool, down: bool, left: bool, right: bool,
    moreSails: bool, lessSails: bool,
    turnLeft: bool, turnRight: bool,
    trimLeft: bool, trimRight: bool)

  /** The player's intent for the current tick. */
  datatype BoatControlState = BoatControlState(
    turningLeft: bool, turningRight: bool,
    accelerating: bool, decelerating: bool,
    trimmingLeft: bool, trimmingRight: bool)

  /** The legacy normalised movement record. */
  datatype Movement = Movement(
    turnRateDelta: real, maxTurnRate: real,
    acceleration: real, maxSpeed: real,
    turnRate: real, speed: real, drag: real,
    trimAngle: real, maxTrimAngle: real)

  datatype TerrainCollider = TerrainCollider(heightMap: seq<int16>)

  datatype TestComponent = TestComponent(testValue: real)

  /** A control state with every flag off. */
  const IDLE: BoatControlState := BoatControlState(false, false, false, false, false, false)
}
