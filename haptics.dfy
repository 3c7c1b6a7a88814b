/** The gamepad's vibration interface, as the values the program sends.

    The program's controller wrapper turns two normalised motor intensities
    into the device's 16-bit motor speeds and hands them to the controller
    library. Here a command is the pair of intensities the program passes;
    the hardware call itself is outside the model. */
module Haptics {

  /** The largest 16-bit motor speed (the device's full range). */
  const MaxMotorSpeed: int := 65535

  /** One vibration request: `setVibration(leftMotor, rightMotor)`. */
  datatype HapticCommand = SetVibration(leftMotor: real, rightMotor: real)

  /** `stopVibration()`: a vibration request with both motors off. */
  function StopVibration(): (c: HapticCommand)
    ensures Convertible(c.leftMotor) && Convertible(c.rightMotor)
    ensures MotorSpeed(c.leftMotor) == 0 && MotorSpeed(c.rightMotor) == 0
  {
    SetVibration(0.0, 0.0)
  }

  /** Whether `static_cast<WORD>(intensity * 65535)` is defined: the
      product, truncated toward zero, must fit in 16 unsigned bits. */
  predicate Convertible(intensity: real) {
    -1.0 < intensity * MaxMotorSpeed as real < MaxMotorSpeed as real + 1.0
  }

  /** The 16-bit speed the wrapper derives from a normalised intensity:
      scale to the full range, then truncate toward zero (the floor for a
      non-negative product, 0 for a product just below zero). */
  function MotorSpeed(intensity: real): (w: int)
    requires Convertible(intensity)
    ensures 0 <= w <= MaxMotorSpeed
    ensures var p := intensity * MaxMotorSpeed as real;
            p >= 0.0 ==> w as real <= p < w as real + 1.0
    ensures intensity * MaxMotorSpeed as real < 0.0 ==> w == 0
  {
    var p := intensity * MaxMotorSpeed as real;
    if p >= 0.0 then p.Floor else 0
  }

  /** Full intensity drives a motor at full speed; zero leaves it off. */
  lemma MotorSpeedEnds()
    ensures MotorSpeed(0.0) == 0
    ensures MotorSpeed(1.0) == MaxMotorSpeed
  {
  }

  /** A stronger intensity never yields a slower motor. */
  lemma MotorSpeedMonotone(a: real, b: real)
    requires Convertible(a) && Convertible(b) && a <= b
    ensures MotorSpeed(a) <= MotorSpeed(b)
  {
  }
}
