/**
 * The gyroscope camera control. It never sets the camera orientation
 * itself: it turns device-orientation samples into angles and nudges the
 * orbit control by the change since the previous sample.
 */
module Gyro {
  import opened Wrappers
  import opened Orbit

  /** `Math.PI` (the double nearest to pi). */
  const PI: real := 3.141592653589793

  datatype Quat = Quat(x: real, y: real, z: real, w: real)

  /** The vector `quat2Angle` returns: x = pitch, y = roll, z = yaw. */
  datatype Angle = Angle(pitch: real, roll: real, yaw: real)

  /**
   * The floating-point collaborators, left uninterpreted: the device
   * quaternion built from (alpha, beta, gamma, screen angle) with the fixed
   * -90 degree axis correction, `Math.atan2` and `Math.asin`.
   */
  datatype DeviceMath = DeviceMath(
    orient: (real, real, real, real) -> Quat,
    atan2: (real, real) -> real,
    asin: real -> real)

  /** What the model assumes of `Math.asin`: on [-1, 1] it lies in [-pi/2, pi/2]. */
  ghost predicate AsinInRange(asin: real -> real) {
    forall s :: -1.0 <= s <= 1.0 ==> -PI / 2.0 <= asin(s) <= PI / 2.0
  }

  /** The dot-product factor that decides the pole branches. */
  function Factor(q: Quat): real {
    q.x * q.y + q.z * q.w
  }

  /**
   * Quaternion to angles, with the singularity guard at both poles: beyond
   * +-0.499 no `asin` is taken and the pitch is pinned to +-pi/2.
   */
  function Quat2Angle(q: Quat, m: DeviceMath): (a: Angle)
    requires AsinInRange(m.asin)
    ensures -PI / 2.0 <= a.pitch <= PI / 2.0
    ensures Factor(q) > 0.499 ==> a.pitch == PI / 2.0 && a.roll == 0.0 && a.yaw == 2.0 * m.atan2(q.x, q.w)
    ensures Factor(q) < -0.499 ==> a.pitch == -PI / 2.0 && a.roll == 0.0 && a.yaw == -2.0 * m.atan2(q.x, q.w)
    ensures -0.499 <= Factor(q) <= 0.499 ==> a.pitch == m.asin(2.0 * Factor(q))
  {
    var factor := Factor(q);
    if factor > 0.499 then
      Angle(PI / 2.0, 0.0, m.atan2(q.x, q.w) * 2.0)
    else if factor < -0.499 then
      Angle(-PI / 2.0, 0.0, -2.0 * m.atan2(q.x, q.w))
    else
      var sqx, sqy, sqz := q.x * q.x, q.y * q.y, q.z * q.z;
      Angle(
        m.asin(2.0 * factor),
        m.atan2(2.0 * q.x * q.w - 2.0 * q.y * q.z, 1.0 - 2.0 * sqx - 2.0 * sqz),
        m.atan2(2.0 * q.y * q.w - 2.0 * q.x * q.z, 1.0 - 2.0 * sqy - 2.0 * sqz))
  }

  /** A raw `deviceorientation` event: each angle (degrees) may be missing. */
  datatype Sample = Sample(alpha: Option<real>, beta: Option<real>, gamma: Option<real>)

  const NoSample := Sample(None, None, None)

  /** JavaScript truthiness of an optional number: present and non-zero. */
  predicate Truthy(v: Option<real>) {
    v.Some? && v.value != 0.0
  }

  function DegToRad(d: real): real {
    d * (PI / 180.0)
  }

  /** A sample component in radians; a missing or falsy component reads as 0. */
  function Radians(v: Option<real>): (r: real)
    ensures r != 0.0 <==> Truthy(v)
    ensures Truthy(v) ==> r == DegToRad(v.value)
  {
    if Truthy(v) then DegToRad(v.value) else 0.0
  }

  /** `lastBeta` and `lastGamma`: always recorded together and cleared together. */
  datatype LastSample = LastSample(beta: real, gamma: real)

  /** The abstract state of a gyroscope control. */
  datatype GyroState = GyroState(
    enabled: bool,
    deviceOrien: Sample,
    screenOrien: real,
    alphaOffset: real,
    last: Option<LastSample>)

  /** The state of a control just constructed. */
  const Initial := GyroState(false, NoSample, 0.0, 0.0, None)

  /** `if (this.lastBeta)`: a recorded beta of 0 counts as no previous sample. */
  predicate HasLast(s: GyroState) {
    s.last.Some? && s.last.value.beta != 0.0
  }

  /** The angles one device reading turns into. */
  function Reading(m: DeviceMath, alpha: real, beta: real, gamma: real, orient: real): Angle
    requires AsinInRange(m.asin)
  {
    Quat2Angle(m.orient(alpha, beta, gamma, orient), m)
  }

  /**
   * One `calcQuaternion`: the new state and the orbit requests it makes.
   * The delta against the last sample is forwarded only when there is one,
   * and the current roll/yaw always become the new last sample.
   */
  function CalcStep(s: GyroState, m: DeviceMath, alpha: real, beta: real, gamma: real, orient: real): (r: (GyroState, seq<OrbitCall>))
    requires AsinInRange(m.asin)
    ensures var cur := Reading(m, alpha, beta, gamma, orient);
      r.0 == s.(last := Some(LastSample(cur.roll, cur.yaw)))
    ensures HasLast(s) ==> var cur := Reading(m, alpha, beta, gamma, orient);
      r.1 == [RotateLeft(s.last.value.gamma - cur.yaw), RotateUp(s.last.value.beta - cur.roll), OrbitCall.Update]
    ensures !HasLast(s) ==> r.1 == []
  {
    var cur := Reading(m, alpha, beta, gamma, orient);
    var calls :=
      if HasLast(s) then
        [RotateLeft(s.last.value.gamma - cur.yaw), RotateUp(s.last.value.beta - cur.roll), OrbitCall.Update]
      else [];
    (s.(last := Some(LastSample(cur.roll, cur.yaw))), calls)
  }

  /** The screen rotation in radians (`screenOrien ? degToRad(screenOrien) : 0`). */
  function ScreenRadians(screen: real): (r: real)
    ensures r != 0.0 <==> screen != 0.0
    ensures screen != 0.0 ==> r == DegToRad(screen)
  {
    if screen != 0.0 then DegToRad(screen) else 0.0
  }

  /** True when no component of the sample is truthy: no reading has arrived yet. */
  predicate EmptySample(d: Sample) {
    !Truthy(d.alpha) && !Truthy(d.beta) && !Truthy(d.gamma)
  }

  /**
   * One `update`: a disabled control, or one without a reading, hands the
   * frame back to the orbit control; otherwise the reading goes through
   * `calcQuaternion`. Only the last sample can change.
   */
  function UpdateStep(s: GyroState, m: DeviceMath): (r: (GyroState, seq<OrbitCall>))
    requires AsinInRange(m.asin)
    ensures r.0 == s.(last := r.0.last)
    ensures !s.enabled ==> r == (s, [OrbitCall.Update])
    ensures s.enabled && EmptySample(s.deviceOrien) ==> r == (s, [OrbitCall.Update])
    ensures s.enabled && !EmptySample(s.deviceOrien) ==>
      r == CalcStep(s, m, Radians(s.deviceOrien.alpha), Radians(s.deviceOrien.beta),
                    Radians(s.deviceOrien.gamma), ScreenRadians(s.screenOrien))
  {
    if !s.enabled then (s, [OrbitCall.Update])
    else
      var alpha := Radians(s.deviceOrien.alpha);
      var beta := Radians(s.deviceOrien.beta);
      var gamma := Radians(s.deviceOrien.gamma);
      var orient := ScreenRadians(s.screenOrien);
      if alpha == 0.0 && beta == 0.0 && gamma == 0.0 then (s, [OrbitCall.Update])
      else CalcStep(s, m, alpha, beta, gamma, orient)
  }

  /** The state `reset` leaves: no last sample, enabled. */
  function ResetState(s: GyroState): GyroState {
    s.(last := None, enabled := true)
  }

  /** The state `disconnect` leaves. */
  function DisconnectState(s: GyroState): GyroState {
    s.(enabled := false, deviceOrien := NoSample, screenOrien := 0.0)
  }

  /** `Number(window.orientation) || 0`: a missing or non-numeric orientation reads as 0. */
  function ScreenAngle(windowOrientation: Option<real>): (a: real)
    ensures windowOrientation.None? ==> a == 0.0
    ensures windowOrientation.Some? ==> a == windowOrientation.value
  {
    windowOrientation.GetOr(0.0)
  }

  /** A disabled control changes nothing of its own and only updates the orbit control. */
  lemma DisabledUpdateDelegates(s: GyroState, m: DeviceMath)
    requires AsinInRange(m.asin) && !s.enabled
    ensures UpdateStep(s, m) == (s, [OrbitCall.Update])
  {
  }

  /** After `reset`, the next reading forwards no delta, whatever the reading. */
  lemma ResetForwardsNoDelta(s: GyroState, m: DeviceMath, alpha: real, beta: real, gamma: real, orient: real)
    requires AsinInRange(m.asin)
    ensures CalcStep(ResetState(s), m, alpha, beta, gamma, orient).1 == []
    ensures ResetState(s).enabled
  {
  }

  /** A reading: the four inputs of `calcQuaternion`. */
  datatype Input = Input(alpha: real, beta: real, gamma: real, orient: real)

  function ReadingOf(m: DeviceMath, i: Input): Angle
    requires AsinInRange(m.asin)
  {
    Reading(m, i.alpha, i.beta, i.gamma, i.orient)
  }

  /** `calcQuaternion` applied to a run of readings, with all the orbit requests made. */
  function CalcRun(s: GyroState, m: DeviceMath, inputs: seq<Input>): (r: (GyroState, seq<OrbitCall>))
    requires AsinInRange(m.asin)
    decreases |inputs|
  {
    if inputs == [] then (s, [])
    else
      var step := CalcStep(s, m, inputs[0].alpha, inputs[0].beta, inputs[0].gamma, inputs[0].orient);
      var rest := CalcRun(step.0, m, inputs[1..]);
      (rest.0, step.1 + rest.1)
  }

  /** The sum of the `rotateLeft` angles among some orbit requests. */
  function LeftTotal(calls: seq<OrbitCall>): real {
    if calls == [] then 0.0
    else (if calls[0].RotateLeft? then calls[0].angle else 0.0) + LeftTotal(calls[1..])
  }

  /** The sum of the `rotateUp` angles among some orbit requests. */
  function UpTotal(calls: seq<OrbitCall>): real {
    if calls == [] then 0.0
    else (if calls[0].RotateUp? then calls[0].angle else 0.0) + UpTotal(calls[1..])
  }

  lemma {:induction false} TotalsAppend(a: seq<OrbitCall>, b: seq<OrbitCall>)
    ensures LeftTotal(a + b) == LeftTotal(a) + LeftTotal(b)
    ensures UpTotal(a + b) == UpTotal(a) + UpTotal(b)
  {
    if a == [] {
      assert a + b == b;
    } else {
      assert (a + b)[0] == a[0];
      assert (a + b)[1..] == a[1..] + b;
      TotalsAppend(a[1..], b);
    }
  }

  /** The totals of one forwarded delta. */
  lemma ForwardedTotals(left: real, up: real)
    ensures LeftTotal([RotateLeft(left), RotateUp(up), OrbitCall.Update]) == left
    ensures UpTotal([RotateLeft(left), RotateUp(up), OrbitCall.Update]) == up
  {
    var c := [RotateLeft(left), RotateUp(up), OrbitCall.Update];
    assert c[1..] == [RotateUp(up), OrbitCall.Update];
    assert c[1..][1..] == [OrbitCall.Update];
    assert c[1..][1..][1..] == [];
    assert LeftTotal(c[1..][1..]) == 0.0 && UpTotal(c[1..][1..]) == 0.0;
    assert LeftTotal(c[1..]) == 0.0 && UpTotal(c[1..]) == up;
  }

  /**
   * Delta forwarding loses nothing: as long as every reading has a non-zero
   * roll, the orbit control is turned left by exactly the total change of
   * yaw and up by the total change of roll since the last recorded sample,
   * and the last reading becomes the recorded sample.
   */
  lemma {:induction false} DeltasTelescope(s: GyroState, m: DeviceMath, inputs: seq<Input>)
    requires AsinInRange(m.asin)
    requires HasLast(s) && inputs != []
    requires forall i :: 0 <= i < |inputs| ==> ReadingOf(m, inputs[i]).roll != 0.0
    ensures var r := CalcRun(s, m, inputs);
      var final := ReadingOf(m, inputs[|inputs| - 1]);
      && r.0.last == Some(LastSample(final.roll, final.yaw))
      && LeftTotal(r.1) == s.last.value.gamma - final.yaw
      && UpTotal(r.1) == s.last.value.beta - final.roll
    decreases |inputs|
  {
    var cur := ReadingOf(m, inputs[0]);
    var step := CalcStep(s, m, inputs[0].alpha, inputs[0].beta, inputs[0].gamma, inputs[0].orient);
    var rest := CalcRun(step.0, m, inputs[1..]);
    assert step.1 == [RotateLeft(s.last.value.gamma - cur.yaw), RotateUp(s.last.value.beta - cur.roll), OrbitCall.Update];
    ForwardedTotals(s.last.value.gamma - cur.yaw, s.last.value.beta - cur.roll);
    TotalsAppend(step.1, rest.1);
    if |inputs| > 1 {
      forall i | 0 <= i < |inputs[1..]|
        ensures ReadingOf(m, inputs[1..][i]).roll != 0.0
      {
        assert inputs[1..][i] == inputs[i + 1];
      }
      DeltasTelescope(step.0, m, inputs[1..]);
    }
  }

  /**
   * The gyroscope control. It shares the viewer's orbit control and drives
   * it; `camera` and the window listeners are not part of this model.
   */
  class GyroControl {
    const orbit: OrbitControl
    const math: DeviceMath
    var enabled: bool
    var deviceOrien: Sample
    var screenOrien: real
    var alphaOffset: real
    var last: Option<LastSample>

    ghost predicate Valid() {
      AsinInRange(math.asin)
    }

    function State(): GyroState
      reads this
    {
      GyroState(enabled, deviceOrien, screenOrien, alphaOffset, last)
    }

    constructor (orbit: OrbitControl, math: DeviceMath)
      requires AsinInRange(math.asin)
      ensures Valid() && this.orbit == orbit && this.math == math
      ensures State() == Initial
    {
      this.orbit := orbit;
      this.math := math;
      enabled := false;
      deviceOrien := NoSample;
      screenOrien := 0.0;
      alphaOffset := 0.0;
      last := None;
    }

    /** The `deviceorientation` listener: keeps the latest sample. */
    method OnDeviceOrientation(event: Sample)
      modifies this
      ensures State() == old(State()).(deviceOrien := event)
    {
      deviceOrien := event;
    }

    /** The `orientationchange` listener. */
    method OnScreenOrientation(windowOrientation: Option<real>)
      modifies this
      ensures State() == old(State()).(screenOrien := ScreenAngle(windowOrientation))
    {
      screenOrien := ScreenAngle(windowOrientation);
    }

    /** Listens to the device (not modelled), reads the screen angle once and enables the control. */
    method Connect(windowOrientation: Option<real>)
      modifies this
      ensures State() == old(State()).(screenOrien := ScreenAngle(windowOrientation), enabled := true)
    {
      OnScreenOrientation(windowOrientation);
      enabled := true;
    }

    /** Stops listening, disables the control and forgets the device and screen angles. */
    method Disconnect()
      modifies this
      ensures State() == DisconnectState(old(State()))
      ensures !enabled && deviceOrien == NoSample && screenOrien == 0.0
    {
      enabled := false;
      deviceOrien := NoSample;
      screenOrien := 0.0;
    }

    method CalcQuaternion(alpha: real, beta: real, gamma: real, orient: real)
      requires Valid()
      modifies this, orbit
      ensures State() == CalcStep(old(State()), math, alpha, beta, gamma, orient).0
      ensures orbit.calls == old(orbit.calls) + CalcStep(old(State()), math, alpha, beta, gamma, orient).1
      ensures orbit.enabled == old(orbit.enabled)
    {
      var currentAngle := Quat2Angle(math.orient(alpha, beta, gamma, orient), math);
      if last.Some? && last.value.beta != 0.0 {
        orbit.RotateLeft(last.value.gamma - currentAngle.yaw);
        orbit.RotateUp(last.value.beta - currentAngle.roll);
        orbit.Update();
      }
      last := Some(LastSample(currentAngle.roll, currentAngle.yaw));
    }

    method Update()
      requires Valid()
      modifies this, orbit
      ensures State() == UpdateStep(old(State()), math).0
      ensures orbit.calls == old(orbit.calls) + UpdateStep(old(State()), math).1
      ensures orbit.enabled == old(orbit.enabled)
    {
      if !enabled {
        orbit.Update();
        return;
      }
      var alpha := Radians(deviceOrien.alpha);
      var beta := Radians(deviceOrien.beta);
      var gamma := Radians(deviceOrien.gamma);
      var orient := ScreenRadians(screenOrien);
      if alpha == 0.0 && beta == 0.0 && gamma == 0.0 {
        orbit.Update();
        return;
      }
      CalcQuaternion(alpha, beta, gamma, orient);
    }

    /** Stores the initial z-axis offset, then runs one update. */
    method UpdateAlphaOffset(angle: real)
      requires Valid()
      modifies this, orbit
      ensures State() == UpdateStep(old(State()).(alphaOffset := angle), math).0
      ensures alphaOffset == angle
      ensures orbit.calls == old(orbit.calls) + UpdateStep(old(State()).(alphaOffset := angle), math).1
      ensures orbit.enabled == old(orbit.enabled)
    {
      alphaOffset := angle;
      Update();
    }

    /** Resets the orbit control, forgets the last sample and enables the control. */
    method Reset()
      modifies this, orbit
      ensures State() == ResetState(old(State()))
      ensures orbit.calls == old(orbit.calls) + [OrbitCall.Reset]
      ensures orbit.enabled == old(orbit.enabled)
    {
      orbit.Reset();
      last := None;
      enabled := true;
    }
  }
}
