/**
 * The rotation indicator plugin: a compass-like element that follows the
 * camera longitude and, when clicked, animates the camera back to the
 * scene's front.
 */
module Indicator {
  import opened Wrappers
  import opened Topics
  import opened Orbit
  import opened Gyro
  import Pano

  /**
   * The indicator's own topics. They are published through the plugin base
   * class's topic table, which is not part of this model (topic.ts does not
   * define them).
   */
  datatype IndicatorTopic = IndicatorStart | IndicatorEnd

  /**
   * The CSS rotation for a longitude: `180 - t` for positive `t`, else
   * `-(180 + t)`. It maps (0, 180] onto [0, 180) and [-180, 0] onto [-180, 0].
   */
  function CalcTheta(t: real): (angle: real)
    ensures 0.0 < t <= 180.0 ==> 0.0 <= angle < 180.0
    ensures -180.0 <= t <= 0.0 ==> -180.0 <= angle <= 0.0
  {
    if t > 0.0 then 180.0 - t else -(180.0 + t)
  }

  /**
   * On the open range (-180, 180) the mapping is its own inverse, so the
   * rotation determines the longitude; 180 and -180 (the same meridian)
   * both map to 0 (`CalcThetaAntimeridian`).
   */
  lemma CalcThetaInvolution(t: real)
    requires -180.0 < t < 180.0
    ensures CalcTheta(CalcTheta(t)) == t
  {
  }

  /** The meridian 180 = -180 shows one rotation modulo a full turn. */
  lemma CalcThetaAntimeridian()
    ensures CalcTheta(180.0) == 0.0 && CalcTheta(-180.0) == 0.0
  {
  }

  /** The topic the constructor subscribes `createDom` to: READY while the viewer is frozen, else LOAD. */
  function CreateDomTopic(frozen: bool): (t: Topic)
    ensures frozen <==> t == SceneReady
    ensures !frozen <==> t == SceneLoad
  {
    if frozen then SceneReady else SceneLoad
  }

  /** The azimuth a reset animates to: a half turn with the sign of the current azimuth. */
  function TargetAzimuth(current: real): (target: real)
    ensures target == PI || target == -PI
    ensures target > 0.0 <==> current > 0.0
  {
    if current > 0.0 then PI else -PI
  }

  class Indicator {
    const pano: Pano.Pano
    /** The topic that triggers `createDom`. */
    const createDomOn: Topic
    /** The longitude last shown; undefined until the element exists. */
    var theta: Option<real>
    /** The rotation applied to the element's style. */
    var rotation: Option<real>
    /** Set while the reset animation runs: `update` then leaves `theta` alone. */
    var lock: bool
    var published: seq<IndicatorTopic>
    /** The azimuth the running reset animation turns to, if one runs. */
    var azimuthTarget: Option<real>

    constructor (pano: Pano.Pano)
      ensures this.pano == pano && createDomOn == CreateDomTopic(pano.frozen)
      ensures theta == None && rotation == None && !lock && published == [] && azimuthTarget == None
    {
      this.pano := pano;
      createDomOn := if pano.frozen then SceneReady else SceneLoad;
      theta := None;
      rotation := None;
      lock := false;
      published := [];
      azimuthTarget := None;
    }

    /** Records the longitude, then styles the element with its rotation. */
    method SetTheta(t: real)
      modifies this
      ensures theta == Some(t) && rotation == Some(CalcTheta(t))
      ensures lock == old(lock) && published == old(published) && azimuthTarget == old(azimuthTarget)
    {
      theta := Some(t);
      rotation := Some(CalcTheta(t));
    }

    /** Creates the element (not modelled) showing the current longitude `lng`. */
    method CreateDom(lng: real)
      modifies this
      ensures theta == Some(lng) && rotation == Some(CalcTheta(lng))
      ensures lock == old(lock) && published == old(published) && azimuthTarget == old(azimuthTarget)
    {
      SetTheta(lng);
    }

    /** The per-frame update: follows the longitude `lng` unless locked or unchanged. */
    method Update(lng: real)
      modifies this
      ensures !old(lock) && old(theta) != Some(lng) ==> theta == Some(lng) && rotation == Some(CalcTheta(lng))
      ensures old(lock) || old(theta) == Some(lng) ==> theta == old(theta) && rotation == old(rotation)
      ensures lock == old(lock) && published == old(published) && azimuthTarget == old(azimuthTarget)
    {
      if !lock && Some(lng) != theta {
        SetTheta(lng);
      }
    }

    /**
     * The click handler, as written: lock, publish INDICATORSTART, then call
     * `makeEnable(false)` on the gyroscope control, which defines no such
     * method. With a gyroscope the call throws (`threw`) before any
     * animation starts, so `end` never runs and the lock is never released.
     */
    method ResetAsWritten(azimuth: real) returns (threw: bool)
      modifies this
      ensures lock && published == old(published) + [IndicatorStart]
      ensures threw <==> pano.gyro != null
      ensures azimuthTarget == if threw then old(azimuthTarget) else Some(TargetAzimuth(azimuth))
      ensures theta == old(theta) && rotation == old(rotation)
    {
      lock := true;
      published := published + [IndicatorStart];
      if pano.gyro != null {
        threw := true;
        return;
      }
      threw := false;
      azimuthTarget := Some(TargetAzimuth(azimuth));
    }

    /**
     * The click handler with the evident intent of its gyroscope call: lock,
     * publish INDICATORSTART, disable the gyroscope (as `makeControl(false)`
     * does) and start the animation towards the half turn with the sign of
     * the current azimuth.
     */
    method Reset(azimuth: real)
      modifies this, pano.gyro
      ensures lock && published == old(published) + [IndicatorStart]
      ensures azimuthTarget == Some(TargetAzimuth(azimuth))
      ensures theta == old(theta) && rotation == old(rotation)
      ensures pano.gyro != null ==> pano.gyro.State() == old(pano.gyro.State()).(enabled := false)
    {
      lock := true;
      published := published + [IndicatorStart];
      if pano.gyro != null {
        pano.gyro.enabled := false;
      }
      azimuthTarget := Some(TargetAzimuth(azimuth));
    }

    /** A frame of the azimuth animation: the indicator shows the animated azimuth, locked or not. */
    method AnimationFrame(azimuth: real)
      requires azimuthTarget.Some?
      modifies this
      ensures theta == Some(azimuth * 180.0 / PI) && rotation == Some(CalcTheta(azimuth * 180.0 / PI))
      ensures lock == old(lock) && published == old(published) && azimuthTarget == old(azimuthTarget)
    {
      SetTheta(azimuth * 180.0 / PI);
    }

    /**
     * The animation completes: the viewer's control is reset (which
     * re-enables a gyroscope), the lock is released, the indicator shows
     * 180 and INDICATOREND is published.
     */
    method End()
      requires pano.Valid() && azimuthTarget.Some?
      modifies this, pano.gyro, pano.orbit
      ensures !lock && theta == Some(180.0) && rotation == Some(CalcTheta(180.0))
      ensures published == old(published) + [IndicatorEnd] && azimuthTarget == None
      ensures pano.gyro != null ==> pano.gyro.State() == ResetState(old(pano.gyro.State())) && pano.gyro.enabled
      ensures pano.orbit.calls == old(pano.orbit.calls) + [OrbitCall.Reset]
      ensures pano.orbit.enabled == old(pano.orbit.enabled)
    {
      pano.ResetControl();
      lock := false;
      SetTheta(180.0);
      published := published + [IndicatorEnd];
      azimuthTarget := None;
    }
  }

  /** A viewer with a gyroscope, for the scenarios below. */
  method GyroViewer() returns (p: Pano.Pano)
    ensures fresh(p) && p.Valid() && p.gyro != null && fresh(p.gyro) && fresh(p.orbit)
  {
    var math := DeviceMath((a: real, b: real, c: real, d: real) => Quat(0.0, 0.0, 0.0, 1.0),
                           (y: real, x: real) => 0.0, (s: real) => 0.0);
    var data := Pano.SceneData("s1", "p1.jpg", "s1.jpg", "", Some(90.0), Some(0.0), Some(0.0));
    p := new Pano.Pano(Pano.Options(true, 100.0, false, false, false, false), data, math, true);
  }

  /**
   * As written, one click on the indicator of a viewer with a gyroscope
   * locks it for good: no animation starts, so nothing releases the lock,
   * and the indicator stops following the camera.
   */
  method ClickWithGyroLocksForever() returns (stuck: bool)
    ensures stuck
  {
    var p := GyroViewer();
    var ind := new Indicator(p);
    ind.CreateDom(10.0);
    var threw := ind.ResetAsWritten(1.0);
    ind.Update(20.0);
    stuck := threw && ind.lock && ind.azimuthTarget.None? && ind.theta == Some(10.0);
  }

  /**
   * With the intended gyroscope call, a click followed by the end of the
   * animation releases the lock, leaves the gyroscope enabled again, and the
   * indicator follows the camera once more.
   */
  method ClickWithGyroThenEndUnlocks() returns (follows: bool)
    ensures follows
  {
    var p := GyroViewer();
    var ind := new Indicator(p);
    ind.CreateDom(10.0);
    ind.Reset(1.0);
    ind.End();
    ind.Update(20.0);
    follows := !ind.lock && p.gyro.enabled && ind.theta == Some(20.0);
  }
}
