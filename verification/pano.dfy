/**
 * The scene lifecycle of the panorama viewer: scene data, the frozen flag,
 * the active camera control, the environment texture, the lifecycle events
 * it publishes and the history entries it writes.
 *
 * Every asynchronous step (a texture load, a transition effect, a timer, a
 * fetch) is an entry of `jobs`; the method named after its completion takes
 * the outcome as input (`None` for a rejected load).
 */
module Pano {
  import opened Wrappers
  import opened Topics
  import opened Orbit
  import opened Gyro

  /** A scene descriptor as the converter builds it; scenes are compared by id. */
  datatype SceneData = SceneData(
    id: string,
    pimg: string,
    simg: string,
    suffix: string,
    fov: Option<real>,
    lng: Option<real>,
    lat: Option<real>)

  /** `data.equal(other)`. */
  predicate SameScene(a: SceneData, b: SceneData) {
    a.id == b.id
  }

  /** The viewer options that the lifecycle consults. */
  datatype Options = Options(
    gyro: bool,
    fov: real,
    history: bool,
    preTrans: bool,
    sceneTrans: bool,
    fovTrans: bool)

  /** An opaque texture handle of the rendering backend. */
  datatype Texture = Texture(handle: nat)

  /** One publication on the event bus: its topic, synchronous or deferred, and the scene of its payload. */
  datatype Message = Message(topic: Topic, sync: bool, scene: SceneData)

  /** One write to the navigation history. */
  datatype HistoryOp = Initialized(scene: SceneData) | Pushed(scene: SceneData) | Replaced(scene: SceneData) | Exhausted

  /** The named transition effect a crossfade plays. */
  datatype Effect = Trans | Fade

  /** The high-resolution load that `replaceAnim` may start beside its transition. */
  datatype FinalLoad =
    | NoFinal
    | Loading(next: SceneData)
    | Settled(texture: Option<Texture>)

  /** A pending asynchronous step. */
  datatype Job =
    | NextPreview(data: SceneData)   // enterNext with preTrans: preview load
    | NextSource(data: SceneData)    // enterNext without preTrans: high-resolution load
    | Sharpen(data: SceneData)       // preTrans without sceneTrans: high-resolution load after the preview
    | Anim(texture: Texture, effect: Effect, scene: SceneData, transitionDone: bool, final: FinalLoad)
    | AttachTimer(scene: SceneData)  // the 100 ms timer of replaceTexture
    | FetchGroup(sceneId: string, key: string)  // onPopState's request for the scene group

  /** Where `run()` is in its promise chain. */
  datatype RunStage =
    | Idle
    | AwaitPreview(scene: SceneData)
    | AwaitSource(scene: SceneData)
    | Halted                    // the preview load failed
    | Animating(loaded: bool)   // the render loop runs; loaded when the high-resolution texture arrived

  /** The lifecycle topics `run()` has published at each stage, in order. */
  function StageTopics(st: RunStage): seq<Topic> {
    match st
    case Idle => []
    case AwaitPreview(_) => [SceneCreate]
    case Halted => [SceneCreate]
    case AwaitSource(_) => [SceneCreate, SceneInit]
    case Animating(loaded) =>
      if loaded then [SceneCreate, SceneInit, SceneLoad] else [SceneCreate, SceneInit]
  }

  predicate IsLifecycle(t: Topic) {
    t == SceneCreate || t == SceneInit || t == SceneLoad
  }

  /** The CREATE/INIT/LOAD publications among some messages, in order. */
  function Lifecycle(ms: seq<Message>): seq<Topic> {
    if ms == [] then []
    else (if IsLifecycle(ms[0].topic) then [ms[0].topic] else []) + Lifecycle(ms[1..])
  }

  lemma {:induction false} LifecycleAppend(a: seq<Message>, b: seq<Message>)
    ensures Lifecycle(a + b) == Lifecycle(a) + Lifecycle(b)
  {
    if a == [] {
      assert a + b == b;
    } else {
      var c := a + b;
      assert c[0] == a[0];
      assert c[1..] == a[1..] + b;
      LifecycleAppend(a[1..], b);
      var head := if IsLifecycle(a[0].topic) then [a[0].topic] else [];
      assert Lifecycle(c) == head + Lifecycle(a[1..] + b);
      assert Lifecycle(a) == head + Lifecycle(a[1..]);
    }
  }

  /** `data.fov || opts.fov`: a missing or zero scene fov falls back to the option. */
  function TargetFov(data: SceneData, opts: Options): (fov: real)
    ensures data.fov.Some? && data.fov.value != 0.0 ==> fov == data.fov.value
    ensures data.fov.None? || data.fov.value == 0.0 ==> fov == opts.fov
  {
    if data.fov.Some? && data.fov.value != 0.0 then data.fov.value else opts.fov
  }

  /** The orbit requests of `setLook(lng, lat)`: theta = (180 - lng) deg, phi = (90 - lat) deg. */
  function LookCalls(lng: real, lat: real): seq<OrbitCall> {
    [OrbitCall.Reset, RotateLeft((180.0 - lng) * (PI / 180.0)), RotateUp((90.0 - lat) * (PI / 180.0))]
  }

  /** `setLook` moves the camera only when both angles are defined. */
  function SetLookCalls(lng: Option<real>, lat: Option<real>): (calls: seq<OrbitCall>)
    ensures calls != [] <==> lng.Some? && lat.Some?
  {
    if lng.Some? && lat.Some? then LookCalls(lng.value, lat.value) else []
  }

  /** The orbit requests of `resetEnv(data)`: the look is set only without a gyroscope and with `data.lng` defined. */
  function EnvLookCalls(hasGyro: bool, data: SceneData): seq<OrbitCall> {
    if !hasGyro && data.lng.Some? then SetLookCalls(data.lng, data.lat) else []
  }

  /** The payload of a `popstate` notification. */
  datatype PopData = PopData(sceneid: Option<string>, xrkey: string)

  datatype PopAction = Ignore | Exhaust | Fetch(sceneId: string, key: string)

  /**
   * What `onPopState` does: nothing with history off; navigate only to a
   * present, non-empty scene id other than the current one; otherwise
   * exhaust the state.
   */
  function PopDecision(historyOn: bool, payload: Option<PopData>, currentId: string): (a: PopAction)
    ensures !historyOn <==> a == Ignore
    ensures a.Fetch? <==>
      historyOn && payload.Some? && payload.value.sceneid.Some?
      && payload.value.sceneid.value != "" && payload.value.sceneid.value != currentId
    ensures a.Fetch? ==> a.sceneId == payload.value.sceneid.value && a.key == payload.value.xrkey
  {
    if !historyOn then Ignore
    else if payload.None? || payload.value.sceneid.None? || payload.value.sceneid.value == ""
         || payload.value.sceneid.value == currentId then Exhaust
    else Fetch(payload.value.sceneid.value, payload.value.xrkey)
  }

  /** All plain fields of a viewer, as one value. */
  datatype PanoState = PanoState(
    sceneData: SceneData,
    frozen: bool,
    gyro: GyroControl?,
    orbit: OrbitControl?,
    cameraFov: real,
    fovTarget: Option<real>,
    skyMap: Option<Texture>,
    runStage: RunStage,
    published: seq<Message>,
    history: seq<HistoryOp>,
    jobs: map<nat, Job>,
    nextJob: nat,
    errors: nat)

  /** The state `resetEnv(data)` leaves: the scene replaced, and the fov set or tweened when it differs. */
  function WithEnv(st: PanoState, opts: Options, data: SceneData): PanoState {
    var fov := TargetFov(data, opts);
    st.(sceneData := data,
        cameraFov := if fov != st.cameraFov && !opts.fovTrans then fov else st.cameraFov,
        fovTarget := if fov != st.cameraFov && opts.fovTrans then Some(fov) else st.fovTarget)
  }

  /**
   * The state after a successful preview load of `enterNext`: the
   * environment is reset for the scene, ATTACHSTART is published, and either
   * the trans effect starts carrying the scene's high-resolution load
   * (`sceneTrans`) or the texture is swapped in, with the attach timer and
   * the high-resolution load pending.
   */
  function PreviewShown(st: PanoState, opts: Options, data: SceneData, texture: Texture): PanoState {
    var n := st.nextJob;
    var env := WithEnv(st, opts, data).(published := st.published + [Message(SceneAttachStart, false, data)]);
    if opts.sceneTrans then
      env.(jobs := st.jobs[n := Anim(texture, Trans, data, false, Loading(data))], nextJob := n + 1)
    else
      env.(skyMap := Some(texture), jobs := st.jobs[n := AttachTimer(data)][n + 1 := Sharpen(data)], nextJob := n + 2)
  }

  /**
   * The state after a successful high-resolution load of `enterNext`
   * without `preTrans`: the environment is reset for the scene, ATTACHSTART
   * is published, and either the fade effect starts (`sceneTrans`) or the
   * texture is swapped in with the attach timer pending.
   */
  function SourceShown(st: PanoState, opts: Options, data: SceneData, texture: Texture): PanoState {
    var n := st.nextJob;
    var env := WithEnv(st, opts, data).(published := st.published + [Message(SceneAttachStart, false, data)]);
    if opts.sceneTrans then
      env.(jobs := st.jobs[n := Anim(texture, Fade, data, false, NoFinal)], nextJob := n + 1)
    else
      env.(skyMap := Some(texture), jobs := st.jobs[n := AttachTimer(data)], nextJob := n + 1)
  }

  /**
   * `resetEnv` always makes the data current and touches nothing but the
   * scene and the fov; the fov changes only when the target differs, either
   * at once or (with `fovTrans`) as a tween target.
   */
  lemma WithEnvChanges(st: PanoState, opts: Options, data: SceneData)
    ensures var r := WithEnv(st, opts, data);
      && r.sceneData == data
      && r.(sceneData := st.sceneData, cameraFov := st.cameraFov, fovTarget := st.fovTarget) == st
      && (TargetFov(data, opts) == st.cameraFov ==> r.cameraFov == st.cameraFov && r.fovTarget == st.fovTarget)
      && (TargetFov(data, opts) != st.cameraFov && !opts.fovTrans ==>
            r.cameraFov == TargetFov(data, opts) && r.fovTarget == st.fovTarget)
      && (TargetFov(data, opts) != st.cameraFov && opts.fovTrans ==>
            r.cameraFov == st.cameraFov && r.fovTarget == Some(TargetFov(data, opts)))
  {
  }

  /** The state once the pending fov tween has run to its end: the camera is at the target and no tween is pending. */
  function TweenSettled(st: PanoState): (r: PanoState)
    ensures st.fovTarget.Some? ==> r.cameraFov == st.fovTarget.value && r.fovTarget.None?
    ensures st.fovTarget.None? ==> r == st
    ensures r.(cameraFov := st.cameraFov, fovTarget := st.fovTarget) == st
  {
    if st.fovTarget.Some? then st.(cameraFov := st.fovTarget.value, fovTarget := None) else st
  }

  /**
   * With `fovTrans`, once the tween to a new scene's fov has ended, the next
   * `resetEnv` compares against the fov the camera reached: it starts a tween
   * exactly when the following scene's fov differs from it (a scene without
   * a fov after one with a fov tweens back to the option's fov).
   */
  lemma ResetEnvAfterTween(st: PanoState, opts: Options, first: SceneData, next: SceneData)
    requires opts.fovTrans && TargetFov(first, opts) != st.cameraFov
    ensures var settled := TweenSettled(WithEnv(st, opts, first));
      && settled.cameraFov == TargetFov(first, opts)
      && (WithEnv(settled, opts, next).fovTarget == Some(TargetFov(next, opts))
          <==> TargetFov(next, opts) != TargetFov(first, opts))
      && (TargetFov(next, opts) == TargetFov(first, opts) ==> WithEnv(settled, opts, next).fovTarget.None?)
  {
  }

  class Pano {
    const opts: Options
    var sceneData: SceneData
    /** True during the entrance animation: the render loop then leaves the controls alone. */
    var frozen: bool
    var gyro: GyroControl?
    var orbit: OrbitControl?
    /** The camera's fov. */
    var cameraFov: real
    /** The target of the last fov tween started (with `fovTrans`). */
    var fovTarget: Option<real>
    /** The environment mesh's texture; None until the preview has loaded. */
    var skyMap: Option<Texture>
    var runStage: RunStage
    var published: seq<Message>
    var history: seq<HistoryOp>
    var jobs: map<nat, Job>
    var nextJob: nat
    /** The number of errors written to the log. */
    var errors: nat

    function Core(): PanoState
      reads this
    {
      PanoState(sceneData, frozen, gyro, orbit, cameraFov, fovTarget, skyMap, runStage,
                published, history, jobs, nextJob, errors)
    }

    ghost predicate Valid()
      reads this
    {
      && orbit != null
      && (gyro != null ==> gyro.orbit == orbit && gyro.Valid())
      && (forall k :: k in jobs ==> k < nextJob)
      && Lifecycle(published) == StageTopics(runStage)
      && (runStage.AwaitSource? || runStage.Animating? ==> skyMap.Some?)
    }

    /**
     * Builds the viewer for its first scene: the camera takes the scene's
     * fov, the orbit control is turned to the scene's look when both angles
     * are truthy, and a gyroscope control is added when the option asks for one.
     */
    constructor (opts: Options, data: SceneData, math: DeviceMath, orbitEnabled: bool)
      requires AsinInRange(math.asin)
      ensures Valid()
      ensures this.opts == opts && sceneData == data && frozen
      ensures fresh(orbit) && orbit.enabled == orbitEnabled
      ensures orbit.calls ==
        if Truthy(data.lng) && Truthy(data.lat) then LookCalls(data.lng.value, data.lat.value) + [OrbitCall.Update] else []
      ensures opts.gyro <==> gyro != null
      ensures gyro != null ==> fresh(gyro) && gyro.State() == Initial
      ensures cameraFov == TargetFov(data, opts) && fovTarget == None && skyMap == None
      ensures runStage == Idle && published == [] && jobs == map[] && nextJob == 0 && errors == 0
      ensures history == if opts.history then [Initialized(data)] else []
    {
      this.opts := opts;
      sceneData := data;
      frozen := true;
      cameraFov := TargetFov(data, opts);
      fovTarget := None;
      skyMap := None;
      runStage := Idle;
      published := [];
      history := if opts.history then [Initialized(data)] else [];
      jobs := map[];
      nextJob := 0;
      errors := 0;
      var o := new OrbitControl(orbitEnabled);
      orbit := o;
      if opts.gyro {
        gyro := new GyroControl(o, math);
      } else {
        gyro := null;
      }
      new;
      if Truthy(data.lng) && Truthy(data.lat) {
        SetLook(data.lng, data.lat);
        o.Update();
      }
    }

    /** Turns the orbit control to a longitude/latitude, when both are defined. */
    method SetLook(lng: Option<real>, lat: Option<real>)
      requires orbit != null
      modifies orbit
      ensures orbit.calls == old(orbit.calls) + SetLookCalls(lng, lat)
      ensures orbit.enabled == old(orbit.enabled)
    {
      if lng.Some? && lat.Some? {
        orbit.Reset();
        orbit.RotateLeft((180.0 - lng.value) * (PI / 180.0));
        orbit.RotateUp((90.0 - lat.value) * (PI / 180.0));
      }
    }

    /** Sets the camera fov now, or starts a tween to it with `fovTrans`. */
    method SetFov(fov: real)
      requires Valid()
      modifies this
      ensures Valid()
      ensures Core() == old(Core()).(
        cameraFov := if opts.fovTrans then old(cameraFov) else fov,
        fovTarget := if opts.fovTrans then Some(fov) else old(fovTarget))
    {
      if opts.fovTrans {
        fovTarget := Some(fov);
      } else {
        cameraFov := fov;
      }
    }

    /** The fov tween has run to its end: the camera reaches the target fov. */
    method FovTweenEnded()
      requires Valid() && fovTarget.Some?
      modifies this
      ensures Valid()
      ensures Core() == TweenSettled(old(Core()))
    {
      cameraFov := fovTarget.value;
      fovTarget := None;
    }

    /**
     * Makes `data` the current scene, turns to its look when no gyroscope
     * drives the camera, and changes the fov only when it differs.
     */
    method ResetEnv(data: SceneData)
      requires Valid()
      modifies this, orbit
      ensures Valid()
      ensures Core() == WithEnv(old(Core()), opts, data)
      ensures orbit.calls == old(orbit.calls) + EnvLookCalls(gyro != null, data)
      ensures orbit.enabled == old(orbit.enabled)
    {
      var fov := TargetFov(data, opts);
      sceneData := data;
      if gyro == null && data.lng.Some? {
        SetLook(data.lng, data.lat);
      }
      if fov != cameraFov {
        SetFov(fov);
      }
    }

    /** Publishes a topic that is not one of `run()`'s lifecycle topics. */
    method Publish(t: Topic, sync: bool, scene: SceneData)
      requires Valid() && !IsLifecycle(t)
      modifies this
      ensures Valid()
      ensures Core() == old(Core()).(published := old(published) + [Message(t, sync, scene)])
    {
      LifecycleAppend(published, [Message(t, sync, scene)]);
      published := published + [Message(t, sync, scene)];
    }

    /** Registers a new pending step. */
    method Schedule(j: Job)
      requires Valid()
      modifies this
      ensures Valid()
      ensures Core() == old(Core()).(jobs := old(jobs)[old(nextJob) := j], nextJob := old(nextJob) + 1)
    {
      jobs := jobs[nextJob := j];
      nextJob := nextJob + 1;
    }

    /** Drops a pending step once it has completed. */
    method Retire(k: nat)
      requires Valid()
      modifies this
      ensures Valid()
      ensures Core() == old(Core()).(jobs := old(jobs) - {k})
    {
      jobs := jobs - {k};
    }

    // ---------------------------------------------------------------- run()

    /** Publishes CREATE synchronously and starts the preview load. */
    method Run()
      requires Valid() && runStage == Idle
      modifies this
      ensures Valid()
      ensures Core() == old(Core()).(
        published := old(published) + [Message(SceneCreate, true, sceneData)],
        runStage := AwaitPreview(sceneData))
    {
      LifecycleAppend(published, [Message(SceneCreate, true, sceneData)]);
      published := published + [Message(SceneCreate, true, sceneData)];
      runStage := AwaitPreview(sceneData);
    }

    /**
     * The preview load of `run()` settles. On success the environment mesh
     * gets the preview, INIT is published and the high-resolution load
     * starts; on failure the error is logged and nothing else happens.
     */
    method RunPreviewLoaded(outcome: Option<Texture>)
      requires Valid() && runStage.AwaitPreview?
      modifies this
      ensures Valid()
      ensures outcome.Some? ==> Core() == old(Core()).(
        skyMap := outcome,
        published := old(published) + [Message(SceneInit, true, old(runStage).scene)],
        runStage := AwaitSource(old(runStage).scene))
      ensures outcome.None? ==> Core() == old(Core()).(errors := old(errors) + 1, runStage := Halted)
    {
      var scene := runStage.scene;
      if outcome.Some? {
        skyMap := outcome;
        LifecycleAppend(published, [Message(SceneInit, true, scene)]);
        published := published + [Message(SceneInit, true, scene)];
        runStage := AwaitSource(scene);
      } else {
        errors := errors + 1;
        runStage := Halted;
      }
    }

    /**
     * The high-resolution load of `run()` settles. On success the texture
     * is swapped in and LOAD is published; a failure is logged. Either way
     * the render loop starts.
     */
    method RunSourceLoaded(outcome: Option<Texture>)
      requires Valid() && runStage.AwaitSource?
      modifies this
      ensures Valid()
      ensures outcome.Some? ==> Core() == old(Core()).(
        skyMap := outcome,
        published := old(published) + [Message(SceneLoad, true, old(runStage).scene)],
        runStage := Animating(true))
      ensures outcome.None? ==> Core() == old(Core()).(errors := old(errors) + 1, runStage := Animating(false))
    {
      var scene := runStage.scene;
      if outcome.Some? {
        skyMap := outcome;
        LifecycleAppend(published, [Message(SceneLoad, true, scene)]);
        published := published + [Message(SceneLoad, true, scene)];
        runStage := Animating(true);
      } else {
        errors := errors + 1;
        runStage := Animating(false);
      }
    }

    // ------------------------------------------------------------- controls

    /** The render tick's control update: the gyroscope if there is one, else the orbit control; nothing while frozen. */
    method UpdateControl()
      requires Valid()
      modifies gyro, orbit
      ensures orbit.enabled == old(orbit.enabled)
      ensures frozen ==> orbit.calls == old(orbit.calls) && (gyro != null ==> gyro.State() == old(gyro.State()))
      ensures !frozen && gyro == null ==> orbit.calls == old(orbit.calls) + [OrbitCall.Update]
      ensures !frozen && gyro != null ==>
        gyro.State() == UpdateStep(old(gyro.State()), gyro.math).0
        && orbit.calls == old(orbit.calls) + UpdateStep(old(gyro.State()), gyro.math).1
    {
      if !frozen {
        if gyro != null {
          gyro.Update();
        } else {
          orbit.Update();
        }
      }
    }

    /** One frame of the render loop: update the control, render, publish PROCESS synchronously. */
    method Animate()
      requires Valid() && runStage.Animating?
      modifies this, gyro, orbit
      ensures Valid()
      ensures Core() == old(Core()).(published := old(published) + [Message(RenderProcess, true, sceneData)])
      ensures orbit.enabled == old(orbit.enabled)
      ensures frozen ==> orbit.calls == old(orbit.calls) && (gyro != null ==> gyro.State() == old(gyro.State()))
      ensures !frozen && gyro == null ==> orbit.calls == old(orbit.calls) + [OrbitCall.Update]
      ensures !frozen && gyro != null ==>
        gyro.State() == UpdateStep(old(gyro.State()), gyro.math).0
        && orbit.calls == old(orbit.calls) + UpdateStep(old(gyro.State()), gyro.math).1
    {
      UpdateControl();
      Publish(RenderProcess, true, sceneData);
    }

    /** Sets `enabled` on the active control (the gyroscope if there is one). */
    method MakeControl(state: bool)
      requires Valid()
      modifies gyro, orbit
      ensures gyro != null ==> gyro.State() == old(gyro.State()).(enabled := state) && orbit.enabled == old(orbit.enabled)
      ensures gyro == null ==> orbit.enabled == state
      ensures orbit.calls == old(orbit.calls)
    {
      if gyro != null {
        gyro.enabled := state;
      } else {
        orbit.enabled := state;
      }
    }

    /** Resets the active control; either way the orbit control is reset. */
    method ResetControl()
      requires Valid()
      modifies gyro, orbit
      ensures gyro != null ==> gyro.State() == ResetState(old(gyro.State()))
      ensures orbit.calls == old(orbit.calls) + [OrbitCall.Reset]
      ensures orbit.enabled == old(orbit.enabled)
    {
      if gyro != null {
        gyro.Reset();
      } else {
        orbit.Reset();
      }
    }

    /** Connects the gyroscope if it is not yet enabled, and always enables the orbit control. */
    method StartControl(windowOrientation: Option<real>)
      requires Valid()
      modifies gyro, orbit
      ensures gyro != null && !old(gyro.enabled) ==>
        gyro.State() == old(gyro.State()).(screenOrien := ScreenAngle(windowOrientation), enabled := true)
      ensures gyro != null && old(gyro.enabled) ==> gyro.State() == old(gyro.State())
      ensures orbit.enabled && orbit.calls == old(orbit.calls)
    {
      if gyro != null && !gyro.enabled {
        gyro.Connect(windowOrientation);
      }
      orbit.enabled := true;
    }

    /** Disconnects and drops the gyroscope, disposes and drops the orbit control. */
    method StopControl()
      requires Valid()
      modifies this, gyro, orbit
      ensures Core() == old(Core()).(gyro := null, orbit := null)
      ensures old(gyro) != null ==> old(gyro).State() == DisconnectState(old(gyro.State()))
      ensures old(orbit).calls == old(orbit.calls) + [OrbitCall.Dispose]
      ensures old(orbit).enabled == old(orbit.enabled)
    {
      if gyro != null {
        gyro.Disconnect();
        gyro := null;
      }
      orbit.Dispose();
      orbit := null;
    }

    /** The entrance animation has ended: unfreeze, start the controls, then publish READY synchronously. */
    method NoTimeline(windowOrientation: Option<real>)
      requires Valid()
      modifies this, gyro, orbit
      ensures Valid()
      ensures Core() == old(Core()).(frozen := false, published := old(published) + [Message(SceneReady, true, sceneData)])
      ensures gyro != null && !old(gyro.enabled) ==>
        gyro.State() == old(gyro.State()).(screenOrien := ScreenAngle(windowOrientation), enabled := true)
      ensures gyro != null && old(gyro.enabled) ==> gyro.State() == old(gyro.State())
      ensures orbit.enabled && orbit.calls == old(orbit.calls)
    {
      frozen := false;
      StartControl(windowOrientation);
      Publish(SceneReady, true, sceneData);
    }

    // ------------------------------------------------------ texture swaps

    /** ATTACHSTART now, the new map, and ATTACH when the 100 ms timer fires. */
    method ReplaceTexture(texture: Texture)
      requires Valid() && skyMap.Some?
      modifies this
      ensures Valid()
      ensures Core() == old(Core()).(
        skyMap := Some(texture),
        published := old(published) + [Message(SceneAttachStart, false, sceneData)],
        jobs := old(jobs)[old(nextJob) := AttachTimer(sceneData)],
        nextJob := old(nextJob) + 1)
    {
      Publish(SceneAttachStart, false, sceneData);
      skyMap := Some(texture);
      Schedule(AttachTimer(sceneData));
    }

    /** Swaps the map and publishes nothing. */
    method ReplaceSlient(texture: Texture)
      requires Valid() && skyMap.Some?
      modifies this
      ensures Valid()
      ensures Core() == old(Core()).(skyMap := Some(texture))
    {
      skyMap := Some(texture);
    }

    /** The 100 ms timer of `replaceTexture` fires: ATTACH is published with the scene captured then. */
    method AttachFired(k: nat)
      requires Valid() && k in jobs && jobs[k].AttachTimer?
      modifies this
      ensures Valid()
      ensures Core() == old(Core()).(
        published := old(published) + [Message(SceneAttach, false, old(jobs)[k].scene)],
        jobs := old(jobs) - {k})
    {
      var scene := jobs[k].scene;
      Retire(k);
      Publish(SceneAttach, false, scene);
    }

    /**
     * Starts a transition effect to `texture`: ATTACHSTART now; with `data`,
     * also the high-resolution load of that scene.
     */
    method ReplaceAnim(texture: Texture, effect: Effect, data: Option<SceneData>)
      requires Valid()
      modifies this
      ensures Valid()
      ensures Core() == old(Core()).(
        published := old(published) + [Message(SceneAttachStart, false, sceneData)],
        jobs := old(jobs)[old(nextJob) :=
          Anim(texture, effect, sceneData, false, if data.Some? then Loading(data.value) else NoFinal)],
        nextJob := old(nextJob) + 1)
    {
      Publish(SceneAttachStart, false, sceneData);
      Schedule(Anim(texture, effect, sceneData, false, if data.Some? then Loading(data.value) else NoFinal));
    }

    /**
     * The transition effect completes: the mesh takes the new texture,
     * ATTACH is published, and a high-resolution texture the `final` load
     * already delivered is swapped in silently.
     */
    method TransitionEnded(k: nat)
      requires Valid() && skyMap.Some? && k in jobs && jobs[k].Anim? && !jobs[k].transitionDone
      modifies this
      ensures Valid()
      ensures var j := old(jobs)[k];
        Core() == old(Core()).(
          skyMap := if j.final.Settled? && j.final.texture.Some? then j.final.texture else Some(j.texture),
          published := old(published) + [Message(SceneAttach, false, j.scene)],
          jobs := if j.final.Loading? then old(jobs)[k := j.(transitionDone := true)] else old(jobs) - {k})
    {
      var j := jobs[k];
      skyMap := Some(j.texture);
      Publish(SceneAttach, false, j.scene);
      if j.final.Loading? {
        jobs := jobs[k := j.(transitionDone := true)];
      } else {
        Retire(k);
        if j.final.Settled? && j.final.texture.Some? {
          ReplaceSlient(j.final.texture.value);
        }
      }
    }

    /**
     * The `final` load of `replaceAnim` settles. Its texture is kept only if
     * its scene is still the current one at this moment; it is swapped in
     * silently once the transition has also completed.
     */
    method FinalLoaded(k: nat, outcome: Option<Texture>)
      requires Valid() && (outcome.Some? ==> skyMap.Some?) && k in jobs && jobs[k].Anim? && jobs[k].final.Loading?
      modifies this
      ensures Valid()
      ensures var j := old(jobs)[k];
        var kept := if outcome.Some? && SameScene(j.final.next, old(sceneData)) then outcome else None;
        Core() == old(Core()).(
          skyMap := if j.transitionDone && kept.Some? then kept else old(skyMap),
          jobs := if j.transitionDone then old(jobs) - {k} else old(jobs)[k := j.(final := Settled(kept))])
    {
      var j := jobs[k];
      var kept := if outcome.Some? && SameScene(j.final.next, sceneData) then outcome else None;
      if j.transitionDone {
        Retire(k);
        if kept.Some? {
          ReplaceSlient(kept.value);
        }
      } else {
        jobs := jobs[k := j.(final := Settled(kept))];
      }
    }

    // ---------------------------------------------------- scene navigation

    /**
     * Navigates to `data`: replaces the history state and starts the first
     * load (the preview with `preTrans`, else the high-resolution texture).
     * Nothing else changes until that load settles.
     */
    method EnterNext(data: SceneData)
      requires Valid()
      modifies this
      ensures Valid()
      ensures Core() == old(Core()).(
        history := old(history) + (if opts.history then [Replaced(data)] else []),
        jobs := old(jobs)[old(nextJob) := if opts.preTrans then NextPreview(data) else NextSource(data)],
        nextJob := old(nextJob) + 1)
    {
      ReplaceState(data);
      if opts.preTrans {
        Schedule(NextPreview(data));
      } else {
        Schedule(NextSource(data));
      }
    }

    /**
     * The preview load of `enterNext` (with `preTrans`) settles. A failure is
     * only logged. On success the environment is reset for the new scene
     * first; then the transition effect starts (with `sceneTrans`, carrying
     * the high-resolution load) or the texture is replaced and the
     * high-resolution load starts.
     */
    method NextPreviewLoaded(k: nat, outcome: Option<Texture>)
      requires Valid() && (outcome.Some? ==> skyMap.Some?) && k in jobs && jobs[k].NextPreview?
      modifies this, orbit
      ensures Valid()
      ensures outcome.None? ==>
        Core() == old(Core()).(jobs := old(jobs) - {k}, errors := old(errors) + 1)
        && orbit.calls == old(orbit.calls)
      ensures outcome.Some? ==> var data := old(jobs)[k].data;
        && Core() == PreviewShown(old(Core()).(jobs := old(jobs) - {k}), opts, data, outcome.value)
        && orbit.calls == old(orbit.calls) + EnvLookCalls(gyro != null, data)
      ensures orbit.enabled == old(orbit.enabled)
    {
      var data := jobs[k].data;
      Retire(k);
      if outcome.None? {
        errors := errors + 1;
        return;
      }
      ShowPreview(data, outcome.value);
    }

    /** What a successful preview load of `enterNext` does. */
    method ShowPreview(data: SceneData, texture: Texture)
      requires Valid() && skyMap.Some?
      modifies this, orbit
      ensures Valid()
      ensures Core() == PreviewShown(old(Core()), opts, data, texture)
      ensures orbit.calls == old(orbit.calls) + EnvLookCalls(gyro != null, data)
      ensures orbit.enabled == old(orbit.enabled)
    {
      ResetEnv(data);
      if opts.sceneTrans {
        ReplaceAnim(texture, Trans, Some(data));
      } else {
        ReplaceTexture(texture);
        Schedule(Sharpen(data));
      }
    }

    /** The high-resolution load after a preview settles: applied silently only if its scene is still current. */
    method SharpenLoaded(k: nat, outcome: Option<Texture>)
      requires Valid() && (outcome.Some? ==> skyMap.Some?) && k in jobs && jobs[k].Sharpen?
      modifies this
      ensures Valid()
      ensures Core() == old(Core()).(
        skyMap := if outcome.Some? && SameScene(old(jobs)[k].data, old(sceneData)) then outcome else old(skyMap),
        jobs := old(jobs) - {k})
    {
      var data := jobs[k].data;
      Retire(k);
      if outcome.Some? && SameScene(data, sceneData) {
        ReplaceSlient(outcome.value);
      }
    }

    /**
     * The high-resolution load of `enterNext` (without `preTrans`) settles.
     * A failure is only logged; on success the environment is reset and
     * then the texture is faded in (`sceneTrans`) or replaced.
     */
    method NextSourceLoaded(k: nat, outcome: Option<Texture>)
      requires Valid() && (outcome.Some? ==> skyMap.Some?) && k in jobs && jobs[k].NextSource?
      modifies this, orbit
      ensures Valid()
      ensures outcome.None? ==>
        Core() == old(Core()).(jobs := old(jobs) - {k}, errors := old(errors) + 1)
        && orbit.calls == old(orbit.calls)
      ensures outcome.Some? ==> var data := old(jobs)[k].data;
        && Core() == SourceShown(old(Core()).(jobs := old(jobs) - {k}), opts, data, outcome.value)
        && orbit.calls == old(orbit.calls) + EnvLookCalls(gyro != null, data)
      ensures orbit.enabled == old(orbit.enabled)
    {
      var data := jobs[k].data;
      Retire(k);
      if outcome.None? {
        errors := errors + 1;
        return;
      }
      ShowSource(data, outcome.value);
    }

    /** What a successful high-resolution load of `enterNext` (without `preTrans`) does. */
    method ShowSource(data: SceneData, texture: Texture)
      requires Valid() && skyMap.Some?
      modifies this, orbit
      ensures Valid()
      ensures Core() == SourceShown(old(Core()), opts, data, texture)
      ensures orbit.calls == old(orbit.calls) + EnvLookCalls(gyro != null, data)
      ensures orbit.enabled == old(orbit.enabled)
    {
      ResetEnv(data);
      if opts.sceneTrans {
        ReplaceAnim(texture, Fade, None);
      } else {
        ReplaceTexture(texture);
      }
    }

    /** Navigates with a texture already loaded: push history, reset the environment, replace the texture. */
    method EnterThru(data: SceneData, texture: Texture)
      requires Valid() && skyMap.Some?
      modifies this, orbit
      ensures Valid()
      ensures var n := old(nextJob);
        Core() == WithEnv(old(Core()), opts, data).(
          history := old(history) + (if opts.history then [Pushed(data)] else []),
          skyMap := Some(texture),
          published := old(published) + [Message(SceneAttachStart, false, data)],
          jobs := old(jobs)[n := AttachTimer(data)],
          nextJob := n + 1)
      ensures orbit.calls == old(orbit.calls) + EnvLookCalls(gyro != null, data)
      ensures orbit.enabled == old(orbit.enabled)
    {
      PushState(data);
      ResetEnv(data);
      ReplaceTexture(texture);
    }

    // -------------------------------------------------------------- history

    method PushState(data: SceneData)
      requires Valid()
      modifies this
      ensures Valid()
      ensures Core() == old(Core()).(history := old(history) + if opts.history then [Pushed(data)] else [])
    {
      if !opts.history {
        return;
      }
      history := history + [Pushed(data)];
    }

    method ReplaceState(data: SceneData)
      requires Valid()
      modifies this
      ensures Valid()
      ensures Core() == old(Core()).(history := old(history) + if opts.history then [Replaced(data)] else [])
    {
      if !opts.history {
        return;
      }
      history := history + [Replaced(data)];
    }

    /**
     * Back-navigation: exhausts the state when there is nothing to navigate
     * to, otherwise requests the scene group of the popped scene.
     */
    method OnPopState(payload: Option<PopData>)
      requires Valid()
      modifies this
      ensures Valid()
      ensures var a := PopDecision(opts.history, payload, old(sceneData).id);
        Core() == (match a
          case Ignore => old(Core())
          case Exhaust => old(Core()).(history := old(history) + [Exhausted])
          case Fetch(id, key) => old(Core()).(jobs := old(jobs)[old(nextJob) := FetchGroup(id, key)], nextJob := old(nextJob) + 1))
    {
      var a := PopDecision(opts.history, payload, sceneData.id);
      match a {
        case Ignore =>
        case Exhaust =>
          history := history + [Exhausted];
        case Fetch(id, key) =>
          Schedule(FetchGroup(id, key));
      }
    }

    /** The scene group of a back-navigation arrives: enter the scene with the popped id, if the group has it. */
    method GroupFetched(k: nat, scenes: seq<SceneData>)
      requires Valid() && k in jobs && jobs[k].FetchGroup?
      modifies this
      ensures Valid()
      ensures var id := old(jobs)[k].sceneId;
        var found := Find(scenes, (s: SceneData) => s.id == id);
        var n := old(nextJob);
        Core() == (if found.None? then old(Core()).(jobs := old(jobs) - {k})
          else old(Core()).(
            history := old(history) + (if opts.history then [Replaced(found.value)] else []),
            jobs := (old(jobs) - {k})[n := if opts.preTrans then NextPreview(found.value) else NextSource(found.value)],
            nextJob := n + 1))
    {
      var id := jobs[k].sceneId;
      var found := Find(scenes, (s: SceneData) => s.id == id);
      Retire(k);
      if found.Some? {
        EnterNext(found.value);
      }
    }
  }

  /** The lifecycle topics a viewer has published are a prefix of CREATE, INIT, LOAD: each at most once, in that order. */
  lemma LifecycleOrdered(p: Pano)
    requires p.Valid()
    ensures Lifecycle(p.published) <= [SceneCreate, SceneInit, SceneLoad]
    ensures SceneInit in Lifecycle(p.published) ==> p.runStage.AwaitSource? || p.runStage.Animating?
    ensures SceneLoad in Lifecycle(p.published) <==> p.runStage == Animating(true)
  {
  }
}
