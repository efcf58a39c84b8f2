/**
 * The legacy cube-map viewer: scene lookup in its scene group, the render
 * size computed from options, element and window, the control used per
 * frame, and the environment-texture swap with disposal of the old texture.
 */
module Panoram {
  import opened Wrappers
  import opened Orbit
  import opened Gyro

  datatype Scene = Scene(id: string, bxlPath: string)

  /** The source configuration: the scene group and the id of the scene to open with. */
  datatype Source = Source(sceneGroup: seq<Scene>, defaultSceneId: string)

  /** An opaque texture handle of the rendering backend. */
  datatype Texture = Texture(handle: nat)

  /** The texture description the scene-texture request resolves to. */
  datatype CubeUrls = CubeUrls(urls: seq<string>)

  /** How the scene-texture request settles: rejected, or resolved with textures or with nothing. */
  datatype TexLoad = Rejected | Resolved(textures: Option<CubeUrls>)

  /** The argument of `enterNext`: a scene id, or scene data (possibly missing). */
  datatype SceneArg = ById(id: string) | ByData(data: Option<Scene>)

  /** The payload of a dispatched event: the viewer itself, or the current scene. */
  datatype Payload = Viewer | CurrentScene(scene: Option<Scene>)

  datatype Dispatch = Dispatch(event: string, payload: Payload)

  /** A pending asynchronous step of `enterNext`. */
  datatype Job = SceneTex(data: Scene) | CubeLoad(data: Scene, urls: CubeUrls)

  // ------------------------------------------------------------ scene lookup

  /**
   * The scene `initSource` opens with: the first scene whose id is the
   * default id, else the first scene of the group, else none.
   */
  function DefaultScene(source: Source): (r: Option<Scene>)
    ensures var g := source.sceneGroup;
      (exists i :: 0 <= i < |g| && g[i].id == source.defaultSceneId) ==>
        r.Some? && r.value.id == source.defaultSceneId
        && exists i :: 0 <= i < |g| && g[i] == r.value
                       && forall j :: 0 <= j < i ==> g[j].id != source.defaultSceneId
    ensures var g := source.sceneGroup;
      (forall i :: 0 <= i < |g| ==> g[i].id != source.defaultSceneId) ==>
        r == if |g| > 0 then Some(g[0]) else None
  {
    var g := source.sceneGroup;
    match FindFirst(g, (s: Scene) => s.id == source.defaultSceneId)
    case Some(i) => Some(g[i])
    case None => if |g| > 0 then Some(g[0]) else None
  }

  /**
   * The scene `enterNext` navigates to: an id is looked up in the group
   * (the first scene with that id), scene data is taken as given.
   */
  function ResolveScene(arg: SceneArg, group: seq<Scene>): (r: Option<Scene>)
    ensures arg.ByData? ==> r == arg.data
    ensures arg.ById? ==> (r.Some? <==> exists i :: 0 <= i < |group| && group[i].id == arg.id)
    ensures arg.ById? && r.Some? ==>
      && r.value.id == arg.id
      && exists i :: 0 <= i < |group| && group[i] == r.value && forall j :: 0 <= j < i ==> group[j].id != arg.id
  {
    match arg
    case ByData(d) => d
    case ById(id) =>
      match FindFirst(group, (s: Scene) => s.id == id)
      case Some(i) => Some(group[i])
      case None => None
  }

  // ---------------------------------------------------------------- parseInt

  predicate IsDigit(c: char) {
    '0' <= c <= '9'
  }

  predicate AllDigits(s: string) {
    forall i :: 0 <= i < |s| ==> IsDigit(s[i])
  }

  /** The longest prefix of `s` made of decimal digits. */
  function DigitPrefix(s: string): (p: string)
    ensures p <= s && AllDigits(p)
    ensures |p| < |s| ==> !IsDigit(s[|p|])
  {
    if s != [] && IsDigit(s[0]) then [s[0]] + DigitPrefix(s[1..]) else []
  }

  /** The number a string of decimal digits denotes. */
  function Value(ds: string): nat
    requires AllDigits(ds)
  {
    if ds == [] then 0 else Value(ds[..|ds| - 1]) * 10 + (ds[|ds| - 1] as int - '0' as int)
  }

  /** The decimal representation of a natural number. */
  function Decimal(n: nat): (ds: string)
    ensures ds != [] && AllDigits(ds)
  {
    var d := ['0' + (n % 10) as char];
    if n < 10 then d else Decimal(n / 10) + d
  }

  /** The ASCII white space `parseInt` skips: space, tab, line feed, vertical tab, form feed, carriage return. */
  predicate IsSpace(c: char) {
    c == ' ' || c == '\t' || c == '\n' || c == '\U{000B}' || c == '\U{000C}' || c == '\r'
  }

  /** `s` without its leading white space. */
  function SkipSpaces(s: string): (t: string)
    ensures t == [] || !IsSpace(t[0])
  {
    if s != [] && IsSpace(s[0]) then SkipSpaces(s[1..]) else s
  }

  /** `SkipSpaces` removes a prefix of white space and nothing more. */
  lemma {:induction false} SkipSpacesSuffix(s: string)
    ensures var t := SkipSpaces(s);
      && |t| <= |s| && t == s[|s| - |t|..]
      && forall i :: 0 <= i < |s| - |t| ==> IsSpace(s[i])
  {
    if s != [] && IsSpace(s[0]) {
      SkipSpacesSuffix(s[1..]);
      var t := SkipSpaces(s);
      assert t == SkipSpaces(s[1..]);
      assert s[1..][|s[1..]| - |t|..] == s[|s| - |t|..];
      forall i | 0 <= i < |s| - |t|
        ensures IsSpace(s[i])
      {
        if i > 0 {
          assert s[i] == s[1..][i - 1];
        }
      }
    }
  }

  /**
   * `parseInt(s)` in base 10: leading white space, an optional sign and the
   * longest run of digits; no digit at all is NaN (None).
   */
  function ParseInt(s: string): (r: Option<int>)
    ensures var t := SkipSpaces(s);
      r.Some? <==> (|t| > 0 && IsDigit(t[0])) || (|t| > 1 && (t[0] == '-' || t[0] == '+') && IsDigit(t[1]))
    ensures r.Some? && r.value < 0 ==> SkipSpaces(s)[0] == '-'
  {
    ParseTrimmed(SkipSpaces(s))
  }

  /** `parseInt` after the leading white space: an optional sign and the longest run of digits. */
  function ParseTrimmed(t: string): Option<int> {
    var negative := t != [] && t[0] == '-';
    var body := if t != [] && (t[0] == '-' || t[0] == '+') then t[1..] else t;
    var ds := DigitPrefix(body);
    if ds == [] then None
    else var v: int := Value(ds); Some(if negative then -v else v)
  }

  lemma {:induction false} ValueDecimal(n: nat)
    ensures Value(Decimal(n)) == n
    decreases n
  {
    var ds := Decimal(n);
    if n >= 10 {
      ValueDecimal(n / 10);
      assert ds[..|ds| - 1] == Decimal(n / 10);
    }
  }

  lemma {:induction false} DigitPrefixOf(ds: string, rest: string)
    requires AllDigits(ds)
    requires rest == [] || !IsDigit(rest[0])
    ensures DigitPrefix(ds + rest) == ds
  {
    if ds == [] {
      assert ds + rest == rest;
    } else {
      assert (ds + rest)[0] == ds[0];
      assert (ds + rest)[1..] == ds[1..] + rest;
      DigitPrefixOf(ds[1..], rest);
    }
  }

  lemma {:induction false} SkipSpacesOf(ws: string, x: string)
    requires forall i :: 0 <= i < |ws| ==> IsSpace(ws[i])
    requires x == [] || !IsSpace(x[0])
    ensures SkipSpaces(ws + x) == x
  {
    if ws == [] {
      assert ws + x == x;
    } else {
      assert (ws + x)[0] == ws[0];
      assert (ws + x)[1..] == ws[1..] + x;
      SkipSpacesOf(ws[1..], x);
    }
  }

  /** Leading white space does not change what `parseInt` reads. */
  lemma ParseIntSkipsSpaces(ws: string, x: string)
    requires forall i :: 0 <= i < |ws| ==> IsSpace(ws[i])
    requires x == [] || !IsSpace(x[0])
    ensures ParseInt(ws + x) == ParseInt(x)
  {
    SkipSpacesOf(ws, x);
    assert SkipSpaces(x) == x;
    assert SkipSpaces(ws + x) == SkipSpaces(x);
  }

  /** A minus sign negates the number that follows it: "-42px" is -42. */
  lemma ParseIntNegative(n: nat, rest: string)
    requires rest == [] || !IsDigit(rest[0])
    ensures ParseInt("-" + Decimal(n) + rest) == Some(-(n as int))
  {
    var body := Decimal(n) + rest;
    var x := "-" + Decimal(n) + rest;
    assert x == ['-'] + body;
    assert x[0] == '-' && !IsSpace(x[0]);
    assert SkipSpaces(x) == x;
    assert x[1..] == body;
    DigitPrefixOf(Decimal(n), rest);
    assert DigitPrefix(x[1..]) == Decimal(n);
    ValueDecimal(n);
  }

  /** `parseInt` reads back the number at the head of a string such as "300px" or "50%". */
  lemma ParseIntDecimal(n: nat, rest: string)
    requires rest == [] || !IsDigit(rest[0])
    ensures ParseInt(Decimal(n) + rest) == Some(n)
  {
    var s := Decimal(n) + rest;
    assert s[0] == Decimal(n)[0];
    assert SkipSpaces(s) == s;
    DigitPrefixOf(Decimal(n), rest);
    ValueDecimal(n);
  }

  // -------------------------------------------------------------- calcSize

  /** A width or height option: absent, a number, or a string such as "300px" or "50%". */
  datatype SizeOpt = Absent | Num(n: real) | Str(s: string)

  datatype Size = Size(width: real, height: real, aspect: Option<real>)

  /** `parseInt` of a finite number's decimal string: the number truncated toward zero. */
  function Truncate(r: real): (n: int)
    ensures r >= 0.0 ==> 0 <= n && n as real <= r < n as real + 1.0
    ensures r < 0.0 ==> n <= 0 && n as real - 1.0 < r <= n as real
  {
    if r >= 0.0 then r.Floor else -((-r).Floor)
  }

  /** `parseInt(opt)`: NaN (None) for a missing option, a number truncated toward zero, a string parsed. */
  function Parsed(opt: SizeOpt): (p: Option<int>)
    ensures opt.Absent? ==> p.None?
    ensures opt.Num? ==> p == Some(Truncate(opt.n))
    ensures opt.Str? ==> p == ParseInt(opt.s)
  {
    match opt
    case Absent => None
    case Num(r) => Some(Truncate(r))
    case Str(s) => ParseInt(s)
  }

  /** `/%$/.test(opt)`: only a string can end with a percent sign. */
  predicate Percent(opt: SizeOpt)
    ensures Percent(opt) ==> opt.Str? && opt.s != []
  {
    opt.Str? && |opt.s| > 0 && opt.s[|opt.s| - 1] == '%'
  }

  /**
   * One dimension: the parsed option if it is a non-zero number, else the
   * element's size if non-zero, else the window's; a percent option then
   * scales that by the window size.
   */
  function Dimension(opt: SizeOpt, element: nat, window: nat): (d: real)
    ensures !Percent(opt) && Parsed(opt).Some? && Parsed(opt).value != 0 ==> d == Parsed(opt).value as real
    ensures !Percent(opt) && (Parsed(opt).None? || Parsed(opt).value == 0) ==>
      d == if element != 0 then element as real else window as real
  {
    var p := Parsed(opt);
    var base: real :=
      if p.Some? && p.value != 0 then p.value as real
      else if element != 0 then element as real
      else window as real;
    if Percent(opt) then base / 100.0 * window as real else base
  }

  /** The render size: width and height by the fallback chain, and their ratio when the height is not 0. */
  function CalcSize(width: SizeOpt, height: SizeOpt, elemWidth: nat, elemHeight: nat, winWidth: nat, winHeight: nat): (s: Size)
    ensures s.width == Dimension(width, elemWidth, winWidth)
    ensures s.height == Dimension(height, elemHeight, winHeight)
    ensures s.aspect.Some? <==> s.height != 0.0
  {
    SizeOf(Dimension(width, elemWidth, winWidth), Dimension(height, elemHeight, winHeight))
  }

  /** A size from a width and a height: the aspect ratio, when present, times the height is the width. */
  function SizeOf(w: real, h: real): (s: Size)
    ensures s.width == w && s.height == h
    ensures s.aspect.Some? <==> h != 0.0
    ensures s.aspect.Some? ==> s.aspect.value * h == w
  {
    Size(w, h, if h != 0.0 then Some(Ratio(w, h)) else None)
  }

  /** The aspect ratio of a width to a non-zero height. */
  function Ratio(w: real, h: real): (q: real)
    requires h != 0.0
    ensures q * h == w
  {
    w / h
  }

  /** Without an option the element's size is used, and the window's when the element has none. */
  lemma AbsentFallsBack(element: nat, window: nat)
    ensures Dimension(Absent, element, window) == if element != 0 then element as real else window as real
  {
  }

  /** A pixel option such as "300px" gives that many pixels. */
  lemma PixelOption(n: nat, unit: string, element: nat, window: nat)
    requires n != 0
    requires unit == [] || (!IsDigit(unit[0]) && unit[|unit| - 1] != '%')
    ensures Dimension(Str(Decimal(n) + unit), element, window) == n as real
  {
    var s := Decimal(n) + unit;
    ParseIntDecimal(n, unit);
    assert Parsed(Str(s)) == Some(n);
    assert s[|s| - 1] == if unit == [] then Decimal(n)[|Decimal(n)| - 1] else unit[|unit| - 1];
    assert !Percent(Str(s));
  }

  /**
   * Any option ending in `%` (" 50%", "+50%", "050%", "12.5%", "abc%") is
   * sized as the same number without the sign would be, or as a missing
   * option when `parseInt` finds no number, then taken as that percentage
   * of the window.
   */
  lemma PercentScales(opt: SizeOpt, element: nat, window: nat)
    requires Percent(opt)
    ensures var p := Parsed(opt);
      Dimension(opt, element, window) ==
        Dimension(if p.Some? then Num(p.value as real) else Absent, element, window) / 100.0 * window as real
  {
    var p := Parsed(opt);
    if p.Some? {
      assert Truncate(p.value as real) == p.value;
      assert Parsed(Num(p.value as real)) == p;
    }
  }

  /** A percent option such as "50%" gives that share of the window. */
  lemma PercentOption(n: nat, element: nat, window: nat)
    requires n != 0
    ensures Dimension(Str(Decimal(n) + "%"), element, window) == n as real / 100.0 * window as real
  {
    var s := Decimal(n) + "%";
    ParseIntDecimal(n, "%");
    assert Parsed(Str(s)) == Some(n);
    assert s[|s| - 1] == '%';
    assert Percent(Str(s));
  }

  /**
   * A percent option with no non-zero number, such as "0%", scales the
   * fallback: the element's size (or the window's) is taken as the percentage.
   */
  lemma ZeroPercentScalesFallback(element: nat, window: nat)
    ensures Decimal(0) == "0"
    ensures Dimension(Str(Decimal(0) + "%"), element, window) ==
      (if element != 0 then element as real else window as real) / 100.0 * window as real
  {
    var s := Decimal(0) + "%";
    ParseIntDecimal(0, "%");
    assert Parsed(Str(s)) == Some(0);
    assert s[|s| - 1] == '%';
    assert Percent(Str(s));
  }

  // ------------------------------------------------------------ the viewer

  class Panoram {
    const orbitControl: OrbitControl
    /** The device (gyroscope) control's `enabled` flag; None when there is no device control. */
    var deviceControl: Option<bool>
    /** How many times the device control has been updated. */
    var deviceUpdates: nat
    var group: seq<Scene>
    var currentScene: Option<Scene>
    /** The sky box material's environment map; None before the mesh exists. */
    var envMap: Option<Texture>
    /** Every texture disposed, with multiplicity. */
    var disposed: multiset<Texture>
    var dispatched: seq<Dispatch>
    var jobs: map<nat, Job>
    var nextJob: nat
    /** The number of errors written to the log. */
    var errors: nat

    ghost predicate Valid()
      reads this
    {
      forall k :: k in jobs ==> k < nextJob
    }

    /**
     * Builds the viewer: the orbit control turned to the configured look,
     * a device control on mobile, and the `render-init` event.
     */
    constructor (lng: Option<real>, lat: Option<real>, device: Option<bool>, orbitEnabled: bool)
      ensures Valid() && fresh(orbitControl) && orbitControl.enabled == orbitEnabled
      ensures orbitControl.calls == PanoramLookCalls(lng, lat)
      ensures deviceControl == device && deviceUpdates == 0
      ensures group == [] && currentScene == None && envMap == None && disposed == multiset{}
      ensures dispatched == [Dispatch("render-init", Viewer)]
      ensures jobs == map[] && nextJob == 0 && errors == 0
    {
      orbitControl := new OrbitControl(orbitEnabled);
      deviceControl := device;
      deviceUpdates := 0;
      group := [];
      currentScene := None;
      envMap := None;
      disposed := multiset{};
      jobs := map[];
      nextJob := 0;
      errors := 0;
      dispatched := [];
      new;
      SetLook(lng, lat);
      dispatched := [Dispatch("render-init", Viewer)];
    }

    /** Turns the camera to a longitude/latitude (degrees), only when both are defined. */
    method SetLook(lng: Option<real>, lat: Option<real>)
      modifies orbitControl
      ensures orbitControl.calls == old(orbitControl.calls) + PanoramLookCalls(lng, lat)
      ensures orbitControl.enabled == old(orbitControl.enabled)
    {
      if lng.Some? && lat.Some? {
        var theta := lng.value * (PI / 180.0);
        var phi := lat.value * (PI / 180.0);
        orbitControl.RotateUp(-phi);
        orbitControl.RotateLeft(-theta);
      }
    }

    /** Stores the scene group and opens with its default scene. */
    method InitSource(source: Source) returns (scene: Option<Scene>)
      modifies this
      ensures group == source.sceneGroup
      ensures scene == currentScene == DefaultScene(source)
      ensures deviceControl == old(deviceControl) && deviceUpdates == old(deviceUpdates)
      ensures envMap == old(envMap) && disposed == old(disposed) && dispatched == old(dispatched)
      ensures jobs == old(jobs) && nextJob == old(nextJob) && errors == old(errors)
    {
      group := source.sceneGroup;
      var found := Find(group, (s: Scene) => s.id == source.defaultSceneId);
      currentScene := if found.Some? then found else if |group| > 0 then Some(group[0]) else None;
      scene := currentScene;
    }

    /** Creates the sky box with its first texture and dispatches `scene-init`. */
    method InitMesh(texture: Texture)
      modifies this
      ensures envMap == Some(texture) && dispatched == old(dispatched) + [Dispatch("scene-init", Viewer)]
      ensures disposed == old(disposed) && currentScene == old(currentScene) && group == old(group)
      ensures deviceControl == old(deviceControl) && deviceUpdates == old(deviceUpdates)
      ensures jobs == old(jobs) && nextJob == old(nextJob) && errors == old(errors)
    {
      envMap := Some(texture);
      dispatched := dispatched + [Dispatch("scene-init", Viewer)];
    }

    /** Updates the device control when it exists and is enabled, else the orbit control: exactly one of them. */
    method UpdateControl()
      modifies this, orbitControl
      ensures deviceControl == Some(true) ==>
        deviceUpdates == old(deviceUpdates) + 1 && orbitControl.calls == old(orbitControl.calls)
      ensures deviceControl != Some(true) ==>
        deviceUpdates == old(deviceUpdates) && orbitControl.calls == old(orbitControl.calls) + [OrbitCall.Update]
      ensures deviceControl == old(deviceControl) && orbitControl.enabled == old(orbitControl.enabled)
      ensures group == old(group) && currentScene == old(currentScene) && envMap == old(envMap)
      ensures disposed == old(disposed) && dispatched == old(dispatched)
      ensures jobs == old(jobs) && nextJob == old(nextJob) && errors == old(errors)
    {
      if deviceControl == Some(true) {
        deviceUpdates := deviceUpdates + 1;
      } else {
        orbitControl.Update();
      }
    }

    /**
     * Installs a new environment map and disposes the previous one (exactly
     * that one); dispatches `scene-attach` unless silent. Before the sky box
     * exists the swap throws (`threw`) and nothing changes.
     */
    method ReplaceTexture(texture: Texture, silent: bool) returns (threw: bool)
      modifies this
      ensures threw <==> old(envMap).None?
      ensures threw ==> envMap == old(envMap) && disposed == old(disposed) && dispatched == old(dispatched)
      ensures !threw ==> envMap == Some(texture) && disposed == old(disposed) + multiset{old(envMap).value}
      ensures texture !in old(disposed) && Some(texture) != old(envMap) ==> texture !in disposed
      ensures !threw ==>
        dispatched == old(dispatched) + if silent then [] else [Dispatch("scene-attach", CurrentScene(currentScene))]
      ensures currentScene == old(currentScene) && group == old(group)
      ensures deviceControl == old(deviceControl) && deviceUpdates == old(deviceUpdates)
      ensures jobs == old(jobs) && nextJob == old(nextJob) && errors == old(errors)
    {
      if envMap.None? {
        return true;
      }
      threw := false;
      var previous := envMap.value;
      envMap := Some(texture);
      disposed := disposed + multiset{previous};
      if !silent {
        dispatched := dispatched + [Dispatch("scene-attach", CurrentScene(currentScene))];
      }
    }

    /**
     * Resolves the target scene; with none, logs an error and loads
     * nothing, else requests its textures. The current scene is unchanged.
     */
    method EnterNext(arg: SceneArg)
      requires Valid()
      modifies this
      ensures Valid()
      ensures var data := ResolveScene(arg, group);
        && (data.None? ==> errors == old(errors) + 1 && jobs == old(jobs) && nextJob == old(nextJob))
        && (data.Some? ==> errors == old(errors) && jobs == old(jobs)[old(nextJob) := SceneTex(data.value)]
                           && nextJob == old(nextJob) + 1)
      ensures currentScene == old(currentScene) && group == old(group) && envMap == old(envMap)
      ensures disposed == old(disposed) && dispatched == old(dispatched)
      ensures deviceControl == old(deviceControl) && deviceUpdates == old(deviceUpdates)
    {
      var data := ResolveScene(arg, group);
      if data.None? {
        errors := errors + 1;
        return;
      }
      jobs := jobs[nextJob := SceneTex(data.value)];
      nextJob := nextJob + 1;
    }

    /**
     * The scene-texture request settles: a rejection or an empty result is
     * logged; textures start the cube-texture load.
     */
    method SceneTexLoaded(k: nat, outcome: TexLoad)
      requires Valid() && k in jobs && jobs[k].SceneTex?
      modifies this
      ensures Valid()
      ensures outcome.Resolved? && outcome.textures.Some? ==>
        errors == old(errors)
        && jobs == (old(jobs) - {k})[old(nextJob) := CubeLoad(old(jobs)[k].data, outcome.textures.value)]
        && nextJob == old(nextJob) + 1
      ensures !(outcome.Resolved? && outcome.textures.Some?) ==>
        errors == old(errors) + 1 && jobs == old(jobs) - {k} && nextJob == old(nextJob)
      ensures currentScene == old(currentScene) && group == old(group) && envMap == old(envMap)
      ensures disposed == old(disposed) && dispatched == old(dispatched)
      ensures deviceControl == old(deviceControl) && deviceUpdates == old(deviceUpdates)
    {
      var data := jobs[k].data;
      jobs := jobs - {k};
      if outcome.Resolved? && outcome.textures.Some? {
        jobs := jobs[nextJob := CubeLoad(data, outcome.textures.value)];
        nextJob := nextJob + 1;
      } else {
        errors := errors + 1;
      }
    }

    /**
     * The cube texture has loaded: only now does the scene become current,
     * immediately before the texture swap (which is not silent). Before the
     * sky box exists the scene still becomes current, but the swap throws:
     * no map is installed, nothing is disposed and nothing is dispatched.
     * A cube load that fails never calls back, so its job stays pending and
     * the current scene never changes.
     */
    method CubeLoaded(k: nat, texture: Texture)
      requires Valid() && k in jobs && jobs[k].CubeLoad?
      modifies this
      ensures Valid()
      ensures currentScene == Some(old(jobs)[k].data)
      ensures old(envMap).Some? ==>
        && envMap == Some(texture) && disposed == old(disposed) + multiset{old(envMap).value}
        && dispatched == old(dispatched) + [Dispatch("scene-attach", CurrentScene(Some(old(jobs)[k].data)))]
      ensures old(envMap).None? ==> envMap == None && disposed == old(disposed) && dispatched == old(dispatched)
      ensures jobs == old(jobs) - {k} && nextJob == old(nextJob) && errors == old(errors)
      ensures group == old(group) && deviceControl == old(deviceControl) && deviceUpdates == old(deviceUpdates)
    {
      var data := jobs[k].data;
      jobs := jobs - {k};
      currentScene := Some(data);
      var _ := ReplaceTexture(texture, false);
    }
  }

  /** The orbit requests of the legacy `setLook`: up by -lat, then left by -lng, in radians. */
  function PanoramLookCalls(lng: Option<real>, lat: Option<real>): (calls: seq<OrbitCall>)
    ensures calls == [] <==> lng.None? || lat.None?
  {
    if lng.Some? && lat.Some? then
      [RotateUp(-(lat.value * (PI / 180.0))), RotateLeft(-(lng.value * (PI / 180.0)))]
    else []
  }
}
