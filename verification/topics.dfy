/**
 * The publish/subscribe topics of the viewer's event bus, with the exact
 * topic strings the bus keys its subscriptions on.
 */
module Topics {
  import opened Wrappers

  datatype Topic =
    // scene
    | SceneCreate | SceneInit | SceneLoad | SceneReady
    | SceneAttachStart | SceneAttach | SceneReset
    // webgl render
    | RenderProcess | RenderDispose | RenderException | RenderUnsupport
    // web vr
    | VrEnter | VrExit
    // ui interface
    | UiPanoClick | UiOverlayClick | UiMultipleActive | UiDrag | UiZoom
    // star through
    | ThruShow | ThruChange
    // animation
    | AnimationEnd

  /** The string under which a topic is published. */
  function Name(t: Topic): string {
    match t
    case SceneCreate => "scene-create"
    case SceneInit => "scene-init"
    case SceneLoad => "scene-load"
    case SceneReady => "scene-ready"
    case SceneAttachStart => "scene-attachstart"
    case SceneAttach => "scene-attach"
    case SceneReset => "scene-reset"
    case RenderProcess => "render-process"
    case RenderDispose => "render-dispose"
    case RenderException => "render-exception"
    case RenderUnsupport => "render-unsupport"
    case VrEnter => "vr-enter"
    case VrExit => "vr-exit"
    case UiPanoClick => "pano-click"
    case UiOverlayClick => "overlay-click"
    case UiMultipleActive => "multiple-active"
    case UiDrag => "pano-drag"
    case UiZoom => "pano-zoom"
    case ThruShow => "thru-show"
    case ThruChange => "thru-change"
    case AnimationEnd => "animation-end"
  }

  /**
   * The topic a string names, if any. The event bus keys its subscribers by
   * these strings; this inverse of `Name` is what shows that no two topics
   * share one (`NameInjective`), so a subscription string reaches exactly
   * one topic.
   */
  function Parse(s: string): Option<Topic> {
    match s
    case "scene-create" => Some(SceneCreate)
    case "scene-init" => Some(SceneInit)
    case "scene-load" => Some(SceneLoad)
    case "scene-ready" => Some(SceneReady)
    case "scene-attachstart" => Some(SceneAttachStart)
    case "scene-attach" => Some(SceneAttach)
    case "scene-reset" => Some(SceneReset)
    case "render-process" => Some(RenderProcess)
    case "render-dispose" => Some(RenderDispose)
    case "render-exception" => Some(RenderException)
    case "render-unsupport" => Some(RenderUnsupport)
    case "vr-enter" => Some(VrEnter)
    case "vr-exit" => Some(VrExit)
    case "pano-click" => Some(UiPanoClick)
    case "overlay-click" => Some(UiOverlayClick)
    case "multiple-active" => Some(UiMultipleActive)
    case "pano-drag" => Some(UiDrag)
    case "pano-zoom" => Some(UiZoom)
    case "thru-show" => Some(ThruShow)
    case "thru-change" => Some(ThruChange)
    case "animation-end" => Some(AnimationEnd)
    case _ => None
  }

  /** Every topic has its own string: parsing a topic's name gives the topic back. */
  lemma ParseName(t: Topic)
    ensures Parse(Name(t)) == Some(t)
  {
  }

  /** Parsing accepts only topic names. */
  lemma NameParse(s: string)
    ensures Parse(s).Some? ==> Name(Parse(s).value) == s
  {
  }

  /** Two topics never share a string. */
  lemma NameInjective(t: Topic, u: Topic)
    ensures Name(t) == Name(u) ==> t == u
  {
    ParseName(t);
    ParseName(u);
  }
}
