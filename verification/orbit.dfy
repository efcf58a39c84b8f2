/**
 * The orbit (pointer-drag) camera control, seen as an opaque collaborator:
 * its implementation is not part of this model, so the model records the
 * requests the viewer makes of it, in order.
 */
module Orbit {

  /** One request made of the orbit control. */
  datatype OrbitCall =
    | Update
    | RotateLeft(angle: real)
    | RotateUp(angle: real)
    | Reset
    | Dispose

  class OrbitControl {
    /** The control's public `enabled` flag, which the viewer assigns directly. */
    var enabled: bool
    /** Every request made of the control so far. */
    var calls: seq<OrbitCall>

    constructor (initiallyEnabled: bool)
      ensures enabled == initiallyEnabled && calls == []
    {
      enabled := initiallyEnabled;
      calls := [];
    }

    method Update()
      modifies this
      ensures calls == old(calls) + [OrbitCall.Update] && enabled == old(enabled)
    {
      calls := calls + [OrbitCall.Update];
    }

    method RotateLeft(angle: real)
      modifies this
      ensures calls == old(calls) + [OrbitCall.RotateLeft(angle)] && enabled == old(enabled)
    {
      calls := calls + [OrbitCall.RotateLeft(angle)];
    }

    method RotateUp(angle: real)
      modifies this
      ensures calls == old(calls) + [OrbitCall.RotateUp(angle)] && enabled == old(enabled)
    {
      calls := calls + [OrbitCall.RotateUp(angle)];
    }

    method Reset()
      modifies this
      ensures calls == old(calls) + [OrbitCall.Reset] && enabled == old(enabled)
    {
      calls := calls + [OrbitCall.Reset];
    }

    method Dispose()
      modifies this
      ensures calls == old(calls) + [OrbitCall.Dispose] && enabled == old(enabled)
    {
      calls := calls + [OrbitCall.Dispose];
    }
  }
}
