/**
 * How the scene hands its eight hardware light slots to the lights of the
 * scene file: in iteration order, to omni lights only, until the slots run
 * out. `Allocated` is the list of slot values written, `Assigned` the slot
 * index recorded on each light element that received one.
 */
module Lights {
  import Colors

  datatype Vec4 = Vec4(x: real, y: real, z: real, w: real)

  datatype LightData = LightData(
    location: Vec4,
    ambient: Colors.Rgba,
    diffuse: Colors.Rgba,
    specular: Colors.Rgba,
    enabled: bool)

  /** A light of the scene file: its type name and its values. */
  datatype LightElement = LightElement(kind: string, data: LightData)

  /** A hardware light slot: untouched, or configured from one omni light. */
  datatype LightSlot =
    | Unset
    | Configured(
        position: Vec4,
        ambient: Colors.Rgba,
        diffuse: Colors.Rgba,
        specular: Colors.Rgba,
        visible: bool,
        constantAttenuation: real,
        linearAttenuation: real,
        quadraticAttenuation: real,
        enabled: bool)

  const MaxLights: nat := 8
  const OmniKind := "omni"
  const ConstantAttenuation: real := 0.5
  const LinearAttenuation: real := 0.01
  const QuadraticAttenuation: real := 0.0025

  /** The slot value written for an omni light. */
  function SlotOf(e: LightElement, visible: bool): (slot: LightSlot)
    ensures slot.Configured? && slot.position == e.data.location && slot.visible == visible
    ensures slot.enabled == e.data.enabled
  {
    Configured(e.data.location, e.data.ambient, e.data.diffuse, e.data.specular, visible,
               ConstantAttenuation, LinearAttenuation, QuadraticAttenuation, e.data.enabled)
  }

  /** The slot values written, in slot order, while reading `es` in order. */
  function Allocated(es: seq<LightElement>, visible: bool): (slots: seq<LightSlot>)
    ensures |slots| <= MaxLights
    decreases |es|
  {
    if es == [] then []
    else
      var prev := Allocated(es[..|es| - 1], visible);
      var last := es[|es| - 1];
      if |prev| >= MaxLights || last.kind != OmniKind then prev else prev + [SlotOf(last, visible)]
  }

  /** The slot index recorded on each light, keyed by its position in `es`. */
  function Assigned(es: seq<LightElement>): (indices: map<nat, nat>)
    ensures forall p :: p in indices ==> p < |es| && indices[p] < MaxLights
    decreases |es|
  {
    if es == [] then map[]
    else
      var init := es[..|es| - 1];
      var used := |Allocated(init, false)|;
      if used >= MaxLights || es[|es| - 1].kind != OmniKind then Assigned(init)
      else Assigned(init)[|es| - 1 := used]
  }

  /** The omni lights of `es`, in order. */
  function Omni(es: seq<LightElement>): seq<LightElement>
  {
    if es == [] then []
    else Omni(es[..|es| - 1]) + (if es[|es| - 1].kind == OmniKind then [es[|es| - 1]] else [])
  }

  function Min(a: nat, b: nat): nat
  {
    if a < b then a else b
  }

  /**
   * At most eight slots are written: exactly the first eight omni lights in
   * order (or all of them, if fewer), each with its own values, the fixed
   * attenuation constants, and enabled exactly when the light is.
   */
  lemma {:induction false} AllocatedAreFirstOmni(es: seq<LightElement>, visible: bool)
    ensures |Allocated(es, visible)| == Min(|Omni(es)|, MaxLights)
    ensures forall k :: 0 <= k < |Allocated(es, visible)| ==>
              Allocated(es, visible)[k] == SlotOf(Omni(es)[k], visible) &&
              Allocated(es, visible)[k].enabled == Omni(es)[k].data.enabled
    decreases |es|
  {
    if es != [] {
      AllocatedAreFirstOmni(es[..|es| - 1], visible);
    }
  }

  /** How many slots are written does not depend on the visibility flag. */
  lemma {:induction false} AllocatedLength(es: seq<LightElement>, v1: bool, v2: bool)
    ensures |Allocated(es, v1)| == |Allocated(es, v2)|
    decreases |es|
  {
    if es != [] {
      AllocatedLength(es[..|es| - 1], v1, v2);
    }
  }

  /**
   * Omni lights receive consecutive indices 0, 1, 2, ... in iteration order:
   * the light at position p gets a slot exactly when it is omni and fewer than
   * eight omni lights precede it, and its index is the number that precede it.
   * Other lights consume no index.
   */
  lemma {:induction false} AssignedIndices(es: seq<LightElement>)
    ensures forall p: nat :: p in Assigned(es) <==>
              p < |es| && es[p].kind == OmniKind && |Omni(es[..p])| < MaxLights
    ensures forall p :: p in Assigned(es) ==> Assigned(es)[p] == |Omni(es[..p])|
    decreases |es|
  {
    if es != [] {
      var n := |es| - 1;
      var init := es[..n];
      AssignedIndices(init);
      AllocatedAreFirstOmni(init, false);
      var used := |Allocated(init, false)|;
      assert Assigned(es) == (if used >= MaxLights || es[n].kind != OmniKind then Assigned(init)
                              else Assigned(init)[n := used]);
      forall p: nat
        ensures p in Assigned(es) <==> p < |es| && es[p].kind == OmniKind && |Omni(es[..p])| < MaxLights
        ensures p in Assigned(es) ==> Assigned(es)[p] == |Omni(es[..p])|
      {
        if p < n {
          assert es[..p] == init[..p] && es[p] == init[p];
        } else if p == n {
          assert es[..p] == init;
        }
      }
    }
  }

  /** Reading the light at position p, after those before it. */
  lemma AllocateStep(es: seq<LightElement>, p: nat, visible: bool)
    requires p < |es|
    ensures var used := |Allocated(es[..p], visible)|;
            var skip := used >= MaxLights || es[p].kind != OmniKind;
            Allocated(es[..p + 1], visible) ==
              (if skip then Allocated(es[..p], visible) else Allocated(es[..p], visible) + [SlotOf(es[p], visible)]) &&
            Assigned(es[..p + 1]) == (if skip then Assigned(es[..p]) else Assigned(es[..p])[p := used])
  {
    assert es[..p + 1][..p] == es[..p];
    AllocatedLength(es[..p], visible, false);
  }

  /** Once eight slots are written, the rest of the lights change nothing. */
  lemma {:induction false} AllocationSaturates(es: seq<LightElement>, p: nat, visible: bool)
    requires p <= |es| && |Allocated(es[..p], visible)| >= MaxLights
    ensures Allocated(es, visible) == Allocated(es[..p], visible)
    ensures Assigned(es) == Assigned(es[..p])
    decreases |es| - p
  {
    if p < |es| {
      var init := es[..|es| - 1];
      assert init[..p] == es[..p];
      AllocationSaturates(init, p, visible);
      AllocatedLength(init, visible, false);
    } else {
      assert es[..p] == es;
    }
  }
}
