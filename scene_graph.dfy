/**
 * The scene graph and what one depth-first traversal of it emits.
 *
 * A component carries a transformation slot, a material slot, a texture slot
 * and an ordered list of children, each either another component or a
 * primitive id. `Visit` is the event trace of one traversal: the matrix
 * push and pop that bracket each component, the texture attached to the
 * resolved material, the material applied, and one draw per primitive child
 * together with the symbolic model-view transform in force. `DrawCalls`
 * replays a trace against the renderer's bound material and texture.
 */
module SceneGraph {
  import opened Wrappers

  // ---------------------------------------------------------------- operations

  /** The `data` of a transformation operation; each type reads only some of the fields. */
  datatype OpData = OpData(x: real, y: real, z: real, axis: string, angle: real)

  /** One operation of a transformation, tagged by its type name. */
  datatype Operation = Operation(kind: string, data: OpData)

  /**
   * A symbolic model-view operation. `Rotate` keeps the angle in degrees as
   * read; the renderer receives it converted to radians.
   */
  datatype MatrixOp =
    | Translate(tx: real, ty: real, tz: real)
    | Rotate(degrees: real, aboutX: bool, aboutY: bool, aboutZ: bool)
    | Scale(sx: real, sy: real, sz: real)

  const TranslateKind := "translate"
  const RotateKind := "rotate"
  const ScaleKind := "scale"

  predicate KnownOperation(op: Operation)
  {
    op.kind == TranslateKind || op.kind == RotateKind || op.kind == ScaleKind
  }

  /**
   * The renderer call one operation makes, if any: translate and scale pass
   * x, y, z; rotate passes the angle and one flag per axis, set exactly when
   * `axis` names that axis. Any other type makes no call.
   */
  function MatrixOpOf(op: Operation): (r: Option<MatrixOp>)
    ensures r.Some? <==> KnownOperation(op)
    ensures op.kind == TranslateKind ==> r == Some(Translate(op.data.x, op.data.y, op.data.z))
    ensures op.kind == ScaleKind ==> r == Some(Scale(op.data.x, op.data.y, op.data.z))
    ensures op.kind == RotateKind ==>
              r.Some? && r.value.Rotate? && r.value.degrees == op.data.angle &&
              (r.value.aboutX <==> op.data.axis == "x") &&
              (r.value.aboutY <==> op.data.axis == "y") &&
              (r.value.aboutZ <==> op.data.axis == "z")
  {
    if op.kind == TranslateKind then Some(Translate(op.data.x, op.data.y, op.data.z))
    else if op.kind == RotateKind then
      Some(Rotate(op.data.angle, op.data.axis == "x", op.data.axis == "y", op.data.axis == "z"))
    else if op.kind == ScaleKind then Some(Scale(op.data.x, op.data.y, op.data.z))
    else None
  }

  /** The renderer calls of a list of operations, in list order. */
  function MatrixOps(ops: seq<Operation>): (r: seq<MatrixOp>)
    ensures |r| <= |ops|
    ensures (forall i :: 0 <= i < |ops| ==> KnownOperation(ops[i])) ==> |r| == |ops|
    decreases |ops|
  {
    if ops == [] then []
    else
      var last := ops[|ops| - 1];
      MatrixOps(ops[..|ops| - 1]) + (if KnownOperation(last) then [MatrixOpOf(last).value] else [])
  }

  lemma {:induction false} MatrixOpsAppend(a: seq<Operation>, b: seq<Operation>)
    ensures MatrixOps(a + b) == MatrixOps(a) + MatrixOps(b)
    decreases |b|
  {
    if b == [] {
      assert a + b == a;
    } else {
      var init := b[..|b| - 1];
      assert (a + b)[..|a + b| - 1] == a + init;
      MatrixOpsAppend(a, init);
    }
  }

  /** An operation of an unknown type changes nothing, wherever it stands. */
  lemma UnknownOperationIgnored(before: seq<Operation>, op: Operation, after: seq<Operation>)
    requires !KnownOperation(op)
    ensures MatrixOps(before + [op] + after) == MatrixOps(before + after)
  {
    MatrixOpsAppend(before + [op], after);
    MatrixOpsAppend(before, after);
    assert (before + [op])[..|before|] == before;
    assert MatrixOps(before + [op]) == MatrixOps(before);
  }

  /** Every call comes from an operation of a known type, and there is one per such operation. */
  lemma {:induction false} MatrixOpsCount(ops: seq<Operation>)
    ensures |MatrixOps(ops)| == |set i | 0 <= i < |ops| && KnownOperation(ops[i])|
    decreases |ops|
  {
    if ops != [] {
      var init := ops[..|ops| - 1];
      MatrixOpsCount(init);
      var known := set i | 0 <= i < |ops| && KnownOperation(ops[i]);
      var knownInit := set i | 0 <= i < |init| && KnownOperation(init[i]);
      assert known == knownInit + (if KnownOperation(ops[|ops| - 1]) then {|ops| - 1} else {});
    }
  }

  // ---------------------------------------------------------------- components

  const ReferenceMode := "reference"
  const ImmediateMode := "immediate"
  const NoneMode := "none"

  /** The transformation slot: a referenced transformation, an inline one, or (any other mode) none. */
  datatype TransformSlot = TransformSlot(mode: string, ref: seq<Operation>, transf: seq<Operation>)

  /** The first entry of a component's material list, the only one the traversal reads. */
  datatype MaterialSlot = MaterialSlot(mode: string, id: string)

  datatype TextureSlot = TextureSlot(mode: string, id: string)

  datatype Component = Component(
    transformation: TransformSlot,
    material: MaterialSlot,
    texture: TextureSlot,
    children: seq<Child>)

  /** A child: a `componentref` to another component, or anything else, which names a primitive. */
  datatype Child = ComponentRef(ref: Component) | PrimitiveRef(id: string)

  /**
   * The texture value handed down the traversal: `null` at the root,
   * `false` after a "none" slot, a loaded texture, or `undefined` when a
   * slot references an id no texture was loaded under.
   */
  datatype TextureBinding = NullTexture | NoTexture | Texture(id: string) | UndefinedTexture

  /** The operations a component's transformation slot contributes. */
  function LocalOps(slot: TransformSlot): (r: seq<MatrixOp>)
    ensures slot.mode == ReferenceMode ==> r == MatrixOps(slot.ref)
    ensures slot.mode == ImmediateMode ==> r == MatrixOps(slot.transf)
    ensures slot.mode != ReferenceMode && slot.mode != ImmediateMode ==> r == []
  {
    if slot.mode == ReferenceMode then MatrixOps(slot.ref)
    else if slot.mode == ImmediateMode then MatrixOps(slot.transf)
    else []
  }

  /** A "reference" slot overrides the material; any other mode keeps the inherited one. */
  function ResolveMaterial(slot: MaterialSlot, inherited: Option<string>): (m: Option<string>)
    ensures slot.mode == ReferenceMode ==> m == Some(slot.id)
    ensures slot.mode != ReferenceMode ==> m == inherited
  {
    if slot.mode == ReferenceMode then Some(slot.id) else inherited
  }

  /**
   * "none" clears the texture whatever was inherited; "reference" looks the
   * id up among the loaded textures; any other mode keeps the inherited one.
   */
  function ResolveTexture(slot: TextureSlot, inherited: TextureBinding, textures: set<string>): (t: TextureBinding)
    ensures slot.mode == NoneMode ==> t == NoTexture
    ensures slot.mode == ReferenceMode ==> t == (if slot.id in textures then Texture(slot.id) else UndefinedTexture)
    ensures slot.mode != NoneMode && slot.mode != ReferenceMode ==> t == inherited
  {
    if slot.mode == NoneMode then NoTexture
    else if slot.mode == ReferenceMode then
      (if slot.id in textures then Texture(slot.id) else UndefinedTexture)
    else inherited
  }

  /**
   * A traversal from `node` with the inherited material runs without a
   * crash: the resolved material exists among the loaded materials, every
   * primitive child names a loaded primitive, and so on down the tree.
   */
  predicate Renderable(node: Component, inherited: Option<string>, materials: set<string>, primitives: set<string>)
    decreases node, 1
  {
    var m := ResolveMaterial(node.material, inherited);
    m.Some? && m.value in materials && ChildrenRenderable(node, m, materials, primitives)
  }

  /** Every child of `node` can be drawn when `material` is the one handed down. */
  predicate ChildrenRenderable(node: Component, material: Option<string>, materials: set<string>, primitives: set<string>)
    decreases node, 0
  {
    forall c :: c in node.children ==>
      match c
      case ComponentRef(r) => Renderable(r, material, materials, primitives)
      case PrimitiveRef(p) => p in primitives
  }

  // ---------------------------------------------------------------- traversal trace

  datatype Event =
    | Push
    | Pop
    | SetTexture(material: Option<string>, texture: TextureBinding)
    | ApplyMaterial(material: Option<string>)
    | Draw(primitive: string, transform: seq<MatrixOp>)

  /**
   * The events of one traversal of `node`, entered with the inherited
   * material and texture and the model-view transform `current`.
   */
  function Visit(node: Component, material: Option<string>, texture: TextureBinding,
                 current: seq<MatrixOp>, textures: set<string>): (v: seq<Event>)
    ensures |v| >= 4 && v[0] == Push && v[|v| - 1] == Pop
    decreases node, 1
  {
    var m := ResolveMaterial(node.material, material);
    var t := ResolveTexture(node.texture, texture, textures);
    [Push, SetTexture(m, t), ApplyMaterial(m)]
    + VisitFrom(node, 0, m, t, current + LocalOps(node.transformation), textures)
    + [Pop]
  }

  /** The events of the children of `node` from position `i` on. */
  function VisitFrom(node: Component, i: nat, material: Option<string>, texture: TextureBinding,
                     current: seq<MatrixOp>, textures: set<string>): (v: seq<Event>)
    requires i <= |node.children|
    ensures |v| >= |node.children| - i
    decreases node, 0, |node.children| - i
  {
    if i == |node.children| then []
    else
      var here :=
        match node.children[i]
        case ComponentRef(r) => Visit(r, material, texture, current, textures)
        case PrimitiveRef(p) => [Draw(p, current)];
      here + VisitFrom(node, i + 1, material, texture, current, textures)
  }

  // ---------------------------------------------------------------- bracketing

  function Count(events: seq<Event>, e: Event): nat
  {
    if events == [] then 0 else (if events[0] == e then 1 else 0) + Count(events[1..], e)
  }

  lemma {:induction false} CountAppend(a: seq<Event>, b: seq<Event>, e: Event)
    ensures Count(a + b, e) == Count(a, e) + Count(b, e)
    decreases |a|
  {
    if a == [] {
      assert a + b == b;
    } else {
      assert (a + b)[1..] == a[1..] + b;
      CountAppend(a[1..], b, e);
    }
  }

  /** The number of components a traversal of `node` visits. */
  function Size(node: Component): nat
    decreases node, 1
  {
    1 + SizeFrom(node, 0)
  }

  function SizeFrom(node: Component, i: nat): nat
    requires i <= |node.children|
    decreases node, 0, |node.children| - i
  {
    if i == |node.children| then 0
    else
      (match node.children[i]
       case ComponentRef(r) => Size(r)
       case PrimitiveRef(_) => 0)
      + SizeFrom(node, i + 1)
  }

  /**
   * A traversal pushes and pops the matrix once per visited component, so the
   * stack depth is the same before and after it.
   */
  lemma {:induction false} VisitBalanced(node: Component, material: Option<string>, texture: TextureBinding,
                                         current: seq<MatrixOp>, textures: set<string>)
    ensures Count(Visit(node, material, texture, current, textures), Push) == Size(node)
    ensures Count(Visit(node, material, texture, current, textures), Pop) == Size(node)
    decreases node, 1
  {
    var m := ResolveMaterial(node.material, material);
    var t := ResolveTexture(node.texture, texture, textures);
    var cur := current + LocalOps(node.transformation);
    var head := [Push, SetTexture(m, t), ApplyMaterial(m)];
    var body := VisitFrom(node, 0, m, t, cur, textures);
    VisitFromBalanced(node, 0, m, t, cur, textures);
    BracketFacts(m, t, GlState(map[], None, NullTexture));
    CountAppend(head + body, [Pop], Push);
    CountAppend(head + body, [Pop], Pop);
    CountAppend(head, body, Push);
    CountAppend(head, body, Pop);
  }

  lemma {:induction false} VisitFromBalanced(node: Component, i: nat, material: Option<string>, texture: TextureBinding,
                                             current: seq<MatrixOp>, textures: set<string>)
    requires i <= |node.children|
    ensures Count(VisitFrom(node, i, material, texture, current, textures), Push) == SizeFrom(node, i)
    ensures Count(VisitFrom(node, i, material, texture, current, textures), Pop) == SizeFrom(node, i)
    decreases node, 0, |node.children| - i
  {
    if i < |node.children| {
      var rest := VisitFrom(node, i + 1, material, texture, current, textures);
      VisitFromBalanced(node, i + 1, material, texture, current, textures);
      match node.children[i]
      case ComponentRef(r) =>
        VisitBalanced(r, material, texture, current, textures);
        CountAppend(Visit(r, material, texture, current, textures), rest, Push);
        CountAppend(Visit(r, material, texture, current, textures), rest, Pop);
      case PrimitiveRef(p) =>
        CountAppend([Draw(p, current)], rest, Push);
        CountAppend([Draw(p, current)], rest, Pop);
    }
  }

  /**
   * At every component the resolved texture is attached to the resolved
   * material and the material applied, right after the push and before any
   * child is processed; the pop comes last.
   */
  lemma VisitOrder(node: Component, material: Option<string>, texture: TextureBinding,
                   current: seq<MatrixOp>, textures: set<string>)
    ensures var v := Visit(node, material, texture, current, textures);
            var m := ResolveMaterial(node.material, material);
            |v| >= 4 && v[..3] == [Push, SetTexture(m, ResolveTexture(node.texture, texture, textures)), ApplyMaterial(m)] &&
            v[|v| - 1] == Pop
  {
  }

  // ---------------------------------------------------------------- draw order

  /** A primitive drawn under a model-view transform. */
  datatype Placement = Placement(primitive: string, transform: seq<MatrixOp>)

  /** The draws of a trace, in order. */
  function Placements(events: seq<Event>): seq<Placement>
  {
    if events == [] then []
    else
      (if events[0].Draw? then [Placement(events[0].primitive, events[0].transform)] else [])
      + Placements(events[1..])
  }

  lemma {:induction false} PlacementsAppend(a: seq<Event>, b: seq<Event>)
    ensures Placements(a + b) == Placements(a) + Placements(b)
    decreases |a|
  {
    if a == [] {
      assert a + b == b;
    } else {
      var ab := a + b;
      assert ab[0] == a[0];
      assert ab[1..] == a[1..] + b;
      PlacementsAppend(a[1..], b);
      var own := if a[0].Draw? then [Placement(a[0].primitive, a[0].transform)] else [];
      calc {
        Placements(ab);
        own + Placements(ab[1..]);
        own + (Placements(a[1..]) + Placements(b));
        (own + Placements(a[1..])) + Placements(b);
        Placements(a) + Placements(b);
      }
    }
  }

  /**
   * The depth-first pre-order of primitive references below `node`, each with
   * the composition of the transformations on its path from the root.
   */
  function PreOrder(node: Component, current: seq<MatrixOp>): seq<Placement>
    decreases node, 1
  {
    PreOrderFrom(node, 0, current + LocalOps(node.transformation))
  }

  function PreOrderFrom(node: Component, i: nat, current: seq<MatrixOp>): seq<Placement>
    requires i <= |node.children|
    decreases node, 0, |node.children| - i
  {
    if i == |node.children| then []
    else
      (match node.children[i]
       case ComponentRef(r) => PreOrder(r, current)
       case PrimitiveRef(p) => [Placement(p, current)])
      + PreOrderFrom(node, i + 1, current)
  }

  /** The draws of a traversal are the pre-order of primitive references, whatever the materials and textures. */
  lemma {:induction false} VisitDrawsPreOrder(node: Component, material: Option<string>, texture: TextureBinding,
                                              current: seq<MatrixOp>, textures: set<string>)
    ensures Placements(Visit(node, material, texture, current, textures)) == PreOrder(node, current)
    decreases node, 1
  {
    var m := ResolveMaterial(node.material, material);
    var t := ResolveTexture(node.texture, texture, textures);
    var cur := current + LocalOps(node.transformation);
    var head := [Push, SetTexture(m, t), ApplyMaterial(m)];
    var body := VisitFrom(node, 0, m, t, cur, textures);
    VisitFromDrawsPreOrder(node, 0, m, t, cur, textures);
    BracketFacts(m, t, GlState(map[], None, NullTexture));
    PlacementsAppend(head + body, [Pop]);
    PlacementsAppend(head, body);
  }

  lemma {:induction false} VisitFromDrawsPreOrder(node: Component, i: nat, material: Option<string>, texture: TextureBinding,
                                                  current: seq<MatrixOp>, textures: set<string>)
    requires i <= |node.children|
    ensures Placements(VisitFrom(node, i, material, texture, current, textures)) == PreOrderFrom(node, i, current)
    decreases node, 0, |node.children| - i
  {
    if i < |node.children| {
      var rest := VisitFrom(node, i + 1, material, texture, current, textures);
      VisitFromDrawsPreOrder(node, i + 1, material, texture, current, textures);
      match node.children[i]
      case ComponentRef(r) =>
        VisitDrawsPreOrder(r, material, texture, current, textures);
        PlacementsAppend(Visit(r, material, texture, current, textures), rest);
      case PrimitiveRef(p) =>
        PlacementsAppend([Draw(p, current)], rest);
    }
  }

  // ---------------------------------------------------------------- renderer replay

  /**
   * The renderer state a trace acts on: the texture each appearance has
   * attached, and the appearance and texture bound by the last `apply()`.
   */
  datatype GlState = GlState(attached: map<Option<string>, TextureBinding>, material: Option<string>, texture: TextureBinding)

  /** A primitive drawn with the bound appearance and texture. */
  datatype DrawCall = DrawCall(primitive: string, material: Option<string>, texture: TextureBinding, transform: seq<MatrixOp>)

  function Step(s: GlState, e: Event): (r: GlState)
    ensures e.Push? || e.Pop? || e.Draw? ==> r == s
    ensures e.SetTexture? ==> r.material == s.material && r.texture == s.texture &&
                              e.material in r.attached && r.attached[e.material] == e.texture
    ensures e.ApplyMaterial? ==> r.attached == s.attached && r.material == e.material
    ensures e.ApplyMaterial? ==> r.texture == (if e.material in s.attached then s.attached[e.material] else NullTexture)
  {
    match e
    case SetTexture(m, t) => s.(attached := s.attached[m := t])
    case ApplyMaterial(m) => s.(material := m, texture := if m in s.attached then s.attached[m] else NullTexture)
    case _ => s
  }

  function Final(events: seq<Event>, s: GlState): GlState
  {
    if events == [] then s else Final(events[1..], Step(s, events[0]))
  }

  function DrawCalls(events: seq<Event>, s: GlState): (r: seq<DrawCall>)
    ensures |r| == |Placements(events)|
    decreases |events|
  {
    if events == [] then []
    else
      (if events[0].Draw? then [DrawCall(events[0].primitive, s.material, s.texture, events[0].transform)] else [])
      + DrawCalls(events[1..], Step(s, events[0]))
  }

  /** A replay draws exactly the placements of the trace, in order: what is drawn where does not depend on the state. */
  lemma {:induction false} DrawCallsFollowPlacements(events: seq<Event>, s: GlState)
    ensures forall k :: 0 <= k < |DrawCalls(events, s)| ==>
              DrawCalls(events, s)[k].primitive == Placements(events)[k].primitive &&
              DrawCalls(events, s)[k].transform == Placements(events)[k].transform
    decreases |events|
  {
    if events != [] {
      DrawCallsFollowPlacements(events[1..], Step(s, events[0]));
    }
  }

  /** What the three opening events and the closing pop of a component do, spelled out. */
  lemma BracketFacts(m: Option<string>, t: TextureBinding, s: GlState)
    ensures var head := [Push, SetTexture(m, t), ApplyMaterial(m)];
            Count(head, Push) == 1 && Count(head, Pop) == 0 && Placements(head) == [] &&
            Final(head, s) == GlState(s.attached[m := t], m, t) && DrawCalls(head, s) == []
    ensures Count([Pop], Push) == 0 && Count([Pop], Pop) == 1 && Placements([Pop]) == [] &&
            Final([Pop], s) == s && DrawCalls([Pop], s) == []
  {
    var e1, e2, e3 := Push, SetTexture(m, t), ApplyMaterial(m);
    assert [e1, e2, e3] == [e1] + [e2] + [e3];
    var s1 := Step(s, e1);
    var s2 := Step(s1, e2);
    SingleEvent(e1, s);
    SingleEvent(e2, s1);
    SingleEvent(e3, s2);
    SingleEvent(Pop, s);
    CountAppend([e1] + [e2], [e3], Push);
    CountAppend([e1], [e2], Push);
    CountAppend([e1] + [e2], [e3], Pop);
    CountAppend([e1], [e2], Pop);
    PlacementsAppend([e1] + [e2], [e3]);
    PlacementsAppend([e1], [e2]);
    ReplayAppend([e1] + [e2], [e3], s);
    ReplayAppend([e1], [e2], s);
  }

  /** What a trace of one event counts, places and replays. */
  lemma SingleEvent(e: Event, s: GlState)
    ensures Count([e], Push) == (if e == Push then 1 else 0)
    ensures Count([e], Pop) == (if e == Pop then 1 else 0)
    ensures Placements([e]) == (if e.Draw? then [Placement(e.primitive, e.transform)] else [])
    ensures Final([e], s) == Step(s, e)
    ensures DrawCalls([e], s) == (if e.Draw? then [DrawCall(e.primitive, s.material, s.texture, e.transform)] else [])
  {
    assert [e][1..] == [];
  }

  /** Replaying one draw leaves the state as it was and draws with what is bound. */
  lemma DrawFacts(p: string, tr: seq<MatrixOp>, s: GlState)
    ensures Final([Draw(p, tr)], s) == s
    ensures DrawCalls([Draw(p, tr)], s) == [DrawCall(p, s.material, s.texture, tr)]
  {
    assert [Draw(p, tr)][1..] == [];
  }

  lemma {:induction false} ReplayAppend(a: seq<Event>, b: seq<Event>, s: GlState)
    ensures Final(a + b, s) == Final(b, Final(a, s))
    ensures DrawCalls(a + b, s) == DrawCalls(a, s) + DrawCalls(b, Final(a, s))
    decreases |a|
  {
    if a == [] {
      assert a + b == b;
    } else {
      assert (a + b)[1..] == a[1..] + b;
      ReplayAppend(a[1..], b, Step(s, a[0]));
    }
  }

  /** Every component below `node` inherits its material. */
  predicate InheritsMaterialBelow(node: Component)
    decreases node
  {
    forall c :: c in node.children ==>
      match c
      case ComponentRef(r) => r.material.mode != ReferenceMode && InheritsMaterialBelow(r)
      case PrimitiveRef(_) => true
  }

  /**
   * When no component below `node` overrides the material, every primitive
   * of the traversal is drawn with the material `node` resolves, and that
   * material is still bound afterwards.
   */
  lemma {:induction false} UniformMaterial(node: Component, material: Option<string>, texture: TextureBinding,
                                           current: seq<MatrixOp>, textures: set<string>, s: GlState)
    requires InheritsMaterialBelow(node)
    ensures var m := ResolveMaterial(node.material, material);
            var v := Visit(node, material, texture, current, textures);
            Final(v, s).material == m &&
            forall d :: d in DrawCalls(v, s) ==> d.material == m
    decreases node, 1
  {
    var m := ResolveMaterial(node.material, material);
    var t := ResolveTexture(node.texture, texture, textures);
    var cur := current + LocalOps(node.transformation);
    var head := [Push, SetTexture(m, t), ApplyMaterial(m)];
    var body := VisitFrom(node, 0, m, t, cur, textures);
    ReplayAppend(head + body, [Pop], s);
    ReplayAppend(head, body, s);
    BracketFacts(m, t, s);
    var s1 := Final(head, s);
    UniformMaterialFrom(node, 0, m, t, cur, textures, s1);
    BracketFacts(m, t, Final(body, s1));
  }

  lemma {:induction false} UniformMaterialFrom(node: Component, i: nat, material: Option<string>, texture: TextureBinding,
                                               current: seq<MatrixOp>, textures: set<string>, s: GlState)
    requires i <= |node.children|
    requires InheritsMaterialBelow(node) && s.material == material
    ensures var v := VisitFrom(node, i, material, texture, current, textures);
            Final(v, s).material == material &&
            forall d :: d in DrawCalls(v, s) ==> d.material == material
    decreases node, 0, |node.children| - i
  {
    if i < |node.children| {
      var rest := VisitFrom(node, i + 1, material, texture, current, textures);
      assert node.children[i] in node.children;
      match node.children[i]
      case ComponentRef(r) =>
        var here := Visit(r, material, texture, current, textures);
        ReplayAppend(here, rest, s);
        UniformMaterial(r, material, texture, current, textures, s);
        UniformMaterialFrom(node, i + 1, material, texture, current, textures, Final(here, s));
      case PrimitiveRef(p) =>
        ReplayAppend([Draw(p, current)], rest, s);
        DrawFacts(p, current, s);
        UniformMaterialFrom(node, i + 1, material, texture, current, textures, s);
    }
  }

  /** No component below `node` references a texture. */
  predicate NoTextureReferenceBelow(node: Component)
    decreases node
  {
    forall c :: c in node.children ==>
      match c
      case ComponentRef(r) => r.texture.mode != ReferenceMode && NoTextureReferenceBelow(r)
      case PrimitiveRef(_) => true
  }

  /**
   * A "none" texture slot holds for the whole subtree unless some component
   * below references a texture again: every primitive is drawn untextured,
   * whatever the ancestors had set.
   */
  lemma {:induction false} NoneTextureSubtree(node: Component, material: Option<string>, texture: TextureBinding,
                                              current: seq<MatrixOp>, textures: set<string>, s: GlState)
    requires node.texture.mode == NoneMode || (texture == NoTexture && node.texture.mode != ReferenceMode)
    requires NoTextureReferenceBelow(node)
    ensures var v := Visit(node, material, texture, current, textures);
            Final(v, s).texture == NoTexture &&
            forall d :: d in DrawCalls(v, s) ==> d.texture == NoTexture
    decreases node, 1
  {
    var m := ResolveMaterial(node.material, material);
    var t := ResolveTexture(node.texture, texture, textures);
    var cur := current + LocalOps(node.transformation);
    var head := [Push, SetTexture(m, t), ApplyMaterial(m)];
    var body := VisitFrom(node, 0, m, t, cur, textures);
    ReplayAppend(head + body, [Pop], s);
    ReplayAppend(head, body, s);
    BracketFacts(m, t, s);
    var s1 := Final(head, s);
    NoneTextureFrom(node, 0, m, cur, textures, s1);
    BracketFacts(m, t, Final(body, s1));
  }

  lemma {:induction false} NoneTextureFrom(node: Component, i: nat, material: Option<string>,
                                           current: seq<MatrixOp>, textures: set<string>, s: GlState)
    requires i <= |node.children|
    requires NoTextureReferenceBelow(node) && s.texture == NoTexture
    ensures var v := VisitFrom(node, i, material, NoTexture, current, textures);
            Final(v, s).texture == NoTexture &&
            forall d :: d in DrawCalls(v, s) ==> d.texture == NoTexture
    decreases node, 0, |node.children| - i
  {
    if i < |node.children| {
      var rest := VisitFrom(node, i + 1, material, NoTexture, current, textures);
      assert node.children[i] in node.children;
      match node.children[i]
      case ComponentRef(r) =>
        var here := Visit(r, material, NoTexture, current, textures);
        ReplayAppend(here, rest, s);
        NoneTextureSubtree(r, material, NoTexture, current, textures, s);
        NoneTextureFrom(node, i + 1, material, current, textures, Final(here, s));
      case PrimitiveRef(p) =>
        ReplayAppend([Draw(p, current)], rest, s);
        DrawFacts(p, current, s);
        NoneTextureFrom(node, i + 1, material, current, textures, s);
    }
  }

  /**
   * After a child component returns, its parent does not apply its own
   * material again: a primitive listed after a child that references
   * material "B" is drawn with "B", although its parent references "A".
   */
  lemma MaterialLeaksToLaterSibling(s: GlState)
    ensures var plain := TransformSlot("", [], []);
            var inherit := TextureSlot("", "");
            var inner := Component(plain, MaterialSlot(ReferenceMode, "B"), inherit, [PrimitiveRef("p")]);
            var outer := Component(plain, MaterialSlot(ReferenceMode, "A"), inherit, [ComponentRef(inner), PrimitiveRef("q")]);
            DrawCalls(Visit(outer, None, NullTexture, [], {}), s) ==
              [DrawCall("p", Some("B"), NullTexture, []), DrawCall("q", Some("B"), NullTexture, [])]
  {
    var plain := TransformSlot("", [], []);
    var inherit := TextureSlot("", "");
    var inner := Component(plain, MaterialSlot(ReferenceMode, "B"), inherit, [PrimitiveRef("p")]);
    var outer := Component(plain, MaterialSlot(ReferenceMode, "A"), inherit, [ComponentRef(inner), PrimitiveRef("q")]);
    var a := Some("A");
    var b := Some("B");
    LeakExampleTrace(inner, outer);
    var head := [Push, SetTexture(a, NullTexture), ApplyMaterial(a)];
    var innerHead := [Push, SetTexture(b, NullTexture), ApplyMaterial(b)];
    var innerBody := [Draw("p", [])];
    var innerEvents := innerHead + innerBody + [Pop];
    var outerBody := innerEvents + [Draw("q", [])];
    // the outer bracket
    ReplayAppend(head + outerBody, [Pop], s);
    ReplayAppend(head, outerBody, s);
    BracketFacts(a, NullTexture, s);
    var s1 := Final(head, s);
    // the inner component, then the later sibling
    ReplayAppend(innerEvents, [Draw("q", [])], s1);
    ReplayAppend(innerHead + innerBody, [Pop], s1);
    ReplayAppend(innerHead, innerBody, s1);
    BracketFacts(b, NullTexture, s1);
    var s2 := Final(innerHead, s1);
    DrawFacts("p", [], s2);
    BracketFacts(b, NullTexture, s2);
    DrawFacts("q", [], s2);
    BracketFacts(a, NullTexture, s2);
  }

  /** The events of a traversal of the two-level graph of `MaterialLeaksToLaterSibling`. */
  lemma LeakExampleTrace(inner: Component, outer: Component)
    requires inner == Component(TransformSlot("", [], []), MaterialSlot(ReferenceMode, "B"), TextureSlot("", ""), [PrimitiveRef("p")])
    requires outer == Component(TransformSlot("", [], []), MaterialSlot(ReferenceMode, "A"), TextureSlot("", ""),
                                [ComponentRef(inner), PrimitiveRef("q")])
    ensures var a := Some("A");
            var b := Some("B");
            Visit(outer, None, NullTexture, [], {}) ==
              [Push, SetTexture(a, NullTexture), ApplyMaterial(a)]
              + (([Push, SetTexture(b, NullTexture), ApplyMaterial(b)] + [Draw("p", [])] + [Pop]) + [Draw("q", [])])
              + [Pop]
  {
    var a := Some("A");
    var b := Some("B");
    assert LocalOps(inner.transformation) == [];
    var origin: seq<MatrixOp> := [];
    assert origin + LocalOps(inner.transformation) == origin;
    var innerBody := [Draw("p", [])];
    assert VisitFrom(inner, 0, b, NullTexture, [], {}) == innerBody;
    var innerEvents := [Push, SetTexture(b, NullTexture), ApplyMaterial(b)] + innerBody + [Pop];
    assert Visit(inner, a, NullTexture, [], {}) == innerEvents;
    assert VisitFrom(outer, 1, a, NullTexture, [], {}) == [Draw("q", [])];
    assert VisitFrom(outer, 0, a, NullTexture, [], {}) == innerEvents + [Draw("q", [])];
  }

  // ---------------------------------------------------------------- intended traversal

  /*
   * The comments around the traversal speak of a material and texture stack
   * pushed and popped with the matrix, but only the matrix is saved. The
   * intended traversal restores the component's appearance when a child
   * component returns: it attaches the component's texture to its material
   * and applies that material again.
   */

  /** The calls that attach a texture to a material and apply the material. */
  function Reapply(m: Option<string>, t: TextureBinding): seq<Event>
  {
    [SetTexture(m, t), ApplyMaterial(m)]
  }

  /** The events of one intended traversal of `node`. */
  function VisitRestoring(node: Component, material: Option<string>, texture: TextureBinding,
                          current: seq<MatrixOp>, textures: set<string>): seq<Event>
    decreases node, 1
  {
    var m := ResolveMaterial(node.material, material);
    var t := ResolveTexture(node.texture, texture, textures);
    [Push] + Reapply(m, t)
    + VisitRestoringFrom(node, 0, m, t, current + LocalOps(node.transformation), textures)
    + [Pop]
  }

  /** The children of `node` from position `i` on, each child component followed by the restore. */
  function VisitRestoringFrom(node: Component, i: nat, material: Option<string>, texture: TextureBinding,
                              current: seq<MatrixOp>, textures: set<string>): seq<Event>
    requires i <= |node.children|
    decreases node, 0, |node.children| - i
  {
    if i == |node.children| then []
    else
      (match node.children[i]
       case ComponentRef(r) => VisitRestoring(r, material, texture, current, textures) + Reapply(material, texture)
       case PrimitiveRef(p) => [Draw(p, current)])
      + VisitRestoringFrom(node, i + 1, material, texture, current, textures)
  }

  /**
   * The draws the intended traversal makes: the pre-order of primitive
   * references, each with the material and texture its own component resolves.
   */
  function OwnedDraws(node: Component, material: Option<string>, texture: TextureBinding,
                      current: seq<MatrixOp>, textures: set<string>): seq<DrawCall>
    decreases node, 1
  {
    OwnedDrawsFrom(node, 0, ResolveMaterial(node.material, material), ResolveTexture(node.texture, texture, textures),
                   current + LocalOps(node.transformation), textures)
  }

  function OwnedDrawsFrom(node: Component, i: nat, material: Option<string>, texture: TextureBinding,
                          current: seq<MatrixOp>, textures: set<string>): seq<DrawCall>
    requires i <= |node.children|
    decreases node, 0, |node.children| - i
  {
    if i == |node.children| then []
    else
      (match node.children[i]
       case ComponentRef(r) => OwnedDraws(r, material, texture, current, textures)
       case PrimitiveRef(p) => [DrawCall(p, material, texture, current)])
      + OwnedDrawsFrom(node, i + 1, material, texture, current, textures)
  }

  /** Replaying a restore binds the material and the texture, and draws nothing. */
  lemma ReapplyFacts(m: Option<string>, t: TextureBinding, s: GlState)
    ensures Final(Reapply(m, t), s) == GlState(s.attached[m := t], m, t)
    ensures DrawCalls(Reapply(m, t), s) == []
  {
    var e1, e2 := SetTexture(m, t), ApplyMaterial(m);
    assert Reapply(m, t) == [e1] + [e2];
    SingleEvent(e1, s);
    SingleEvent(e2, Step(s, e1));
    ReplayAppend([e1], [e2], s);
  }

  /**
   * In the intended traversal every primitive is drawn with the material and
   * texture its own component resolves, whatever its siblings and the
   * components below them apply.
   */
  lemma {:induction false} RestoredDrawsOwned(node: Component, material: Option<string>, texture: TextureBinding,
                                              current: seq<MatrixOp>, textures: set<string>, s: GlState)
    ensures DrawCalls(VisitRestoring(node, material, texture, current, textures), s) ==
            OwnedDraws(node, material, texture, current, textures)
    decreases node, 1
  {
    var m := ResolveMaterial(node.material, material);
    var t := ResolveTexture(node.texture, texture, textures);
    var cur := current + LocalOps(node.transformation);
    var head := [Push] + Reapply(m, t);
    assert head == [Push, SetTexture(m, t), ApplyMaterial(m)];
    var body := VisitRestoringFrom(node, 0, m, t, cur, textures);
    ReplayAppend(head + body, [Pop], s);
    ReplayAppend(head, body, s);
    BracketFacts(m, t, s);
    RestoredDrawsOwnedFrom(node, 0, m, t, cur, textures, Final(head, s));
    BracketFacts(m, t, Final(body, Final(head, s)));
  }

  lemma {:induction false} RestoredDrawsOwnedFrom(node: Component, i: nat, material: Option<string>, texture: TextureBinding,
                                                  current: seq<MatrixOp>, textures: set<string>, s: GlState)
    requires i <= |node.children|
    requires s.material == material && s.texture == texture
    ensures DrawCalls(VisitRestoringFrom(node, i, material, texture, current, textures), s) ==
            OwnedDrawsFrom(node, i, material, texture, current, textures)
    decreases node, 0, |node.children| - i
  {
    if i < |node.children| {
      var rest := VisitRestoringFrom(node, i + 1, material, texture, current, textures);
      assert node.children[i] in node.children;
      match node.children[i]
      case ComponentRef(r) =>
        var sub := VisitRestoring(r, material, texture, current, textures);
        var back := Reapply(material, texture);
        ReplayAppend(sub + back, rest, s);
        ReplayAppend(sub, back, s);
        RestoredDrawsOwned(r, material, texture, current, textures, s);
        ReapplyFacts(material, texture, Final(sub, s));
        RestoredDrawsOwnedFrom(node, i + 1, material, texture, current, textures, Final(back, Final(sub, s)));
      case PrimitiveRef(p) =>
        ReplayAppend([Draw(p, current)], rest, s);
        DrawFacts(p, current, s);
        RestoredDrawsOwnedFrom(node, i + 1, material, texture, current, textures, s);
    }
  }

  /** On the graph of `MaterialLeaksToLaterSibling`, the intended traversal draws the later sibling with "A". */
  lemma RestoringKeepsParentMaterial(s: GlState)
    ensures var plain := TransformSlot("", [], []);
            var inherit := TextureSlot("", "");
            var inner := Component(plain, MaterialSlot(ReferenceMode, "B"), inherit, [PrimitiveRef("p")]);
            var outer := Component(plain, MaterialSlot(ReferenceMode, "A"), inherit, [ComponentRef(inner), PrimitiveRef("q")]);
            DrawCalls(VisitRestoring(outer, None, NullTexture, [], {}), s) ==
              [DrawCall("p", Some("B"), NullTexture, []), DrawCall("q", Some("A"), NullTexture, [])]
  {
    var plain := TransformSlot("", [], []);
    var inherit := TextureSlot("", "");
    var inner := Component(plain, MaterialSlot(ReferenceMode, "B"), inherit, [PrimitiveRef("p")]);
    var outer := Component(plain, MaterialSlot(ReferenceMode, "A"), inherit, [ComponentRef(inner), PrimitiveRef("q")]);
    RestoredDrawsOwned(outer, None, NullTexture, [], {}, s);
    var origin: seq<MatrixOp> := [];
    assert LocalOps(plain) == [];
    assert origin + LocalOps(plain) == origin;
    assert OwnedDrawsFrom(inner, 0, Some("B"), NullTexture, [], {}) == [DrawCall("p", Some("B"), NullTexture, [])];
    assert OwnedDraws(inner, Some("A"), NullTexture, [], {}) == [DrawCall("p", Some("B"), NullTexture, [])];
    assert OwnedDrawsFrom(outer, 1, Some("A"), NullTexture, [], {}) == [DrawCall("q", Some("A"), NullTexture, [])];
  }
}
