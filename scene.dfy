/**
 * The scene object: its matrix stack, the tables it fills when the scene
 * file has been loaded (lights, textures, materials, primitives, the default
 * view), the one-shot camera switch, and the traversal that draws the graph.
 *
 * Renderer calls are recorded as events on `trace`; the model-view matrix is
 * kept symbolically as the list of operations applied since the view matrix.
 */
module Scene {
  import opened Wrappers
  import opened SceneGraph
  import Colors
  import Materials
  import Lights
  import Primitives

  /** The appearance built for a material. */
  datatype Appearance = Appearance(
    shininess: real,
    emission: Colors.Rgba,
    ambient: Colors.Rgba,
    diffuse: Colors.Rgba,
    specular: Colors.Rgba)

  /**
   * The appearance built from a material's values. The emission is set from
   * red, green, green and alpha: the blue component is never read.
   */
  function AppearanceOf(v: Materials.MaterialValues): (a: Appearance)
    ensures a.shininess == v.shininess && a.ambient == v.ambient && a.diffuse == v.diffuse && a.specular == v.specular
    ensures a.emission.r == v.emission.r && a.emission.g == v.emission.g && a.emission.a == v.emission.a
    ensures a.emission.b == v.emission.g
  {
    var e := v.emission;
    Appearance(v.shininess, Colors.Rgba(e.r, e.g, e.g, e.a), v.ambient, v.diffuse, v.specular)
  }

  /** One appearance per material id, built from that material's values. */
  function Appearances(values: map<string, Materials.MaterialValues>): map<string, Appearance>
  {
    map id | id in values :: AppearanceOf(values[id])
  }

  /**
   * What building the figures leaves behind: loading succeeds exactly when
   * every figure's kind is known, and then each id holds the primitive built
   * from its figure; a failure reports the error of one of the figures.
   */
  ghost predicate BuiltFrom(figures: map<string, Primitives.Figure>, primitives: map<string, Primitives.Primitive>,
                            error: Option<string>)
  {
    && (error.None? <==> forall id :: id in figures ==> Primitives.Build(figures[id]).Success?)
    && (error.None? ==> primitives.Keys == figures.Keys)
    && (error.None? ==> forall id :: id in figures ==> primitives[id] == Primitives.Build(figures[id]).value)
    && (error.Some? ==> exists id :: id in figures && Primitives.Build(figures[id]) == Failure(error.value))
  }

  /** Overwriting the first untouched element extends the written prefix by one. */
  lemma WriteNext<T>(done: seq<T>, rest: seq<T>, x: T)
    requires rest != []
    ensures (done + rest)[|done| := x] == (done + [x]) + rest[1..]
  {
  }

  class Scene {
    /** The model-view matrix, as the operations applied since the view matrix. */
    var current: seq<MatrixOp>
    var matrixStack: seq<seq<MatrixOp>>
    /** The renderer calls made so far. */
    var trace: seq<Event>

    var materials: map<string, Appearance>
    /** Loaded textures, by id, with the file each was loaded from. */
    var textures: map<string, string>
    var primitives: map<string, Primitives.Primitive>
    const lights: array<Lights.LightSlot>

    var newCamera: bool
    var selectedCamera: Option<string>
    /** The view last applied to the camera. */
    var cameraView: Option<string>

    var graphLoaded: bool
    /** The root component of the loaded scene graph. */
    var root: Component

    ghost predicate Valid()
      reads this
    {
      lights.Length == Lights.MaxLights && (newCamera ==> selectedCamera.Some?)
    }

    /** A scene before any graph is loaded: nothing selected, nothing loaded, eight untouched lights. */
    constructor (graphRoot: Component)
      ensures Valid() && fresh(lights)
      ensures lights[..] == seq(Lights.MaxLights, _ => Lights.Unset)
      ensures current == [] && matrixStack == [] && trace == []
      ensures materials == map[] && textures == map[] && primitives == map[]
      ensures !newCamera && selectedCamera == None && cameraView == None
      ensures !graphLoaded && root == graphRoot
    {
      current := [];
      matrixStack := [];
      trace := [];
      materials := map[];
      textures := map[];
      primitives := map[];
      lights := new Lights.LightSlot[Lights.MaxLights](_ => Lights.Unset);
      newCamera := false;
      selectedCamera := None;
      cameraView := None;
      graphLoaded := false;
      root := graphRoot;
    }

    // ------------------------------------------------------------ matrix stack

    method PushMatrix()
      modifies this`matrixStack, this`trace
      ensures matrixStack == old(matrixStack) + [current]
      ensures trace == old(trace) + [Push]
    {
      matrixStack := matrixStack + [current];
      trace := trace + [Push];
    }

    method PopMatrix()
      requires matrixStack != []
      modifies this`current, this`matrixStack, this`trace
      ensures current == old(matrixStack[|matrixStack| - 1])
      ensures matrixStack == old(matrixStack[..|matrixStack| - 1])
      ensures trace == old(trace) + [Pop]
    {
      current := matrixStack[|matrixStack| - 1];
      matrixStack := matrixStack[..|matrixStack| - 1];
      trace := trace + [Pop];
    }

    /** Multiplies the model-view matrix by one translate, rotate or scale. */
    method MultMatrix(op: MatrixOp)
      modifies this`current
      ensures current == old(current) + [op]
    {
      current := current + [op];
    }

    /**
     * Applies the operations of a transformation in order; operations of any
     * other type than translate, rotate and scale are skipped.
     */
    method ApplyTransformation(operations: seq<Operation>)
      modifies this`current
      ensures current == old(current) + MatrixOps(operations)
    {
      var i := 0;
      while i < |operations|
        invariant 0 <= i <= |operations|
        invariant current == old(current) + MatrixOps(operations[..i])
      {
        var operation := operations[i];
        var data := operation.data;
        assert operations[..i + 1][..i] == operations[..i];
        if operation.kind == TranslateKind {
          MultMatrix(Translate(data.x, data.y, data.z));
        } else if operation.kind == RotateKind {
          var x := data.axis == "x";
          var y := data.axis == "y";
          var z := data.axis == "z";
          MultMatrix(Rotate(data.angle, x, y, z));
        } else if operation.kind == ScaleKind {
          MultMatrix(Scale(data.x, data.y, data.z));
        }
        i := i + 1;
      }
      assert operations[..i] == operations;
    }

    /** Empties a stack left non-empty by the previous frame, and says whether it had to. */
    method ClearMatrixStack() returns (warned: bool)
      modifies this`matrixStack
      ensures matrixStack == []
      ensures warned <==> old(matrixStack) != []
    {
      warned := |matrixStack| > 0;
      if warned {
        matrixStack := [];
      }
    }

    // ------------------------------------------------------------ traversal

    method DrawPrimitive(id: string)
      requires id in primitives
      modifies this`trace
      ensures trace == old(trace) + [Draw(id, current)]
    {
      trace := trace + [Draw(id, current)];
    }

    /** Multiplies in the operations of a component's transformation slot. */
    method ApplyLocalTransformation(slot: TransformSlot)
      modifies this`current
      ensures current == old(current) + LocalOps(slot)
    {
      if slot.mode == ReferenceMode {
        ApplyTransformation(slot.ref);
      } else if slot.mode == ImmediateMode {
        ApplyTransformation(slot.transf);
      }
    }

    /**
     * Resolves a component's material and texture against the inherited ones,
     * attaches the texture to the material and applies the material.
     */
    method ApplyAppearance(node: Component, sceneMaterial: Option<string>, sceneTexture: TextureBinding)
      returns (material: Option<string>, texture: TextureBinding)
      modifies this`trace
      ensures material == ResolveMaterial(node.material, sceneMaterial)
      ensures texture == ResolveTexture(node.texture, sceneTexture, textures.Keys)
      ensures trace == old(trace) + [SetTexture(material, texture), ApplyMaterial(material)]
    {
      material := sceneMaterial;
      if node.material.mode == ReferenceMode {
        material := Some(node.material.id);
      }

      texture := sceneTexture;
      if node.texture.mode == NoneMode {
        texture := NoTexture;
      } else if node.texture.mode == ReferenceMode {
        texture := if node.texture.id in textures then Texture(node.texture.id) else UndefinedTexture;
      }

      trace := trace + [SetTexture(material, texture), ApplyMaterial(material)];
    }

    /**
     * Draws `node` and its subtree with the inherited material and texture:
     * the renderer calls are exactly `Visit`'s, and the model-view matrix and
     * the stack are as they were.
     */
    method Traverser(node: Component, sceneMaterial: Option<string>, sceneTexture: TextureBinding)
      requires Renderable(node, sceneMaterial, materials.Keys, primitives.Keys)
      modifies this`current, this`matrixStack, this`trace
      ensures current == old(current) && matrixStack == old(matrixStack)
      ensures trace == old(trace) + Visit(node, sceneMaterial, sceneTexture, old(current), textures.Keys)
      decreases node, 1
    {
      PushMatrix();
      ApplyLocalTransformation(node.transformation);
      var material, texture := ApplyAppearance(node, sceneMaterial, sceneTexture);
      ghost var opening := [Push, SetTexture(material, texture), ApplyMaterial(material)];
      assert trace == old(trace) + opening;
      TraverseChildren(node, material, texture);
      PopMatrix();
      assert trace == old(trace) + (opening + VisitFrom(node, 0, material, texture, old(current) + LocalOps(node.transformation), textures.Keys) + [Pop]);
    }

    /** Visits the children of `node` in declaration order: components recursively, primitives drawn. */
    method TraverseChildren(node: Component, material: Option<string>, texture: TextureBinding)
      requires ChildrenRenderable(node, material, materials.Keys, primitives.Keys)
      modifies this`current, this`matrixStack, this`trace
      ensures current == old(current) && matrixStack == old(matrixStack)
      ensures trace == old(trace) + VisitFrom(node, 0, material, texture, old(current), textures.Keys)
      decreases node, 0
    {
      var i := 0;
      while i < |node.children|
        invariant 0 <= i <= |node.children|
        invariant current == old(current) && matrixStack == old(matrixStack)
        invariant trace + VisitFrom(node, i, material, texture, current, textures.Keys)
               == old(trace) + VisitFrom(node, 0, material, texture, current, textures.Keys)
        decreases |node.children| - i
      {
        var child := node.children[i];
        assert child in node.children;
        ghost var rest := VisitFrom(node, i + 1, material, texture, current, textures.Keys);
        match child {
          case ComponentRef(r) =>
            ghost var sub := Visit(r, material, texture, current, textures.Keys);
            assert trace + VisitFrom(node, i, material, texture, current, textures.Keys) == (trace + sub) + rest;
            Traverser(r, material, texture);
          case PrimitiveRef(p) =>
            assert trace + VisitFrom(node, i, material, texture, current, textures.Keys) == (trace + [Draw(p, current)]) + rest;
            DrawPrimitive(p);
        }
        i := i + 1;
      }
    }

    /** Draws the whole graph from its root, which inherits no material and a null texture. */
    method TraverseGraph()
      requires Renderable(root, None, materials.Keys, primitives.Keys)
      modifies this`current, this`matrixStack, this`trace
      ensures current == old(current) && matrixStack == old(matrixStack)
      ensures trace == old(trace) + Visit(root, None, NullTexture, old(current), textures.Keys)
    {
      Traverser(root, None, NullTexture);
    }

    // ------------------------------------------------------------ loading

    /** Selects the scene file's default view and asks for it to be applied at the next frame. */
    method InitViews(defaultView: string)
      modifies this`selectedCamera, this`newCamera
      ensures selectedCamera == Some(defaultView) && newCamera
    {
      selectedCamera := Some(defaultView);
      newCamera := true;
    }

    /**
     * Writes the hardware slots of the omni lights in iteration order until
     * the eight slots are used, and returns the slot index recorded on each
     * light that received one, keyed by its position in `elements`.
     */
    method InitLights(elements: seq<Lights.LightElement>, visible: bool) returns (indices: map<nat, nat>)
      requires Valid()
      modifies lights
      ensures indices == Lights.Assigned(elements)
      ensures lights[..] == Lights.Allocated(elements, visible) + old(lights[..])[|Lights.Allocated(elements, visible)|..]
    {
      indices := map[];
      var i := 0;
      var p := 0;
      while p < |elements|
        invariant 0 <= p <= |elements|
        invariant i == |Lights.Allocated(elements[..p], visible)|
        invariant indices == Lights.Assigned(elements[..p])
        invariant lights[..] == Lights.Allocated(elements[..p], visible) + old(lights[..])[i..]
      {
        if i >= Lights.MaxLights {
          Lights.AllocationSaturates(elements, p, visible);
          break;
        }
        Lights.AllocateStep(elements, p, visible);
        var light := elements[p];
        if light.kind == Lights.OmniKind {
          ghost var before := lights[..];
          lights[i] := Lights.SlotOf(light, visible);
          assert lights[..] == before[i := Lights.SlotOf(light, visible)];
          WriteNext(Lights.Allocated(elements[..p], visible), old(lights[..])[i..], Lights.SlotOf(light, visible));
          assert old(lights[..])[i..][1..] == old(lights[..])[i + 1..];
          indices := indices[p := i];
          i := i + 1;
        }
        p := p + 1;
      }
      if p == |elements| {
        assert elements[..p] == elements;
      }
    }

    /** Loads one texture per id of the scene file. */
    method InitTextures(elements: map<string, string>)
      modifies this`textures
      ensures textures == elements
    {
      textures := map[];
      var pending := elements.Keys;
      while pending != {}
        invariant pending <= elements.Keys
        invariant textures.Keys == elements.Keys - pending
        invariant forall id :: id in textures ==> textures[id] == elements[id]
        decreases pending
      {
        var id :| id in pending;
        textures := textures[id := elements[id]];
        pending := pending - {id};
      }
    }

    /** Builds one appearance per material id, with the emission read as red, green, green, alpha. */
    method InitMaterials(elements: map<string, Materials.MaterialValues>)
      modifies this`materials
      ensures materials == Appearances(elements)
      ensures forall id :: id in elements ==>
                materials[id] == AppearanceOf(elements[id]) &&
                materials[id].emission.b == elements[id].emission.g
    {
      materials := map[];
      var pending := elements.Keys;
      while pending != {}
        invariant pending <= elements.Keys
        invariant materials.Keys == elements.Keys - pending
        invariant forall id :: id in materials ==> materials[id] == AppearanceOf(elements[id])
        decreases pending
      {
        var id :| id in pending;
        materials := materials[id := AppearanceOf(elements[id])];
        pending := pending - {id};
      }
    }

    /**
     * Builds one primitive per id; the first figure whose type is unknown
     * stops the loading with that figure's error. The order in which ids are
     * taken is left open, so which error is reported is too.
     */
    method InitPrimitives(elements: map<string, Primitives.Figure>) returns (error: Option<string>)
      modifies this`primitives
      ensures BuiltFrom(elements, primitives, error)
    {
      primitives := map[];
      var pending := elements.Keys;
      while pending != {}
        invariant pending <= elements.Keys
        invariant primitives.Keys == elements.Keys - pending
        invariant forall id :: id in primitives ==> Primitives.Build(elements[id]) == Success(primitives[id])
        decreases pending
      {
        var id :| id in pending;
        var built := Primitives.Build(elements[id]);
        if built.Failure? {
          return Some(built.error);
        }
        primitives := primitives[id := built.value];
        pending := pending - {id};
      }
      error := None;
    }

    /**
     * Fills every table from the loaded scene file and then opens the gate
     * that lets frames draw the graph; a primitive that cannot be built
     * stops the loading before the gate is opened.
     */
    method OnGraphLoaded(defaultView: string,
                         lightElements: seq<Lights.LightElement>, lightsVisible: bool,
                         textureFiles: map<string, string>,
                         materialValues: map<string, Materials.MaterialValues>,
                         figures: map<string, Primitives.Figure>) returns (error: Option<string>)
      requires Valid()
      modifies this`selectedCamera, this`newCamera, this`textures, this`materials, this`primitives, this`graphLoaded, lights
      ensures Valid() && selectedCamera == Some(defaultView) && newCamera
      ensures textures == textureFiles && materials == Appearances(materialValues)
      ensures lights[..] == Lights.Allocated(lightElements, lightsVisible) + old(lights[..])[|Lights.Allocated(lightElements, lightsVisible)|..]
      ensures BuiltFrom(figures, primitives, error)
      ensures graphLoaded == (old(graphLoaded) || error.None?)
    {
      InitViews(defaultView);
      var _ := InitLights(lightElements, lightsVisible);
      InitTextures(textureFiles);
      InitMaterials(materialValues);
      error := InitPrimitives(figures);
      if error.Some? {
        return;
      }
      graphLoaded := true;
    }

    // ------------------------------------------------------------ frames

    /** Applies the selected view to the camera once after it was selected. */
    method Presetup()
      requires Valid()
      modifies this`newCamera, this`cameraView
      ensures Valid() && !newCamera
      ensures old(newCamera) ==> cameraView == selectedCamera
      ensures !old(newCamera) ==> cameraView == old(cameraView)
    {
      if newCamera {
        newCamera := false;
        cameraView := selectedCamera;
      }
    }

    /**
     * One frame: applies a pending view, empties the matrix stack, starts
     * from the view matrix, and draws the graph between a push and a pop once
     * it has been loaded.
     */
    method Display()
      requires Valid()
      requires graphLoaded ==> Renderable(root, None, materials.Keys, primitives.Keys)
      modifies this`newCamera, this`cameraView, this`current, this`matrixStack, this`trace
      ensures Valid() && !newCamera
      ensures old(newCamera) ==> cameraView == old(selectedCamera)
      ensures !old(newCamera) ==> cameraView == old(cameraView)
      ensures matrixStack == [] && current == []
      ensures trace == old(trace) + [Push]
                       + (if graphLoaded then Visit(root, None, NullTexture, [], textures.Keys) else [])
                       + [Pop]
    {
      Presetup();
      var _ := ClearMatrixStack();
      current := [];
      PushMatrix();
      if graphLoaded {
        TraverseGraph();
      }
      PopMatrix();
    }
  }
}
