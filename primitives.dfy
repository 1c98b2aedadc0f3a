/**
 * The primitive factory: a closed dispatch from a figure's kind tag to the
 * geometry constructor it selects and the fields of the figure's data it
 * forwards to that constructor. The geometry classes themselves are not part
 * of this model; a handle names the constructor and its argument tuple.
 */
module Primitives {
  import opened Wrappers

  /** A numeric field of `figure.data`; `None` is JavaScript's `undefined` for an absent field. */
  type Arg = Option<real>

  /** A parsed `<primitive>` figure: its kind tag and its numeric data fields. */
  datatype Figure = Figure(kind: string, data: map<string, real>)

  /** The planar curves handed to `tPolygon`/`rPolygon` (a `proto*` function with its interval). */
  datatype Curve =
    | Heart
    | Butterfly
    | Folium(a: Arg, b: Arg)
    | Hypocycloid(a: Arg, b: Arg)

  /** The parametric surfaces handed to `uvSurface`/`zSurface` (a `proto*` function with its interval). */
  datatype Surface =
    | Torus(inner: Arg, outer: Arg)
    | EightSurface
    | AstroidalEllipsoid
    | KissSurface
    | BohemianDome(a: Arg, b: Arg, c: Arg)
    | CrossedTrough
    | SineSurface
    | CayleySurface
    | MobiusStrip
    | EllipticHyperboloid
    | CrossCap
    | CrossCap2
    | Cornucopia(a: Arg, b: Arg)
    | HennebergMinimal
    | RomanSurface
    | Corkscrew(a: Arg, b: Arg)
    | KleinBottle
    | KleinBottle2

  /** A primitive handle: the constructor that was called and the arguments it received. */
  datatype Primitive =
    | Square(side: Arg)
    | Regular(sides: Arg, radius: Arg)
    | Circle(radius: Arg, slices: Arg)
    | Triangle(size: real)
    | Rectangle(x: real, y: real)
    | Trapezium(base: Arg, height: Arg, top: Arg)
    | ClosedCone(radius: Arg, height: Arg, slices: Arg, stacks: Arg)
    | ClosedPyramid(sides: Arg, radius: Arg, height: Arg, stacks: Arg)
    | ClosedCylinder(radius: Arg, height: Arg, slices: Arg, stacks: Arg)
    | ClosedPrism(sides: Arg, radius: Arg, height: Arg, stacks: Arg)
    | Cube(side: Arg)
    | Block(dx: Arg, dy: Arg, dz: Arg)
    | Sphere(radius: Arg, slices: Arg, stacks: Arg)
    | ClosedHalfSphere(radius: Arg, slices: Arg, stacks: Arg)
    | TPolygon(curve: Curve, samples: Arg)
    | RPolygon(curve: Curve, samples: Arg)
    | UvSurface(surface: Surface, slices: Arg, stacks: Arg)
    | ZSurface(surface: Surface, slices: Arg, stacks: Arg)

  /** The prefix of the message thrown for an unknown kind tag. */
  const InvalidKindMessage: string := "INTERNAL: Invalid primitive type detected in buildPrimitive(): "

  /** The value of a data field as JavaScript reads it: `undefined` when absent. */
  function Field(data: map<string, real>, name: string): Arg
  {
    if name in data then Some(data[name]) else None
  }

  /** The values of the named fields, in order. */
  function Fields(data: map<string, real>, names: seq<string>): (args: seq<Arg>)
    ensures |args| == |names|
    ensures forall i :: 0 <= i < |names| ==> args[i] == Field(data, names[i])
  {
    seq(|names|, i requires 0 <= i < |names| => Field(data, names[i]))
  }

  lemma FieldsAppend(data: map<string, real>, a: seq<string>, b: seq<string>)
    ensures Fields(data, a + b) == Fields(data, a) + Fields(data, b)
  {
  }

  /** The closed set of kind tags the factory's `switch` recognises, in its four groups. */
  datatype Kind =
    | PlanarKind(planar: PlanarTag)
    | SpatialKind(spatial: SpatialTag)
    | CurveKind(curve: CurveTag)
    | SurfaceKind(surface: SurfaceTag)

  datatype PlanarTag = SquareTag | RegularTag | CircleTag | TriangleTag | RectangleTag | TrapeziumTag

  datatype SpatialTag = ConeTag | PyramidTag | CylinderTag | PrismTag | CubeTag | BlockTag | SphereTag | HalfSphereTag

  datatype CurveTag = HeartTag | ButterflyTag | FoliumTag | HypocycloidTag

  datatype SurfaceTag = TorusTag | EightTag | AstroidalTag | KissTag | BohemianDomeTag | CrossedTroughTag | SineTag | CayleyTag | MobiusTag | EllipticHyperboloidTag | CrossCapTag | CrossCap2Tag | CornucopiaTag | HennebergTag | RomanTag | CorkscrewTag | KleinBottleTag | KleinBottle2Tag

  const PlanarKinds: set<string> := {"square", "regular", "circle", "triangle", "rectangle", "trapezium"}

  const SpatialKinds: set<string> := {"cone", "pyramid", "cylinder", "prism", "cube", "block", "sphere", "halfsphere"}

  const CurveKinds: set<string> := {"heart", "butterfly", "folium", "hypocycloid"}

  const SurfaceKinds: set<string> := {"torus", "eight", "astroidal", "kiss", "bohemiandome", "crossedtrough", "sine", "cayley", "mobius", "elliptichyperboloid", "crosscap", "crosscap2", "cornucopia", "henneberg", "roman", "corkscrew", "kleinbottle", "kleinbottle2"}

  /** Every tag the factory recognises. */
  const Kinds: set<string> := PlanarKinds + SpatialKinds + CurveKinds + SurfaceKinds

  function PlanarName(t: PlanarTag): string
  {
    match t
    case SquareTag => "square"
    case RegularTag => "regular"
    case CircleTag => "circle"
    case TriangleTag => "triangle"
    case RectangleTag => "rectangle"
    case TrapeziumTag => "trapezium"
  }

  function SpatialName(t: SpatialTag): string
  {
    match t
    case ConeTag => "cone"
    case PyramidTag => "pyramid"
    case CylinderTag => "cylinder"
    case PrismTag => "prism"
    case CubeTag => "cube"
    case BlockTag => "block"
    case SphereTag => "sphere"
    case HalfSphereTag => "halfsphere"
  }

  function CurveName(t: CurveTag): string
  {
    match t
    case HeartTag => "heart"
    case ButterflyTag => "butterfly"
    case FoliumTag => "folium"
    case HypocycloidTag => "hypocycloid"
  }

  function SurfaceName(t: SurfaceTag): string
  {
    match t
    case TorusTag => "torus"
    case EightTag => "eight"
    case AstroidalTag => "astroidal"
    case KissTag => "kiss"
    case BohemianDomeTag => "bohemiandome"
    case CrossedTroughTag => "crossedtrough"
    case SineTag => "sine"
    case CayleyTag => "cayley"
    case MobiusTag => "mobius"
    case EllipticHyperboloidTag => "elliptichyperboloid"
    case CrossCapTag => "crosscap"
    case CrossCap2Tag => "crosscap2"
    case CornucopiaTag => "cornucopia"
    case HennebergTag => "henneberg"
    case RomanTag => "roman"
    case CorkscrewTag => "corkscrew"
    case KleinBottleTag => "kleinbottle"
    case KleinBottle2Tag => "kleinbottle2"
  }

  /** The literal tag of each kind, as written in a `<primitive>` figure. */
  function TagName(k: Kind): string
  {
    match k
    case PlanarKind(t) => PlanarName(t)
    case SpatialKind(t) => SpatialName(t)
    case CurveKind(t) => CurveName(t)
    case SurfaceKind(t) => SurfaceName(t)
  }

  /** The case labels of group 1. Planar primitives. */
  function ParsePlanar(tag: string): (t: Option<PlanarTag>)
    ensures t.Some? ==> PlanarName(t.value) == tag && tag in PlanarKinds
    ensures t.None? ==> tag !in PlanarKinds
  {
    if tag == "square" then Some(SquareTag)
    else if tag == "regular" then Some(RegularTag)
    else if tag == "circle" then Some(CircleTag)
    else if tag == "triangle" then Some(TriangleTag)
    else if tag == "rectangle" then Some(RectangleTag)
    else if tag == "trapezium" then Some(TrapeziumTag)
    else None
  }

  /** The case labels of group 2. Spatial primitives. */
  function ParseSpatial(tag: string): (t: Option<SpatialTag>)
    ensures t.Some? ==> SpatialName(t.value) == tag && tag in SpatialKinds
    ensures t.None? ==> tag !in SpatialKinds
  {
    if tag == "cone" then Some(ConeTag)
    else if tag == "pyramid" then Some(PyramidTag)
    else if tag == "cylinder" then Some(CylinderTag)
    else if tag == "prism" then Some(PrismTag)
    else if tag == "cube" then Some(CubeTag)
    else if tag == "block" then Some(BlockTag)
    else if tag == "sphere" then Some(SphereTag)
    else if tag == "halfsphere" then Some(HalfSphereTag)
    else None
  }

  /** The case labels of group 3. Complex planar primitives (curves). */
  function ParseCurve(tag: string): (t: Option<CurveTag>)
    ensures t.Some? ==> CurveName(t.value) == tag && tag in CurveKinds
    ensures t.None? ==> tag !in CurveKinds
  {
    if tag == "heart" then Some(HeartTag)
    else if tag == "butterfly" then Some(ButterflyTag)
    else if tag == "folium" then Some(FoliumTag)
    else if tag == "hypocycloid" then Some(HypocycloidTag)
    else None
  }

  /** The case labels of group 4. Surface primitives. */
  function ParseSurface(tag: string): (t: Option<SurfaceTag>)
    ensures t.Some? ==> SurfaceName(t.value) == tag && tag in SurfaceKinds
    ensures t.None? ==> tag !in SurfaceKinds
  {
    if tag == "torus" then Some(TorusTag)
    else if tag == "eight" then Some(EightTag)
    else if tag == "astroidal" then Some(AstroidalTag)
    else if tag == "kiss" then Some(KissTag)
    else if tag == "bohemiandome" then Some(BohemianDomeTag)
    else if tag == "crossedtrough" then Some(CrossedTroughTag)
    else if tag == "sine" then Some(SineTag)
    else if tag == "cayley" then Some(CayleyTag)
    else if tag == "mobius" then Some(MobiusTag)
    else if tag == "elliptichyperboloid" then Some(EllipticHyperboloidTag)
    else if tag == "crosscap" then Some(CrossCapTag)
    else if tag == "crosscap2" then Some(CrossCap2Tag)
    else if tag == "cornucopia" then Some(CornucopiaTag)
    else if tag == "henneberg" then Some(HennebergTag)
    else if tag == "roman" then Some(RomanTag)
    else if tag == "corkscrew" then Some(CorkscrewTag)
    else if tag == "kleinbottle" then Some(KleinBottleTag)
    else if tag == "kleinbottle2" then Some(KleinBottle2Tag)
    else None
  }

  /** The `switch` on `figure.type`: the kind whose case label equals the tag, if any. */
  function ParseKind(tag: string): (k: Option<Kind>)
    ensures k.Some? ==> TagName(k.value) == tag
    ensures k.None? ==> tag !in Kinds
  {
    match ParsePlanar(tag)
    case Some(t) => Some(PlanarKind(t))
    case None =>
      match ParseSpatial(tag)
      case Some(t) => Some(SpatialKind(t))
      case None =>
        match ParseCurve(tag)
        case Some(t) => Some(CurveKind(t))
        case None =>
          match ParseSurface(tag)
          case Some(t) => Some(SurfaceKind(t))
          case None => None
  }

  function PlanarForwards(t: PlanarTag): seq<string>
  {
    match t
    case SquareTag => ["side"]
    case RegularTag => ["sides", "radius"]
    case CircleTag => ["radius", "slices"]
    case TriangleTag => []
    case RectangleTag => []
    case TrapeziumTag => ["base", "height", "top"]
  }

  function SpatialForwards(t: SpatialTag): seq<string>
  {
    match t
    case ConeTag => ["radius", "height", "slices", "stacks"]
    case PyramidTag => ["sides", "radius", "height", "stacks"]
    case CylinderTag => ["radius", "height", "slices", "stacks"]
    case PrismTag => ["sides", "radius", "height", "stacks"]
    case CubeTag => ["side"]
    case BlockTag => ["x", "y", "z"]
    case SphereTag => ["radius", "slices", "stacks"]
    case HalfSphereTag => ["radius", "slices", "stacks"]
  }

  function CurveForwards(t: CurveTag): seq<string>
  {
    match t
    case HeartTag => ["samples"]
    case ButterflyTag => ["samples"]
    case FoliumTag => ["a", "b", "samples"]
    case HypocycloidTag => ["a", "b", "samples"]
  }

  /** The data fields each surface's `proto*` function receives. */
  function ProtoParams(t: SurfaceTag): seq<string>
  {
    match t
    case TorusTag => ["inner", "outer"]
    case EightTag => []
    case AstroidalTag => []
    case KissTag => []
    case BohemianDomeTag => ["a", "b", "c"]
    case CrossedTroughTag => []
    case SineTag => []
    case CayleyTag => []
    case MobiusTag => []
    case EllipticHyperboloidTag => []
    case CrossCapTag => []
    case CrossCap2Tag => []
    case CornucopiaTag => ["a", "b"]
    case HennebergTag => []
    case RomanTag => []
    case CorkscrewTag => ["a", "b"]
    case KleinBottleTag => []
    case KleinBottle2Tag => []
  }

  function SurfaceForwards(t: SurfaceTag): seq<string>
  {
    ProtoParams(t) + ["slices", "stacks"]
  }

  /** The fields of `figure.data` each kind forwards, in argument order. */
  function Forwards(k: Kind): seq<string>
  {
    match k
    case PlanarKind(t) => PlanarForwards(t)
    case SpatialKind(t) => SpatialForwards(t)
    case CurveKind(t) => CurveForwards(t)
    case SurfaceKind(t) => SurfaceForwards(t)
  }

  /** The constructor call of each case in group 1. Planar primitives. */
  function ConstructPlanar(t: PlanarTag, dt: map<string, real>): (p: Primitive)
    ensures KindOf(p) == PlanarKind(t)
    ensures ArgsOf(p) == Fields(dt, PlanarForwards(t))
  {
    match t
    case SquareTag => Square(Field(dt, "side"))
    case RegularTag => Regular(Field(dt, "sides"), Field(dt, "radius"))
    case CircleTag => Circle(Field(dt, "radius"), Field(dt, "slices"))
    case TriangleTag => Triangle(1.0)
    case RectangleTag => Rectangle(2.0, 3.0)
    case TrapeziumTag => Trapezium(Field(dt, "base"), Field(dt, "height"), Field(dt, "top"))
  }

  /** The constructor call of each case in group 2. Spatial primitives. */
  function ConstructSpatial(t: SpatialTag, dt: map<string, real>): (p: Primitive)
    ensures KindOf(p) == SpatialKind(t)
    ensures ArgsOf(p) == Fields(dt, SpatialForwards(t))
  {
    match t
    case ConeTag => ClosedCone(Field(dt, "radius"), Field(dt, "height"), Field(dt, "slices"), Field(dt, "stacks"))
    case PyramidTag => ClosedPyramid(Field(dt, "sides"), Field(dt, "radius"), Field(dt, "height"), Field(dt, "stacks"))
    case CylinderTag => ClosedCylinder(Field(dt, "radius"), Field(dt, "height"), Field(dt, "slices"), Field(dt, "stacks"))
    case PrismTag => ClosedPrism(Field(dt, "sides"), Field(dt, "radius"), Field(dt, "height"), Field(dt, "stacks"))
    case CubeTag => Cube(Field(dt, "side"))
    case BlockTag => Block(Field(dt, "x"), Field(dt, "y"), Field(dt, "z"))
    case SphereTag => Sphere(Field(dt, "radius"), Field(dt, "slices"), Field(dt, "stacks"))
    case HalfSphereTag => ClosedHalfSphere(Field(dt, "radius"), Field(dt, "slices"), Field(dt, "stacks"))
  }

  /** The constructor call of each case in group 3. Complex planar primitives (curves). */
  function ConstructCurve(t: CurveTag, dt: map<string, real>): (p: Primitive)
    ensures KindOf(p) == CurveKind(t)
    ensures ArgsOf(p) == Fields(dt, CurveForwards(t))
  {
    match t
    case HeartTag => TPolygon(Heart, Field(dt, "samples"))
    case ButterflyTag => TPolygon(Butterfly, Field(dt, "samples"))
    case FoliumTag => RPolygon(Folium(Field(dt, "a"), Field(dt, "b")), Field(dt, "samples"))
    case HypocycloidTag => TPolygon(Hypocycloid(Field(dt, "a"), Field(dt, "b")), Field(dt, "samples"))
  }

  /** The `proto*` call of each surface case: the parametric function handed to the surface constructor. */
  function Proto(t: SurfaceTag, dt: map<string, real>): (s: Surface)
    ensures KindOfSurface(s) == SurfaceKind(t)
    ensures SurfaceArgs(s) == Fields(dt, ProtoParams(t))
  {
    match t
    case TorusTag => Torus(Field(dt, "inner"), Field(dt, "outer"))
    case EightTag => EightSurface
    case AstroidalTag => AstroidalEllipsoid
    case KissTag => KissSurface
    case BohemianDomeTag => BohemianDome(Field(dt, "a"), Field(dt, "b"), Field(dt, "c"))
    case CrossedTroughTag => CrossedTrough
    case SineTag => SineSurface
    case CayleyTag => CayleySurface
    case MobiusTag => MobiusStrip
    case EllipticHyperboloidTag => EllipticHyperboloid
    case CrossCapTag => CrossCap
    case CrossCap2Tag => CrossCap2
    case CornucopiaTag => Cornucopia(Field(dt, "a"), Field(dt, "b"))
    case HennebergTag => HennebergMinimal
    case RomanTag => RomanSurface
    case CorkscrewTag => Corkscrew(Field(dt, "a"), Field(dt, "b"))
    case KleinBottleTag => KleinBottle
    case KleinBottle2Tag => KleinBottle2
  }

  /** The constructor call of each case in group 4. Surface primitives: crossedtrough and cayley are z-surfaces. */
  function ConstructSurface(t: SurfaceTag, dt: map<string, real>): (p: Primitive)
    ensures KindOf(p) == SurfaceKind(t)
    ensures ArgsOf(p) == Fields(dt, SurfaceForwards(t))
  {
    var surface := Proto(t, dt);
    FieldsAppend(dt, ProtoParams(t), ["slices", "stacks"]);
    if t == CrossedTroughTag || t == CayleyTag then ZSurface(surface, Field(dt, "slices"), Field(dt, "stacks"))
    else UvSurface(surface, Field(dt, "slices"), Field(dt, "stacks"))
  }

  /** The constructor call each case of the `switch` makes. */
  function Construct(k: Kind, dt: map<string, real>): (p: Primitive)
    ensures KindOf(p) == k
    ensures ArgsOf(p) == Fields(dt, Forwards(k))
  {
    match k
    case PlanarKind(t) => ConstructPlanar(t, dt)
    case SpatialKind(t) => ConstructSpatial(t, dt)
    case CurveKind(t) => ConstructCurve(t, dt)
    case SurfaceKind(t) => ConstructSurface(t, dt)
  }

  function KindOfCurve(c: Curve): Kind
  {
    match c
    case Heart => CurveKind(HeartTag)
    case Butterfly => CurveKind(ButterflyTag)
    case Folium(_, _) => CurveKind(FoliumTag)
    case Hypocycloid(_, _) => CurveKind(HypocycloidTag)
  }

  function CurveArgs(c: Curve): seq<Arg>
  {
    match c
    case Heart => []
    case Butterfly => []
    case Folium(a, b) => [a, b]
    case Hypocycloid(a, b) => [a, b]
  }

  function KindOfSurface(s: Surface): Kind
  {
    match s
    case Torus(_, _) => SurfaceKind(TorusTag)
    case EightSurface => SurfaceKind(EightTag)
    case AstroidalEllipsoid => SurfaceKind(AstroidalTag)
    case KissSurface => SurfaceKind(KissTag)
    case BohemianDome(_, _, _) => SurfaceKind(BohemianDomeTag)
    case CrossedTrough => SurfaceKind(CrossedTroughTag)
    case SineSurface => SurfaceKind(SineTag)
    case CayleySurface => SurfaceKind(CayleyTag)
    case MobiusStrip => SurfaceKind(MobiusTag)
    case EllipticHyperboloid => SurfaceKind(EllipticHyperboloidTag)
    case CrossCap => SurfaceKind(CrossCapTag)
    case CrossCap2 => SurfaceKind(CrossCap2Tag)
    case Cornucopia(_, _) => SurfaceKind(CornucopiaTag)
    case HennebergMinimal => SurfaceKind(HennebergTag)
    case RomanSurface => SurfaceKind(RomanTag)
    case Corkscrew(_, _) => SurfaceKind(CorkscrewTag)
    case KleinBottle => SurfaceKind(KleinBottleTag)
    case KleinBottle2 => SurfaceKind(KleinBottle2Tag)
  }

  function SurfaceArgs(s: Surface): seq<Arg>
  {
    match s
    case Torus(inner, outer) => [inner, outer]
    case BohemianDome(a, b, c) => [a, b, c]
    case Cornucopia(a, b) => [a, b]
    case Corkscrew(a, b) => [a, b]
    case _ => []
  }

  /** The kind a handle was built from: the inverse of the dispatch. */
  function KindOf(p: Primitive): Kind
  {
    match p
    case Square(_) => PlanarKind(SquareTag)
    case Regular(_, _) => PlanarKind(RegularTag)
    case Circle(_, _) => PlanarKind(CircleTag)
    case Triangle(_) => PlanarKind(TriangleTag)
    case Rectangle(_, _) => PlanarKind(RectangleTag)
    case Trapezium(_, _, _) => PlanarKind(TrapeziumTag)
    case ClosedCone(_, _, _, _) => SpatialKind(ConeTag)
    case ClosedPyramid(_, _, _, _) => SpatialKind(PyramidTag)
    case ClosedCylinder(_, _, _, _) => SpatialKind(CylinderTag)
    case ClosedPrism(_, _, _, _) => SpatialKind(PrismTag)
    case Cube(_) => SpatialKind(CubeTag)
    case Block(_, _, _) => SpatialKind(BlockTag)
    case Sphere(_, _, _) => SpatialKind(SphereTag)
    case ClosedHalfSphere(_, _, _) => SpatialKind(HalfSphereTag)
    case TPolygon(c, _) => KindOfCurve(c)
    case RPolygon(c, _) => KindOfCurve(c)
    case UvSurface(s, _, _) => KindOfSurface(s)
    case ZSurface(s, _, _) => KindOfSurface(s)
  }

  /** The data-derived arguments a handle carries, in constructor order. */
  function ArgsOf(p: Primitive): seq<Arg>
  {
    match p
    case Square(side) => [side]
    case Regular(sides, radius) => [sides, radius]
    case Circle(radius, slices) => [radius, slices]
    case Triangle(_) => []
    case Rectangle(_, _) => []
    case Trapezium(base, height, top) => [base, height, top]
    case ClosedCone(radius, height, slices, stacks) => [radius, height, slices, stacks]
    case ClosedPyramid(sides, radius, height, stacks) => [sides, radius, height, stacks]
    case ClosedCylinder(radius, height, slices, stacks) => [radius, height, slices, stacks]
    case ClosedPrism(sides, radius, height, stacks) => [sides, radius, height, stacks]
    case Cube(side) => [side]
    case Block(x, y, z) => [x, y, z]
    case Sphere(radius, slices, stacks) => [radius, slices, stacks]
    case ClosedHalfSphere(radius, slices, stacks) => [radius, slices, stacks]
    case TPolygon(c, samples) => CurveArgs(c) + [samples]
    case RPolygon(c, samples) => CurveArgs(c) + [samples]
    case UvSurface(s, slices, stacks) => SurfaceArgs(s) + [slices, stacks]
    case ZSurface(s, slices, stacks) => SurfaceArgs(s) + [slices, stacks]
  }

  /**
   * buildPrimitive: a recognised tag yields a handle of that kind whose
   * arguments are exactly the data fields the kind forwards; any other tag
   * throws a message that ends with the tag. Nothing but `figure` is read.
   */
  function Build(figure: Figure): (r: Result<Primitive, string>)
    ensures r.Success? ==> figure.kind in Kinds
    ensures r.Failure? ==> figure.kind !in Kinds
    ensures r.Success? ==> TagName(KindOf(r.value)) == figure.kind
    ensures r.Success? ==> ArgsOf(r.value) == Fields(figure.data, Forwards(KindOf(r.value)))
    ensures r.Failure? ==> r.error == InvalidKindMessage + figure.kind
  {
    match ParseKind(figure.kind)
    case Some(k) => Success(Construct(k, figure.data))
    case None => Failure(InvalidKindMessage + figure.kind)
  }

  /** An unknown kind aborts construction with a message naming that kind, whatever the data. */
  lemma UnknownKindNamedInError(figure: Figure)
    requires figure.kind !in Kinds
    ensures Build(figure).Failure?
    ensures var msg := Build(figure).error;
      |msg| >= |figure.kind| && msg[|msg| - |figure.kind|..] == figure.kind
  {
    var msg := Build(figure).error;
    assert msg == InvalidKindMessage + figure.kind;
    assert msg[|InvalidKindMessage|..] == figure.kind;
  }

  /** The unsupported triangle tag falls back to a fixed shape and reads no data. */
  lemma TriangleFallback(data: map<string, real>)
    ensures Build(Figure("triangle", data)) == Success(Triangle(1.0))
    ensures Forwards(PlanarKind(TriangleTag)) == []
  {
  }

  /** The unsupported rectangle tag falls back to a fixed shape and reads no data. */
  lemma RectangleFallback(data: map<string, real>)
    ensures Build(Figure("rectangle", data)) == Success(Rectangle(2.0, 3.0))
    ensures Forwards(PlanarKind(RectangleTag)) == []
  {
  }

  /**
   * Surface tags: crossedtrough and cayley build a z-surface, every other
   * surface tag a uv-surface, and all of them forward slices and stacks.
   */
  lemma SurfaceDispatch(t: SurfaceTag, data: map<string, real>)
    ensures var p := Construct(SurfaceKind(t), data);
      && (p.ZSurface? <==> t in {CrossedTroughTag, CayleyTag})
      && (p.UvSurface? <==> t !in {CrossedTroughTag, CayleyTag})
      && p.slices == Field(data, "slices")
      && p.stacks == Field(data, "stacks")
  {
  }

  /** Curve tags: folium builds an r-polygon, the other three a t-polygon; all forward samples. */
  lemma CurveDispatch(t: CurveTag, data: map<string, real>)
    ensures var p := Construct(CurveKind(t), data);
      && (p.RPolygon? <==> t == FoliumTag)
      && (p.TPolygon? <==> t != FoliumTag)
      && p.samples == Field(data, "samples")
  {
  }

  /**
   * Spatial tags: cone and cylinder forward radius, height, slices and stacks;
   * pyramid and prism forward sides, radius, height and stacks; sphere and
   * halfsphere forward radius, slices and stacks.
   */
  lemma SpatialForwarding(t: SpatialTag, data: map<string, real>)
    ensures t == ConeTag || t == CylinderTag ==>
      ArgsOf(Construct(SpatialKind(t), data)) == [Field(data, "radius"), Field(data, "height"), Field(data, "slices"), Field(data, "stacks")]
    ensures t == PyramidTag || t == PrismTag ==>
      ArgsOf(Construct(SpatialKind(t), data)) == [Field(data, "sides"), Field(data, "radius"), Field(data, "height"), Field(data, "stacks")]
    ensures t == SphereTag || t == HalfSphereTag ==>
      ArgsOf(Construct(SpatialKind(t), data)) == [Field(data, "radius"), Field(data, "slices"), Field(data, "stacks")]
  {
  }

  /**
   * The result depends only on the tag and on the fields that tag forwards:
   * figures that agree on those build identical handles, and figures with
   * the same unknown tag fail with the same error.
   */
  lemma BuildReadsOnlyForwardedFields(f1: Figure, f2: Figure)
    requires f1.kind == f2.kind
    requires ParseKind(f1.kind).Some? ==>
               forall n :: n in Forwards(ParseKind(f1.kind).value) ==> Field(f1.data, n) == Field(f2.data, n)
    ensures Build(f1) == Build(f2)
  {
    match ParseKind(f1.kind)
    case None =>
    case Some(k) =>
      match k
      case PlanarKind(t) => PlanarReadsOnlyForwardedFields(t, f1.data, f2.data);
      case SpatialKind(t) => SpatialReadsOnlyForwardedFields(t, f1.data, f2.data);
      case CurveKind(t) => CurveReadsOnlyForwardedFields(t, f1.data, f2.data);
      case SurfaceKind(t) => SurfaceReadsOnlyForwardedFields(t, f1.data, f2.data);
  }

  lemma PlanarReadsOnlyForwardedFields(t: PlanarTag, d1: map<string, real>, d2: map<string, real>)
    requires forall n :: n in PlanarForwards(t) ==> Field(d1, n) == Field(d2, n)
    ensures ConstructPlanar(t, d1) == ConstructPlanar(t, d2)
  {
  }

  lemma SpatialReadsOnlyForwardedFields(t: SpatialTag, d1: map<string, real>, d2: map<string, real>)
    requires forall n :: n in SpatialForwards(t) ==> Field(d1, n) == Field(d2, n)
    ensures ConstructSpatial(t, d1) == ConstructSpatial(t, d2)
  {
  }

  lemma CurveReadsOnlyForwardedFields(t: CurveTag, d1: map<string, real>, d2: map<string, real>)
    requires forall n :: n in CurveForwards(t) ==> Field(d1, n) == Field(d2, n)
    ensures ConstructCurve(t, d1) == ConstructCurve(t, d2)
  {
  }

  lemma SurfaceReadsOnlyForwardedFields(t: SurfaceTag, d1: map<string, real>, d2: map<string, real>)
    requires forall n :: n in SurfaceForwards(t) ==> Field(d1, n) == Field(d2, n)
    ensures ConstructSurface(t, d1) == ConstructSurface(t, d2)
  {
    var k := |ProtoParams(t)|;
    assert SurfaceForwards(t)[k] == "slices" && SurfaceForwards(t)[k + 1] == "stacks";
    forall n | n in ProtoParams(t) ensures Field(d1, n) == Field(d2, n) {
      assert n in SurfaceForwards(t);
    }
    ProtoReadsOnlyParams(t, d1, d2);
  }

  lemma ProtoReadsOnlyParams(t: SurfaceTag, d1: map<string, real>, d2: map<string, real>)
    requires forall n :: n in ProtoParams(t) ==> Field(d1, n) == Field(d2, n)
    ensures Proto(t, d1) == Proto(t, d2)
  {
    match t
    case TorusTag =>
      assert ProtoParams(t)[0] == "inner" && ProtoParams(t)[1] == "outer";
    case BohemianDomeTag =>
      assert ProtoParams(t)[0] == "a" && ProtoParams(t)[1] == "b" && ProtoParams(t)[2] == "c";
    case _ =>
  }
}
