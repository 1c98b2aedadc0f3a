/**
 * The `<materials>` block of a scene file: a first-error-wins validator that
 * reads the children in order, rejects a child that is not a `<material>`,
 * propagates the error of a material that does not validate, rejects a
 * repeated id, and otherwise collects the materials in an id-keyed table.
 *
 * `Scan` is the specification. `Load` is the intended reading, in which an id
 * is repeated only if an earlier child stored it; `LoadAsWritten` is the
 * reading of the code, whose duplicate check also finds the property names a
 * plain object inherits. `MaterialsBlock`'s constructor is the loop that fills
 * the table in place and is proved to end in the state `LoadAsWritten`
 * describes.
 */
module Materials {
  import opened Wrappers
  import opened Colors

  /** The attribute values of one validated `<material>` element. */
  datatype MaterialValues = MaterialValues(
    id: string,
    shininess: real,
    emission: Rgba,
    ambient: Rgba,
    diffuse: Rgba,
    specular: Rgba)

  /**
   * Parse error codes. The numeric values of the codes live outside this
   * model; `Other` stands for any code a child element may report itself.
   */
  datatype ParseError = BadChild | RepeatedId | Other(code: int)

  /** The outcome of a child's own validation, left abstract: valid with its values, or its error. */
  datatype ElementCheck = Valid(values: MaterialValues) | Invalid(error: ParseError, errorMessage: string)

  /** One child node of the block: its tag name and how it validates when read as a material. */
  datatype XmlChild = XmlChild(tagName: string, check: ElementCheck)

  datatype Rejection = Rejection(error: ParseError, errorMessage: string)

  /** The block after reading: the table so far, and the error that stopped the reading, if any. */
  datatype Loaded = Loaded(materials: map<string, MaterialValues>, failure: Option<Rejection>)

  const MaterialTag := "material"
  const BadChildMessage := "Unexpected child tagname"
  const RepeatedIdMessage := "Repeated child id"

  /**
   * Keys that a lookup on a plain JavaScript object finds defined although no
   * material was stored under them: the properties inherited from
   * `Object.prototype`.
   */
  const ObjectPrototypeNames: set<string> := {
    "constructor", "__defineGetter__", "__defineSetter__", "hasOwnProperty",
    "__lookupGetter__", "__lookupSetter__", "isPrototypeOf",
    "propertyIsEnumerable", "toString", "valueOf", "__proto__", "toLocaleString"
  }

  /** Reading one more child into a table that has no error yet. */
  function Step(m: map<string, MaterialValues>, c: XmlChild, reserved: set<string>): Loaded
  {
    if c.tagName != MaterialTag then Loaded(m, Some(Rejection(BadChild, BadChildMessage)))
    else if c.check.Invalid? then Loaded(m, Some(Rejection(c.check.error, c.check.errorMessage)))
    else if c.check.values.id in m || c.check.values.id in reserved then
      Loaded(m, Some(Rejection(RepeatedId, RepeatedIdMessage)))
    else Loaded(m[c.check.values.id := c.check.values], None)
  }

  /**
   * One child is accepted exactly when it is a valid `<material>` whose id is
   * neither stored nor reserved; it is then stored under that id. A rejected
   * child leaves the table as it was.
   */
  lemma StepOutcome(m: map<string, MaterialValues>, c: XmlChild, reserved: set<string>)
    ensures var r := Step(m, c, reserved);
            r.failure.None? <==>
              c.tagName == MaterialTag && c.check.Valid? && c.check.values.id !in m && c.check.values.id !in reserved
    ensures var r := Step(m, c, reserved);
            r.failure.None? ==> r.materials == m[c.check.values.id := c.check.values]
    ensures var r := Step(m, c, reserved);
            r.failure.Some? ==> r.materials == m
  {
  }

  /**
   * Reading the children in order; `reserved` are the ids the duplicate check
   * finds present before anything is stored.
   */
  function Scan(cs: seq<XmlChild>, reserved: set<string>): (r: Loaded)
    ensures |r.materials| <= |cs|
    decreases |cs|
  {
    if cs == [] then Loaded(map[], None)
    else
      var prev := Scan(cs[..|cs| - 1], reserved);
      if prev.failure.Some? then prev else Step(prev.materials, cs[|cs| - 1], reserved)
  }

  /** The block as intended: an id is repeated only if an earlier child stored it. */
  function Load(cs: seq<XmlChild>): (r: Loaded)
    ensures |r.materials| <= |cs|
  {
    Scan(cs, {})
  }

  /** The block as written: the duplicate check also fires on inherited object properties. */
  function LoadAsWritten(cs: seq<XmlChild>): (r: Loaded)
    ensures |r.materials| <= |cs|
  {
    Scan(cs, ObjectPrototypeNames)
  }

  /** No reading stores an id the duplicate check treats as present from the start. */
  lemma {:induction false} ScanSkipsReserved(cs: seq<XmlChild>, reserved: set<string>)
    ensures forall id :: id in Scan(cs, reserved).materials ==> id !in reserved
    decreases |cs|
  {
    if cs != [] {
      ScanSkipsReserved(cs[..|cs| - 1], reserved);
    }
  }

  /** The table as written never holds an entry under an inherited object property name. */
  lemma AsWrittenSkipsPrototypeNames(cs: seq<XmlChild>)
    ensures forall id :: id in LoadAsWritten(cs).materials ==> id !in ObjectPrototypeNames
  {
    ScanSkipsReserved(cs, ObjectPrototypeNames);
  }

  /** Reading one more child: the outcome so far, or one more step if there was no error. */
  lemma ScanSnoc(cs: seq<XmlChild>, k: nat, reserved: set<string>)
    requires k < |cs|
    ensures var prev := Scan(cs[..k], reserved);
            Scan(cs[..k + 1], reserved) == if prev.failure.Some? then prev else Step(prev.materials, cs[k], reserved)
  {
    assert cs[..k + 1][..k] == cs[..k];
  }

  /** A prefix that fails decides the outcome of the whole sequence. */
  lemma PrefixFailureFinal(cs: seq<XmlChild>, k: nat, reserved: set<string>)
    requires k <= |cs| && Scan(cs[..k], reserved).failure.Some?
    ensures Scan(cs, reserved) == Scan(cs[..k], reserved)
  {
    assert cs[..k] + cs[k..] == cs;
    ScanFirstErrorWins(cs[..k], cs[k..], reserved);
  }

  function IdOf(c: XmlChild): string
    requires c.check.Valid?
  {
    c.check.values.id
  }

  /** Every child is a valid `<material>` and no two share an id. */
  predicate WellFormed(cs: seq<XmlChild>)
  {
    (forall i :: 0 <= i < |cs| ==> cs[i].tagName == MaterialTag && cs[i].check.Valid?) &&
    (forall i, j :: 0 <= i < j < |cs| ==> IdOf(cs[i]) != IdOf(cs[j]))
  }

  /** Once a read has failed, no later child changes the outcome. */
  lemma {:induction false} ScanFirstErrorWins(cs: seq<XmlChild>, more: seq<XmlChild>, reserved: set<string>)
    requires Scan(cs, reserved).failure.Some?
    ensures Scan(cs + more, reserved) == Scan(cs, reserved)
    decreases |more|
  {
    if more != [] {
      var init := more[..|more| - 1];
      assert (cs + more)[..|cs + more| - 1] == cs + init;
      ScanFirstErrorWins(cs, init, reserved);
    } else {
      assert cs + more == cs;
    }
  }

  /**
   * Reading stops at child k when the children before it were accepted and
   * child k is not: the table keeps the entries of children 0..k-1 and no
   * child after k is examined.
   */
  lemma ScanStopsAt(cs: seq<XmlChild>, k: nat, reserved: set<string>)
    requires k < |cs|
    requires Scan(cs[..k], reserved).failure.None?
    requires Step(Scan(cs[..k], reserved).materials, cs[k], reserved).failure.Some?
    ensures Scan(cs, reserved) == Step(Scan(cs[..k], reserved).materials, cs[k], reserved)
    ensures Scan(cs, reserved).materials == Scan(cs[..k], reserved).materials
  {
    ScanSnoc(cs, k, reserved);
    PrefixFailureFinal(cs, k + 1, reserved);
  }

  /** A child that is not a `<material>` stops the read with the bad-child error. */
  lemma ScanBadChildStops(cs: seq<XmlChild>, k: nat, reserved: set<string>)
    requires k < |cs| && Scan(cs[..k], reserved).failure.None?
    requires cs[k].tagName != MaterialTag
    ensures Scan(cs, reserved).failure == Some(Rejection(BadChild, BadChildMessage))
    ensures Scan(cs, reserved).materials == Scan(cs[..k], reserved).materials
  {
    ScanStopsAt(cs, k, reserved);
  }

  /** A `<material>` that does not validate stops the read with its own error and message. */
  lemma ScanInvalidChildPropagates(cs: seq<XmlChild>, k: nat, reserved: set<string>)
    requires k < |cs| && Scan(cs[..k], reserved).failure.None?
    requires cs[k].tagName == MaterialTag && cs[k].check.Invalid?
    ensures Scan(cs, reserved).failure == Some(Rejection(cs[k].check.error, cs[k].check.errorMessage))
    ensures Scan(cs, reserved).materials == Scan(cs[..k], reserved).materials
  {
    ScanStopsAt(cs, k, reserved);
  }

  /** A valid `<material>` whose id is reserved stops the read with the repeated-id error. */
  lemma ScanReservedIdStops(cs: seq<XmlChild>, k: nat, reserved: set<string>)
    requires k < |cs| && Scan(cs[..k], reserved).failure.None?
    requires cs[k].tagName == MaterialTag && cs[k].check.Valid? && IdOf(cs[k]) in reserved
    ensures Scan(cs, reserved).failure == Some(Rejection(RepeatedId, RepeatedIdMessage))
    ensures Scan(cs, reserved).materials == Scan(cs[..k], reserved).materials
  {
    ScanStopsAt(cs, k, reserved);
  }

  /**
   * A material whose id an accepted earlier child already used stops the read
   * with the repeated-id error, and the table keeps that earlier material.
   */
  lemma ScanRepeatedIdKeepsFirst(cs: seq<XmlChild>, j: nat, k: nat, reserved: set<string>)
    requires j < k < |cs| && Scan(cs[..k], reserved).failure.None?
    requires cs[k].tagName == MaterialTag && cs[k].check.Valid?
    requires cs[j].check.Valid? && IdOf(cs[j]) == IdOf(cs[k])
    ensures Scan(cs, reserved).failure == Some(Rejection(RepeatedId, RepeatedIdMessage))
    ensures IdOf(cs[k]) in Scan(cs, reserved).materials
    ensures Scan(cs, reserved).materials[IdOf(cs[k])] == cs[j].check.values
  {
    var prefix := cs[..k];
    ScanLoadedIsAcceptable(prefix, reserved);
    ScanContents(prefix, reserved);
    assert prefix[j] == cs[j];
    ScanStopsAt(cs, k, reserved);
  }

  /** The ids of children that all validated. */
  function Ids(cs: seq<XmlChild>): set<string>
    requires forall i :: 0 <= i < |cs| ==> cs[i].check.Valid?
  {
    set i | 0 <= i < |cs| :: IdOf(cs[i])
  }

  /** Every child is a valid `<material>`, no two share an id, and no id is reserved. */
  predicate Acceptable(cs: seq<XmlChild>, reserved: set<string>)
  {
    WellFormed(cs) && forall i :: 0 <= i < |cs| ==> IdOf(cs[i]) !in reserved
  }

  /** In an acceptable sequence the last id is neither reserved nor among the earlier ones. */
  lemma LastIdFresh(cs: seq<XmlChild>, reserved: set<string>)
    requires Acceptable(cs, reserved) && cs != []
    ensures Acceptable(cs[..|cs| - 1], reserved)
    ensures IdOf(cs[|cs| - 1]) !in Ids(cs[..|cs| - 1]) && IdOf(cs[|cs| - 1]) !in reserved
  {
    var init := cs[..|cs| - 1];
    assert forall i :: 0 <= i < |init| ==> init[i] == cs[i];
    forall i | 0 <= i < |init| ensures IdOf(init[i]) != IdOf(cs[|cs| - 1]) {
      assert init[i] == cs[i];
    }
  }

  /** An acceptable sequence reads without error, and its table's keys are the children's ids. */
  lemma {:induction false} ScanAcceptableLoads(cs: seq<XmlChild>, reserved: set<string>)
    requires Acceptable(cs, reserved)
    ensures Scan(cs, reserved).failure.None?
    ensures Scan(cs, reserved).materials.Keys == Ids(cs)
    decreases |cs|
  {
    if cs != [] {
      var init := cs[..|cs| - 1];
      LastIdFresh(cs, reserved);
      ScanAcceptableLoads(init, reserved);
      IdsSnoc(cs);
    }
  }

  /** The ids of a sequence are those of all but its last child, and the last child's. */
  lemma IdsSnoc(cs: seq<XmlChild>)
    requires cs != [] && forall i :: 0 <= i < |cs| ==> cs[i].check.Valid?
    ensures Ids(cs) == Ids(cs[..|cs| - 1]) + {IdOf(cs[|cs| - 1])}
  {
    var init := cs[..|cs| - 1];
    forall x | x in Ids(cs) ensures x in Ids(init) + {IdOf(cs[|cs| - 1])} {
      var i :| 0 <= i < |cs| && IdOf(cs[i]) == x;
      if i < |init| { assert IdOf(init[i]) == x; }
    }
    forall x | x in Ids(init) ensures x in Ids(cs) {
      var i :| 0 <= i < |init| && IdOf(init[i]) == x;
      assert IdOf(cs[i]) == x;
    }
  }

  /** A sequence that reads without error is acceptable. */
  lemma {:induction false} ScanLoadedIsAcceptable(cs: seq<XmlChild>, reserved: set<string>)
    requires Scan(cs, reserved).failure.None?
    ensures Acceptable(cs, reserved)
    decreases |cs|
  {
    if cs != [] {
      var init := cs[..|cs| - 1];
      ScanLoadedIsAcceptable(init, reserved);
      ScanAcceptableLoads(init, reserved);
      AcceptableSnoc(cs, reserved);
    }
  }

  /** An acceptable sequence followed by a valid material with a new, unreserved id is acceptable. */
  lemma AcceptableSnoc(cs: seq<XmlChild>, reserved: set<string>)
    requires cs != [] && Acceptable(cs[..|cs| - 1], reserved)
    requires cs[|cs| - 1].tagName == MaterialTag && cs[|cs| - 1].check.Valid?
    requires IdOf(cs[|cs| - 1]) !in Ids(cs[..|cs| - 1]) && IdOf(cs[|cs| - 1]) !in reserved
    ensures Acceptable(cs, reserved)
  {
    var init := cs[..|cs| - 1];
    forall i | 0 <= i < |cs| ensures cs[i].tagName == MaterialTag && cs[i].check.Valid? && IdOf(cs[i]) !in reserved {
      if i < |init| { assert cs[i] == init[i]; }
    }
    forall i, j | 0 <= i < j < |cs| ensures IdOf(cs[i]) != IdOf(cs[j]) {
      assert cs[i] == init[i];
      if j < |init| {
        assert cs[j] == init[j];
      } else {
        assert IdOf(init[i]) in Ids(init);
      }
    }
  }

  /** Reading succeeds exactly when every child is a valid `<material>`, the ids are distinct and none is reserved. */
  lemma ScanSucceedsIff(cs: seq<XmlChild>, reserved: set<string>)
    ensures Scan(cs, reserved).failure.None? <==> Acceptable(cs, reserved)
  {
    if Acceptable(cs, reserved) {
      ScanAcceptableLoads(cs, reserved);
    }
    if Scan(cs, reserved).failure.None? {
      ScanLoadedIsAcceptable(cs, reserved);
    }
  }

  /** A successful read stores each child's values under its id. */
  lemma {:induction false} ScanContents(cs: seq<XmlChild>, reserved: set<string>)
    requires Acceptable(cs, reserved)
    ensures Scan(cs, reserved).failure.None?
    ensures forall i :: 0 <= i < |cs| ==>
              IdOf(cs[i]) in Scan(cs, reserved).materials && Scan(cs, reserved).materials[IdOf(cs[i])] == cs[i].check.values
    decreases |cs|
  {
    ScanAcceptableLoads(cs, reserved);
    if cs != [] {
      var init := cs[..|cs| - 1];
      var last := cs[|cs| - 1];
      LastIdFresh(cs, reserved);
      ScanContents(init, reserved);
      var m := Scan(init, reserved).materials;
      assert Scan(cs, reserved).materials == m[IdOf(last) := last.check.values];
      forall i | 0 <= i < |init|
        ensures IdOf(cs[i]) in Scan(cs, reserved).materials && Scan(cs, reserved).materials[IdOf(cs[i])] == cs[i].check.values
      {
        assert init[i] == cs[i];
        assert IdOf(cs[i]) != IdOf(last);
      }
    }
  }

  /** A successful read holds exactly as many entries as there are children. */
  lemma {:induction false} ScanSize(cs: seq<XmlChild>, reserved: set<string>)
    requires Acceptable(cs, reserved)
    ensures Scan(cs, reserved).failure.None?
    ensures |Scan(cs, reserved).materials| == |cs|
    decreases |cs|
  {
    ScanAcceptableLoads(cs, reserved);
    if cs != [] {
      var init := cs[..|cs| - 1];
      var last := cs[|cs| - 1];
      LastIdFresh(cs, reserved);
      ScanSize(init, reserved);
      ScanAcceptableLoads(init, reserved);
      var m := Scan(init, reserved).materials;
      assert IdOf(last) !in m;
      assert Scan(cs, reserved).materials == m[IdOf(last) := last.check.values];
    }
  }

  // ------------------------------------------------------------ the intended reading
  // The general facts with nothing reserved: an id is repeated only if an
  // earlier child stored it.

  /** With nothing reserved, acceptable is well formed. */
  lemma NothingReserved(cs: seq<XmlChild>)
    ensures Acceptable(cs, {}) <==> WellFormed(cs)
  {
  }

  lemma LoadFirstErrorWins(cs: seq<XmlChild>, more: seq<XmlChild>)
    requires Load(cs).failure.Some?
    ensures Load(cs + more) == Load(cs)
  {
    ScanFirstErrorWins(cs, more, {});
  }

  lemma StopsAt(cs: seq<XmlChild>, k: nat)
    requires k < |cs|
    requires Load(cs[..k]).failure.None?
    requires Step(Load(cs[..k]).materials, cs[k], {}).failure.Some?
    ensures Load(cs) == Step(Load(cs[..k]).materials, cs[k], {})
    ensures Load(cs).materials == Load(cs[..k]).materials
  {
    ScanStopsAt(cs, k, {});
  }

  lemma BadChildStops(cs: seq<XmlChild>, k: nat)
    requires k < |cs| && Load(cs[..k]).failure.None?
    requires cs[k].tagName != MaterialTag
    ensures Load(cs).failure == Some(Rejection(BadChild, BadChildMessage))
    ensures Load(cs).materials == Load(cs[..k]).materials
  {
    ScanBadChildStops(cs, k, {});
  }

  lemma InvalidChildPropagates(cs: seq<XmlChild>, k: nat)
    requires k < |cs| && Load(cs[..k]).failure.None?
    requires cs[k].tagName == MaterialTag && cs[k].check.Invalid?
    ensures Load(cs).failure == Some(Rejection(cs[k].check.error, cs[k].check.errorMessage))
    ensures Load(cs).materials == Load(cs[..k]).materials
  {
    ScanInvalidChildPropagates(cs, k, {});
  }

  lemma RepeatedIdKeepsFirst(cs: seq<XmlChild>, j: nat, k: nat)
    requires j < k < |cs| && Load(cs[..k]).failure.None?
    requires cs[k].tagName == MaterialTag && cs[k].check.Valid?
    requires cs[j].check.Valid? && IdOf(cs[j]) == IdOf(cs[k])
    ensures Load(cs).failure == Some(Rejection(RepeatedId, RepeatedIdMessage))
    ensures IdOf(cs[k]) in Load(cs).materials
    ensures Load(cs).materials[IdOf(cs[k])] == cs[j].check.values
  {
    ScanRepeatedIdKeepsFirst(cs, j, k, {});
  }

  lemma WellFormedLoads(cs: seq<XmlChild>)
    requires WellFormed(cs)
    ensures Load(cs).failure.None?
    ensures Load(cs).materials.Keys == Ids(cs)
  {
    NothingReserved(cs);
    ScanAcceptableLoads(cs, {});
  }

  lemma LoadedIsWellFormed(cs: seq<XmlChild>)
    requires Load(cs).failure.None?
    ensures WellFormed(cs)
  {
    ScanLoadedIsAcceptable(cs, {});
  }

  /** Reading succeeds exactly when every child is a valid `<material>` and the ids are distinct. */
  lemma LoadSucceedsIff(cs: seq<XmlChild>)
    ensures Load(cs).failure.None? <==> WellFormed(cs)
  {
    ScanSucceedsIff(cs, {});
    NothingReserved(cs);
  }

  lemma LoadContents(cs: seq<XmlChild>)
    requires WellFormed(cs)
    ensures Load(cs).failure.None?
    ensures forall i :: 0 <= i < |cs| ==> IdOf(cs[i]) in Load(cs).materials && Load(cs).materials[IdOf(cs[i])] == cs[i].check.values
  {
    NothingReserved(cs);
    ScanContents(cs, {});
  }

  lemma LoadSize(cs: seq<XmlChild>)
    requires WellFormed(cs)
    ensures Load(cs).failure.None?
    ensures |Load(cs).materials| == |cs|
  {
    NothingReserved(cs);
    ScanSize(cs, {});
  }

  // ------------------------------------------------------------ the reading as written
  // The general facts with the inherited object property names reserved, as
  // the duplicate check of the block reads them.

  lemma AsWrittenFirstErrorWins(cs: seq<XmlChild>, more: seq<XmlChild>)
    requires LoadAsWritten(cs).failure.Some?
    ensures LoadAsWritten(cs + more) == LoadAsWritten(cs)
  {
    ScanFirstErrorWins(cs, more, ObjectPrototypeNames);
  }

  lemma AsWrittenStopsAt(cs: seq<XmlChild>, k: nat)
    requires k < |cs|
    requires LoadAsWritten(cs[..k]).failure.None?
    requires Step(LoadAsWritten(cs[..k]).materials, cs[k], ObjectPrototypeNames).failure.Some?
    ensures LoadAsWritten(cs) == Step(LoadAsWritten(cs[..k]).materials, cs[k], ObjectPrototypeNames)
    ensures LoadAsWritten(cs).materials == LoadAsWritten(cs[..k]).materials
  {
    ScanStopsAt(cs, k, ObjectPrototypeNames);
  }

  lemma AsWrittenBadChildStops(cs: seq<XmlChild>, k: nat)
    requires k < |cs| && LoadAsWritten(cs[..k]).failure.None?
    requires cs[k].tagName != MaterialTag
    ensures LoadAsWritten(cs).failure == Some(Rejection(BadChild, BadChildMessage))
    ensures LoadAsWritten(cs).materials == LoadAsWritten(cs[..k]).materials
  {
    ScanBadChildStops(cs, k, ObjectPrototypeNames);
  }

  lemma AsWrittenInvalidChildPropagates(cs: seq<XmlChild>, k: nat)
    requires k < |cs| && LoadAsWritten(cs[..k]).failure.None?
    requires cs[k].tagName == MaterialTag && cs[k].check.Invalid?
    ensures LoadAsWritten(cs).failure == Some(Rejection(cs[k].check.error, cs[k].check.errorMessage))
    ensures LoadAsWritten(cs).materials == LoadAsWritten(cs[..k]).materials
  {
    ScanInvalidChildPropagates(cs, k, ObjectPrototypeNames);
  }

  lemma AsWrittenRepeatedIdKeepsFirst(cs: seq<XmlChild>, j: nat, k: nat)
    requires j < k < |cs| && LoadAsWritten(cs[..k]).failure.None?
    requires cs[k].tagName == MaterialTag && cs[k].check.Valid?
    requires cs[j].check.Valid? && IdOf(cs[j]) == IdOf(cs[k])
    ensures LoadAsWritten(cs).failure == Some(Rejection(RepeatedId, RepeatedIdMessage))
    ensures IdOf(cs[k]) in LoadAsWritten(cs).materials
    ensures LoadAsWritten(cs).materials[IdOf(cs[k])] == cs[j].check.values
  {
    ScanRepeatedIdKeepsFirst(cs, j, k, ObjectPrototypeNames);
  }

  /** A valid material named like an inherited object property is rejected as repeated, wherever it stands. */
  lemma AsWrittenPrototypeIdStops(cs: seq<XmlChild>, k: nat)
    requires k < |cs| && LoadAsWritten(cs[..k]).failure.None?
    requires cs[k].tagName == MaterialTag && cs[k].check.Valid? && IdOf(cs[k]) in ObjectPrototypeNames
    ensures LoadAsWritten(cs).failure == Some(Rejection(RepeatedId, RepeatedIdMessage))
    ensures LoadAsWritten(cs).materials == LoadAsWritten(cs[..k]).materials
  {
    ScanReservedIdStops(cs, k, ObjectPrototypeNames);
  }

  /**
   * As written, reading succeeds exactly when every child is a valid
   * `<material>`, the ids are distinct and none is an inherited object property name.
   */
  lemma AsWrittenSucceedsIff(cs: seq<XmlChild>)
    ensures LoadAsWritten(cs).failure.None? <==>
              WellFormed(cs) && forall i :: 0 <= i < |cs| ==> IdOf(cs[i]) !in ObjectPrototypeNames
  {
    ScanSucceedsIff(cs, ObjectPrototypeNames);
  }

  lemma AsWrittenContents(cs: seq<XmlChild>)
    requires WellFormed(cs) && forall i :: 0 <= i < |cs| ==> IdOf(cs[i]) !in ObjectPrototypeNames
    ensures LoadAsWritten(cs).failure.None?
    ensures forall i :: 0 <= i < |cs| ==>
              IdOf(cs[i]) in LoadAsWritten(cs).materials && LoadAsWritten(cs).materials[IdOf(cs[i])] == cs[i].check.values
    ensures |LoadAsWritten(cs).materials| == |cs|
  {
    ScanContents(cs, ObjectPrototypeNames);
    ScanSize(cs, ObjectPrototypeNames);
  }

  /** Where no id is an inherited object property, the block as written reads like the intended one. */
  lemma {:induction false} AsWrittenAgreesOffPrototypeNames(cs: seq<XmlChild>)
    requires forall i :: 0 <= i < |cs| && cs[i].check.Valid? ==> IdOf(cs[i]) !in ObjectPrototypeNames
    ensures LoadAsWritten(cs) == Load(cs)
    decreases |cs|
  {
    if cs != [] {
      var init := cs[..|cs| - 1];
      assert forall i :: 0 <= i < |init| ==> init[i] == cs[i];
      AsWrittenAgreesOffPrototypeNames(init);
    }
  }

  /** A single material with id "constructor": the block as written rejects it as repeated. */
  lemma PrototypeIdRejectedAsWritten()
    ensures var black := Rgba(0.0, 0.0, 0.0, 1.0);
            var cs := [XmlChild(MaterialTag, Valid(MaterialValues("constructor", 1.0, black, black, black, black)))];
            LoadAsWritten(cs).failure == Some(Rejection(RepeatedId, RepeatedIdMessage)) &&
            Load(cs) == Loaded(map["constructor" := cs[0].check.values], None)
  {
    var black := Rgba(0.0, 0.0, 0.0, 1.0);
    var cs := [XmlChild(MaterialTag, Valid(MaterialValues("constructor", 1.0, black, black, black, black)))];
    assert cs[..0] == [];
    assert Scan(cs[..0], ObjectPrototypeNames) == Loaded(map[], None);
    assert Scan(cs[..0], {}) == Loaded(map[], None);
    assert "constructor" in ObjectPrototypeNames;
  }

  /** The `<materials>` element: its table, and the error and message that stopped its reading. */
  class MaterialsBlock {
    var materials: map<string, MaterialValues>
    var error: Option<ParseError>
    var errorMessage: Option<string>

    /**
     * Reads `children` in order, stopping at the first child that is rejected.
     * The repeated-id test is a lookup on a plain object, so it also finds the
     * names the object inherits: the block ends as `LoadAsWritten` describes.
     */
    constructor (children: seq<XmlChild>)
      ensures materials == LoadAsWritten(children).materials
      ensures LoadAsWritten(children).failure.None? ==> error == None && errorMessage == None
      ensures LoadAsWritten(children).failure.Some? ==>
                error == Some(LoadAsWritten(children).failure.value.error) &&
                errorMessage == Some(LoadAsWritten(children).failure.value.errorMessage)
    {
      materials := map[];
      error := None;
      errorMessage := None;
      new;
      var i := 0;
      while i < |children|
        invariant 0 <= i <= |children|
        invariant LoadAsWritten(children[..i]) == Loaded(materials, None)
        invariant error == None && errorMessage == None
      {
        var child := children[i];
        ScanSnoc(children, i, ObjectPrototypeNames);
        if child.tagName != MaterialTag {
          error := Some(BadChild);
          errorMessage := Some(BadChildMessage);
          PrefixFailureFinal(children, i + 1, ObjectPrototypeNames);
          return;
        }
        if child.check.Invalid? {
          error := Some(child.check.error);
          errorMessage := Some(child.check.errorMessage);
          PrefixFailureFinal(children, i + 1, ObjectPrototypeNames);
          return;
        }
        var id := child.check.values.id;
        if id in materials || id in ObjectPrototypeNames {
          error := Some(RepeatedId);
          errorMessage := Some(RepeatedIdMessage);
          PrefixFailureFinal(children, i + 1, ObjectPrototypeNames);
          return;
        }
        materials := materials[id := child.check.values];
        i := i + 1;
      }
      assert children[..i] == children;
    }
  }
}
