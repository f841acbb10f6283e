/** The API of a generated group module as expanded.rs shows it for the four
    example groups: the access flags, the owner and cell constructors that
    either succeed or panic, the reported primitive, and the bridge from a
    cell to an owner that opens it. */
module GroupApi {
  import opened Kinds
  import Lattice
  import DefCells

  /** A generated group module: its name, its primitive and its category. */
  datatype Group = Group(name: string, impl: Impl, cat: Category)

  /** The levels of the triples a group declares, in declaration order. */
  function TripleLevels(cat: Category): (ls: seq<Level>)
    ensures 1 <= |ls| <= 2
    ensures forall i, j :: 0 <= i < j < |ls| ==> ls[i] != ls[j]
  {
    match cat
    case UniformGroup => [UniformLevel]
    case AccessGroup => [PublicLevel, PrivateLevel]
    case PublicGroup => [PublicLevel]
    case PrivateGroup => [PrivateLevel]
  }

  /** The name prefix `def_cells!` gives the triple of a level; expanded.rs
      spells the uniform one `Uni` where the macro writes `Grp`. */
  function MacroPrefix(l: Level): string {
    match l
    case UniformLevel => "Grp"
    case PublicLevel => "Pub"
    case PrivateLevel => "Pvt"
  }

  /** The levels of a category and the macro's triple prefixes list the same
      triples in the same order. */
  lemma LevelsMatchPrefixes(cat: Category)
    ensures |TripleLevels(cat)| == |DefCells.Prefixes(cat)|
    ensures forall i :: 0 <= i < |TripleLevels(cat)| ==> DefCells.Prefixes(cat)[i] == MacroPrefix(TripleLevels(cat)[i])
  {
  }

  /** A Marker type: the triple at `level` of the group module `group`. */
  datatype MarkerTy = MarkerTy(group: string, impl: Impl, level: Level)

  /** `qcell::T[L]CellOwner<Marker>` and `qcell::T[L]Cell<Marker, T>`. The
      owner is an opaque token: its single-instance guarantee belongs to the
      `qcell` crate. */
  datatype Owner = Owner(marker: MarkerTy)
  datatype Cell<T> = Cell(marker: MarkerTy, value: T)

  /** What opening a cell needs: an owner of the cell's own Marker. */
  predicate Opens<T>(o: Owner, c: Cell<T>) {
    o.marker == c.marker
  }

  /** The trait sets of the three types of a triple. */
  function MarkerTags(m: MarkerTy): set<Lattice.Tag> {
    Lattice.Tags(m.impl, m.level, MarkerRole)
  }

  function OwnerTags(o: Owner): set<Lattice.Tag> {
    Lattice.Tags(o.marker.impl, o.marker.level, OwnerRole)
  }

  function CellTags<T>(c: Cell<T>): set<Lattice.Tag> {
    Lattice.Tags(c.marker.impl, c.marker.level, CellRole)
  }

  /** The panic message of an unavailable constructor: `uni_owner_…`,
      `pub_cell_…` and so on. */
  datatype Msg = Unavailable(level: Level, role: Role)

  /** `has_private_access()`, `has_uniform_access()`, `has_public_access()`:
      a constant table per category. */
  function HasAccess(cat: Category, l: Level): (r: bool)
    ensures r <==> l in TripleLevels(cat)
  {
    match (cat, l)
    case (UniformGroup, UniformLevel) => true
    case (AccessGroup, PublicLevel) => true
    case (AccessGroup, PrivateLevel) => true
    case (PublicGroup, PublicLevel) => true
    case (PrivateGroup, PrivateLevel) => true
    case _ => false
  }

  /** The level a failing constructor's message names. The uniform group's
      private constructors reuse the uniform messages. */
  function MessageLevel(cat: Category, l: Level): Level {
    if cat == UniformGroup && l == PrivateLevel then UniformLevel else l
  }

  /** `new_X_owner()`: a fresh owner of the group's X triple when the group
      has X access, the X-level panic otherwise. */
  function NewOwner(g: Group, l: Level): (r: Result<Owner, Msg>)
    ensures r.Ok? <==> HasAccess(g.cat, l)
    ensures r.Ok? ==> r.value.marker == MarkerTy(g.name, g.impl, l)
    ensures r.Ok? ==> Lattice.Satisfies(OwnerTags(r.value), g.impl, l, OwnerRole)
    ensures r.Err? ==>
      && r.error.role == OwnerRole
      && (r.error.level == l || (g.cat == UniformGroup && l == PrivateLevel && r.error.level == UniformLevel))
  {
    if HasAccess(g.cat, l) then Ok(Owner(MarkerTy(g.name, g.impl, l)))
    else Err(Unavailable(MessageLevel(g.cat, l), OwnerRole))
  }

  /** `new_X_cell(item)`: a cell of the group's X triple holding `item`, or
      the X-level panic. */
  function NewCell<T>(g: Group, l: Level, item: T): (r: Result<Cell<T>, Msg>)
    ensures r.Ok? <==> HasAccess(g.cat, l)
    ensures r.Ok? ==> r.value.marker == MarkerTy(g.name, g.impl, l) && r.value.value == item
    ensures r.Ok? ==> Lattice.Satisfies(CellTags(r.value), g.impl, l, CellRole)
    ensures r.Err? ==>
      && r.error.role == CellRole
      && (r.error.level == l || (g.cat == UniformGroup && l == PrivateLevel && r.error.level == UniformLevel))
  {
    if HasAccess(g.cat, l) then Ok(Cell(MarkerTy(g.name, g.impl, l), item))
    else Err(Unavailable(MessageLevel(g.cat, l), CellRole))
  }

  /** A constructor that succeeds makes exactly the things the other one
      needs: the owner from `new_X_owner()` opens every cell from
      `new_X_cell(..)` of the same group, and no owner from another level or
      another group does. Failing constructors fail together, with the same
      message level. */
  lemma ConstructorsAgree<T>(g: Group, g': Group, l: Level, l': Level, item: T)
    ensures NewOwner(g, l).Ok? <==> NewCell(g, l, item).Ok?
    ensures NewOwner(g, l).Ok? && NewCell(g', l', item).Ok? ==>
      (Opens(NewOwner(g, l).value, NewCell(g', l', item).value) <==> g.name == g'.name && g.impl == g'.impl && l == l')
    ensures NewOwner(g, l).Err? ==> NewOwner(g, l).error.level == NewCell(g, l, item).error.level
  {
  }

  /** The message levels as expanded.rs writes them: the requested level,
      except that the uniform group's private accessors name the uniform
      level (and its public ones the public level). */
  lemma MessageLevels(g: Group, l: Level)
    requires !HasAccess(g.cat, l)
    ensures NewOwner(g, l).error.level == (if g.cat == UniformGroup && l == PrivateLevel then UniformLevel else l)
    ensures g.cat != UniformGroup ==> NewOwner(g, l).error.level == l
  {
  }

  /** The triple whose Marker `get_cell_impl()` asks: the last one the group
      declares (the private one in an access group). */
  function ReportingLevel(cat: Category): (l: Level)
    ensures l == TripleLevels(cat)[|TripleLevels(cat)| - 1]
  {
    match cat
    case UniformGroup => UniformLevel
    case AccessGroup => PrivateLevel
    case PublicGroup => PublicLevel
    case PrivateGroup => PrivateLevel
  }

  /** `get_cell_impl()`: what the reporting Marker's implementation trait
      says, which is the group's own primitive. */
  function GetCellImpl(g: Group): (r: Impl)
    ensures r == g.impl
  {
    var tags := MarkerTags(MarkerTy(g.name, g.impl, ReportingLevel(g.cat)));
    Lattice.MarkerImpl(tags).value
  }

  // ---------------------------------------------------------------------
  // The GetEasy*Owner bridge
  // ---------------------------------------------------------------------

  /** The owner type a cell names as its associated `OwnerType`. */
  function OwnerTypeOf<T>(c: Cell<T>): MarkerTy {
    c.marker
  }

  /** One `impl GetXOwner<OwnerTy> for Src`: a getter for level X that
      returns an owner of the given Marker. */
  datatype Getter = Getter(level: Level, owner: MarkerTy)

  datatype BridgeError = NoGetter

  /** `get_new_matching_owner()`: a fresh owner that opens the cell. The
      source provides it only for cells of generated groups; the model
      defines it for every cell, `OtherMarker`'s included. */
  function GetNewMatchingOwner<T>(c: Cell<T>): (o: Owner)
    ensures Opens(o, c)
    ensures OwnerTags(o) - CellTags(c) == {Lattice.ImplRole(c.marker.impl, c.marker.level, OwnerRole)}
  {
    var o := Owner(OwnerTypeOf(c));
    assert Lattice.ImplRole(c.marker.impl, c.marker.level, OwnerRole) !in CellTags(c) by {
      assert !Lattice.Satisfies(CellTags(c), c.marker.impl, c.marker.level, OwnerRole);
    }
    o
  }

  /** `get_matching_owner_from(src)`: delegate to `src`'s getter for the
      cell's own level and owner type; a context without one is rejected
      (the Rust trait bound does not hold). */
  function GetMatchingOwnerFrom<T>(c: Cell<T>, src: set<Getter>): (r: Result<Owner, BridgeError>)
    ensures r.Ok? <==> Getter(c.marker.level, OwnerTypeOf(c)) in src
    ensures r.Ok? ==> Opens(r.value, c)
  {
    if Getter(c.marker.level, OwnerTypeOf(c)) in src then Ok(Owner(OwnerTypeOf(c))) else Err(NoGetter)
  }

  /** Only the getter for the cell's own level and owner type matters:
      delegation agrees with the fresh owner, and getters for other levels
      or other owner types change nothing. */
  lemma BridgeAgrees<T>(c: Cell<T>, src: set<Getter>, extra: set<Getter>)
    requires Getter(c.marker.level, OwnerTypeOf(c)) !in extra
    ensures GetMatchingOwnerFrom(c, src + extra) == GetMatchingOwnerFrom(c, src)
    ensures GetMatchingOwnerFrom(c, src).Ok? ==> GetMatchingOwnerFrom(c, src).value == GetNewMatchingOwner(c)
  {
  }

  // ---------------------------------------------------------------------
  // The example groups
  // ---------------------------------------------------------------------

  const ExampleUni := Group("example_uni_grp", TLCellImpl, UniformGroup)
  const ExampleAcc := Group("example_acc_grp", TLCellImpl, AccessGroup)
  const ExamplePub := Group("example_pub_grp", TLCellImpl, PublicGroup)
  const ExamplePvt := Group("example_pvt_grp", TLCellImpl, PrivateGroup)

  /** `OtherMarker`, declared by hand outside any group module. */
  const OtherMarker := MarkerTy("OtherMarker", TCellImpl, UniformLevel)

  /** The five `Get*Owner` impls of `ExampleStruct`. */
  const ExampleGetters: set<Getter> := {
    Getter(UniformLevel, MarkerTy(ExampleUni.name, TLCellImpl, UniformLevel)),
    Getter(PublicLevel, MarkerTy(ExampleAcc.name, TLCellImpl, PublicLevel)),
    Getter(PrivateLevel, MarkerTy(ExampleAcc.name, TLCellImpl, PrivateLevel)),
    Getter(PublicLevel, MarkerTy(ExamplePub.name, TLCellImpl, PublicLevel)),
    Getter(PrivateLevel, MarkerTy(ExamplePvt.name, TLCellImpl, PrivateLevel))
  }

  predicate IsExampleGroup(g: Group) {
    g == ExampleUni || g == ExampleAcc || g == ExamplePub || g == ExamplePvt
  }

  /** `ExampleStruct` can hand out an owner for every cell of the four
      example groups, and for no other cell (in particular not for an
      `OtherCell`). */
  lemma ExampleGettersCover<T>(c: Cell<T>)
    ensures GetMatchingOwnerFrom(c, ExampleGetters).Ok? <==>
      exists g :: IsExampleGroup(g) && NewCell(g, c.marker.level, c.value) == Ok(c)
  {
    if GetMatchingOwnerFrom(c, ExampleGetters).Ok? {
      var m := c.marker;
      var g := if m.group == ExampleUni.name then ExampleUni
        else if m.group == ExampleAcc.name then ExampleAcc
        else if m.group == ExamplePub.name then ExamplePub
        else ExamplePvt;
      assert IsExampleGroup(g) && NewCell(g, c.marker.level, c.value) == Ok(c);
    }
  }

  /** The trait impls expanded.rs writes by hand for `OtherMarker`,
      `OtherOwner` and `OtherCell` follow the same rule as the generated
      ones. */
  lemma OtherMarkerTags()
    ensures MarkerTags(OtherMarker) == {
      Lattice.GTMarker, Lattice.ImplMarker(TCellImpl), Lattice.ImplTag(TCellImpl),
      Lattice.GTAccess(UniformLevel), Lattice.ImplAccess(TCellImpl, UniformLevel),
      Lattice.ImplRole(TCellImpl, UniformLevel, MarkerRole)}
    ensures OwnerTags(Owner(OtherMarker)) == {
      Lattice.GTAccess(UniformLevel), Lattice.ImplAccess(TCellImpl, UniformLevel),
      Lattice.ImplRole(TCellImpl, UniformLevel, OwnerRole)}
    ensures forall v: int :: CellTags(Cell(OtherMarker, v)) == {
      Lattice.GTAccess(UniformLevel), Lattice.ImplAccess(TCellImpl, UniformLevel),
      Lattice.ImplRole(TCellImpl, UniformLevel, CellRole)}
  {
  }
}
