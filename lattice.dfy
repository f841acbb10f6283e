/** The capability-trait lattice of expanded.rs: which marker traits each
    generated Marker, Cell and Owner type implements, and the queries a
    caller can make of such a set. */
module Lattice {
  import opened Kinds

  /** One capability trait. The comments give the trait names expanded.rs
      uses for the thread-local primitive and the uniform level; `T` stands
      for `TL` with the other primitive and `Pub`/`Pvt` for `Uni` with the
      other levels. */
  datatype Tag =
    | GTAccess(level: Level)                         // IsGTUniAccess
    | GTMarker                                       // IsGTMarker
    | ImplTag(impl: Impl)                            // IsTLImpl
    | ImplAccess(impl: Impl, level: Level)           // IsTLUniAccess
    | ImplMarker(impl: Impl)                         // IsTLMarker
    | ImplRole(impl: Impl, level: Level, role: Role) // IsTLUniMarker, IsTLUniCell, IsTLUniOwner

  /** The access level a tag mentions, if it mentions one. */
  function TagLevel(t: Tag): Option<Level> {
    match t
    case GTAccess(l) => Some(l)
    case ImplAccess(_, l) => Some(l)
    case ImplRole(_, l, _) => Some(l)
    case _ => None
  }

  /** The primitive a tag mentions, if it mentions one. */
  function TagImpl(t: Tag): Option<Impl> {
    match t
    case ImplTag(i) => Some(i)
    case ImplAccess(i, _) => Some(i)
    case ImplMarker(i) => Some(i)
    case ImplRole(i, _, _) => Some(i)
    case _ => None
  }

  /** "Is this uniform / public / private?" */
  predicate IsAccess(ts: set<Tag>, l: Level) {
    GTAccess(l) in ts
  }

  /** "Is this built on the given primitive?" */
  predicate IsImpl(ts: set<Tag>, i: Impl) {
    exists l :: ImplAccess(i, l) in ts
  }

  /** "Is this a Marker / a Cell / an Owner?" */
  predicate IsRole(ts: set<Tag>, r: Role) {
    exists i, l :: ImplRole(i, l, r) in ts
  }

  /** The composite position (primitive x level x role) a trait bound asks for. */
  predicate Satisfies(ts: set<Tag>, i: Impl, l: Level, r: Role) {
    ImplRole(i, l, r) in ts
  }

  /** What `get_cell_impl()` of an implementation-kind trait reports; only
      Marker types implement those traits. */
  function MarkerImpl(ts: set<Tag>): Option<Impl> {
    if ImplTag(TCellImpl) in ts then Some(TCellImpl)
    else if ImplTag(TLCellImpl) in ts then Some(TLCellImpl)
    else None
  }

  /** The trait set of a generated type with the given primitive, level and
      role (expanded.rs:11-22 for one triple; every group and `OtherMarker`
      follow the same rule). */
  function Tags(impl: Impl, level: Level, role: Role): (ts: set<Tag>)
    // exactly one access level, one primitive, one role and one composite position
    ensures forall l :: IsAccess(ts, l) <==> l == level
    ensures forall i :: IsImpl(ts, i) <==> i == impl
    ensures forall r :: IsRole(ts, r) <==> r == role
    ensures forall i, l, r :: Satisfies(ts, i, l, r) <==> i == impl && l == level && r == role
    // no tag speaks of another level or another primitive
    ensures forall t :: t in ts ==> TagLevel(t) == None || TagLevel(t) == Some(level)
    ensures forall t :: t in ts ==> TagImpl(t) == None || TagImpl(t) == Some(impl)
    // the marker-only traits, and the size of each set
    ensures GTMarker in ts <==> role == MarkerRole
    ensures MarkerImpl(ts) == if role == MarkerRole then Some(impl) else None
    ensures |ts| == if role == MarkerRole then 6 else 3
  {
    var common := {GTAccess(level), ImplAccess(impl, level), ImplRole(impl, level, role)};
    var ts := if role == MarkerRole then common + {GTMarker, ImplTag(impl), ImplMarker(impl)} else common;
    assert ImplTag(TCellImpl) in ts <==> role == MarkerRole && impl == TCellImpl;
    ts
  }

  /** Two generated types have the same trait set only when they were
      declared with the same primitive, level and role, so none can stand
      in for another at a trait bound. */
  lemma TagsInjective(i1: Impl, l1: Level, r1: Role, i2: Impl, l2: Level, r2: Role)
    requires Tags(i1, l1, r1) == Tags(i2, l2, r2)
    ensures i1 == i2 && l1 == l2 && r1 == r2
  {
    assert Satisfies(Tags(i1, l1, r1), i1, l1, r1);
  }
}
