/** The closed enumerations shared by both code generators and by the
    generated group API, the failure-compatible result types, and the one
    lexical rule both macros share: what an `ident` fragment accepts. */
module Kinds {

  /** Which `qcell` primitive backs a group: `TCell`/`TCellOwner` or the
      thread-local `TLCell`/`TLCellOwner`. */
  datatype Impl = TCellImpl | TLCellImpl

  /** The access category picked by a `def_cells!` keyword: one uniform
      triple, a public and a private triple together, only a public one, or
      only a private one. */
  datatype Category = UniformGroup | AccessGroup | PublicGroup | PrivateGroup

  /** The access level of one Marker/Cell/Owner triple. */
  datatype Level = UniformLevel | PublicLevel | PrivateLevel

  /** Which member of a triple a generated type is. */
  datatype Role = MarkerRole | CellRole | OwnerRole

  type Ident = string

  /** What an `ident` fragment accepts: any identifier or keyword but `_`. */
  predicate IsName(s: Ident) {
    s != "_"
  }

  datatype Option<+T> = None | Some(value: T)

  datatype Result<+T, +E> = Ok(value: T) | Err(error: E)
}
