# cell_wrappers in Dafny

`cell_wrappers` is a Rust crate made of two `macro_rules!` code generators
over the `qcell` crate's `TCell`/`TLCell` primitives, plus a file showing
what a full expansion of a group declaration looks like.

- `def_cells!` (src/lib.rs) turns declaration lines of the form
  `#[attr]* vis mod name : Keyword;` or `vis mod name :: { ... };` into
  group modules. A keyword such as `TLCellAccGrp` selects the primitive
  (`TCell`/`TCellOwner` or `TLCell`/`TLCellOwner`) and the category: one
  uniform triple, a public and a private triple, or only a public or only
  a private one. Each triple is a Marker struct, a Cell alias and an Owner
  alias. Clusters nest group declarations inside `pub` modules.
- `c_scp!` (src/lib.rs) opens one cell for one block. It creates a fresh
  owner of a given type, borrows it, reads (`ro`) or writes (`rw`) the
  cell, and binds the result. The binding either declares a new variable
  or assigns to an existing one. Only the dereferencing `* out` arm copies
  a value out of the block; the borrow checker keeps the references bound
  by `out` and `& out` from outliving the block's owner. The caller's
  statements then run in the same block.
- expanded.rs shows the API a group module carries:
  - the `has_*_access` flags;
  - constructors that make an owner or a cell, or panic;
  - `get_cell_impl`;
  - the capability traits of every generated type;
  - the `GetEasy*Owner` bridge from a cell to an owner that opens it;
  - a small demonstration that opens two cells.

The Dafny project has one module per concern:

| file | module | what it models |
|---|---|---|
| kinds.dfy | `Kinds` | the closed enumerations (primitive, category, level, role), `Option`/`Result`, and the `ident` fragment's refusal of `_` |
| def_cells.dfy | `DefCells` | `def_cells!`: keyword dispatch, the four group arms, `@for_individual`, `@check_cluster`, the stage-0 cluster arm, the line splitter |
| scope_access.dfy | `ScopeAccess` | `c_scp!`: the six binding arms as an ordered matcher over tokens, the generated block, and a small evaluator for what the binding does |
| lattice.dfy | `Lattice` | the capability-trait sets of Marker, Cell and Owner types |
| group_api.dfy | `GroupApi` | the group API of expanded.rs and the owner bridge |
| demo.dfy | `Demo` | `ExampleStruct` and `demonstrate_context_selection` as classes with in-place cell updates |

A macro arm that matches becomes a case of a function. An input that no
arm matches (a compile error in Rust) becomes an `Err`. A panic becomes an
`Err` carrying the message's identity. The demonstration is imperative:
the cells are objects whose `value` field `rw` changes in place, and the
outer `u8` variable is a local that the method reassigns.

## Model

| member | source | states |
|---|---|---|
| DefCells.ParseKeyword | src/lib.rs:221-301 | whatever a keyword arm selects spells back to exactly that keyword |
| DefCells.KeywordDispatch | src/lib.rs:221-301 | all eight keywords are recognised, each picks its own primitive and category, and any other word picks nothing (both directions) |
| DefCells.GroupItems | src/lib.rs:107-163 | a group emits three items per triple of its category |
| DefCells.GroupShape | src/lib.rs:107-163 | which triples each category emits, in order: uniform gives `Grp`, access gives `Pub` then `Pvt`, public gives `Pub`, private gives `Pvt`. Each Cell/Owner names its own triple's Marker and the selected primitive. Every item carries the forwarded attributes, except the public group's Marker, which carries none. No module is nested inside. |
| DefCells.GroupItemsInjective | src/lib.rs:107-163 | the emitted items determine the category and the primitive |
| DefCells.ExpandLeaf | src/lib.rs:165-301 | a keyword line matches exactly when its name is not `_` and its keyword is one of the eight. The result is a single module with the line's own name and visibility, holding that category's group items. Otherwise no arm matches. |
| DefCells.ExpandTree | src/lib.rs:303-325 | `@check_cluster` emits only `pub` modules and succeeds only on a non-empty braced list; the full acceptance condition and invariants are in `DefCells.ExpandTreeCorrect` |
| DefCells.ExpandEntries | src/lib.rs:307-324 | the entries of one body, expanded in order, contribute only `pub` modules; see `DefCells.ExpandEntriesCorrect` and `DefCells.ClusterOrder` |
| DefCells.ExpandEntry | src/lib.rs:313-323 | one entry emits one `pub` module named after it per form present (keyword, extension). The keyword's module holds that category's group items. The extension's module holds the expansion of the extension. See `DefCells.ExpandEntryCorrect`. |
| DefCells.ExpandTreeCorrect | src/lib.rs:303-325 | a cluster body is accepted exactly when it is a non-empty braced list of accepted entries, none of them named `_`. The expansion then makes every nested module `pub`, gives every leaf item the top-level attributes, and has the same nesting depth as the input. |
| DefCells.ExpandEntriesCorrect | src/lib.rs:307-324 | a list of entries expands exactly when each entry is accepted (and so none is named `_`); the same three guarantees hold for the concatenation |
| DefCells.ExpandEntryCorrect | src/lib.rs:308-323 | an entry expands exactly when its name is not `_` (`$short_straw:ident`), its keyword (if any) is known and its extension (if any) is an accepted cluster; the same three guarantees hold |
| DefCells.ClusterOrder | src/lib.rs:303-325 | if every entry is a leaf or a branch (not both), a cluster becomes one `pub` module per entry, in declaration order. Module `j` is named after entry `j` and is exactly what entry `j` expands to on its own. |
| DefCells.EntryEdgeCases | src/lib.rs:307-324 | for a name other than `_`, an entry with neither `: Keyword` nor `:: tt` emits nothing; an entry with both emits two modules of the same name, which the compiler then rejects as a duplicate definition. With the name `_`, neither shape matches the cluster arm. |
| DefCells.ExpandLine | src/lib.rs:221-337 | a top-level line expands exactly when its name is not `_` and it has a known keyword and no cluster, or an accepted cluster and no keyword. It becomes one module with the line's visibility and name. Everything inside is `pub` and carries the line's attributes. The depth is the line's nesting depth. The module holds the keyword's group items, or the expansion of the cluster. |
| DefCells.UnderscoreRefused | src/lib.rs:221-358 | the name `_` is refused wherever `def_cells!` takes a name: a top-level line fails, and so does a cluster holding an entry named `_` |
| DefCells.ExpandLines | src/lib.rs:349-357 | one module per line; see `DefCells.LinesSplit` |
| DefCells.Expand | src/lib.rs:339-358 | an empty invocation matches no arm. Otherwise the result is one module per line, in order, with that line's visibility and name. See `DefCells.ExpandSplitsLines`. |
| DefCells.ExpandSplitsLines | src/lib.rs:339-358 | an invocation expands exactly when it has at least one line and every line is accepted, so no line is named `_`. It gives one module per line, in order. Module `i` is what line `i` expands to on its own, with its own attributes. |
| DefCells.LinesSplit | src/lib.rs:339-358 | the same line-by-line decomposition for any (possibly empty) list of lines |
| ScopeAccess.MatchPattern | src/lib.rs:1-93 | the first matching arm wins. What it matches is the canonical spelling of the pattern it reports, or, for the two internal borrow arms, that spelling after an ignored `&`. The bound name is never `_`. The converse for a leading `&` is `ScopeAccess.AmpOptional`. |
| ScopeAccess.RenderMatches | src/lib.rs:3-92 | every pattern is recovered from its canonical spelling, whatever name it binds (including `mut`, `out`, `as`). No earlier arm captures a later arm's input. |
| ScopeAccess.AmpOptional | src/lib.rs:7-22 | the leading `&` of `mut x` and `x` is optional: `&mut x` and `&x` are recognised as the same patterns |
| ScopeAccess.Compile | src/lib.rs:3-92 | an invocation compiles exactly when an arm matches and a braces block, if present, holds statements. The owner is a fresh block-local value of the named type, borrowed `&mut` exactly for the `mut` arm. There is exactly one access, on the given cell and through that owner, and it is `rw` exactly for `mut`. The three internal arms `let` the name with the optional type on the `let`. The three external arms assign to the existing name, and their only cast is the `as` type. The transformation is none, a dereference (`*x`, `* out x`) or an extra reference (`& out x`). Every `as` cast applies to the access result itself, inside any `*` or `&`. The caller's statements follow, inside the block. |
| ScopeAccess.Transcribe | src/lib.rs:10-91 | each arm's transcriber builds a block with exactly the owner borrow, the access, the binding form, the cast placement (inside the `*` or `&`) and the transformation stated for `Compile` |
| ScopeAccess.AsU8 | expanded.rs:568 | `as u8` keeps the value modulo 256 and lands in 0..255 |
| ScopeAccess.BindingEffect | src/lib.rs:3-92 | running a compiled binding: an internal arm binds only its new variable and leaves the surrounding scope unchanged. An external arm needs its variable to exist, overwrites exactly that variable, and changes no other one. The value is the one each arm promises: the mutable or shared reference, the contents, or a reference to the reference. |
| ScopeAccess.CastPlacement | src/lib.rs:73-74 | for `* out x as T` and `& out x as T`, a block that casts the dereferenced or referenced result, as expanded.rs does, is not the block the arm calls for |
| ScopeAccess.CastOrder | src/lib.rs:63-77 | with `as u8`, the external arms as written cast the reference before any dereference, so they have no value. The order used at expanded.rs:568, dereference then cast, yields the truncated contents. |
| Lattice.Tags | expanded.rs:11-22 | every generated type has exactly one access level, one primitive, one role and one composite position, and no trait of another level or primitive. Only Markers carry `IsGTMarker` and the implementation trait, and that trait reports the Marker's own primitive. A Marker has 6 traits; a Cell or Owner has 3. |
| Lattice.TagsInjective | expanded.rs:11-22 | two generated types share a trait set only if they share primitive, level and role |
| GroupApi.LevelsMatchPrefixes | src/lib.rs:107-163 | the levels of a category's triples and the names `def_cells!` gives those triples agree in number and order: uniform is `Grp`, public is `Pub`, private is `Pvt` |
| GroupApi.TripleLevels | expanded.rs:124-169 | a group declares one or two triples, of distinct levels |
| GroupApi.HasAccess | expanded.rs:42-54 | the `has_*_access` table is true exactly for the levels whose triple the group declares: (F,T,F) uniform, (T,F,T) access, (F,F,T) public, (T,F,F) private (private, uniform, public) |
| GroupApi.NewOwner | expanded.rs:57-89 | `new_X_owner()` succeeds exactly when the group has X access. It then returns an owner of the group's X Marker that satisfies the X owner trait. Otherwise it panics with an owner message naming X, or, in the uniform group's private case, the uniform level. |
| GroupApi.NewCell | expanded.rs:92-124 | `new_X_cell(item)` succeeds exactly when the group has X access. It then returns a cell of the X Marker holding `item` that satisfies the X cell trait. Otherwise it panics with the corresponding cell message. |
| GroupApi.ConstructorsAgree | expanded.rs:204-251 | the owner and cell constructors of a level succeed or fail together, and fail with the same message level. A constructed owner opens a constructed cell exactly when both come from the same group and level. |
| GroupApi.MessageLevels | expanded.rs:57-124 | a failed constructor names the requested level, except in the uniform group, whose private accessors name the uniform level |
| GroupApi.ReportingLevel | expanded.rs:184-186 | `get_cell_impl` asks the Marker of the group's last declared triple: `Pvt` in an access group |
| GroupApi.GetCellImpl | expanded.rs:37-39 | `get_cell_impl` reports the group's own primitive |
| GroupApi.GetNewMatchingOwner | expanded.rs:23-27 | the fresh owner opens the cell, and its traits differ from the cell's only in the role |
| GroupApi.GetMatchingOwnerFrom | expanded.rs:28-34 | delegation succeeds exactly when the context has a getter for the cell's own level and owner type, and the returned owner opens the cell |
| GroupApi.BridgeAgrees | expanded.rs:23-34 | getters for other levels or owner types do not change the result, and delegation gives the same owner as the fresh path |
| GroupApi.ExampleGettersCover | expanded.rs:587-616 | `ExampleStruct` provides an owner for a cell exactly when that cell could have been built by one of the four example groups; it provides none for an `OtherCell` |
| GroupApi.OtherMarkerTags | expanded.rs:493-507 | the hand-written trait impls of `OtherMarker`, `OtherOwner` and `OtherCell` are exactly the sets the generated types get for (`TCell`, uniform) |
| Demo.I32Cell.Increment | expanded.rs:546-547 | `+= 1` through `rw` adds one to the cell, or panics on overflow at `i32::MAX` and leaves the cell unchanged |
| Demo.I32Cell.Ro | expanded.rs:565-568 | only an owner of the cell's own Marker may read, and the read yields the cell's current contents |
| Demo.ExampleStruct.constructor | expanded.rs:517-526 | six fresh cells of the declared Markers, all holding 0 |
| Demo.ExampleStruct.DemonstrateContextSelection | expanded.rs:527-585 | the method completes exactly when the uniform cell held 0 and the private cell's low byte is 0. It changes only the uniform cell, by one (or not at all on overflow). `outer_container` ends as the private cell's low byte once the first check passes, and stays 7 otherwise. A failed check reports its two operands: the incremented uniform value against 1, or the private cell's low byte against 0. |
| Demo.RunDemonstration | expanded.rs:617-620 | on a freshly built struct both assertions hold and the demonstration completes |

## Where the model follows the code

- Uniform triples keep the names each file uses. The macro's uniform triple
  is `GrpMarker`/`GrpCell`/`GrpOwner` (src/lib.rs:113-117). The expanded
  file's is `UniMarker`/`UniCell`/`UniOwner` (expanded.rs:8-10).
  `DefCells` uses the first; `GroupApi` identifies triples by level only, and `GroupApi.LevelsMatchPrefixes` links the two.
- The external-dereference cast is kept where src/lib.rs:73-74 puts it,
  inside the dereference. `ScopeAccess.CastOrder` shows why the expanded
  file's order is the one that yields a number, and the demonstration uses
  that order.
- A cluster entry with neither `: Keyword` nor `:: tt` matches the
  `@check_cluster` repetition and emits nothing. An entry with both emits
  both modules (src/lib.rs:307-324). The macro accepts both shapes, and so
  does the model (`DefCells.EntryEdgeCases`). For an entry with both
  forms, the compiler then rejects the expansion, because it defines the
  same module name twice. Only a top-level line must have exactly one of
  the two.

## Left out

- The `qcell` primitives: an owner is an opaque token of its Marker, and `ro`/`rw` read and write the cell's value. Single-owner uniqueness and thread-locality belong to that crate.
- Rust trait resolution, type inference and lifetimes. A type annotation is an opaque tag, except `u8`, whose truncating cast is modelled. A cast to any other type leaves the value unchanged.
- The panic machinery (`panic_cold_display`, `track_caller`) and every attribute other than forwarded `#[...]` items, which are kept as opaque strings. A panic is an `Err` naming its message's level and role.
- The linter stub structs (src/lib.rs:96-103) and the empty test module (src/lib.rs:361-372): they have no behaviour.
- Macro hygiene, and the stray fragment specifiers inside the external `c_scp!` transcribers (src/lib.rs:59, 74, 89). The model keeps only whether an `as` coercion is present.
- The self-lookup form of `c_scp!` that appears only in expansion output (expanded.rs:543-546, 565-567). It is covered through `GroupApi.GetMatchingOwnerFrom`, which the demonstration calls.
- Lexical details of the input: separators, trailing commas, repeated `;`, and the token layout of paths and expressions. Lines, entries, patterns and statements arrive already split.
- What trailing statements do: they are kept verbatim and in order. Only the demonstration's `+= 1` and its two `assert_eq!` checks are modelled.
- Name clashes among emitted modules: two entries or lines with the same name, or an entry with both forms, expand without error. The compiler then rejects the duplicate definition. That check belongs to rustc, not to the macros, and is not modelled.
- Keywords as names: the `ident` fragment matches Rust keywords, so `c_scp!` accepts `mut` or `as` as the bound name and `def_cells!` accepts `mod` as a module name. `MatchPattern`, `Compile`, `ExpandLine` and `Expand` accept them too. The compiler then cannot parse the emitted `let mut = ...;`, `as = ...;` or `pub mod mod { ... }`. That rejection happens after expansion and is not modelled. (`out` is an ordinary identifier and compiles as a name.)
- The compiler's macro recursion limit (128 by default) bounds how deeply clusters can nest. `DefCells.ExpandTreeCorrect` accepts clusters of any depth.
- GroupApi.GetNewMatchingOwner: the bridge is defined for every cell, `OtherMarker`'s included. In the source only generated groups implement it, so calling it on an `OtherCell` does not type-check.
- Demo.I32Cell.Increment: models the overflow check of a debug build, which panics at `i32::MAX`. A release build wraps to `i32::MIN` instead, and that behaviour is not modelled.
- DefCells.ExpandLines: reports only the first failing line, where the compiler may list several errors.
- The `$cell_src:expr` of `c_scp!` is a name, not an evaluated expression. Its evaluation happens once, in the access call.
