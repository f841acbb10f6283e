/** The `def_cells!` group expander of src/lib.rs: a declaration of access
    groups, possibly nested in clusters, becomes a tree of modules that each
    hold Marker/Cell/Owner items. Every macro arm is a case of a function
    here; a failed match of every arm is an `Err`. */
module DefCells {
  import opened Kinds

  function Max(a: nat, b: nat): nat {
    if a < b then b else a
  }

  /** A forwarded `#[...]` attribute, kept verbatim. */
  type Attr = string

  /** The `$group_visibility:vis` fragment: empty, `pub`, or `pub(...)`. */
  datatype Vis = Inherited | Pub | Restricted(path: string)

  /** One entry of a cluster body: `name [: Keyword] [:: tt]`. */
  datatype Entry = Entry(name: Ident, keyword: Option<string>, extension: Option<Tree>)

  /** The token tree after `::`: a braced, comma-separated list of entries,
      or any other single token tree. */
  datatype Tree = Braced(entries: seq<Entry>) | Token(text: string)

  /** One top-level line, `#[..]* vis mod name [: Keyword] [:: tt] ;`. */
  datatype Line = Line(attrs: seq<Attr>, vis: Vis, name: Ident, keyword: Option<string>, cluster: Option<Tree>)

  /** What the expansion emits. A Cell or Owner alias names the qcell
      primitive it instantiates (through `impl`) and its Marker. */
  datatype Item =
    | Module(vis: Vis, name: Ident, body: seq<Item>)
    | MarkerStruct(attrs: seq<Attr>, name: Ident)
    | CellAlias(attrs: seq<Attr>, name: Ident, impl: Impl, marker: Ident)
    | OwnerAlias(attrs: seq<Attr>, name: Ident, impl: Impl, marker: Ident)

  /** Why no arm matched: a line or entry named `name` that no `@line` arm
      accepts, a cluster body `@check_cluster` does not accept, or an empty
      invocation. */
  datatype Error = NoLineArm(name: Ident) | NoClusterArm | EmptyInput

  // ---------------------------------------------------------------------
  // Keyword dispatch (the eight `@line` keyword arms)
  // ---------------------------------------------------------------------

  /** The keyword that selects a primitive and a category. */
  function Keyword(impl: Impl, cat: Category): string {
    match (impl, cat)
    case (TCellImpl, UniformGroup) => "TCellUniGrp"
    case (TCellImpl, AccessGroup) => "TCellAccGrp"
    case (TCellImpl, PublicGroup) => "TCellPubGrp"
    case (TCellImpl, PrivateGroup) => "TCellPvtGrp"
    case (TLCellImpl, UniformGroup) => "TLCellUniGrp"
    case (TLCellImpl, AccessGroup) => "TLCellAccGrp"
    case (TLCellImpl, PublicGroup) => "TLCellPubGrp"
    case (TLCellImpl, PrivateGroup) => "TLCellPvtGrp"
  }

  /** The `@line` keyword arms, in the order lib.rs lists them. */
  function ParseKeyword(kw: string): (r: Option<(Impl, Category)>)
    ensures r.Some? ==> Keyword(r.value.0, r.value.1) == kw
  {
    if kw == "TCellUniGrp" then Some((TCellImpl, UniformGroup))
    else if kw == "TCellAccGrp" then Some((TCellImpl, AccessGroup))
    else if kw == "TLCellUniGrp" then Some((TLCellImpl, UniformGroup))
    else if kw == "TLCellAccGrp" then Some((TLCellImpl, AccessGroup))
    else if kw == "TCellPubGrp" then Some((TCellImpl, PublicGroup))
    else if kw == "TCellPvtGrp" then Some((TCellImpl, PrivateGroup))
    else if kw == "TLCellPubGrp" then Some((TLCellImpl, PublicGroup))
    else if kw == "TLCellPvtGrp" then Some((TLCellImpl, PrivateGroup))
    else None
  }

  /** Each keyword is told apart from the other seven by its length and the
      two letters after the primitive's name. */
  lemma DispatchOne(impl: Impl, cat: Category)
    ensures ParseKeyword(Keyword(impl, cat)) == Some((impl, cat))
  {
    var k := Keyword(impl, cat);
    var n := |k| - 6;
    assert n == if impl == TCellImpl then 5 else 6;
    assert k[n] == (match cat case UniformGroup => 'U' case AccessGroup => 'A' case _ => 'P');
    assert k[n + 1] == (match cat case UniformGroup => 'n' case AccessGroup => 'c' case PublicGroup => 'u' case PrivateGroup => 'v');
  }

  /** Dispatch is total over the eight keywords and exact: each keyword
      selects its own primitive and category, and a word that is none of
      them selects nothing. */
  lemma KeywordDispatch(kw: string)
    ensures forall impl, cat :: kw == Keyword(impl, cat) ==> ParseKeyword(kw) == Some((impl, cat))
    ensures ParseKeyword(kw) == None <==> forall impl, cat :: kw != Keyword(impl, cat)
  {
    forall impl, cat | kw == Keyword(impl, cat)
      ensures ParseKeyword(kw) == Some((impl, cat))
    {
      DispatchOne(impl, cat);
    }
  }

  // ---------------------------------------------------------------------
  // The four group arms (`@for_*_group`)
  // ---------------------------------------------------------------------

  /** One Marker/Cell/Owner triple with the given name prefix. */
  function Triple(prefix: string, markerAttrs: seq<Attr>, attrs: seq<Attr>, impl: Impl): seq<Item> {
    [ MarkerStruct(markerAttrs, prefix + "Marker"),
      CellAlias(attrs, prefix + "Cell", impl, prefix + "Marker"),
      OwnerAlias(attrs, prefix + "Owner", impl, prefix + "Marker") ]
  }

  /** The name prefixes of the triples a category emits, in order. */
  function Prefixes(cat: Category): seq<string> {
    match cat
    case UniformGroup => ["Grp"]
    case AccessGroup => ["Pub", "Pvt"]
    case PublicGroup => ["Pub"]
    case PrivateGroup => ["Pvt"]
  }

  /** The items a group arm writes into the group's module. */
  function GroupItems(cat: Category, impl: Impl, attrs: seq<Attr>): (r: seq<Item>)
    ensures |r| == 3 * |Prefixes(cat)|
  {
    match cat
    case UniformGroup => Triple("Grp", attrs, attrs, impl)
    case AccessGroup => Triple("Pub", attrs, attrs, impl) + Triple("Pvt", attrs, attrs, impl)
    case PublicGroup => Triple("Pub", [], attrs, impl)
    case PrivateGroup => Triple("Pvt", attrs, attrs, impl)
  }

  /** Triple `k` of an item list: Marker, Cell, Owner with the given prefix,
      both aliases naming that Marker. */
  predicate TripleAt(r: seq<Item>, k: nat, prefix: string) {
    && 3 * k + 3 <= |r|
    && r[3 * k].MarkerStruct? && r[3 * k].name == prefix + "Marker"
    && r[3 * k + 1].CellAlias? && r[3 * k + 1].name == prefix + "Cell"
    && r[3 * k + 2].OwnerAlias? && r[3 * k + 2].name == prefix + "Owner"
    && r[3 * k + 1].marker == r[3 * k].name && r[3 * k + 2].marker == r[3 * k].name
  }

  /** What a group arm emits: one triple per prefix of its category, in
      order, each alias using its own triple's Marker and the group's
      primitive; every item carries the forwarded attributes except the
      public group's Marker, which carries none; no module inside. */
  lemma GroupShape(cat: Category, impl: Impl, attrs: seq<Attr>)
    ensures var r := GroupItems(cat, impl, attrs);
      && (forall k :: 0 <= k < |Prefixes(cat)| ==> TripleAt(r, k, Prefixes(cat)[k]))
      && (forall j :: 0 <= j < |r| ==> !r[j].Module?)
      && (forall j :: 0 <= j < |r| && !r[j].MarkerStruct? ==> r[j].impl == impl)
      && (forall j :: 0 <= j < |r| ==> r[j].attrs == (if cat == PublicGroup && j == 0 then [] else attrs))
      && AttrsOk(r, attrs) && AllPub(r) && Depth(r) == 0
  {
    var r := GroupItems(cat, impl, attrs);
    forall j | 0 <= j < |r|
      ensures !r[j].Module?
      ensures !r[j].MarkerStruct? ==> r[j].impl == impl
      ensures r[j].attrs == (if cat == PublicGroup && j == 0 then [] else attrs)
      ensures ItemAttrsOk(r[j], attrs) && ItemAllPub(r[j])
    {
      var t := j % 3;
      var k := j / 3;
      assert r[j] == Triple(Prefixes(cat)[k], if cat == PublicGroup then [] else attrs, attrs, impl)[t];
    }
    FlatDepth(r);
  }

  /** The emitted items determine the category and the primitive. */
  lemma GroupItemsInjective(c1: Category, i1: Impl, c2: Category, i2: Impl, attrs: seq<Attr>)
    requires GroupItems(c1, i1, attrs) == GroupItems(c2, i2, attrs)
    ensures c1 == c2 && i1 == i2
  {
    var r := GroupItems(c1, i1, attrs);
    assert r[1].impl == i1 && r[1].impl == i2;
    assert |Prefixes(c1)| == |Prefixes(c2)|;
    assert r[0].name == Prefixes(c1)[0] + "Marker" == Prefixes(c2)[0] + "Marker";
    assert Prefixes(c1)[0] == (Prefixes(c1)[0] + "Marker")[..3];
    assert Prefixes(c2)[0] == (Prefixes(c2)[0] + "Marker")[..3];
  }

  // ---------------------------------------------------------------------
  // Properties of item trees
  // ---------------------------------------------------------------------

  /** Every module at any depth is `pub`. */
  predicate AllPub(items: seq<Item>) {
    forall j :: 0 <= j < |items| ==> ItemAllPub(items[j])
  }

  predicate ItemAllPub(it: Item) {
    it.Module? ==> it.vis == Pub && AllPub(it.body)
  }

  /** Every non-module item at any depth carries exactly `attrs`, except a
      `PubMarker`, which may carry none. */
  predicate AttrsOk(items: seq<Item>, attrs: seq<Attr>) {
    forall j :: 0 <= j < |items| ==> ItemAttrsOk(items[j], attrs)
  }

  predicate ItemAttrsOk(it: Item, attrs: seq<Attr>) {
    match it
    case Module(_, _, body) => AttrsOk(body, attrs)
    case MarkerStruct(a, n) => a == attrs || (a == [] && n == "PubMarker")
    case CellAlias(a, _, _, _) => a == attrs
    case OwnerAlias(a, _, _, _) => a == attrs
  }

  /** Module nesting depth of an item list. */
  function Depth(items: seq<Item>): nat {
    if items == [] then 0 else Max(ItemDepth(items[0]), Depth(items[1..]))
  }

  function ItemDepth(it: Item): nat {
    if it.Module? then 1 + Depth(it.body) else 0
  }

  lemma {:induction false} FlatDepth(items: seq<Item>)
    requires forall j :: 0 <= j < |items| ==> !items[j].Module?
    ensures Depth(items) == 0
  {
    if items != [] {
      FlatDepth(items[1..]);
    }
  }

  lemma {:induction false} DepthAppend(a: seq<Item>, b: seq<Item>)
    ensures Depth(a + b) == Max(Depth(a), Depth(b))
  {
    if a == [] {
      assert a + b == b;
    } else {
      assert (a + b)[1..] == a[1..] + b;
      DepthAppend(a[1..], b);
    }
  }

  lemma AllPubAppend(a: seq<Item>, b: seq<Item>)
    ensures AllPub(a + b) <==> AllPub(a) && AllPub(b)
  {
    if AllPub(a) && AllPub(b) {
      forall j | 0 <= j < |a + b| ensures ItemAllPub((a + b)[j]) {
        if j >= |a| { assert (a + b)[j] == b[j - |a|]; }
      }
    }
    if AllPub(a + b) {
      forall j | 0 <= j < |a| ensures ItemAllPub(a[j]) { assert a[j] == (a + b)[j]; }
      forall j | 0 <= j < |b| ensures ItemAllPub(b[j]) { assert b[j] == (a + b)[|a| + j]; }
    }
  }

  lemma AttrsOkAppend(a: seq<Item>, b: seq<Item>, attrs: seq<Attr>)
    ensures AttrsOk(a + b, attrs) <==> AttrsOk(a, attrs) && AttrsOk(b, attrs)
  {
    if AttrsOk(a, attrs) && AttrsOk(b, attrs) {
      forall j | 0 <= j < |a + b| ensures ItemAttrsOk((a + b)[j], attrs) {
        if j >= |a| { assert (a + b)[j] == b[j - |a|]; }
      }
    }
    if AttrsOk(a + b, attrs) {
      forall j | 0 <= j < |a| ensures ItemAttrsOk(a[j], attrs) { assert a[j] == (a + b)[j]; }
      forall j | 0 <= j < |b| ensures ItemAttrsOk(b[j], attrs) { assert b[j] == (a + b)[|a| + j]; }
    }
  }

  // ---------------------------------------------------------------------
  // `@for_individual` + `@line` keyword arms, `@check_cluster`, stage 0
  // ---------------------------------------------------------------------

  /** A `@line` keyword arm followed by its `@for_individual` arm: the group
      module `vis mod name { <group items> }`, or no match (an unknown
      keyword, or the name `_`, which `$cell_mod_name:ident` refuses). */
  function ExpandLeaf(attrs: seq<Attr>, vis: Vis, name: Ident, kw: string): (r: Result<seq<Item>, Error>)
    ensures r.Ok? <==> IsName(name) && ParseKeyword(kw).Some?
    ensures r.Err? ==> r.error == NoLineArm(name)
    ensures r.Ok? ==>
      && |r.value| == 1 && r.value[0].Module? && r.value[0].vis == vis && r.value[0].name == name
      && r.value[0].body == GroupItems(ParseKeyword(kw).value.1, ParseKeyword(kw).value.0, attrs)
  {
    if !IsName(name) then Err(NoLineArm(name))
    else match ParseKeyword(kw)
    case None => Err(NoLineArm(name))
    case Some((impl, cat)) => Ok([Module(vis, name, GroupItems(cat, impl, attrs))])
  }

  /** Every item of the list is a `pub` module. */
  predicate PubModules(items: seq<Item>) {
    forall j :: 0 <= j < |items| ==> items[j].Module? && items[j].vis == Pub
  }

  /** `@check_cluster`: a non-empty braced entry list; anything else matches
      no arm. What it emits is a list of `pub` modules. */
  function ExpandTree(t: Tree, attrs: seq<Attr>): (r: Result<seq<Item>, Error>)
    ensures r.Ok? ==> t.Braced? && |t.entries| > 0 && PubModules(r.value)
    decreases t, 2
  {
    match t
    case Token(_) => Err(NoClusterArm)
    case Braced(es) => if |es| == 0 then Err(NoClusterArm) else ExpandEntries(es, attrs)
  }

  /** The entries of one cluster body, expanded one after the other; each
      contributes only `pub` modules. */
  function ExpandEntries(es: seq<Entry>, attrs: seq<Attr>): (r: Result<seq<Item>, Error>)
    ensures r.Ok? ==> PubModules(r.value)
    decreases es, 1
  {
    if es == [] then Ok([])
    else
      match ExpandEntry(es[0], attrs)
      case Err(e) => Err(e)
      case Ok(head) =>
        match ExpandEntries(es[1..], attrs)
        case Err(e) => Err(e)
        case Ok(tail) => Ok(head + tail)
  }

  /** One cluster entry: a `pub` group module when it has a keyword, and a
      `pub` module holding the expansion of its extension when it has one.
      An entry with both yields both; an entry with neither yields nothing.
      An entry named `_` fails `$short_straw:ident`, so the cluster arm does
      not match. */
  function ExpandEntry(e: Entry, attrs: seq<Attr>): (r: Result<seq<Item>, Error>)
    ensures r.Ok? ==>
      && |r.value| == (if e.keyword.Some? then 1 else 0) + (if e.extension.Some? then 1 else 0)
      && PubModules(r.value)
      && (forall j :: 0 <= j < |r.value| ==> r.value[j].name == e.name)
    ensures r.Ok? && e.keyword.Some? ==>
      ParseKeyword(e.keyword.value).Some? && r.value[0].body == GroupItems(ParseKeyword(e.keyword.value).value.1, ParseKeyword(e.keyword.value).value.0, attrs)
    ensures r.Ok? && e.extension.Some? ==>
      ExpandTree(e.extension.value, attrs).Ok? && r.value[|r.value| - 1].body == ExpandTree(e.extension.value, attrs).value
    ensures !IsName(e.name) ==> r == Err(NoClusterArm)
    decreases e, 0
  {
    if !IsName(e.name) then Err(NoClusterArm)
    else
    var leaf := if e.keyword.Some? then ExpandLeaf(attrs, Pub, e.name, e.keyword.value) else Ok([]);
    var branch :=
      if e.extension.Some? then
        match ExpandTree(e.extension.value, attrs)
        case Err(x) => Err(x)
        case Ok(body) => Ok([Module(Pub, e.name, body)])
      else Ok([]);
    match leaf
    case Err(x) => Err(x)
    case Ok(l) =>
      match branch
      case Err(x) => Err(x)
      case Ok(b) => Ok(l + b)
  }

  // ---------------------------------------------------------------------
  // Which cluster bodies the arms accept
  // ---------------------------------------------------------------------

  predicate AcceptedTree(t: Tree)
    decreases t, 1
  {
    t.Braced? && |t.entries| > 0 && forall j :: 0 <= j < |t.entries| ==> AcceptedEntry(t.entries[j])
  }

  predicate AcceptedEntry(e: Entry)
    decreases e, 0
  {
    && IsName(e.name)
    && (e.keyword.Some? ==> ParseKeyword(e.keyword.value).Some?)
    && (e.extension.Some? ==> AcceptedTree(e.extension.value))
  }

  /** Nesting depth of a cluster body: a keyword entry counts one level, an
      extension one level more than its own body. */
  function TreeDepth(t: Tree): nat
    decreases t, 2
  {
    match t
    case Token(_) => 0
    case Braced(es) => EntriesDepth(es)
  }

  function EntriesDepth(es: seq<Entry>): nat
    decreases es, 1
  {
    if es == [] then 0 else Max(EntryDepth(es[0]), EntriesDepth(es[1..]))
  }

  function EntryDepth(e: Entry): nat
    decreases e, 0
  {
    Max(if e.keyword.Some? then 1 else 0,
        if e.extension.Some? then 1 + TreeDepth(e.extension.value) else 0)
  }

  /** What the cluster expansion guarantees of an accepted body: it is
      accepted exactly then, every module in it is `pub`, the outer line's
      attributes reach every leaf, and its depth is the input's depth. */
  predicate ClusterOk(r: Result<seq<Item>, Error>, attrs: seq<Attr>, depth: nat) {
    r.Ok? && AllPub(r.value) && AttrsOk(r.value, attrs) && Depth(r.value) == depth
  }

  lemma {:induction false} ExpandTreeCorrect(t: Tree, attrs: seq<Attr>)
    ensures ExpandTree(t, attrs).Ok? <==> AcceptedTree(t)
    ensures AcceptedTree(t) ==> ClusterOk(ExpandTree(t, attrs), attrs, TreeDepth(t))
    decreases t, 2
  {
    match t
    case Token(_) =>
    case Braced(es) =>
      if |es| > 0 {
        ExpandEntriesCorrect(es, attrs);
      }
  }

  lemma {:induction false} ExpandEntriesCorrect(es: seq<Entry>, attrs: seq<Attr>)
    ensures ExpandEntries(es, attrs).Ok? <==> forall j :: 0 <= j < |es| ==> AcceptedEntry(es[j])
    ensures (forall j :: 0 <= j < |es| ==> AcceptedEntry(es[j])) ==>
      ClusterOk(ExpandEntries(es, attrs), attrs, EntriesDepth(es))
    decreases es, 1
  {
    if es != [] {
      ExpandEntryCorrect(es[0], attrs);
      ExpandEntriesCorrect(es[1..], attrs);
      assert forall j :: 1 <= j < |es| ==> es[j] == es[1..][j - 1];
      if forall j :: 0 <= j < |es| ==> AcceptedEntry(es[j]) {
        var head := ExpandEntry(es[0], attrs).value;
        var tail := ExpandEntries(es[1..], attrs).value;
        DepthAppend(head, tail);
        AllPubAppend(head, tail);
        AttrsOkAppend(head, tail, attrs);
      }
    }
  }

  lemma {:induction false} ExpandEntryCorrect(e: Entry, attrs: seq<Attr>)
    ensures ExpandEntry(e, attrs).Ok? <==> AcceptedEntry(e)
    ensures AcceptedEntry(e) ==> ClusterOk(ExpandEntry(e, attrs), attrs, EntryDepth(e))
    decreases e, 0
  {
    var leaf: seq<Item> := [];
    var branch: seq<Item> := [];
    if IsName(e.name) && e.keyword.Some? && ParseKeyword(e.keyword.value).Some? {
      leaf := ExpandLeaf(attrs, Pub, e.name, e.keyword.value).value;
      var (impl, cat) := ParseKeyword(e.keyword.value).value;
      GroupShape(cat, impl, attrs);
      assert ItemAllPub(leaf[0]) && ItemAttrsOk(leaf[0], attrs);
      assert Depth(leaf) == 1 by { assert leaf[1..] == []; }
    }
    if e.extension.Some? {
      ExpandTreeCorrect(e.extension.value, attrs);
      if AcceptedTree(e.extension.value) {
        branch := [Module(Pub, e.name, ExpandTree(e.extension.value, attrs).value)];
        assert ItemAllPub(branch[0]) && ItemAttrsOk(branch[0], attrs);
        assert Depth(branch) == 1 + TreeDepth(e.extension.value) by { assert branch[1..] == []; }
      }
    }
    if AcceptedEntry(e) {
      assert ExpandEntry(e, attrs) == Ok(leaf + branch);
      DepthAppend(leaf, branch);
      AllPubAppend(leaf, branch);
      AttrsOkAppend(leaf, branch, attrs);
    }
  }

  /** Each entry is a leaf or a branch, never both nor neither. */
  predicate OneFormEach(es: seq<Entry>) {
    forall j :: 0 <= j < |es| ==> es[j].keyword.Some? != es[j].extension.Some?
  }

  /** When every entry is either a leaf or a branch, a cluster body becomes
      one `pub` module per entry, in declaration order: module `j` carries
      entry `j`'s name and is what entry `j` expands to on its own. */
  lemma {:induction false} ClusterOrder(es: seq<Entry>, attrs: seq<Attr>)
    requires forall j :: 0 <= j < |es| ==> AcceptedEntry(es[j])
    requires OneFormEach(es)
    ensures ExpandEntries(es, attrs).Ok?
    ensures var r := ExpandEntries(es, attrs).value;
      && |r| == |es|
      && forall j :: 0 <= j < |es| ==>
           ExpandEntry(es[j], attrs).Ok? && [r[j]] == ExpandEntry(es[j], attrs).value && r[j].Module? && r[j].vis == Pub && r[j].name == es[j].name
  {
    if es != [] {
      ExpandEntryCorrect(es[0], attrs);
      assert forall j :: 1 <= j < |es| ==> es[j] == es[1..][j - 1];
      ClusterOrder(es[1..], attrs);
      var r := ExpandEntries(es, attrs).value;
      var head := ExpandEntry(es[0], attrs).value;
      var tail := ExpandEntries(es[1..], attrs).value;
      assert r == head + tail;
      assert |head| == 1;
      forall j | 0 <= j < |es|
        ensures ExpandEntry(es[j], attrs).Ok? && [r[j]] == ExpandEntry(es[j], attrs).value && r[j].Module? && r[j].vis == Pub && r[j].name == es[j].name
      {
        if j == 0 {
          assert [r[0]] == head;
        } else {
          assert r[j] == tail[j - 1];
        }
      }
    }
  }

  /** A name of `_` makes every name-taking arm fail: the line splitter and
      the `@line` arms for a top-level line, `@check_cluster` for an entry. */
  lemma UnderscoreRefused(l: Line, e: Entry, attrs: seq<Attr>)
    requires l.name == "_" && e.name == "_"
    ensures ExpandLine(l) == Err(NoLineArm("_"))
    ensures Expand([l]) == Err(NoLineArm("_"))
    ensures ExpandTree(Braced([e]), attrs) == Err(NoClusterArm)
  {
  }

  /** The two malformed entry shapes the cluster arm lets through: an entry
      with neither a keyword nor an extension vanishes, and one with both
      yields two modules of the same name. Neither counts as a name when the
      name is `_`. */
  lemma EntryEdgeCases(name: Ident, kw: string, t: Tree, attrs: seq<Attr>)
    requires ParseKeyword(kw).Some? && AcceptedTree(t)
    ensures ExpandEntry(Entry(name, None, None), attrs) == if IsName(name) then Ok([]) else Err(NoClusterArm)
    ensures var r := ExpandEntry(Entry(name, Some(kw), Some(t)), attrs);
      if IsName(name) then r.Ok? && |r.value| == 2 && r.value[0].name == r.value[1].name == name
      else r == Err(NoClusterArm)
  {
    if IsName(name) {
      var nothing: seq<Item> := [];
      assert nothing + nothing == nothing;
      assert ExpandEntry(Entry(name, None, None), attrs) == Ok(nothing);
      ExpandTreeCorrect(t, attrs);
    }
  }

  // ---------------------------------------------------------------------
  // Top-level lines: the `@line` arms and the line splitter
  // ---------------------------------------------------------------------

  /** The lines some `@line` arm accepts: a name other than `_` (which
      `$header:ident` refuses), and a known keyword and no cluster, or an
      accepted cluster and no keyword. */
  predicate LineAccepted(l: Line) {
    && IsName(l.name)
    && (|| (l.keyword.Some? && l.cluster.None? && ParseKeyword(l.keyword.value).Some?)
        || (l.keyword.None? && l.cluster.Some? && AcceptedTree(l.cluster.value)))
  }

  function LineDepth(l: Line): nat {
    if l.cluster.Some? then 1 + TreeDepth(l.cluster.value) else 1
  }

  /** One top-level line: a keyword line is the group module itself, a
      cluster line (stage 0) a module holding the expanded cluster. */
  function ExpandLine(l: Line): (r: Result<seq<Item>, Error>)
    ensures r.Ok? <==> LineAccepted(l)
    ensures r.Ok? ==>
      && |r.value| == 1 && r.value[0].Module?
      && r.value[0].vis == l.vis && r.value[0].name == l.name
      && AllPub(r.value[0].body) && AttrsOk(r.value, l.attrs)
      && Depth(r.value) == LineDepth(l)
    // the module holds the keyword's group items, or the expanded cluster
    ensures r.Ok? && l.keyword.Some? ==>
      r.value[0].body == GroupItems(ParseKeyword(l.keyword.value).value.1, ParseKeyword(l.keyword.value).value.0, l.attrs)
    ensures r.Ok? && l.cluster.Some? ==>
      ExpandTree(l.cluster.value, l.attrs).Ok? && r.value[0].body == ExpandTree(l.cluster.value, l.attrs).value
  {
    if !IsName(l.name) then Err(NoLineArm(l.name))
    else match (l.keyword, l.cluster)
    case (Some(kw), None) =>
      var r := ExpandLeaf(l.attrs, l.vis, l.name, kw);
      if r.Ok? then
        var (impl, cat) := ParseKeyword(kw).value;
        GroupShape(cat, impl, l.attrs);
        assert Depth(r.value) == 1 by { assert r.value[1..] == []; }
        r
      else r
    case (None, Some(t)) =>
      ExpandTreeCorrect(t, l.attrs);
      (match ExpandTree(t, l.attrs)
       case Err(e) => Err(e)
       case Ok(body) =>
         var out := [Module(l.vis, l.name, body)];
         assert Depth(out) == 1 + Depth(body) by { assert out[1..] == []; }
         Ok(out))
    case _ => Err(NoLineArm(l.name))
  }

  /** The lines one after the other; one module per line. */
  function ExpandLines(lines: seq<Line>): (r: Result<seq<Item>, Error>)
    ensures r.Ok? ==> |r.value| == |lines|
  {
    if lines == [] then Ok([])
    else
      match ExpandLine(lines[0])
      case Err(e) => Err(e)
      case Ok(head) =>
        match ExpandLines(lines[1..])
        case Err(e) => Err(e)
        case Ok(tail) => Ok(head + tail)
  }

  /** The line splitter: a `def_cells!` invocation holds at least one
      `;`-terminated line, and each is expanded on its own, in order. */
  function Expand(lines: seq<Line>): (r: Result<seq<Item>, Error>)
    ensures |lines| == 0 ==> r == Err(EmptyInput)
    ensures r.Ok? ==>
      && |r.value| == |lines|
      && forall i :: 0 <= i < |lines| ==>
           r.value[i].Module? && r.value[i].vis == lines[i].vis && r.value[i].name == lines[i].name
  {
    if |lines| == 0 then Err(EmptyInput)
    else
      LinesSplit(lines);
      ExpandLines(lines)
  }

  /** An invocation expands exactly when it has lines and every line is
      accepted; the result has one module per line, in order, and module
      `i` is what line `i` expands to on its own, with its own attributes. */
  lemma {:induction false} ExpandSplitsLines(lines: seq<Line>)
    ensures Expand(lines).Ok? <==> |lines| > 0 && forall i :: 0 <= i < |lines| ==> LineAccepted(lines[i])
    ensures Expand(lines).Ok? ==>
      var r := Expand(lines).value;
      && |r| == |lines|
      && forall i :: 0 <= i < |lines| ==> [r[i]] == ExpandLine(lines[i]).value && AttrsOk([r[i]], lines[i].attrs)
  {
    if lines != [] {
      LinesSplit(lines);
    }
  }

  lemma {:induction false} LinesSplit(lines: seq<Line>)
    ensures ExpandLines(lines).Ok? <==> forall i :: 0 <= i < |lines| ==> LineAccepted(lines[i])
    ensures ExpandLines(lines).Ok? ==>
      var r := ExpandLines(lines).value;
      && |r| == |lines|
      && forall i :: 0 <= i < |lines| ==> [r[i]] == ExpandLine(lines[i]).value && AttrsOk([r[i]], lines[i].attrs)
  {
    if lines != [] {
      assert forall i :: 1 <= i < |lines| ==> lines[i] == lines[1..][i - 1];
      LinesSplit(lines[1..]);
      if ExpandLines(lines).Ok? {
        var r := ExpandLines(lines).value;
        var head := ExpandLine(lines[0]).value;
        var tail := ExpandLines(lines[1..]).value;
        assert r == head + tail;
        forall i | 0 <= i < |lines|
          ensures [r[i]] == ExpandLine(lines[i]).value && AttrsOk([r[i]], lines[i].attrs)
        {
          if i == 0 {
            assert [r[0]] == head;
          } else {
            assert r[i] == tail[i - 1];
          }
        }
      }
    }
  }
}
