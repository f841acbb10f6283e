/** The `c_scp!` scope-access compiler of src/lib.rs: an owner type, a cell
    expression and a binding pattern become one block that creates an owner,
    borrows it, performs one access on the cell and binds the result, with
    the caller's statements after it in the same block. */
module ScopeAccess {
  import opened Kinds

  /** A trailing statement, kept verbatim. */
  type Stmt = string

  /** A type in an annotation or an `as` target. Only `u8` is given a
      meaning (the two's-complement truncation); any other type is opaque. */
  datatype Ty = U8 | NamedTy(path: string)

  /** The tokens of a binding pattern, between the second `=>` and the
      closing parenthesis. `mut`, `out` and `as` are words like any other
      identifier; a whole type (with its optional `&'a`) is one token. */
  datatype Tok = Amp | Star | Colon | Word(text: string) | TyTok(ty: Ty)

  /** The six binding arms, in the order lib.rs lists them. */
  datatype Mode = MutBorrow | Borrow | Deref | OutBorrow | OutDeref | OutRef

  /** The arms that declare a new variable with `let`. */
  predicate Internal(m: Mode) {
    m.MutBorrow? || m.Borrow? || m.Deref?
  }

  /** A matched pattern: its arm, the variable name and the optional `: T`
      (internal arms) or `as T` (external arms). */
  datatype Pattern = Pattern(mode: Mode, name: Ident, annot: Option<Ty>)

  // ---------------------------------------------------------------------
  // The arm matcher
  // ---------------------------------------------------------------------

  /** `$( <sep> $ty )?` followed by the end of the pattern. */
  function Annotation(rest: seq<Tok>, sep: Tok): Option<Option<Ty>> {
    if rest == [] then Some(None)
    else if |rest| == 2 && rest[0] == sep && rest[1].TyTok? then Some(Some(rest[1].ty))
    else None
  }

  /** `$container_name:ident` then the annotation. */
  function NameThen(mode: Mode, ts: seq<Tok>, sep: Tok): Option<Pattern> {
    if |ts| > 0 && ts[0].Word? && IsName(ts[0].text) then
      match Annotation(ts[1..], sep)
      case None => None
      case Some(a) => Some(Pattern(mode, ts[0].text, a))
    else None
  }

  /** The optional leading `$(&)?` of the two internal borrow arms. */
  function DropAmp(ts: seq<Tok>): seq<Tok> {
    if |ts| > 0 && ts[0] == Amp then ts[1..] else ts
  }

  function MutBorrowArm(ts: seq<Tok>): Option<Pattern> {
    var r := DropAmp(ts);
    if |r| > 0 && r[0] == Word("mut") then NameThen(MutBorrow, r[1..], Colon) else None
  }

  function BorrowArm(ts: seq<Tok>): Option<Pattern> {
    NameThen(Borrow, DropAmp(ts), Colon)
  }

  function DerefArm(ts: seq<Tok>): Option<Pattern> {
    if |ts| > 0 && ts[0] == Star then NameThen(Deref, ts[1..], Colon) else None
  }

  function OutBorrowArm(ts: seq<Tok>): Option<Pattern> {
    if |ts| > 0 && ts[0] == Word("out") then NameThen(OutBorrow, ts[1..], Word("as")) else None
  }

  function OutDerefArm(ts: seq<Tok>): Option<Pattern> {
    if |ts| > 1 && ts[0] == Star && ts[1] == Word("out") then NameThen(OutDeref, ts[2..], Word("as")) else None
  }

  function OutRefArm(ts: seq<Tok>): Option<Pattern> {
    if |ts| > 1 && ts[0] == Amp && ts[1] == Word("out") then NameThen(OutRef, ts[2..], Word("as")) else None
  }

  /** The separator before a pattern's type: `:` in the internal arms,
      `as` in the external ones. */
  function Sep(m: Mode): Tok {
    if Internal(m) then Colon else Word("as")
  }

  function AnnotToks(a: Option<Ty>, sep: Tok): seq<Tok> {
    match a case None => [] case Some(t) => [sep, TyTok(t)]
  }

  /** The tokens before the name in each arm's canonical spelling. */
  function Head(m: Mode): seq<Tok> {
    match m
    case MutBorrow => [Word("mut")]
    case Borrow => []
    case Deref => [Star]
    case OutBorrow => [Word("out")]
    case OutDeref => [Star, Word("out")]
    case OutRef => [Amp, Word("out")]
  }

  /** The canonical spelling of a pattern. */
  function Render(p: Pattern): seq<Tok> {
    Head(p.mode) + ([Word(p.name)] + AnnotToks(p.annot, Sep(p.mode)))
  }

  /** The first arm that matches wins. A match is the canonical spelling of
      what it found, or, for the two internal borrow arms, that spelling
      after an ignored `&`. */
  function MatchPattern(ts: seq<Tok>): (r: Option<Pattern>)
    ensures r.Some? ==> IsName(r.value.name)
    ensures r.Some? ==>
      || ts == Render(r.value)
      || ((r.value.mode.MutBorrow? || r.value.mode.Borrow?) && ts == [Amp] + Render(r.value))
  {
    var arms := [MutBorrowArm(ts), BorrowArm(ts), DerefArm(ts), OutBorrowArm(ts), OutDerefArm(ts), OutRefArm(ts)];
    if arms[0].Some? then arms[0]
    else if arms[1].Some? then arms[1]
    else if arms[2].Some? then arms[2]
    else if arms[3].Some? then arms[3]
    else if arms[4].Some? then arms[4]
    else arms[5]
  }

  /** The name and its annotation are read back by the arm that wrote them. */
  lemma NameThenTail(mode: Mode, name: Ident, a: Option<Ty>, sep: Tok)
    requires IsName(name)
    ensures NameThen(mode, [Word(name)] + AnnotToks(a, sep), sep) == Some(Pattern(mode, name, a))
  {
    assert ([Word(name)] + AnnotToks(a, sep))[1..] == AnnotToks(a, sep);
  }

  /** A name followed by an annotation is never a bare annotation. */
  lemma NotAnnotation(name: Ident, a: Option<Ty>, sep: Tok, sep': Tok)
    ensures Annotation([Word(name)] + AnnotToks(a, sep), sep') == None
  {
  }

  /** Every pattern is recognised from its canonical spelling, whichever
      name it binds: no earlier arm captures a later arm's spelling. */
  lemma RenderMatches(p: Pattern)
    requires IsName(p.name)
    ensures MatchPattern(Render(p)) == Some(p)
  {
    var tail := [Word(p.name)] + AnnotToks(p.annot, Sep(p.mode));
    var ts := Render(p);
    NameThenTail(p.mode, p.name, p.annot, Sep(p.mode));
    match p.mode
    case MutBorrow =>
      assert DropAmp(ts)[1..] == tail;
    case Borrow =>
      assert ts == tail;
      assert MutBorrowArm(ts) == None by {
        if |tail| > 0 && tail[0] == Word("mut") {
          assert NameThen(MutBorrow, tail[1..], Colon) == None;
        }
      }
    case Deref =>
      assert ts[1..] == tail;
    case OutBorrow =>
      assert ts[1..] == tail;
      assert BorrowArm(ts) == None by {
        assert ts[1..] == tail;
        NotAnnotation(p.name, p.annot, Sep(p.mode), Colon);
      }
    case OutDeref =>
      assert ts[2..] == tail;
      assert DerefArm(ts) == None by {
        assert ts[1..][1..] == tail;
        NotAnnotation(p.name, p.annot, Sep(p.mode), Colon);
      }
    case OutRef =>
      assert ts[2..] == tail;
      assert DropAmp(ts) == ts[1..];
      assert BorrowArm(ts) == None by {
        assert ts[1..][1..] == tail;
        NotAnnotation(p.name, p.annot, Sep(p.mode), Colon);
      }
  }

  /** The leading `&` of the two internal borrow arms is optional: with it
      the pattern is recognised just as without it. */
  lemma AmpOptional(p: Pattern)
    requires IsName(p.name) && (p.mode.MutBorrow? || p.mode.Borrow?)
    ensures MatchPattern([Amp] + Render(p)) == Some(p)
  {
    var tail := [Word(p.name)] + AnnotToks(p.annot, Colon);
    var ts := [Amp] + Render(p);
    NameThenTail(p.mode, p.name, p.annot, Colon);
    assert DropAmp(ts) == Render(p);
    if p.mode.MutBorrow? {
      assert Render(p)[1..] == tail;
    } else {
      assert Render(p) == tail;
      assert MutBorrowArm(ts) == None by {
        if |tail| > 0 && tail[0] == Word("mut") {
          assert NameThen(MutBorrow, tail[1..], Colon) == None;
        }
      }
    }
  }

  // ---------------------------------------------------------------------
  // The generated block
  // ---------------------------------------------------------------------

  /** A `c_scp!` invocation: `use OwnerType => (cell => pattern) { stmts; }`.
      `trailing` is `None` when the braces are absent. */
  datatype Invocation = Invocation(ownerType: string, cell: string, pattern: seq<Tok>, trailing: Option<seq<Stmt>>)

  /** How the block borrows its owner. */
  datatype BorrowKind = Shared | Exclusive

  /** The two cell access operations. */
  datatype Op = Ro | Rw

  /** The bound expression: one access call, possibly dereferenced,
      referenced again, or cast. */
  datatype Expr =
    | Call(cell: string, op: Op, owner: Ident)
    | DerefOf(inner: Expr)
    | RefOf(inner: Expr)
    | CastTo(inner: Expr, ty: Ty)

  /** `let name [: T] = value;` or `name = value;`. */
  datatype Binding = Let(name: Ident, annot: Option<Ty>, value: Expr) | Assign(name: Ident, value: Expr)

  /** `{ let ownerVar = &[mut] <ownerType>::new(); binding; trailing }`. */
  datatype Block = Block(ownerVar: Ident, ownerType: string, borrow: BorrowKind, binding: Binding, trailing: seq<Stmt>)

  datatype ScopeError = NoArm

  /** The block-local owner variable every arm declares. */
  const OwnerVar: Ident := "__scope_owner"

  /** The access call at the bottom of an expression. */
  function AccessCall(e: Expr): Expr {
    match e
    case Call(_, _, _) => e
    case DerefOf(inner) => AccessCall(inner)
    case RefOf(inner) => AccessCall(inner)
    case CastTo(inner, _) => AccessCall(inner)
  }

  /** The transformation applied to the access result, casts ignored. */
  datatype Transform = Plain | Dereferenced | ExtraRef

  /** The expression with every cast removed. */
  function StripCasts(e: Expr): Expr {
    match e
    case Call(_, _, _) => e
    case DerefOf(inner) => DerefOf(StripCasts(inner))
    case RefOf(inner) => RefOf(StripCasts(inner))
    case CastTo(inner, _) => StripCasts(inner)
  }

  function TransformOf(e: Expr): Option<Transform> {
    match StripCasts(e)
    case Call(_, _, _) => Some(Plain)
    case DerefOf(Call(_, _, _)) => Some(Dereferenced)
    case RefOf(Call(_, _, _)) => Some(ExtraRef)
    case _ => None
  }

  /** The `as` casts in an expression, outermost first. */
  function Casts(e: Expr): seq<Ty> {
    match e
    case Call(_, _, _) => []
    case DerefOf(inner) => Casts(inner)
    case RefOf(inner) => Casts(inner)
    case CastTo(inner, t) => [t] + Casts(inner)
  }

  function OptionSeq(a: Option<Ty>): seq<Ty> {
    match a case None => [] case Some(t) => [t]
  }

  /** The optional `as T` of an external arm; it adds one cast and changes
      nothing else. */
  function Coerce(e: Expr, annot: Option<Ty>): (r: Expr)
    ensures AccessCall(r) == AccessCall(e) && StripCasts(r) == StripCasts(e)
    ensures Casts(r) == OptionSeq(annot) + Casts(e)
  {
    match annot case None => e case Some(t) => CastTo(e, t)
  }

  /** Every cast applies directly to the access result (or to another such
      cast), so none sits outside a `*` or `&`. */
  predicate CastsOnCall(e: Expr) {
    match e
    case Call(_, _, _) => true
    case DerefOf(inner) => CastsOnCall(inner)
    case RefOf(inner) => CastsOnCall(inner)
    case CastTo(inner, _) => StripCasts(inner).Call?
  }

  /** What the block of pattern `p` must look like. */
  predicate BlockFor(b: Block, p: Pattern, ownerType: string, cell: string, trailing: seq<Stmt>) {
    // the owner: a fresh value of the named type in a block-local variable,
    // borrowed mutably exactly for the `mut` arm
    && b.ownerVar == OwnerVar && b.ownerType == ownerType
    && (b.borrow == Exclusive <==> p.mode == MutBorrow)
    // exactly one access, on the given cell through that owner; `rw` only with `mut`
    && AccessCall(b.binding.value) == Call(cell, if p.mode == MutBorrow then Rw else Ro, OwnerVar)
    // a new `let` for the internal arms, an assignment to the existing variable otherwise
    && b.binding.name == p.name
    && (b.binding.Let? <==> Internal(p.mode))
    // internal arms carry the type on the `let`; external arms coerce only with `as`
    && (b.binding.Let? ==> b.binding.annot == p.annot && Casts(b.binding.value) == [])
    && (b.binding.Assign? ==> Casts(b.binding.value) == OptionSeq(p.annot))
    // the `as` cast is applied to the access result, inside the `*` or `&`
    && CastsOnCall(b.binding.value)
    // the transformation each arm applies
    && TransformOf(b.binding.value) ==
         Some(if p.mode == Deref || p.mode == OutDeref then Dereferenced
              else if p.mode == OutRef then ExtraRef
              else Plain)
    // the caller's statements follow the binding, inside the block
    && b.trailing == trailing
  }

  /** The transcriber of each arm. */
  function Transcribe(p: Pattern, ownerType: string, cell: string, trailing: seq<Stmt>): (b: Block)
    ensures BlockFor(b, p, ownerType, cell, trailing)
  {
    var call := Call(cell, Ro, OwnerVar);
    match p.mode
    case MutBorrow => Block(OwnerVar, ownerType, Exclusive, Let(p.name, p.annot, Call(cell, Rw, OwnerVar)), trailing)
    case Borrow => Block(OwnerVar, ownerType, Shared, Let(p.name, p.annot, call), trailing)
    case Deref =>
      assert StripCasts(DerefOf(call)) == DerefOf(call);
      Block(OwnerVar, ownerType, Shared, Let(p.name, p.annot, DerefOf(call)), trailing)
    case OutBorrow => Block(OwnerVar, ownerType, Shared, Assign(p.name, Coerce(call, p.annot)), trailing)
    case OutDeref =>
      assert StripCasts(DerefOf(Coerce(call, p.annot))) == DerefOf(call);
      Block(OwnerVar, ownerType, Shared, Assign(p.name, DerefOf(Coerce(call, p.annot))), trailing)
    case OutRef =>
      assert StripCasts(RefOf(Coerce(call, p.annot))) == RefOf(call);
      Block(OwnerVar, ownerType, Shared, Assign(p.name, RefOf(Coerce(call, p.annot))), trailing)
  }

  /** Compile one invocation: accepted exactly when an arm matches and a
      braces block, if present, holds statements; the block is then the one
      the matched pattern calls for. */
  function Compile(inv: Invocation): (r: Result<Block, ScopeError>)
    ensures r.Ok? <==> MatchPattern(inv.pattern).Some? && (inv.trailing.Some? ==> |inv.trailing.value| > 0)
    ensures r.Ok? ==>
      BlockFor(r.value, MatchPattern(inv.pattern).value, inv.ownerType, inv.cell,
               if inv.trailing.Some? then inv.trailing.value else [])
  {
    match MatchPattern(inv.pattern)
    case None => Err(NoArm)
    case Some(p) =>
      if inv.trailing.Some? && |inv.trailing.value| == 0 then Err(NoArm)
      else Ok(Transcribe(p, inv.ownerType, inv.cell, if inv.trailing.Some? then inv.trailing.value else []))
  }

  // ---------------------------------------------------------------------
  // What the binding does
  // ---------------------------------------------------------------------

  /** A value: a number, or a (mutable or shared) reference to the cell's
      contents or to a temporary holding a value. */
  datatype Val = Num(n: int) | Ref(mutable: bool, target: Target)
  datatype Target = CellContents | Temp(v: Val)

  /** `n as u8`: keep the low eight bits. */
  function AsU8(n: int): (r: int)
    ensures 0 <= r < 256 && (n - r) % 256 == 0
  {
    n % 256
  }

  /** Evaluate a bound expression with the cell holding `contents`; `None`
      is an expression Rust would reject (dereferencing a number, casting a
      reference to `u8`). */
  function Eval(e: Expr, contents: int): Option<Val> {
    match e
    case Call(_, op, _) => Some(Ref(op == Rw, CellContents))
    case DerefOf(inner) =>
      (match Eval(inner, contents)
       case Some(Ref(_, CellContents)) => Some(Num(contents))
       case Some(Ref(_, Temp(v))) => Some(v)
       case _ => None)
    case RefOf(inner) =>
      (match Eval(inner, contents)
       case Some(v) => Some(Ref(false, Temp(v)))
       case None => None)
    case CastTo(inner, U8) =>
      (match Eval(inner, contents)
       case Some(Num(n)) => Some(Num(AsU8(n)))
       case _ => None)
    case CastTo(inner, NamedTy(_)) => Eval(inner, contents)
  }

  /** The block's local bindings and the surrounding scope's variables after
      the binding statement. */
  datatype Frame = Frame(locals: map<Ident, Val>, outer: map<Ident, Val>)

  /** Run the binding statement; an assignment needs its variable to exist
      in the surrounding scope. */
  function RunBinding(b: Binding, contents: int, outer: map<Ident, Val>): Option<Frame> {
    match Eval(b.value, contents)
    case None => None
    case Some(v) =>
      match b
      case Let(n, _, _) => Some(Frame(map[n := v], outer))
      case Assign(n, _) => if n in outer then Some(Frame(map[], outer[n := v])) else None
  }

  /** What each arm binds, stated independently of the transcriber: the
      mutable or shared reference itself, the contents, or a reference to
      the shared reference. */
  function Bound(m: Mode, contents: int): Val {
    match m
    case MutBorrow => Ref(true, CellContents)
    case Borrow => Ref(false, CellContents)
    case Deref => Num(contents)
    case OutBorrow => Ref(false, CellContents)
    case OutDeref => Num(contents)
    case OutRef => Ref(false, Temp(Ref(false, CellContents)))
  }

  /** Running a compiled block's binding: an internal arm binds its new
      variable and leaves the surrounding scope alone; an external arm
      overwrites exactly its existing variable, once, with the value the arm
      promises. A `u8` target is left out here; see the next lemma. */
  lemma BindingEffect(inv: Invocation, contents: int, outer: map<Ident, Val>)
    requires Compile(inv).Ok?
    requires MatchPattern(inv.pattern).value.annot != Some(U8) || Internal(MatchPattern(inv.pattern).value.mode)
    ensures var p := MatchPattern(inv.pattern).value;
      RunBinding(Compile(inv).value.binding, contents, outer) ==
        if Internal(p.mode) then Some(Frame(map[p.name := Bound(p.mode, contents)], outer))
        else if p.name in outer then Some(Frame(map[], outer[p.name := Bound(p.mode, contents)]))
        else None
  {
    var p := MatchPattern(inv.pattern).value;
    var call := Call(inv.cell, Ro, OwnerVar);
    assert Eval(call, contents) == Some(Ref(false, CellContents));
    if !Internal(p.mode) && p.annot.Some? {
      assert Eval(Coerce(call, p.annot), contents) == Some(Ref(false, CellContents));
    }
  }

  /** An external arm with `as u8` casts the reference `ro` returns, before
      any dereference: `*(cell.ro(owner) as u8)`, which has no value. The
      order `(*cell.ro(owner)) as u8` of expanded.rs yields the truncated
      contents. */
  lemma CastOrder(inv: Invocation, contents: int, outer: map<Ident, Val>)
    requires Compile(inv).Ok?
    requires !Internal(MatchPattern(inv.pattern).value.mode) && MatchPattern(inv.pattern).value.annot == Some(U8)
    ensures RunBinding(Compile(inv).value.binding, contents, outer) == None
    ensures Eval(CastTo(DerefOf(Call(inv.cell, Ro, OwnerVar)), U8), contents) == Some(Num(AsU8(contents)))
  {
    var call := Call(inv.cell, Ro, OwnerVar);
    assert Eval(call, contents) == Some(Ref(false, CellContents));
    assert Eval(CastTo(call, U8), contents) == None;
    assert Eval(DerefOf(call), contents) == Some(Num(contents));
  }

  /** The external deref and hard-borrow arms cast before the `*` or `&`:
      a block that casts the dereferenced or referenced result instead is
      not the one those arms call for. */
  lemma CastPlacement(n: Ident, t: Ty, ownerType: string, cell: string, trailing: seq<Stmt>)
    ensures !BlockFor(Block(OwnerVar, ownerType, Shared, Assign(n, CastTo(DerefOf(Call(cell, Ro, OwnerVar)), t)), trailing),
                      Pattern(OutDeref, n, Some(t)), ownerType, cell, trailing)
    ensures !BlockFor(Block(OwnerVar, ownerType, Shared, Assign(n, CastTo(RefOf(Call(cell, Ro, OwnerVar)), t)), trailing),
                      Pattern(OutRef, n, Some(t)), ownerType, cell, trailing)
  {
  }
}
