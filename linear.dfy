/** The algebraic modelling layer the constraint rules are written against:
    decision variables, linear expressions as Pyomo's operator overloading
    builds them, the relations a rule returns, and a constraint family as the
    rule's outcome at every index (Pyomo's `Constraint(index, rule=...)`).

    A candidate solution is an `Assignment` of a real to every variable; the
    solver, which chooses one, is not part of this model. */
module Linear {
  import opened Wrappers
  import opened Indexes

  /** The five variable families of the optimiser, each indexed by its index record. */
  datatype Var =
    | Production(meft: MaterialEquipmentFormulaTimeIndex)   // batches
    | InventoryQuantity(mt: MaterialTimeIndex)
    | PurchasedQuantity(mt: MaterialTimeIndex)
    | FilledDemand(mt: MaterialTimeIndex)
    | EquipmentStatus(et: EquipmentTimeIndex)

  type Assignment = Var -> real

  /** A linear expression tree, the shape Pyomo's operator overloading builds:
      numbers, variables, `+`, `-`, and multiplication by a number. */
  datatype Expr =
    | Const(c: real)
    | Ref(v: Var)
    | Plus(l: Expr, r: Expr)
    | Minus(l: Expr, r: Expr)
    | Times(coef: real, e: Expr)

  /** The relational expressions the rules return (`==`, `<=`, `>=`). */
  datatype Relation =
    | Equal(lhs: Expr, rhs: Expr)
    | AtMost(lhs: Expr, rhs: Expr)
    | AtLeast(lhs: Expr, rhs: Expr)

  /** What a rule gives for one index: `Constraint.Skip`, a relation, or an
      exception raised while the rule ran. */
  datatype RuleResult = Skip | Emit(relation: Relation) | Raise(error: Error)

  // ---------------------------------------------------------------------------
  // Evaluation under an assignment

  /** Python's `sum` over reals: added left to right, starting from 0. */
  function SumReals(xs: seq<real>): real
  {
    if xs == [] then 0.0 else SumReals(xs[..|xs| - 1]) + xs[|xs| - 1]
  }

  lemma {:induction false} SumRealsConstant(xs: seq<real>, c: real)
    requires forall i :: 0 <= i < |xs| ==> xs[i] == c
    ensures SumReals(xs) == (|xs| as real) * c
  {
    if xs != [] {
      SumRealsConstant(xs[..|xs| - 1], c);
    }
  }

  function Value(e: Expr, a: Assignment): real
  {
    match e
    case Const(c) => c
    case Ref(v) => a(v)
    case Plus(l, r) => Value(l, a) + Value(r, a)
    case Minus(l, r) => Value(l, a) - Value(r, a)
    case Times(coef, x) => coef * Value(x, a)
  }

  /** The variables an expression mentions. */
  function Vars(e: Expr): set<Var>
  {
    match e
    case Const(_) => {}
    case Ref(v) => {v}
    case Plus(l, r) => Vars(l) + Vars(r)
    case Minus(l, r) => Vars(l) + Vars(r)
    case Times(_, x) => Vars(x)
  }

  predicate Holds(r: Relation, a: Assignment)
  {
    match r
    case Equal(lhs, rhs) => Value(lhs, a) == Value(rhs, a)
    case AtMost(lhs, rhs) => Value(lhs, a) <= Value(rhs, a)
    case AtLeast(lhs, rhs) => Value(lhs, a) >= Value(rhs, a)
  }

  /** A skipped rule constrains nothing; an emitted one must hold; a rule that
      raised leaves a model that cannot be built, so nothing obeys it. */
  predicate Obeys(r: RuleResult, a: Assignment)
  {
    r.Skip? || (r.Emit? && Holds(r.relation, a))
  }

  /** Python's `sum(...)` over a generator of expressions: `0 + e0 + e1 + ...`. */
  function SumExprs(es: seq<Expr>): Expr
  {
    if es == [] then Const(0.0) else Plus(SumExprs(es[..|es| - 1]), es[|es| - 1])
  }

  /** A sum of expressions evaluates to the sum of their values. */
  lemma {:induction false} SumExprsOf(es: seq<Expr>, xs: seq<real>, a: Assignment)
    requires |es| == |xs|
    requires forall i :: 0 <= i < |es| ==> Value(es[i], a) == xs[i]
    ensures Value(SumExprs(es), a) == SumReals(xs)
  {
    if es != [] {
      SumExprsOf(es[..|es| - 1], xs[..|xs| - 1], a);
    }
  }

  /** A sum of expressions mentions only what its summands mention. */
  lemma {:induction false} SumExprsVars(es: seq<Expr>, allowed: set<Var>)
    requires forall i :: 0 <= i < |es| ==> Vars(es[i]) <= allowed
    ensures Vars(SumExprs(es)) <= allowed
  {
    if es != [] {
      SumExprsVars(es[..|es| - 1], allowed);
    }
  }

  /** A linear combination of two assignments, `c * a1 + a2` pointwise. */
  function Combine(c: real, a1: Assignment, a2: Assignment): Assignment
  {
    v => c * a1(v) + a2(v)
  }

  /** No number is added on its own: every constant leaf is 0. */
  predicate Homogeneous(e: Expr)
  {
    match e
    case Const(c) => c == 0.0
    case Ref(_) => true
    case Plus(l, r) => Homogeneous(l) && Homogeneous(r)
    case Minus(l, r) => Homogeneous(l) && Homogeneous(r)
    case Times(_, x) => Homogeneous(x)
  }

  /** `e` evaluates at the assignment `combined` to `c` times its value at
      `a1` plus its value at `a2`. */
  predicate LinearAt(e: Expr, c: real, a1: Assignment, a2: Assignment, combined: Assignment)
  {
    Value(e, combined) == c * Value(e, a1) + Value(e, a2)
  }

  /** An expression without constant terms is linear in the assignment. */
  lemma {:induction false} HomogeneousIsLinear(e: Expr, c: real, a1: Assignment, a2: Assignment)
    requires Homogeneous(e)
    ensures LinearAt(e, c, a1, a2, Combine(c, a1, a2))
  {
    var combined := Combine(c, a1, a2);
    match e
    case Const(_) =>
    case Ref(v) =>
      assert combined(v) == c * a1(v) + a2(v);
    case Plus(l, r) =>
      HomogeneousIsLinear(l, c, a1, a2);
      HomogeneousIsLinear(r, c, a1, a2);
      PlusIsLinearAt(l, r, c, a1, a2, combined);
    case Minus(l, r) =>
      HomogeneousIsLinear(l, c, a1, a2);
      HomogeneousIsLinear(r, c, a1, a2);
      MinusIsLinearAt(l, r, c, a1, a2, combined);
    case Times(k, x) =>
      HomogeneousIsLinear(x, c, a1, a2);
      TimesIsLinearAt(k, x, c, a1, a2, combined);
  }

  lemma PlusIsLinearAt(l: Expr, r: Expr, c: real, a1: Assignment, a2: Assignment, combined: Assignment)
    requires LinearAt(l, c, a1, a2, combined) && LinearAt(r, c, a1, a2, combined)
    ensures LinearAt(Plus(l, r), c, a1, a2, combined)
  {
  }

  lemma MinusIsLinearAt(l: Expr, r: Expr, c: real, a1: Assignment, a2: Assignment, combined: Assignment)
    requires LinearAt(l, c, a1, a2, combined) && LinearAt(r, c, a1, a2, combined)
    ensures LinearAt(Minus(l, r), c, a1, a2, combined)
  {
  }

  lemma TimesIsLinearAt(k: real, x: Expr, c: real, a1: Assignment, a2: Assignment, combined: Assignment)
    requires LinearAt(x, c, a1, a2, combined)
    ensures LinearAt(Times(k, x), c, a1, a2, combined)
  {
    ScaleDistributes(k, c, Value(x, a1), Value(x, a2));
  }

  /** Scaling distributes over a linear combination. */
  lemma ScaleDistributes(k: real, c: real, v1: real, v2: real)
    ensures k * (c * v1 + v2) == c * (k * v1) + k * v2
  {
  }

  /** An expression without constant terms is 0 when every variable is. */
  lemma {:induction false} HomogeneousAtZero(e: Expr, a: Assignment)
    requires Homogeneous(e)
    requires forall v :: a(v) == 0.0
    ensures Value(e, a) == 0.0
  {
    match e
    case Const(_) =>
    case Ref(_) =>
    case Plus(l, r) =>
      HomogeneousAtZero(l, a);
      HomogeneousAtZero(r, a);
    case Minus(l, r) =>
      HomogeneousAtZero(l, a);
      HomogeneousAtZero(r, a);
    case Times(k, x) =>
      HomogeneousAtZero(x, a);
  }

  lemma {:induction false} SumExprsHomogeneous(es: seq<Expr>)
    requires forall i :: 0 <= i < |es| ==> Homogeneous(es[i])
    ensures Homogeneous(SumExprs(es))
  {
    if es != [] {
      SumExprsHomogeneous(es[..|es| - 1]);
    }
  }

  // ---------------------------------------------------------------------------
  // Constraint families

  /** A constraint family: its name, its index space and the rule's outcome at
      every index, in index order. */
  datatype Block<I> = Block(name: string, index: seq<I>, rows: seq<RuleResult>)

  /** `Constraint(index, rule=rule, name=name)` once constructed: the rule run at
      every index, in order. */
  function BuildBlock<I>(name: string, index: seq<I>, rule: I -> RuleResult): (b: Block<I>)
    ensures b.name == name && b.index == index && |b.rows| == |index|
    ensures forall p :: 0 <= p < |index| ==> b.rows[p] == rule(index[p])
  {
    Block(name, index, seq(|index|, p requires 0 <= p < |index| => rule(index[p])))
  }

  /** No rule raised, so the family can be added to a model. */
  predicate Constructible<I>(b: Block<I>)
  {
    forall p :: 0 <= p < |b.rows| ==> !b.rows[p].Raise?
  }

  /** The assignment obeys every row of the family. */
  predicate Satisfied<I>(b: Block<I>, a: Assignment)
  {
    forall p :: 0 <= p < |b.rows| ==> Obeys(b.rows[p], a)
  }

  /** The indices at which the family emits a relation, in index order. */
  function EmittedFrom<I>(index: seq<I>, rows: seq<RuleResult>): seq<I>
    requires |index| == |rows|
  {
    if index == [] then []
    else (if rows[0].Emit? then [index[0]] else []) + EmittedFrom(index[1..], rows[1..])
  }

  function Emitted<I>(b: Block<I>): seq<I>
    requires |b.index| == |b.rows|
  {
    EmittedFrom(b.index, b.rows)
  }

  lemma {:induction false} EmittedFromMember<I>(index: seq<I>, rows: seq<RuleResult>, x: I)
    requires |index| == |rows|
    ensures x in EmittedFrom(index, rows) <==> exists p :: 0 <= p < |index| && index[p] == x && rows[p].Emit?
  {
    if index != [] {
      EmittedFromMember(index[1..], rows[1..], x);
      if exists p :: 0 <= p < |index| && index[p] == x && rows[p].Emit? {
        var p :| 0 <= p < |index| && index[p] == x && rows[p].Emit?;
        if p > 0 {
          assert index[1..][p - 1] == x && rows[1..][p - 1].Emit?;
        }
      }
      if x in EmittedFrom(index[1..], rows[1..]) {
        var p :| 0 <= p < |index[1..]| && index[1..][p] == x && rows[1..][p].Emit?;
        assert index[p + 1] == x && rows[p + 1].Emit?;
      }
    }
  }

  lemma {:induction false} EmittedFromAll<I>(index: seq<I>, rows: seq<RuleResult>)
    requires |index| == |rows|
    requires forall p :: 0 <= p < |rows| ==> rows[p].Emit?
    ensures EmittedFrom(index, rows) == index
  {
    if index != [] {
      EmittedFromAll(index[1..], rows[1..]);
    }
  }

  /** A built family emits at exactly the indices where its rule emits. */
  lemma EmittedBuildBlock<I>(name: string, index: seq<I>, rule: I -> RuleResult, x: I)
    ensures x in Emitted(BuildBlock(name, index, rule)) <==> x in index && rule(x).Emit?
  {
    var b := BuildBlock(name, index, rule);
    EmittedFromMember(b.index, b.rows, x);
    if x in index && rule(x).Emit? {
      var p :| 0 <= p < |index| && index[p] == x;
    }
  }

  /** A built family is satisfied exactly when the rule's outcome at every index is obeyed. */
  lemma SatisfiedBuildBlock<I>(name: string, index: seq<I>, rule: I -> RuleResult, a: Assignment)
    ensures Satisfied(BuildBlock(name, index, rule), a) <==> forall x :: x in index ==> Obeys(rule(x), a)
  {
    var b := BuildBlock(name, index, rule);
    if Satisfied(b, a) {
      forall x | x in index ensures Obeys(rule(x), a) {
        var p :| 0 <= p < |index| && index[p] == x;
        assert Obeys(b.rows[p], a);
      }
    }
  }

  /** The variables a rule's outcome mentions: those of its relation, or
      none when it skipped or raised. */
  function RuleVars(r: RuleResult): set<Var>
  {
    if r.Emit? then Vars(r.relation.lhs) + Vars(r.relation.rhs) else {}
  }

  /** Every row of the family mentions only variables in `allowed`. */
  predicate MentionsOnly<I>(b: Block<I>, allowed: set<Var>)
  {
    forall p :: 0 <= p < |b.rows| ==> RuleVars(b.rows[p]) <= allowed
  }

  lemma ConstructibleBuildBlock<I>(name: string, index: seq<I>, rule: I -> RuleResult)
    ensures Constructible(BuildBlock(name, index, rule)) <==> forall x :: x in index ==> !rule(x).Raise?
  {
    var b := BuildBlock(name, index, rule);
    if Constructible(b) {
      forall x | x in index ensures !rule(x).Raise? {
        var p :| 0 <= p < |index| && index[p] == x;
        assert !b.rows[p].Raise?;
      }
    }
  }
}
