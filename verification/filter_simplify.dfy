/** The stream filter-expression simplification rule of the optimizer. Inside a filter
    over a shared plan, it rewrites a boolean expression that mentions at most one column:
    a definitely-null expression becomes `false`; an OR or AND with a constant side that
    decides it becomes that constant; and `e OR NOT e` / `e AND NOT e` become
    `IsNotNull(c)` (or `true`) and `false`.

    The rewriter does not descend into sub-expressions: it rewrites the expression it is
    handed. Constant folding, `is_const` and `Strong::is_null` belong to other parts of the
    optimizer and are parameters (`Oracles`). */
module FilterSimplify {
  import opened Common

  datatype ExprType = Not | Or | And | IsNull | IsNotNull | OtherFunc(name: string)

  /** `ExprImpl`, reduced to the shapes the rule looks at. */
  datatype Expr =
    | InputRef(index: nat, dataType: DataType)
    | Literal(value: Datum, dataType: DataType)
    | FunctionCall(funcType: ExprType, inputs: seq<Expr>, returnType: DataType)
    | OtherExpr(name: string)

  /** A `FixedBitSet` of the given capacity with the given bits set. */
  datatype FixedBitSet = FixedBitSet(capacity: nat, ones: set<nat>)

  /** `FixedBitSet::with_capacity`: no bit set. */
  function WithCapacity(capacity: nat): (b: FixedBitSet)
    ensures b.capacity == capacity && b.ones == {}
  {
    FixedBitSet(capacity, {})
  }

  /** The optimizer functions the rule consults. `tryFoldConst` is `None` for a
      non-constant expression and otherwise the folded value or an evaluation error. */
  datatype Oracles = Oracles(
    tryFoldConst: Expr -> Option<Result<Datum, string>>,
    isConst: Expr -> bool,
    strongIsNull: (Expr, FixedBitSet) -> bool)

  /** `ExprImpl::literal_bool`. */
  function LiteralBool(b: bool): Expr
  {
    Literal(Some(Bool(b)), Boolean)
  }

  predicate IsNullOrNotNull(t: ExprType)
  {
    t == IsNull || t == IsNotNull
  }

  // ---------------------------------------------------------------------------
  // extract_column
  // ---------------------------------------------------------------------------

  /** `x` is a column reference reachable in `e` without passing through an `IsNull` or
      `IsNotNull` call. */
  predicate Reachable(x: Expr, e: Expr)
    decreases e
  {
    match e
    case InputRef(_, _) => x == e
    case FunctionCall(ft, inputs, _) => !IsNullOrNotNull(ft) && ReachableIn(x, inputs)
    case _ => false
  }

  /** `x` is reachable in one of `es`. */
  predicate ReachableIn(x: Expr, es: seq<Expr>)
    decreases es
  {
    exists i :: 0 <= i < |es| && Reachable(x, es[i])
  }

  /** `e` references some column outside IsNull/IsNotNull. */
  ghost predicate HasColumn(e: Expr)
  {
    exists x :: Reachable(x, e)
  }

  /** The rewriter's nullness test: a single column, and `Strong::is_null` says the
      expression is null when handed a bit set sized by that column's index with no bit
      set, that is, with no column known to be null: the expression is null whatever
      the input row holds. */
  predicate DefinitelyNull(o: Oracles, expr: Expr)
  {
    var columns := Cols(expr);
    |columns| == 1 && columns[0].InputRef? && o.strongIsNull(expr, WithCapacity(columns[0].index))
  }

  /** What `extract_column(e, acc)` leaves in `acc`: the reachable columns appended in
      first-visit order, each only if not already present. */
  function ColsFrom(e: Expr, acc: seq<Expr>): seq<Expr>
    decreases e
  {
    match e
    case FunctionCall(ft, inputs, _) => if IsNullOrNotNull(ft) then acc else ColsSeq(inputs, acc)
    case InputRef(_, _) => if e in acc then acc else acc + [e]
    case _ => acc
  }

  /** `extract_column` over the inputs of a call, left to right. */
  function ColsSeq(es: seq<Expr>, acc: seq<Expr>): seq<Expr>
    decreases es
  {
    if |es| == 0 then acc else ColsFrom(es[|es| - 1], ColsSeq(es[..|es| - 1], acc))
  }

  /** The columns `extract_column` collects into an empty vector. */
  function Cols(e: Expr): seq<Expr>
  {
    ColsFrom(e, [])
  }

  lemma {:induction false} ReachableIsInputRef(x: Expr, e: Expr)
    requires Reachable(x, e)
    ensures x.InputRef?
    decreases e
  {
    match e
    case InputRef(_, _) =>
    case FunctionCall(_, inputs, _) =>
      assert ReachableIn(x, inputs);
      var i :| 0 <= i < |inputs| && Reachable(x, inputs[i]);
      ReachableIsInputRef(x, inputs[i]);
  }

  /** `extract_column` only appends to its accumulator; it appends exactly the reachable
      columns not yet present, and never a duplicate. */
  lemma {:induction false} ColsFromFacts(e: Expr, acc: seq<Expr>)
    ensures acc <= ColsFrom(e, acc)
    ensures forall x :: x in ColsFrom(e, acc) <==> x in acc || Reachable(x, e)
    ensures NoDuplicates(acc) ==> NoDuplicates(ColsFrom(e, acc))
    decreases e
  {
    match e
    case FunctionCall(ft, inputs, _) =>
      if !IsNullOrNotNull(ft) {
        ColsSeqFacts(inputs, acc);
      }
    case InputRef(_, _) =>
    case _ =>
  }

  lemma {:induction false} ColsSeqFacts(es: seq<Expr>, acc: seq<Expr>)
    ensures acc <= ColsSeq(es, acc)
    ensures forall x :: x in ColsSeq(es, acc) <==> x in acc || ReachableIn(x, es)
    ensures NoDuplicates(acc) ==> NoDuplicates(ColsSeq(es, acc))
    decreases es
  {
    if |es| > 0 {
      var init := es[..|es| - 1];
      ColsSeqFacts(init, acc);
      ColsFromFacts(es[|es| - 1], ColsSeq(init, acc));
      forall x
        ensures ReachableIn(x, es) <==> ReachableIn(x, init) || Reachable(x, es[|es| - 1])
      {
        if ReachableIn(x, es) {
          var i :| 0 <= i < |es| && Reachable(x, es[i]);
          if i < |init| {
            assert init[i] == es[i];
          }
        }
        if ReachableIn(x, init) {
          var i :| 0 <= i < |init| && Reachable(x, init[i]);
          assert es[i] == init[i];
        }
      }
    }
  }

  /** `extract_column` collects exactly the reachable column references, once each, so
      IsNull/IsNotNull sub-trees and literals contribute nothing. */
  lemma ColsAreReachableInputRefs(e: Expr)
    ensures forall x :: x in Cols(e) <==> Reachable(x, e)
    ensures forall x :: x in Cols(e) ==> x.InputRef?
    ensures NoDuplicates(Cols(e))
  {
    ColsFromFacts(e, []);
    forall x | x in Cols(e) {
      ReachableIsInputRef(x, e);
    }
  }

  /** `extract_column(e, columns)`: recursion over the tree, pushing into `columns`. */
  method ExtractColumn(e: Expr, columns: seq<Expr>) returns (r: seq<Expr>)
    ensures r == ColsFrom(e, columns)
    decreases e
  {
    match e {
      case FunctionCall(ft, inputs, _) =>
        if IsNullOrNotNull(ft) {
          return columns;
        }
        r := columns;
        for i := 0 to |inputs|
          invariant r == ColsSeq(inputs[..i], columns)
        {
          assert inputs[..i + 1][..i] == inputs[..i];
          r := ExtractColumn(inputs[i], r);
        }
        assert inputs[..|inputs|] == inputs;
      case InputRef(_, _) =>
        r := columns;
        if e !in columns {
          r := columns + [e];
        }
      case Literal(_, _) =>
        r := columns;
      case OtherExpr(_) =>
        r := columns;
    }
  }

  /** Every column of a call's input is a column of the call, unless the call is an
      IsNull/IsNotNull. */
  lemma InputColsWithin(e: Expr, i: nat)
    requires e.FunctionCall? && !IsNullOrNotNull(e.funcType) && i < |e.inputs|
    ensures forall x :: x in Cols(e.inputs[i]) ==> x in Cols(e)
  {
    ColsAreReachableInputRefs(e);
    ColsAreReachableInputRefs(e.inputs[i]);
    forall x | x in Cols(e.inputs[i])
      ensures x in Cols(e)
    {
      assert Reachable(x, e.inputs[i]);
      assert ReachableIn(x, e.inputs);
    }
  }

  /** A sequence without duplicates that fits inside one of length at most one has length
      at most one. */
  lemma AtMostOneColumn(inner: seq<Expr>, outer: seq<Expr>)
    requires NoDuplicates(inner) && |outer| <= 1
    requires forall x :: x in inner ==> x in outer
    ensures |inner| <= 1
  {
    if |inner| >= 2 {
      FirstTwoDistinctMembers(inner, outer);
      assert false;
    }
  }

  lemma FirstTwoDistinctMembers(inner: seq<Expr>, outer: seq<Expr>)
    requires NoDuplicates(inner) && |inner| >= 2
    requires forall x :: x in inner ==> x in outer
    ensures inner[0] in outer && inner[1] in outer && inner[0] != inner[1]
  {
    assert inner[0] in inner && inner[1] in inner;
  }

  // ---------------------------------------------------------------------------
  // check_optimizable_pattern
  // ---------------------------------------------------------------------------

  /** `FunctionCall::new(IsNotNull, [c])`, taken to succeed: `IsNotNull` accepts any
      argument type and returns a boolean. */
  function IsNotNullOf(c: Expr): Expr
  {
    FunctionCall(IsNotNull, [c], Boolean)
  }

  /** `try_wrap_inner_expression`: `IsNotNull(c)` for the expression's single column `c`,
      or `None` when it has none. The source asserts that there is at most one. */
  function TryWrapInner(e: Expr): (r: Option<Expr>)
    requires |Cols(e)| <= 1
    ensures r.None? <==> !HasColumn(e)
    ensures r.Some? ==> exists c :: Reachable(c, e) && c.InputRef? && r.value == IsNotNullOf(c)
  {
    ColsAreReachableInputRefs(e);
    var columns := Cols(e);
    if |columns| == 0 then None
    else
      assert columns[0] in columns && Reachable(columns[0], e);
      Some(IsNotNullOf(columns[0]))
  }

  /** The side `check_optimizable_pattern` hands to `try_wrap_inner_expression`, if it
      gets that far: the side that is not taken as the NOT. */
  function WrapTarget(e1: Expr, e2: Expr): Option<Expr>
  {
    if !e1.FunctionCall? || !e2.FunctionCall? then None
    else if e1.funcType != Not && e2.funcType != Not then None
    else if e1.funcType != Not then (if |e2.inputs| != 1 then None else Some(e1))
    else if |e1.inputs| != 1 then None
    else Some(e2)
  }

  /** `e1` and `e2` have the shape `x [op] NOT x` or `NOT x [op] x`; when `e1` is a NOT
      it is always the one taken as the negation. */
  predicate NegationPair(e1: Expr, e2: Expr)
  {
    && e1.FunctionCall? && e2.FunctionCall?
    && ((e1.funcType == Not && e1.inputs == [e2])
        || (e1.funcType != Not && e2.funcType == Not && e2.inputs == [e1]))
  }

  /** `check_optimizable_pattern`: whether the pair is an expression and its negation,
      and the `IsNotNull` wrapper of the non-negated side's column. */
  function CheckOptimizablePattern(e1: Expr, e2: Expr): (r: (bool, Option<Expr>))
    requires WrapTarget(e1, e2).Some? ==> |Cols(WrapTarget(e1, e2).value)| <= 1
    ensures r.0 <==> NegationPair(e1, e2)
    ensures WrapTarget(e1, e2).None? ==> r == (false, None)
    ensures r.1.Some? ==>
              exists c :: Reachable(c, WrapTarget(e1, e2).value) && c.InputRef? && r.1.value == IsNotNullOf(c)
    ensures r.0 && e1.funcType == Not ==> (r.1.None? <==> !HasColumn(e2))
    ensures r.0 && e1.funcType != Not ==> (r.1.None? <==> !HasColumn(e1))
  {
    if !e1.FunctionCall? then (false, None)
    else if !e2.FunctionCall? then (false, None)
    else if e1.funcType != Not && e2.funcType != Not then (false, None)
    else if e1.funcType != Not then
      if |e2.inputs| != 1 then (false, None)
      else (e1 == e2.inputs[0], TryWrapInner(e1))
    else
      if |e1.inputs| != 1 then (false, None)
      else (e2 == e1.inputs[0], TryWrapInner(e2))
  }

  /** The check is not symmetric: with `NOT c` first and `NOT NOT c` second, the first
      is taken as the negation and no pair is found, while the swapped order finds one
      (`CheckOptimizablePattern` flags exactly the `NegationPair`s). */
  lemma OptimizablePatternPrefersLeftNot(c: Expr)
    requires c.InputRef?
    ensures var n := FunctionCall(Not, [c], Boolean);
            var nn := FunctionCall(Not, [n], Boolean);
            !NegationPair(n, nn) && NegationPair(nn, n)
  {
    var n := FunctionCall(Not, [c], Boolean);
    var nn := FunctionCall(Not, [n], Boolean);
    assert [c] != [nn];
  }

  // ---------------------------------------------------------------------------
  // check_special_pattern
  // ---------------------------------------------------------------------------

  /** `e` folds, without error, to the given boolean. */
  predicate FoldsTo(o: Oracles, e: Expr, b: bool)
  {
    o.tryFoldConst(e) == Some(Ok(Some(Bool(b))))
  }

  /** `check_special_pattern_inner`: `true` for an OR side folding to true, `false` for an
      AND side folding to false, nothing otherwise. */
  function SpecialPatternInner(o: Oracles, e: Expr, op: ExprType): (r: Option<bool>)
    ensures r.Some? <==> (op == Or && FoldsTo(o, e, true)) || (op == And && FoldsTo(o, e, false))
    ensures r.Some? ==> r.value == (op == Or)
  {
    match o.tryFoldConst(e)
    case Some(Ok(Some(scalar))) =>
      if op == Or then (if scalar == Bool(true) then Some(true) else None)
      else if op == And then (if scalar == Bool(false) then Some(false) else None)
      else None
    case _ => None
  }

  /** `e` decides an `op` on its own: a true OR side or a false AND side. */
  predicate Decides(o: Oracles, e: Expr, op: ExprType)
  {
    (op == Or && FoldsTo(o, e, true)) || (op == And && FoldsTo(o, e, false))
  }

  /** `check_special_pattern`: the first side is consulted only if constant, the second
      only if a literal. Either way the answer is the value that decides `op`. */
  function CheckSpecialPattern(o: Oracles, e1: Expr, e2: Expr, op: ExprType): (r: Option<bool>)
    ensures r.Some? <==> (o.isConst(e1) && Decides(o, e1, op)) || (e2.Literal? && Decides(o, e2, op))
    ensures r.Some? ==> (op == Or || op == And) && r.value == (op == Or)
  {
    var first := if o.isConst(e1) then SpecialPatternInner(o, e1, op) else None;
    if first.Some? then first
    else if e2.Literal? then SpecialPatternInner(o, e2, op)
    else None
  }

  // ---------------------------------------------------------------------------
  // rewrite_expr
  // ---------------------------------------------------------------------------

  /** The expression reaches the rewriter's return-type assertion: at most one column,
      not definitely null, and an OR or AND call. */
  predicate ReachesTypeAssertion(o: Oracles, expr: Expr)
  {
    var columns := Cols(expr);
    && |columns| <= 1
    && !DefinitelyNull(o, expr)
    && expr.FunctionCall? && (expr.funcType == Or || expr.funcType == And)
  }

  /** The expression reaches the two pattern checks: it passed the column and nullness
      checks and is an OR or AND of exactly two operands. */
  predicate PatternCandidate(o: Oracles, expr: Expr)
  {
    ReachesTypeAssertion(o, expr) && |expr.inputs| == 2
  }

  /** Of a pair flagged by `check_optimizable_pattern`, the operand that is not taken as
      the NOT: the one `try_wrap_inner_expression` is applied to. */
  function Positive(e1: Expr, e2: Expr): Expr
  {
    if e1.FunctionCall? && e1.funcType == Not then e2 else e1
  }

  /** `rewrite_expr`. The source asserts that an OR/AND reaching the pattern checks
      returns a boolean. */
  function RewriteExpr(o: Oracles, expr: Expr): (r: Expr)
    requires ReachesTypeAssertion(o, expr) ==> expr.returnType == Boolean
    ensures |Cols(expr)| > 1 ==> r == expr
    ensures DefinitelyNull(o, expr) ==> r == LiteralBool(false)
    ensures |Cols(expr)| <= 1 && !DefinitelyNull(o, expr) && !PatternCandidate(o, expr) ==> r == expr
    ensures PatternCandidate(o, expr) ==>
              var (e1, e2, op) := (expr.inputs[0], expr.inputs[1], expr.funcType);
              var special := CheckSpecialPattern(o, e1, e2, op);
              && (special.Some? ==> r == LiteralBool(special.value))
              && (special.None? && !NegationPair(e1, e2) ==> r == expr)
              && (special.None? && NegationPair(e1, e2) && op == And ==> r == LiteralBool(false))
              && (special.None? && NegationPair(e1, e2) && op == Or ==>
                    && (r == LiteralBool(true) <==> !HasColumn(Positive(e1, e2)))
                    && (r != LiteralBool(true) ==>
                          exists c :: Reachable(c, Positive(e1, e2)) && r == IsNotNullOf(c)))
    ensures r != expr ==>
              || r == LiteralBool(false)
              || (expr.FunctionCall? && (expr.funcType == Or || expr.funcType == And) && |expr.inputs| == 2)
    ensures r == expr || r == LiteralBool(true) || r == LiteralBool(false)
            || (exists c :: c in Cols(expr) && r == IsNotNullOf(c))
  {
    ColsAreReachableInputRefs(expr);
    var columns := Cols(expr);
    if |columns| > 1 then expr
    else if |columns| == 1 && !columns[0].InputRef? then expr
    else if |columns| == 1 && o.strongIsNull(expr, WithCapacity(columns[0].index)) then LiteralBool(false)
    else if !expr.FunctionCall? then expr
    else if expr.funcType != Or && expr.funcType != And then expr
    else if |expr.inputs| != 2 then expr
    else
      var e1, e2 := expr.inputs[0], expr.inputs[1];
      match CheckSpecialPattern(o, e1, e2, expr.funcType)
      case Some(res) => LiteralBool(res)
      case None =>
        WrapTargetFits(expr);
        var (flag, column) := CheckOptimizablePattern(e1, e2);
        if !flag then expr
        else if expr.funcType == Or then
          (if column.Some? then
             WrapTargetColumnWithin(expr, column.value);
             column.value
           else LiteralBool(true))
        else LiteralBool(false)
  }

  /** Inside the rewriter the wrapped side has at most one column, so the assertion in
      `try_wrap_inner_expression` never fires. */
  lemma WrapTargetFits(expr: Expr)
    requires expr.FunctionCall? && (expr.funcType == Or || expr.funcType == And)
    requires |expr.inputs| == 2 && |Cols(expr)| <= 1
    ensures var t := WrapTarget(expr.inputs[0], expr.inputs[1]);
            t.Some? ==> |Cols(t.value)| <= 1
  {
    var t := WrapTarget(expr.inputs[0], expr.inputs[1]);
    if t.Some? {
      var i := if t.value == expr.inputs[0] then 0 else 1;
      assert t.value == expr.inputs[i];
      InputColsWithin(expr, i);
      ColsAreReachableInputRefs(t.value);
      AtMostOneColumn(Cols(t.value), Cols(expr));
    }
  }

  /** The column wrapped in `IsNotNull` is a column of the whole expression. */
  lemma WrapTargetColumnWithin(expr: Expr, w: Expr)
    requires expr.FunctionCall? && (expr.funcType == Or || expr.funcType == And)
    requires |expr.inputs| == 2
    requires WrapTarget(expr.inputs[0], expr.inputs[1]).Some?
    requires exists c :: Reachable(c, WrapTarget(expr.inputs[0], expr.inputs[1]).value) && w == IsNotNullOf(c)
    ensures exists c :: c in Cols(expr) && w == IsNotNullOf(c)
  {
    var t := WrapTarget(expr.inputs[0], expr.inputs[1]).value;
    var c :| Reachable(c, t) && w == IsNotNullOf(c);
    var i := if t == expr.inputs[0] then 0 else 1;
    assert t == expr.inputs[i];
    ColsAreReachableInputRefs(expr);
    assert Reachable(c, expr);
  }

  /** `x AND NOT x` with at most one column, not definitely null and with no deciding
      constant side, becomes `false`. */
  lemma AndWithNegationIsFalse(o: Oracles, x: Expr)
    requires x.FunctionCall? && x.funcType != Not
    requires var expr := FunctionCall(And, [x, FunctionCall(Not, [x], Boolean)], Boolean);
             |Cols(expr)| <= 1 && !DefinitelyNull(o, expr)
    requires CheckSpecialPattern(o, x, FunctionCall(Not, [x], Boolean), And).None?
    ensures RewriteExpr(o, FunctionCall(And, [x, FunctionCall(Not, [x], Boolean)], Boolean)) == LiteralBool(false)
  {
    var nx := FunctionCall(Not, [x], Boolean);
    var expr := FunctionCall(And, [x, nx], Boolean);
    ColsAreReachableInputRefs(expr);
    WrapTargetFits(expr);
    assert NegationPair(x, nx);
    assert CheckOptimizablePattern(x, nx).0;
  }

  /** `x OR NOT x` with at most one column, not definitely null and with no deciding
      constant side, becomes `IsNotNull(c)` for the column `c` of `x`, or `true` when `x`
      has no column. */
  lemma OrWithNegationIsNotNull(o: Oracles, x: Expr)
    requires x.FunctionCall? && x.funcType != Not
    requires var expr := FunctionCall(Or, [x, FunctionCall(Not, [x], Boolean)], Boolean);
             |Cols(expr)| <= 1 && !DefinitelyNull(o, expr)
    requires CheckSpecialPattern(o, x, FunctionCall(Not, [x], Boolean), Or).None?
    ensures var r := RewriteExpr(o, FunctionCall(Or, [x, FunctionCall(Not, [x], Boolean)], Boolean));
      && (HasColumn(x) ==> exists c :: Reachable(c, x) && r == IsNotNullOf(c))
      && (!HasColumn(x) ==> r == LiteralBool(true))
  {
    var nx := FunctionCall(Not, [x], Boolean);
    var expr := FunctionCall(Or, [x, nx], Boolean);
    ColsAreReachableInputRefs(expr);
    WrapTargetFits(expr);
    assert NegationPair(x, nx);
    assert CheckOptimizablePattern(x, nx).0;
  }

  /** A definitely-null expression becomes `false` before any pattern is looked at,
      whatever its shape. */
  lemma DefinitelyNullFirst(o: Oracles, expr: Expr)
    requires DefinitelyNull(o, expr)
    ensures RewriteExpr(o, expr) == LiteralBool(false)
  {
  }

  /** An expression with at most one column that is not definitely null, and is not an
      OR or AND, is kept: only the two connectives are simplified. */
  lemma NonConnectiveKept(o: Oracles, expr: Expr)
    requires |Cols(expr)| <= 1 && !DefinitelyNull(o, expr)
    requires !(expr.FunctionCall? && (expr.funcType == Or || expr.funcType == And))
    ensures RewriteExpr(o, expr) == expr
  {
  }

  /** `NOT x AND x`, the other orientation, becomes `false` as well. */
  lemma LeftNegationAndIsFalse(o: Oracles, x: Expr)
    requires x.FunctionCall?
    requires var expr := FunctionCall(And, [FunctionCall(Not, [x], Boolean), x], Boolean);
             |Cols(expr)| <= 1 && !DefinitelyNull(o, expr)
    requires CheckSpecialPattern(o, FunctionCall(Not, [x], Boolean), x, And).None?
    ensures RewriteExpr(o, FunctionCall(And, [FunctionCall(Not, [x], Boolean), x], Boolean)) == LiteralBool(false)
  {
    var nx := FunctionCall(Not, [x], Boolean);
    assert NegationPair(nx, x);
  }

  /** `NOT x OR x` becomes `IsNotNull(c)` for the column `c` of `x`, or `true` when `x`
      has no column. */
  lemma LeftNegationOrIsNotNull(o: Oracles, x: Expr)
    requires x.FunctionCall?
    requires var expr := FunctionCall(Or, [FunctionCall(Not, [x], Boolean), x], Boolean);
             |Cols(expr)| <= 1 && !DefinitelyNull(o, expr)
    requires CheckSpecialPattern(o, FunctionCall(Not, [x], Boolean), x, Or).None?
    ensures var r := RewriteExpr(o, FunctionCall(Or, [FunctionCall(Not, [x], Boolean), x], Boolean));
      && (HasColumn(x) ==> exists c :: Reachable(c, x) && r == IsNotNullOf(c))
      && (!HasColumn(x) ==> r == LiteralBool(true))
  {
    var nx := FunctionCall(Not, [x], Boolean);
    var expr := FunctionCall(Or, [nx, x], Boolean);
    assert PatternCandidate(o, expr);
    assert NegationPair(nx, x) && Positive(nx, x) == x;
    var r := RewriteExpr(o, expr);
    assert r == LiteralBool(true) <==> !HasColumn(x);
  }
}
