/** The expression tree of the RQL query builder and what `&`, `|` and `~` mean. */
module RqlTree {
  datatype Op = Expr | And | Or

  /** A node; a missing expression is "". */
  datatype Query = Query(op: Op, children: seq<Query>, negated: bool, expr: string)

  /** The truth of every leaf expression. */
  type Env = string -> bool

  function Leaf(expr: string): Query {
    Query(Expr, [], false, expr)
  }

  /** The expression counts before the children, as it does when the query is printed. */
  ghost predicate Meaning(q: Query, env: Env) {
    var inner :=
      if q.expr != "" then env(q.expr)
      else if q.op == Or then exists i :: 0 <= i < |q.children| && Meaning(q.children[i], env)
      else forall i :: 0 <= i < |q.children| ==> Meaning(q.children[i], env);
    inner != q.negated
  }

  /** `__bool__` is false. */
  predicate IsEmpty(q: Query) {
    q.children == [] && q.expr == ""
  }

  /** `__len__`. */
  function Length(q: Query): nat {
    if q.op == Expr then (if q.expr == "" then 0 else 1) else |q.children|
  }

  /**
   * The non-empty nodes that lookups and the operators build: leaves, leaves inverted by `~`, and
   * conjunctions and disjunctions of such nodes.
   */
  ghost predicate Good(q: Query) {
    match q.op
    case Expr => q == Leaf(q.expr) && q.expr != ""
    case _ =>
      if q.expr != "" then q.op == And && q.children == [Leaf(q.expr)]
      else q.children != [] && forall i :: 0 <= i < |q.children| ==> Good(q.children[i])
  }

  /** A node with something to print, all the way down. */
  ghost predicate Printable(q: Query) {
    || q.expr != ""
    || (q.op != Expr && q.children != [] && forall i :: 0 <= i < |q.children| ==> Printable(q.children[i]))
  }

  /** Only connectives have children. */
  ghost predicate Tidy(q: Query) {
    (q.op == Expr ==> q.children == []) && forall i :: 0 <= i < |q.children| ==> Tidy(q.children[i])
  }

  predicate NegatedLeaf(q: Query) {
    q.expr != "" && q.negated
  }

  /** `_append`: skip a duplicate, take over the children of a like or one-child node, or add a child. */
  function Appended(q: Query, other: Query): Query {
    if other in q.children then q
    else if (other.op == q.op || (Length(other) == 1 && other.op != Expr)) && !other.negated
    then q.(children := q.children + other.children)
    else q.(children := q.children + [other])
  }

  /** `_copy` keeps everything but the negation. */
  function Copied(q: Query): Query {
    q.(negated := false)
  }

  /** `_join`. */
  function Joined(a: Query, b: Query, op: Op): Query {
    if a == b then Copied(a)
    else if IsEmpty(b) then Copied(a)
    else if IsEmpty(a) then Copied(b)
    else Appended(Appended(Query(op, [], false, ""), a), b)
  }

  /** `__invert__`. */
  function Inverted(q: Query): Query {
    Appended(Query(And, [], true, q.expr), q)
  }

  /** What a connective means over the children alone. */
  ghost predicate Holds(op: Op, children: seq<Query>, env: Env) {
    if op == Or then exists i :: 0 <= i < |children| && Meaning(children[i], env)
    else forall i :: 0 <= i < |children| ==> Meaning(children[i], env)
  }

  predicate Combine(op: Op, a: bool, b: bool) {
    if op == Or then a || b else a && b
  }

  lemma HoldsConcat(op: Op, a: seq<Query>, b: seq<Query>, env: Env)
    ensures Holds(op, a + b, env) == Combine(op, Holds(op, a, env), Holds(op, b, env))
  {
    forall i | 0 <= i < |b| ensures (a + b)[|a| + i] == b[i] {
    }
    forall i | 0 <= i < |a| ensures (a + b)[i] == a[i] {
    }
  }

  lemma HoldsOne(op: Op, q: Query, env: Env)
    ensures Holds(op, [q], env) == Meaning(q, env)
  {
    assert [q][0] == q;
  }

  lemma HoldsMember(op: Op, children: seq<Query>, q: Query, env: Env)
    requires q in children
    ensures Holds(op, children, env) == Combine(op, Holds(op, children, env), Meaning(q, env))
  {
    var i :| 0 <= i < |children| && children[i] == q;
  }

  /**
   * Whether a node can be taken over by its children: a connective that is not negated must mean what its
   * children mean. Leaves and negated nodes are never taken over.
   */
  ghost predicate MeansChildren(q: Query, env: Env) {
    q.op == Expr || q.negated || Holds(q.op, q.children, env) == Meaning(q, env)
  }

  /** Flattening, unwrapping one child and skipping duplicates all keep the meaning. */
  lemma AppendedHolds(q: Query, other: Query, env: Env)
    requires q.op != Expr && MeansChildren(other, env)
    ensures Holds(q.op, Appended(q, other).children, env)
         == Combine(q.op, Holds(q.op, q.children, env), Meaning(other, env))
  {
    if other in q.children {
      HoldsMember(q.op, q.children, other, env);
    } else {
      AppendedEffect(q, other, env);
    }
  }

  /** What a node contributes when it is appended and is not there yet. */
  ghost predicate Contribution(other: Query, env: Env) {
    if other.op != Expr && !other.negated then Holds(other.op, other.children, env) else Meaning(other, env)
  }

  lemma AppendedEffect(q: Query, other: Query, env: Env)
    requires q.op != Expr && other !in q.children
    requires TakenOver(q, other) || MeansChildren(other, env)
    ensures Holds(q.op, Appended(q, other).children, env)
         == Combine(q.op, Holds(q.op, q.children, env), Contribution(other, env))
  {
    if TakenOver(q, other) {
      HoldsConcat(q.op, q.children, other.children, env);
      if other.op != q.op {
        assert other.children == [other.children[0]];
        HoldsOne(q.op, other.children[0], env);
        HoldsOne(other.op, other.children[0], env);
      }
    } else {
      HoldsConcat(q.op, q.children, [other], env);
      HoldsOne(q.op, other, env);
    }
  }

  /** The branch that extends the children by those of the other node. */
  predicate TakenOver(q: Query, other: Query) {
    (other.op == q.op || (Length(other) == 1 && other.op != Expr)) && !other.negated
  }

  /** Built nodes can always be taken over by their children. */
  lemma GoodMeansChildren(q: Query, env: Env)
    requires Good(q)
    ensures MeansChildren(q, env)
  {
    if q.expr != "" && q.op != Expr {
      HoldsOne(And, Leaf(q.expr), env);
    }
  }

  ghost predicate AllGood(children: seq<Query>) {
    forall i :: 0 <= i < |children| ==> Good(children[i])
  }

  lemma AppendedGood(q: Query, other: Query)
    requires q.op != Expr && AllGood(q.children) && Good(other)
    ensures AllGood(Appended(q, other).children) && Appended(q, other).children != []
    ensures Appended(q, other) == q.(children := Appended(q, other).children)
  {
    if other.expr != "" && other.op != Expr {
      assert Good(Leaf(other.expr));
    }
  }

  /** The operands that a join copies instead of joining. */
  predicate TakesShortcut(a: Query, b: Query) {
    a == b || IsEmpty(a) || IsEmpty(b)
  }

  function Surviving(a: Query, b: Query): Query {
    if a == b || IsEmpty(b) then a else b
  }

  ghost predicate GoodOrEmpty(q: Query) {
    IsEmpty(q) || Good(q)
  }

  /** An operand of a join: empty, or able to be taken over by its children. */
  ghost predicate Operand(q: Query, env: Env) {
    IsEmpty(q) || MeansChildren(q, env)
  }

  /** What a join should mean; an empty operand imposes nothing. */
  ghost predicate JoinMeans(op: Op, a: Query, b: Query, env: Env) {
    if IsEmpty(b) then Meaning(a, env)
    else if IsEmpty(a) then Meaning(b, env)
    else Combine(op, Meaning(a, env), Meaning(b, env))
  }

  lemma CopiedMeans(q: Query, env: Env)
    ensures Meaning(Copied(q), env) == (Meaning(q, env) != q.negated)
  {
  }

  /** A connective without an expression means what its children mean. */
  lemma ConnectiveMeans(q: Query, env: Env)
    requires q.op != Expr && q.expr == ""
    ensures Meaning(q, env) == (Holds(q.op, q.children, env) != q.negated)
  {
  }

  lemma AppendedKeepsRest(q: Query, other: Query)
    ensures Appended(q, other) == q.(children := Appended(q, other).children)
  {
  }

  lemma JoinedInFull(a: Query, b: Query, op: Op, env: Env)
    requires op != Expr && MeansChildren(a, env) && MeansChildren(b, env) && !TakesShortcut(a, b)
    ensures Meaning(Joined(a, b, op), env) == Combine(op, Meaning(a, env), Meaning(b, env))
  {
    var empty := Query(op, [], false, "");
    var one := Appended(empty, a);
    AppendedKeepsRest(empty, a);
    AppendedKeepsRest(one, b);
    AppendedHolds(empty, a, env);
    AppendedHolds(one, b, env);
    ConnectiveMeans(Joined(a, b, op), env);
    assert Holds(op, [], env) == (op != Or);
  }

  /**
   * `&` and `|` mean conjunction and disjunction, unless the copying shortcut is taken on a negated node:
   * then the result means the opposite, whatever the leaves mean.
   */
  lemma JoinCorrect(a: Query, b: Query, op: Op, env: Env)
    requires op != Expr && Operand(a, env) && Operand(b, env)
    ensures Meaning(Joined(a, b, op), env) == JoinMeans(op, a, b, env) <==>
            !(TakesShortcut(a, b) && Surviving(a, b).negated)
  {
    if TakesShortcut(a, b) {
      CopiedMeans(Surviving(a, b), env);
    } else {
      JoinedInFull(a, b, op, env);
    }
  }

  /**
   * No wider class of operands will do: beside an operand that leaves the connective undecided, the law
   * holds for a node that is taken over if and only if that node means what its children mean.
   */
  lemma OperandsAreWidest(a: Query, b: Query, op: Op, env: Env)
    requires op != Expr && MeansChildren(a, env) && Meaning(a, env) == (op != Or)
    requires !TakesShortcut(a, b)
    requires var one := Appended(Query(op, [], false, ""), a); b !in one.children && TakenOver(one, b)
    ensures Meaning(Joined(a, b, op), env) == JoinMeans(op, a, b, env) <==> MeansChildren(b, env)
  {
    var empty := Query(op, [], false, "");
    var one := Appended(empty, a);
    AppendedKeepsRest(empty, a);
    AppendedKeepsRest(one, b);
    AppendedHolds(empty, a, env);
    AppendedEffect(one, b, env);
    ConnectiveMeans(Joined(a, b, op), env);
    assert Holds(op, [], env) == (op != Or);
  }

  /** A doubly inverted leaf is an operand in every environment. */
  lemma DoublyInvertedLeaf(expr: string, env: Env)
    requires expr != ""
    ensures
      var q := Inverted(Inverted(Leaf(expr)));
      && MeansChildren(q, env) && Printable(q) && !Good(q)
      && Meaning(q, env) == !env(expr)
  {
    var once := Inverted(Leaf(expr));
    assert once == Query(And, [Leaf(expr)], true, expr);
    assert Inverted(once).children[0] == once != Leaf(expr);
  }

  /** Its copy without the negation is one in none. */
  lemma CopyOfDoublyInvertedLeaf(expr: string, env: Env)
    requires expr != ""
    ensures !MeansChildren(Copied(Inverted(Inverted(Leaf(expr)))), env)
  {
    var q := Inverted(Leaf(expr));
    assert q == Query(And, [Leaf(expr)], true, expr);
    HoldsOne(And, q, env);
    assert Copied(Inverted(q)) == Query(And, [q], false, expr);
  }

  /** Joins of built nodes are built nodes, so the laws apply to any nesting of the operators. */
  lemma JoinedGood(a: Query, b: Query, op: Op)
    requires op != Expr && GoodOrEmpty(a) && GoodOrEmpty(b) && !(IsEmpty(a) && IsEmpty(b))
    ensures Good(Joined(a, b, op))
  {
    if !TakesShortcut(a, b) {
      var empty := Query(op, [], false, "");
      AppendedGood(empty, a);
      AppendedGood(Appended(empty, a), b);
    }
  }

  /** `~` means negation of a non-empty node exactly when that node is not a negated leaf. */
  lemma InvertCorrect(q: Query, env: Env)
    requires Printable(q)
    ensures Meaning(Inverted(q), env) == !Meaning(q, env) <==> !NegatedLeaf(q)
  {
    if q.expr == "" {
      var empty := Query(And, [], true, "");
      ConnectiveMeans(q, env);
      AppendedKeepsRest(empty, q);
      AppendedHolds(empty, q, env);
      ConnectiveMeans(Inverted(q), env);
    }
  }

  /** The inverse of a built node is a built node, save for the negated leaf and its copies. */
  lemma InvertedGood(q: Query)
    requires Good(q) && !NegatedLeaf(q)
    ensures Good(Inverted(q)) && Inverted(q).negated
  {
    if q.expr == "" {
      AppendedGood(Query(And, [], true, ""), q);
    }
  }

  /** De Morgan on built nodes: the builder's forms of the two sides have the same meaning. */
  lemma DeMorgan(a: Query, b: Query, env: Env)
    requires Good(a) && Good(b) && a != b && !NegatedLeaf(a) && !NegatedLeaf(b) && Inverted(a) != Inverted(b)
    ensures Meaning(Inverted(Joined(a, b, And)), env) == Meaning(Joined(Inverted(a), Inverted(b), Or), env)
  {
    InvertedGood(a);
    InvertedGood(b);
    JoinedGood(a, b, And);
    GoodMeansChildren(a, env);
    GoodMeansChildren(b, env);
    GoodPrintable(a);
    GoodPrintable(b);
    GoodPrintable(Joined(a, b, And));
    JoinedInFull(a, b, And, env);
    JoinedInFull(Inverted(a), Inverted(b), Or, env);
    InvertCorrect(a, env);
    InvertCorrect(b, env);
    JoinedPlain(a, b, And);
    InvertCorrect(Joined(a, b, And), env);
  }

  lemma JoinedPlain(a: Query, b: Query, op: Op)
    requires !TakesShortcut(a, b)
    ensures Joined(a, b, op).expr == "" && !Joined(a, b, op).negated
  {
    AppendedKeepsRest(Query(op, [], false, ""), a);
    AppendedKeepsRest(Appended(Query(op, [], false, ""), a), b);
  }

  /** Built nodes have something to print. */
  lemma {:induction false} GoodPrintable(q: Query)
    requires Good(q)
    ensures Printable(q)
    decreases q
  {
    forall i | 0 <= i < |q.children| ensures Printable(q.children[i]) {
      if q.op != Expr && q.expr == "" {
        GoodPrintable(q.children[i]);
      } else if q.op != Expr {
        assert q.children[i] == Leaf(q.expr);
      }
    }
  }

  /** A printable node whose children are printable as well, so that they may take its place. */
  ghost predicate Deep(q: Query) {
    && Printable(q)
    && (q.op != Expr ==> q.children != [])
    && forall i :: 0 <= i < |q.children| ==> Deep(q.children[i])
  }

  lemma AppendedDeep(q: Query, other: Query)
    requires q.op != Expr && (forall i :: 0 <= i < |q.children| ==> Deep(q.children[i])) && Deep(other)
    ensures Appended(q, other).children != []
    ensures forall i :: 0 <= i < |Appended(q, other).children| ==> Deep(Appended(q, other).children[i])
  {
  }

  /** Whatever the operators build from leaves and lookups, in any nesting, can be printed. */
  lemma OperatorsStayDeep(a: Query, b: Query, op: Op)
    requires op != Expr && Deep(a) && Deep(b)
    ensures Deep(Joined(a, b, op)) && Deep(Inverted(a)) && Deep(Copied(a))
  {
    var empty := Query(op, [], false, "");
    AppendedKeepsRest(empty, a);
    AppendedDeep(empty, a);
    AppendedKeepsRest(Appended(empty, a), b);
    AppendedDeep(Appended(empty, a), b);
    AppendedKeepsRest(Query(And, [], true, a.expr), a);
    AppendedDeep(Query(And, [], true, a.expr), a);
  }

  /** The operators keep queries tidy, empty operands included. */
  lemma OperatorsStayTidy(a: Query, b: Query, op: Op)
    requires op != Expr && Tidy(a) && Tidy(b)
    ensures Tidy(Joined(a, b, op)) && Tidy(Inverted(a)) && Tidy(Copied(a))
  {
    var empty := Query(op, [], false, "");
    AppendedTidy(empty, a);
    AppendedTidy(Appended(empty, a), b);
    AppendedTidy(Query(And, [], true, a.expr), a);
  }

  lemma AppendedTidy(q: Query, other: Query)
    requires q.op != Expr && Tidy(q) && Tidy(other)
    ensures Tidy(Appended(q, other)) && Appended(q, other).op == q.op
  {
  }
}
