/** Printing a query as prefix text, and a parser that reads the text back. */
module RqlText {
  import opened RqlTree

  datatype Option<+T> = None | Some(value: T)

  const NOT := "not("
  const AND := "and("
  const OR := "or("

  function OpName(op: Op): string {
    match op
    case Expr => "expr"
    case And => "and"
    case Or => "or"
  }

  /** The separated texts of the children from position `i` on. */
  function Tokens(children: seq<Query>, i: nat): string
    requires i < |children|
    decreases children, 0, |children| - i
  {
    ToString(children[i]) + if i + 1 == |children| then "" else "," + Tokens(children, i + 1)
  }

  /** `_to_string`; a node without expression or children prints as nothing. */
  function ToString(q: Query): string
    decreases q
  {
    if q.expr != "" then (if q.negated then NOT + q.expr + ")" else q.expr)
    else if q.children == [] then ""
    else
      var text := OpName(q.op) + "(" + Tokens(q.children, 0) + ")";
      if q.negated then NOT + text + ")" else text
  }

  /** What the parser reads. */
  datatype Tree = Atom(text: string) | Not(inner: Tree) | All(parts: seq<Tree>) | Any(parts: seq<Tree>)

  ghost predicate TreeMeaning(t: Tree, env: Env) {
    match t
    case Atom(text) => env(text)
    case Not(inner) => !TreeMeaning(inner, env)
    case All(parts) => forall i :: 0 <= i < |parts| ==> TreeMeaning(parts[i], env)
    case Any(parts) => exists i :: 0 <= i < |parts| && TreeMeaning(parts[i], env)
  }

  /** Inside a quoted value, `Slash` is the state right after a backslash. */
  datatype Mode = Plain | Quoted | Slash

  datatype Scan = Scan(depth: nat, mode: Mode)

  const START := Scan(0, Plain)

  predicate Stops(s: Scan, c: char) {
    s == START && (c == ',' || c == ')')
  }

  function Step(s: Scan, c: char): Scan
    requires !Stops(s, c)
  {
    match s.mode
    case Plain =>
      if c == '\'' then s.(mode := Quoted)
      else if c == '(' then s.(depth := s.depth + 1)
      else if c == ')' && s.depth > 0 then s.(depth := s.depth - 1)
      else s
    case Quoted => if c == '\'' then s.(mode := Plain) else if c == '\\' then s.(mode := Slash) else s
    case Slash => if c == '\\' then s else s.(mode := Quoted)
  }

  /** The state after scanning the text, if nothing in it stops the scan. */
  function ScanText(s: Scan, text: string): Option<Scan>
    decreases |text|
  {
    if text == "" then Some(s)
    else if Stops(s, text[0]) then None
    else ScanText(Step(s, text[0]), text[1..])
  }

  /** How many characters are scanned before the scan stops. */
  function Extent(s: Scan, text: string): (n: nat)
    ensures n <= |text|
    decreases |text|
  {
    if text == "" || Stops(s, text[0]) then 0 else 1 + Extent(Step(s, text[0]), text[1..])
  }

  predicate StartsWithKeyword(text: string) {
    NOT <= text || AND <= text || OR <= text
  }

  /** A leaf text that the parser can tell from its surroundings. */
  predicate Atomic(text: string) {
    text != "" && !StartsWithKeyword(text) && ScanText(START, text) == Some(START)
  }

  /** Recursive descent over the prefix grammar; the result holds the tree and the unread text. */
  function ParseExpr(s: string): (r: Option<(Tree, string)>)
    ensures r.Some? ==> |r.value.1| < |s|
    decreases |s|, 0
  {
    if NOT <= s then
      match ParseExpr(s[|NOT|..])
      case None => None
      case Some((t, rest)) => if rest != "" && rest[0] == ')' then Some((Not(t), rest[1..])) else None
    else if AND <= s then
      match ParseList(s[|AND|..])
      case None => None
      case Some((ts, rest)) => Some((All(ts), rest))
    else if OR <= s then
      match ParseList(s[|OR|..])
      case None => None
      case Some((ts, rest)) => Some((Any(ts), rest))
    else
      var n := Extent(START, s);
      if n == 0 then None else Some((Atom(s[..n]), s[n..]))
  }

  /** Expressions separated by commas, up to the closing parenthesis. */
  function ParseList(s: string): (r: Option<(seq<Tree>, string)>)
    ensures r.Some? ==> |r.value.1| < |s|
    decreases |s|, 1
  {
    match ParseExpr(s)
    case None => None
    case Some((t, rest)) =>
      if rest == "" then None
      else if rest[0] == ')' then Some(([t], rest[1..]))
      else if rest[0] == ',' then
        match ParseList(rest[1..])
        case None => None
        case Some((ts, last)) => Some(([t] + ts, last))
      else None
  }

  /** Every leaf below the node is atomic. */
  ghost predicate AtomicLeaves(q: Query) {
    if q.expr != "" then Atomic(q.expr)
    else forall i :: 0 <= i < |q.children| ==> AtomicLeaves(q.children[i])
  }

  function Trees(children: seq<Query>, i: nat): (ts: seq<Tree>)
    requires i <= |children|
    ensures |ts| == |children| - i
    ensures forall k :: 0 <= k < |ts| ==> ts[k] == TreeOf(children[i + k])
    decreases children, 0, |children| - i
  {
    if i == |children| then [] else [TreeOf(children[i])] + Trees(children, i + 1)
  }

  /** The tree that the printed node stands for. */
  function TreeOf(q: Query): Tree
    decreases q
  {
    var t :=
      if q.expr != "" then Atom(q.expr)
      else if q.op == Or then Any(Trees(q.children, 0))
      else All(Trees(q.children, 0));
    if q.negated then Not(t) else t
  }

  lemma {:induction false} TreeMeansQuery(q: Query, env: Env)
    ensures TreeMeaning(TreeOf(q), env) == Meaning(q, env)
    decreases q
  {
    if q.expr == "" {
      var ts := Trees(q.children, 0);
      forall i | 0 <= i < |q.children| ensures TreeMeaning(ts[i], env) == Meaning(q.children[i], env) {
        TreeMeansQuery(q.children[i], env);
      }
    }
  }

  /** What may follow an expression: the end, a comma or a closing parenthesis. */
  predicate Follows(tail: string) {
    tail == "" || tail[0] == ',' || tail[0] == ')'
  }

  lemma {:induction false} ExtentStops(s: Scan, text: string, tail: string)
    requires ScanText(s, text) == Some(START) && Follows(tail)
    ensures Extent(s, text + tail) == |text|
    decreases |text|
  {
    if text == "" {
      assert text + tail == tail;
    } else {
      assert (text + tail)[1..] == text[1..] + tail;
      ExtentStops(Step(s, text[0]), text[1..], tail);
    }
  }

  lemma KeywordStaysAway(word: string, text: string, tail: string)
    requires word == NOT || word == AND || word == OR
    requires !(word <= text) && Follows(tail)
    ensures !(word <= text + tail)
  {
    if |text| < |word| && tail != "" {
      assert word[|text|] != tail[0] == (text + tail)[|text|];
    }
  }

  lemma ParseAtom(text: string, tail: string)
    requires Atomic(text) && Follows(tail)
    ensures ParseExpr(text + tail) == Some((Atom(text), tail))
  {
    KeywordStaysAway(NOT, text, tail);
    KeywordStaysAway(AND, text, tail);
    KeywordStaysAway(OR, text, tail);
    ExtentStops(START, text, tail);
    assert (text + tail)[..|text|] == text && (text + tail)[|text|..] == tail;
  }

  lemma Behind(word: string, text: string)
    ensures word <= word + text && (word + text)[|word|..] == text
  {
  }

  lemma ParseNot(text: string, t: Tree, tail: string)
    requires ParseExpr(text + (")" + tail)) == Some((t, ")" + tail))
    ensures ParseExpr(NOT + text + ")" + tail) == Some((Not(t), tail))
  {
    Behind(NOT, text + (")" + tail));
    assert NOT + text + ")" + tail == NOT + (text + (")" + tail));
  }

  /** The opening word of a group is none of the other keywords. */
  lemma GroupWord(op: Op, text: string)
    requires op != Expr
    ensures
      var s := (if op == Or then OR else AND) + text;
      && OpName(op) + "(" == (if op == Or then OR else AND)
      && !(NOT <= s) && (op == Or ==> !(AND <= s))
  {
    var s := (if op == Or then OR else AND) + text;
    assert s[0] == (if op == Or then 'o' else 'a');
    assert NOT[0] == 'n' && AND[0] == 'a';
  }

  lemma ParseGroup(op: Op, text: string, ts: seq<Tree>, tail: string)
    requires op != Expr
    requires ParseList(text + (")" + tail)) == Some((ts, tail))
    ensures ParseExpr(OpName(op) + "(" + text + ")" + tail) == Some((if op == Or then Any(ts) else All(ts), tail))
  {
    var word := if op == Or then OR else AND;
    Behind(word, text + (")" + tail));
    GroupWord(op, text + (")" + tail));
    assert OpName(op) + "(" + text + ")" + tail == word + (text + (")" + tail));
  }

  /** The parser reads back the children that were printed one after the other. */
  lemma {:induction false} ParseTokens(children: seq<Query>, i: nat, tail: string)
    requires i < |children|
    requires forall k :: 0 <= k < |children| ==> Printable(children[k]) && AtomicLeaves(children[k])
    ensures ParseList(Tokens(children, i) + (")" + tail)) == Some((Trees(children, i), tail))
    decreases children, 0, |children| - i
  {
    var first := ToString(children[i]);
    if i + 1 == |children| {
      assert Tokens(children, i) == first;
      ParsePrinted(children[i], ")" + tail);
      assert (")" + tail)[1..] == tail;
      assert Trees(children, i) == [TreeOf(children[i])];
    } else {
      var others := Tokens(children, i + 1) + (")" + tail);
      assert Tokens(children, i) + (")" + tail) == first + ("," + others);
      ParsePrinted(children[i], "," + others);
      assert ("," + others)[1..] == others;
      ParseTokens(children, i + 1, tail);
    }
  }

  /** The parser reads a printed node back as its tree, whatever may follow. */
  lemma {:induction false} ParsePrinted(q: Query, tail: string)
    requires Printable(q) && AtomicLeaves(q) && Follows(tail)
    ensures ParseExpr(ToString(q) + tail) == Some((TreeOf(q), tail))
    decreases q
  {
    if q.expr != "" {
      if q.negated {
        ParseAtom(q.expr, ")" + tail);
        ParseNot(q.expr, Atom(q.expr), tail);
      } else {
        ParseAtom(q.expr, tail);
      }
    } else {
      ParseComposite(q, tail);
    }
  }

  lemma {:induction false} ParseComposite(q: Query, tail: string)
    requires Printable(q) && AtomicLeaves(q) && Follows(tail) && q.expr == ""
    ensures ParseExpr(ToString(q) + tail) == Some((TreeOf(q), tail))
    decreases q, -1
  {
    var text := Tokens(q.children, 0);
    var group := OpName(q.op) + "(" + text + ")";
    var ts := Trees(q.children, 0);
    if q.negated {
      ParseTokens(q.children, 0, ")" + tail);
      ParseGroup(q.op, text, ts, ")" + tail);
      assert group + (")" + tail) == OpName(q.op) + "(" + text + ")" + (")" + tail);
      ParseNot(group, if q.op == Or then Any(ts) else All(ts), tail);
    } else {
      ParseTokens(q.children, 0, tail);
      ParseGroup(q.op, text, ts, tail);
    }
  }

  /** An empty expression cannot be read, whatever follows it. */
  lemma ParseNothing(tail: string)
    requires Follows(tail)
    ensures ParseExpr("" + tail).None?
  {
    assert "" + tail == tail;
    KeywordStaysAway(NOT, "", tail);
    KeywordStaysAway(AND, "", tail);
    KeywordStaysAway(OR, "", tail);
  }

  lemma ParseNotFails(text: string, tail: string)
    requires ParseExpr(text + (")" + tail)).None?
    ensures ParseExpr(NOT + text + ")" + tail).None?
  {
    Behind(NOT, text + (")" + tail));
    assert NOT + text + ")" + tail == NOT + (text + (")" + tail));
  }

  lemma ParseGroupFails(op: Op, text: string, tail: string)
    requires op != Expr && ParseList(text + (")" + tail)).None?
    ensures ParseExpr(OpName(op) + "(" + text + ")" + tail).None?
  {
    var word := if op == Or then OR else AND;
    Behind(word, text + (")" + tail));
    GroupWord(op, text + (")" + tail));
    assert OpName(op) + "(" + text + ")" + tail == word + (text + (")" + tail));
  }

  /** A list with a child that has nothing to print cannot be read. */
  lemma {:induction false} ParseTokensFails(children: seq<Query>, i: nat, tail: string)
    requires i < |children|
    requires forall k :: 0 <= k < |children| ==> Tidy(children[k]) && AtomicLeaves(children[k])
    requires exists k :: i <= k < |children| && !Printable(children[k])
    ensures ParseList(Tokens(children, i) + (")" + tail)).None?
    decreases children, 0, |children| - i
  {
    var first := ToString(children[i]);
    var rest := if i + 1 == |children| then ")" + tail else "," + (Tokens(children, i + 1) + (")" + tail));
    assert Tokens(children, i) + (")" + tail) == first + rest;
    if !Printable(children[i]) {
      ParseUnprintable(children[i], rest);
    } else {
      ParsePrinted(children[i], rest);
      assert rest[1..] == Tokens(children, i + 1) + (")" + tail);
      ParseTokensFails(children, i + 1, tail);
    }
  }

  /** A tidy query with nothing to print somewhere cannot be read back. */
  lemma {:induction false} ParseUnprintable(q: Query, tail: string)
    requires Tidy(q) && AtomicLeaves(q) && Follows(tail) && !Printable(q)
    ensures ParseExpr(ToString(q) + tail).None?
    decreases q
  {
    if q.children == [] {
      ParseNothing(tail);
    } else {
      var text := Tokens(q.children, 0);
      var group := OpName(q.op) + "(" + text + ")";
      if q.negated {
        ParseTokensFails(q.children, 0, ")" + tail);
        ParseGroupFails(q.op, text, ")" + tail);
        assert group + (")" + tail) == OpName(q.op) + "(" + text + ")" + (")" + tail);
        ParseNotFails(group, tail);
      } else {
        ParseTokensFails(q.children, 0, tail);
        ParseGroupFails(q.op, text, tail);
      }
    }
  }

  /** Print and parse back: the text of a query with atomic leaves means what the query means. */
  lemma PrintParse(q: Query)
    requires Printable(q) && AtomicLeaves(q)
    ensures ParseExpr(ToString(q)).Some?
    ensures
      var (t, rest) := ParseExpr(ToString(q)).value;
      rest == "" && forall env :: TreeMeaning(t, env) == Meaning(q, env)
  {
    assert ToString(q) + "" == ToString(q);
    ParsePrinted(q, "");
    forall env ensures TreeMeaning(TreeOf(q), env) == Meaning(q, env) {
      TreeMeansQuery(q, env);
    }
  }

  /** Whether the printed text is read back in full to a tree with the query's meaning. */
  ghost predicate ReadsBack(q: Query) {
    match ParseExpr(ToString(q))
    case None => false
    case Some((t, rest)) => rest == "" && forall env :: TreeMeaning(t, env) == Meaning(q, env)
  }

  /**
   * Of the queries that the builder can make from atomic leaves, those read back exactly that have
   * something to print all the way down: an empty query inside leaves a gap in the text.
   */
  lemma PrintParseExact(q: Query)
    requires Tidy(q) && AtomicLeaves(q)
    ensures ReadsBack(q) <==> Printable(q)
  {
    if Printable(q) {
      PrintParse(q);
    } else {
      ParseUnprintable(q, "");
      assert ToString(q) + "" == ToString(q);
    }
  }

  /** The inverse of an empty query is not empty, and its text cannot be read back. */
  lemma InvertedEmptyIsLost()
    ensures
      var q := Inverted(Query(Expr, [], false, ""));
      !IsEmpty(q) && Tidy(q) && AtomicLeaves(q) && !ReadsBack(q)
  {
    var empty := Query(Expr, [], false, "");
    var q := Inverted(empty);
    assert q == Query(And, [empty], true, "");
    assert !Printable(q.children[0]);
    PrintParseExact(q);
  }

  /** Queries that print alike mean alike. */
  lemma PrintDeterminesMeaning(a: Query, b: Query, env: Env)
    requires Printable(a) && AtomicLeaves(a) && Printable(b) && AtomicLeaves(b)
    requires ToString(a) == ToString(b)
    ensures Meaning(a, env) == Meaning(b, env)
  {
    PrintParse(a);
    PrintParse(b);
  }

  /** The forms that users of the operators see: two conditions joined. */
  lemma DocumentedJoins(a: string, b: string)
    requires a != "" && b != "" && a != b
    ensures ToString(Joined(Leaf(a), Leaf(b), And)) == "and(" + a + "," + b + ")"
    ensures ToString(Joined(Leaf(a), Leaf(b), Or)) == "or(" + a + "," + b + ")"
    ensures ToString(Joined(Leaf(a), Leaf(a), Or)) == a
  {
    TwoJoined(a, b, And);
    TwoJoined(a, b, Or);
    TextOfTwo(a, b, And, "and(");
    TextOfTwo(a, b, Or, "or(");
    assert "and" + "(" == "and(" && "or" + "(" == "or(";
  }

  lemma TwoJoined(a: string, b: string, op: Op)
    requires a != "" && b != "" && a != b && op != Expr
    ensures Joined(Leaf(a), Leaf(b), op) == Query(op, [Leaf(a), Leaf(b)], false, "")
  {
    assert [Leaf(a)] + [Leaf(b)] == [Leaf(a), Leaf(b)];
  }

  lemma TextOfTwo(a: string, b: string, op: Op, head: string)
    requires a != "" && b != "" && OpName(op) + "(" == head
    ensures ToString(Query(op, [Leaf(a), Leaf(b)], false, "")) == head + a + "," + b + ")"
  {
    TwoTokens(a, b);
    assert head + (a + "," + b) + ")" == head + a + "," + b + ")";
  }

  lemma DocumentedInverses(a: string, b: string)
    requires a != "" && b != "" && a != b
    ensures ToString(Inverted(Leaf(a))) == "not(" + a + ")"
    ensures ToString(Inverted(Joined(Leaf(a), Leaf(b), And))) == "not(and(" + a + "," + b + "))"
  {
    TwoTokens(a, b);
    assert Inverted(Leaf(a)) == Query(And, [Leaf(a)], true, a);
    assert Joined(Leaf(a), Leaf(b), And) == Query(And, [Leaf(a), Leaf(b)], false, "");
    assert Inverted(Query(And, [Leaf(a), Leaf(b)], false, "")) == Query(And, [Leaf(a), Leaf(b)], true, "");
    assert "and" + "(" == "and(";
    var text := "and(" + (a + "," + b) + ")";
    assert "not(" + text + ")" == "not(and(" + a + "," + b + "))";
  }

  lemma TwoTokens(a: string, b: string)
    requires a != "" && b != ""
    ensures Tokens([Leaf(a), Leaf(b)], 0) == a + "," + b
  {
    var two := [Leaf(a), Leaf(b)];
    assert two[0] == Leaf(a) && two[1] == Leaf(b);
    assert ToString(Leaf(a)) == a && ToString(Leaf(b)) == b;
    assert Tokens(two, 1) == b + "" == b;
    assert a + ("," + b) == a + "," + b;
  }

  /** A condition joined to a longer join of the same kind is added to it, unless it is there already; to
      one of the other kind, or to a negated one, it is joined as a whole. */
  lemma JoinsFlatten(q: Query, c: string, op: Op)
    requires op != Expr && q.op != Expr && q.expr == "" && |q.children| >= 2 && c != ""
    ensures Joined(q, Leaf(c), op) ==
      if q.negated || q.op != op then Query(op, [q, Leaf(c)], false, "")
      else if Leaf(c) in q.children then q
      else Query(op, q.children + [Leaf(c)], false, "")
  {
    var one := Appended(Query(op, [], false, ""), q);
    if q.negated || q.op != op {
      assert one.children == [q];
      assert [q] + [Leaf(c)] == [q, Leaf(c)];
    } else {
      assert one.children == q.children;
    }
  }

  /** A join of a single condition is joined as that condition, whatever its kind. */
  lemma SingleUnwraps(q: Query, c: string, op: Op)
    requires op != Expr && q.op != Expr && q.expr == "" && |q.children| == 1 && !q.negated && c != ""
    requires q.children[0] != Leaf(c)
    ensures Joined(q, Leaf(c), op) == Query(op, [q.children[0], Leaf(c)], false, "")
  {
    var one := Appended(Query(op, [], false, ""), q);
    assert one.children == q.children == [q.children[0]];
    assert [q.children[0]] + [Leaf(c)] == [q.children[0], Leaf(c)];
  }
}
