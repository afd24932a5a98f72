/** Building leaves: keyword lookups, the fluent chain, value encoding and quoting, and the query object. */
module RqlBuilder {
  import opened RqlTree
  import opened RqlText

  /** `TypeError` and `AttributeError` of the builder. */
  datatype Result<+T> = Ok(value: T) | TypeError | AlreadyEvaluated

  /** A filter value; numbers and dates come with their text, and numbers with whether they are zero. */
  datatype Value =
    | Str(text: string)
    | Bool(b: bool)
    | Number(digits: string, zero: bool)
    | Moment(iso: string)
    | List(items: seq<string>)
    | Absent
    | Other

  datatype Operator = Eq | Ne | Lt | Le | Gt | Ge | Like | Ilike | In | Out | Null | Empty

  function Word(op: Operator): string {
    match op
    case Eq => "eq"
    case Ne => "ne"
    case Lt => "lt"
    case Le => "le"
    case Gt => "gt"
    case Ge => "ge"
    case Like => "like"
    case Ilike => "ilike"
    case In => "in"
    case Out => "out"
    case Null => "null"
    case Empty => "empty"
  }

  /** The operator that a lookup's last token names, if it is a keyword. */
  function Keyword(token: string): Option<Operator> {
    if token == "eq" then Some(Eq)
    else if token == "ne" then Some(Ne)
    else if token == "lt" then Some(Lt)
    else if token == "le" then Some(Le)
    else if token == "gt" then Some(Gt)
    else if token == "ge" then Some(Ge)
    else if token == "like" then Some(Like)
    else if token == "ilike" then Some(Ilike)
    else if token == "in" then Some(In)
    else if token == "out" then Some(Out)
    else if token == "null" then Some(Null)
    else if token == "empty" then Some(Empty)
    else None
  }

  predicate Compares(op: Operator) {
    op in {Eq, Ne, Lt, Le, Gt, Ge}
  }

  predicate TakesList(op: Operator) {
    op == In || op == Out
  }

  /** `value.replace("'", "\\'")`. */
  function Escape(v: string): string {
    if v == "" then "" else (if v[0] == '\'' then "\\'" else [v[0]]) + Escape(v[1..])
  }

  function Quote(v: string): string {
    "'" + Escape(v) + "'"
  }

  /** `_encode_scalar`. */
  function EncodeScalar(v: Value): Result<string> {
    match v
    case Str(text) => Ok(text)
    case Bool(b) => Ok(if b then "true" else "false")
    case Number(digits, _) => Ok(digits)
    case Moment(iso) => Ok(iso)
    case _ => TypeError
  }

  function JoinText(parts: seq<string>, separator: string): string {
    if parts == [] then ""
    else if |parts| == 1 then parts[0]
    else parts[0] + separator + JoinText(parts[1..], separator)
  }

  /** `rql_encode`. */
  function Encode(op: Operator, v: Value): Result<string> {
    if TakesList(op) then (if v.List? then Ok(JoinText(v.items, ",")) else TypeError)
    else
      match EncodeScalar(v)
      case Ok(text) => Ok(if Compares(op) then Quote(text) else text)
      case _ => TypeError
  }

  function Call(op: Operator, field: string, argument: string): string {
    Word(op) + "(" + field + "," + argument + ")"
  }

  /** `bool(value)`. */
  predicate Truthy(v: Value) {
    match v
    case Str(text) => text != ""
    case Bool(b) => b
    case Number(_, zero) => !zero
    case Moment(_) => true
    case List(items) => items != []
    case Absent => false
    case Other => true
  }

  /** The expression of a keyword lookup with an operator. */
  function LookupExpr(op: Operator, field: string, v: Value): Result<string> {
    if op == Null || op == Empty then Ok(Call(if v == Bool(true) then Eq else Ne, field, Word(op) + "()"))
    else
      match Encode(op, v)
      case Ok(text) => Ok(Call(op, field, if TakesList(op) then "(" + text + ")" else text))
      case _ => TypeError
  }

  /** `str.split("__")` from the front; `piece` is what has been read of the current token. */
  function Split(s: string, piece: string): (tokens: seq<string>)
    ensures tokens != []
    decreases |s|
  {
    if s == "" then [piece]
    else if |s| >= 2 && s[0] == '_' && s[1] == '_' then [piece] + Split(s[2..], "")
    else Split(s[1..], piece + [s[0]])
  }

  /** One iteration of `parse_kwargs`. */
  function Lookup(name: string, v: Value): Result<string> {
    var tokens := Split(name, "");
    var last := Keyword(tokens[|tokens| - 1]);
    if |tokens| == 1 || last.None? then LookupExpr(Eq, JoinText(tokens, "."), v)
    else LookupExpr(last.value, JoinText(tokens[..|tokens| - 1], "."), v)
  }

  /** The expressions of the first `n` lookups, unless one of them fails. */
  function LookupsTo(items: seq<(string, Value)>, n: nat): Result<seq<string>>
    requires n <= |items|
  {
    if n == 0 then Ok([])
    else
      match LookupsTo(items, n - 1)
      case Ok(exprs) =>
        (match Lookup(items[n - 1].0, items[n - 1].1)
         case Ok(e) => Ok(exprs + [e])
         case _ => TypeError)
      case failed => failed
  }

  /** `parse_kwargs`. */
  method ParseKwargs(items: seq<(string, Value)>) returns (r: Result<seq<string>>)
    ensures r == LookupsTo(items, |items|)
  {
    var query: seq<string> := [];
    for n := 0 to |items|
      invariant LookupsTo(items, n) == Ok(query)
    {
      var e := Lookup(items[n].0, items[n].1);
      if !e.Ok? {
        LookupsFail(items, n + 1, |items|);
        return TypeError;
      }
      query := query + [e.value];
    }
    return Ok(query);
  }

  lemma {:induction false} LookupsFail(items: seq<(string, Value)>, i: nat, n: nat)
    requires i <= n <= |items| && LookupsTo(items, i) == TypeError
    ensures LookupsTo(items, n) == TypeError
    decreases n - i
  {
    if i < n {
      LookupsFail(items, i, n - 1);
    }
  }

  /** The expression of a fluent operator; the pattern operators take strings only. */
  function FluentExpr(op: Operator, field: string, v: Value): Result<string> {
    match op
    case Null | Empty => Ok(BoolExpr(Word(op), field, v))
    case Like | Ilike => if v.Str? then Ok(Call(op, field, v.text)) else TypeError
    case _ => LookupExpr(op, field, v)
  }

  /** `_bool`. */
  function BoolExpr(name: string, field: string, v: Value): string {
    Call(if Truthy(v) then Eq else Ne, field, name + "()")
  }

  /** `name.split(".")`. */
  function SplitDots(s: string, piece: string): (tokens: seq<string>)
    ensures tokens != []
    decreases |s|
  {
    if s == "" then [piece]
    else if s[0] == '.' then [piece] + SplitDots(s[1..], "")
    else SplitDots(s[1..], piece + [s[0]])
  }

  /** A query object; the nodes below it are values. */
  class RQLQuery {
    var op: Op
    var children: seq<Query>
    var negated: bool
    var expr: string
    var path: seq<string>
    var field: string

    constructor (op: Op, children: seq<Query>, negated: bool, expr: string)
      ensures Value() == Query(op, children, negated, expr) && path == [] && field == ""
    {
      this.op, this.children, this.negated, this.expr := op, children, negated, expr;
      path, field := [], "";
    }

    function Value(): Query
      reads this
    {
      Query(op, children, negated, expr)
    }

    /** `n`: extends the path until an operator has been applied to a named field. */
    method N(name: string) returns (r: Result<()>)
      modifies this`path
      ensures r == if field != "" then AlreadyEvaluated else Ok(())
      ensures path == if r.Ok? then old(path) + SplitDots(name, "") else old(path)
    {
      if field != "" {
        return AlreadyEvaluated;
      }
      path := path + SplitDots(name, "");
      return Ok(());
    }

    /** `_bin`, `_list` and `_bool` behind the operator's own type check. */
    method Apply(op: Operator, v: Value) returns (r: Result<()>)
      modifies this`field, this`expr
      ensures
        var e := FluentExpr(op, JoinText(path, "."), v);
        && r == (if e.Ok? then Ok(()) else TypeError)
        && expr == (if e.Ok? then e.value else old(expr))
        && field == (if (op == Like || op == Ilike) && !v.Str? then old(field) else JoinText(path, "."))
    {
      if (op == Like || op == Ilike) && !v.Str? {
        return TypeError;
      }
      field := JoinText(path, ".");
      if op == Null || op == Empty {
        expr := BoolExpr(Word(op), field, v);
        return Ok(());
      }
      var encoded := Encode(op, v);
      if !encoded.Ok? {
        return TypeError;
      }
      expr := Call(op, field, if TakesList(op) then "(" + encoded.value + ")" else encoded.value);
      return Ok(());
    }

    /** The loop of the constructor over several lookups. */
    method AddLeaves(exprs: seq<string>)
      requires children == []
      modifies this`children
      ensures children == Leaves(exprs)
    {
      for i := 0 to |exprs|
        invariant |children| == i && forall k :: 0 <= k < i ==> children[k] == Leaf(exprs[k])
      {
        children := children + [Leaf(exprs[i])];
      }
    }

    /** `_append`. */
    method Append(other: Query)
      modifies this`children
      ensures Value() == Appended(old(Value()), other)
    {
      if other in children {
        return;
      }
      if (other.op == op || (Length(other) == 1 && other.op != Expr)) && !other.negated {
        children := children + other.children;
        return;
      }
      children := children + [other];
    }

    /** `_copy`. */
    method Copy() returns (r: RQLQuery)
      ensures fresh(r) && r.Value() == Copied(Value())
    {
      r := new RQLQuery(op, children, false, expr);
    }

    /** `_join`. */
    method Join(other: RQLQuery, op: Op) returns (r: RQLQuery)
      ensures fresh(r) && r.Value() == RqlTree.Joined(Value(), other.Value(), op)
    {
      if Value() == other.Value() {
        r := Copy();
      } else if IsEmpty(other.Value()) {
        r := Copy();
      } else if IsEmpty(Value()) {
        r := other.Copy();
      } else {
        r := new RQLQuery(op, [], false, "");
        r.Append(Value());
        r.Append(other.Value());
      }
    }

    /** `__invert__`. */
    method Invert() returns (r: RQLQuery)
      ensures fresh(r) && r.Value() == Inverted(Value())
    {
      r := new RQLQuery(And, [], true, expr);
      r.Append(Value());
    }
  }

  function Leaves(exprs: seq<string>): (children: seq<Query>)
    ensures |children| == |exprs| && forall i :: 0 <= i < |exprs| ==> children[i] == Leaf(exprs[i])
  {
    seq(|exprs|, i requires 0 <= i < |exprs| => Leaf(exprs[i]))
  }

  /** The node of a call with keyword lookups: one leaf, or the conjunction of all. */
  function FromLookups(exprs: seq<string>): Query {
    if |exprs| == 0 then Query(Expr, [], false, "")
    else if |exprs| == 1 then Leaf(exprs[0])
    else Query(And, Leaves(exprs), false, "")
  }

  /** `RQLQuery(**kwargs)`. */
  method FromKwargs(items: seq<(string, Value)>) returns (r: Result<RQLQuery>)
    ensures r.Ok? <==> LookupsTo(items, |items|).Ok?
    ensures r.Ok? ==> fresh(r.value) && r.value.Value() == FromLookups(LookupsTo(items, |items|).value)
  {
    var parsed := ParseKwargs(items);
    if !parsed.Ok? {
      return TypeError;
    }
    var tokens := parsed.value;
    var q := new RQLQuery(Expr, [], false, "");
    if |tokens| == 1 {
      q.expr := tokens[0];
    }
    if |tokens| > 1 {
      q.op := And;
      q.AddLeaves(tokens);
    }
    return Ok(q);
  }

  lemma LookupNonEmpty(name: string, v: Value)
    ensures Lookup(name, v).Ok? ==> Lookup(name, v).value != ""
  {
  }

  lemma {:induction false} LookupsNonEmpty(items: seq<(string, Value)>, n: nat)
    requires n <= |items| && LookupsTo(items, n).Ok?
    ensures |LookupsTo(items, n).value| == n
    ensures forall i :: 0 <= i < n ==> LookupsTo(items, n).value[i] != ""
  {
    if n > 0 {
      LookupsNonEmpty(items, n - 1);
      LookupNonEmpty(items[n - 1].0, items[n - 1].1);
    }
  }

  lemma OneMoreLookup(items: seq<(string, Value)>, n: nat, one: Result<string>)
    requires 0 < n <= |items| && one == Lookup(items[n - 1].0, items[n - 1].1)
    ensures var before := LookupsTo(items, n - 1);
      LookupsTo(items, n) == if before.Ok? && one.Ok? then Ok(before.value + [one.value])
                             else if before.Ok? then TypeError else before
  {
  }

  /** The results of the lookups, one by one. */
  function Parsed(items: seq<(string, Value)>): (r: seq<Result<string>>)
    ensures |r| == |items| && forall i :: 0 <= i < |items| ==> r[i] == Lookup(items[i].0, items[i].1)
  {
    seq(|items|, i requires 0 <= i < |items| => Lookup(items[i].0, items[i].1))
  }

  /** Whether the first `n` results are all expressions, and these are `all`. */
  predicate Collects(results: seq<Result<string>>, n: nat, all: Result<seq<string>>)
    requires n <= |results|
  {
    && (all.Ok? <==> forall i :: 0 <= i < n ==> results[i].Ok?)
    && (all.Ok? ==> |all.value| == n && forall i :: 0 <= i < n ==> results[i] == Ok(all.value[i]))
  }

  lemma CollectsOneMore(results: seq<Result<string>>, n: nat, before: Result<seq<string>>, all: Result<seq<string>>)
    requires 0 < n <= |results| && Collects(results, n - 1, before)
    requires all == if before.Ok? && results[n - 1].Ok? then Ok(before.value + [results[n - 1].value])
                    else if before.Ok? then TypeError else before
    ensures Collects(results, n, all)
  {
  }

  /** All lookups are parsed, each by itself and in order, or one of them is a type error. */
  lemma {:induction false} LookupsInOrder(items: seq<(string, Value)>, n: nat)
    requires n <= |items|
    ensures Collects(Parsed(items), n, LookupsTo(items, n))
  {
    if n > 0 {
      LookupsInOrder(items, n - 1);
      OneMoreLookup(items, n, Parsed(items)[n - 1]);
      CollectsOneMore(Parsed(items), n, LookupsTo(items, n - 1), LookupsTo(items, n));
    }
  }

  /** One lookup prints as itself, and two as their conjunction. */
  lemma DocumentedLookups(a: string, b: string)
    requires a != "" && b != ""
    ensures ToString(FromLookups([a])) == a
    ensures FromLookups([a]) == Leaf(a)
    ensures ToString(FromLookups([a, b])) == "and(" + a + "," + b + ")"
  {
    TwoTokens(a, b);
    assert Leaves([a, b]) == [Leaf(a), Leaf(b)];
    assert "and" + "(" == "and(";
  }

  /** Lookups given together make a built node that means their conjunction. */
  lemma LookupsMeanConjunction(items: seq<(string, Value)>, env: Env)
    requires items != [] && LookupsTo(items, |items|).Ok?
    ensures
      var exprs := LookupsTo(items, |items|).value;
      && Good(FromLookups(exprs))
      && (Meaning(FromLookups(exprs), env) <==> forall i :: 0 <= i < |exprs| ==> env(exprs[i]))
  {
    LookupsNonEmpty(items, |items|);
    var exprs := LookupsTo(items, |items|).value;
    if |exprs| > 1 {
      forall i | 0 <= i < |exprs| ensures Good(Leaves(exprs)[i]) && Meaning(Leaves(exprs)[i], env) == env(exprs[i]) {
      }
    }
  }

  /** A path segment that both styles can carry. */
  predicate Segment(s: string) {
    && s != "" && s[0] != '_' && s[|s| - 1] != '_' && '.' !in s
    && forall i :: 0 <= i < |s| - 1 ==> !(s[i] == '_' && s[i + 1] == '_')
  }

  predicate Segments(segs: seq<string>) {
    segs != [] && forall i :: 0 <= i < |segs| ==> Segment(segs[i])
  }

  /** Whether a text runs to its end without a doubled or trailing underscore. */
  predicate NoBreak(s: string) {
    && (s != "" ==> s[|s| - 1] != '_')
    && forall i :: 0 <= i < |s| - 1 ==> !(s[i] == '_' && s[i + 1] == '_')
  }

  lemma {:induction false} SplitReads(s: string, rest: string, piece: string)
    requires NoBreak(s)
    requires rest == "" || (|rest| >= 2 && rest[0] == '_' && rest[1] == '_')
    ensures Split(s + rest, piece) == if rest == "" then [piece + s] else [piece + s] + Split(rest[2..], "")
    decreases |s|
  {
    if s == "" {
      assert s + rest == rest && piece + s == piece;
    } else {
      assert (s + rest)[1..] == s[1..] + rest;
      assert piece + [s[0]] + s[1..] == piece + s;
      assert NoBreak(s[1..]) by {
        forall i | 0 <= i < |s[1..]| - 1 ensures !(s[1..][i] == '_' && s[1..][i + 1] == '_') {
          assert s[1..][i] == s[i + 1] && s[1..][i + 1] == s[i + 2];
        }
      }
      SplitReads(s[1..], rest, piece + [s[0]]);
    }
  }

  /** Splitting at "__" undoes joining segments by "__". */
  lemma {:induction false} SplitJoined(segs: seq<string>)
    requires segs != [] && forall i :: 0 <= i < |segs| ==> NoBreak(segs[i]) && segs[i] != "" && segs[i][0] != '_'
    ensures Split(JoinText(segs, "__"), "") == segs
  {
    if |segs| == 1 {
      SplitReads(segs[0], "", "");
      assert segs[0] + "" == segs[0] && "" + segs[0] == segs[0];
    } else {
      var rest := "__" + JoinText(segs[1..], "__");
      SplitReads(segs[0], rest, "");
      assert rest[2..] == JoinText(segs[1..], "__");
      assert segs[0] + "__" + JoinText(segs[1..], "__") == segs[0] + rest;
      assert "" + segs[0] == segs[0];
      SplitJoined(segs[1..]);
    }
  }

  lemma {:induction false} SplitDotsOne(s: string, piece: string)
    requires '.' !in s
    ensures SplitDots(s, piece) == [piece + s]
    decreases |s|
  {
    if s == "" {
      assert piece + s == piece;
    } else {
      SplitDotsOne(s[1..], piece + [s[0]]);
      assert piece + [s[0]] + s[1..] == piece + s;
    }
  }

  /** The fluent chain `.a.b.op(v)` on a new query. */
  method Chain(segs: seq<string>, op: Operator, v: Value) returns (q: RQLQuery, r: Result<()>)
    requires Segments(segs)
    ensures fresh(q)
    ensures r == if FluentExpr(op, JoinText(segs, "."), v).Ok? then Ok(()) else TypeError
    ensures r.Ok? ==> q.Value() == Leaf(FluentExpr(op, JoinText(segs, "."), v).value)
  {
    q := new RQLQuery(Expr, [], false, "");
    for i := 0 to |segs|
      invariant fresh(q) && q.Value() == Query(Expr, [], false, "") && q.field == ""
      invariant q.path == segs[..i]
    {
      SplitDotsOne(segs[i], "");
      assert "" + segs[i] == segs[i];
      var done := q.N(segs[i]);
    }
    assert segs[..|segs|] == segs;
    r := q.Apply(op, v);
  }

  lemma WordIsSegment(op: Operator)
    ensures Segment(Word(op)) && Keyword(Word(op)) == Some(op)
  {
  }

  /** The lookup `a__b__op=v` is the operator's expression on the field `a.b`. */
  lemma LookupOfPath(segs: seq<string>, op: Operator, v: Value)
    requires Segments(segs)
    ensures Lookup(JoinText(segs + [Word(op)], "__"), v) == LookupExpr(op, JoinText(segs, "."), v)
  {
    WordIsSegment(op);
    var tokens := segs + [Word(op)];
    SplitJoined(tokens);
    assert tokens[..|tokens| - 1] == segs;
  }

  /** Values for which the two styles build the same expression, or both refuse. */
  predicate StylesAgree(op: Operator, v: Value) {
    match op
    case Null | Empty => v.Bool? || !Truthy(v)
    case Like | Ilike => v.Str? || !EncodeScalar(v).Ok?
    case _ => true
  }

  /** The keyword lookup and the fluent chain agree exactly on these operators and values. */
  lemma StylesAgreeExactly(segs: seq<string>, op: Operator, v: Value)
    requires Segments(segs)
    ensures Lookup(JoinText(segs + [Word(op)], "__"), v) == FluentExpr(op, JoinText(segs, "."), v) <==> StylesAgree(op, v)
  {
    LookupOfPath(segs, op, v);
    var field := JoinText(segs, ".");
    match op {
      case Null | Empty =>
        assert Call(Eq, field, Word(op) + "()")[0] == 'e';
        assert Call(Ne, field, Word(op) + "()")[0] == 'n';
      case _ =>
    }
  }

  /** Whether the fluent operator takes the value as it is meant to: a Boolean for `null` and `empty`. */
  predicate Accepts(op: Operator, v: Value) {
    match op
    case Null | Empty => v.Bool?
    case _ => FluentExpr(op, "", v).Ok?
  }

  /** On every value that the fluent operator accepts, both styles build the same expression. */
  lemma StylesAgreeOnAccepted(segs: seq<string>, op: Operator, v: Value)
    requires Segments(segs) && Accepts(op, v)
    ensures Lookup(JoinText(segs + [Word(op)], "__"), v) == FluentExpr(op, JoinText(segs, "."), v)
    ensures FluentExpr(op, JoinText(segs, "."), v).Ok?
  {
    StylesAgreeExactly(segs, op, v);
  }

  /** A lookup without an operator is the fluent `eq`, unless its last segment reads as an operator. */
  lemma BareLookup(segs: seq<string>, v: Value)
    requires Segments(segs) && (|segs| == 1 || Keyword(segs[|segs| - 1]).None?)
    ensures Lookup(JoinText(segs, "__"), v) == FluentExpr(Eq, JoinText(segs, "."), v)
  {
    SplitJoined(segs);
  }

  /** The forms of comparisons, patterns and lists that users of the builder rely on. */
  lemma DocumentedComparisons(field: string, text: string, items: seq<string>)
    ensures LookupExpr(Eq, field, Str(text)) == Ok("eq(" + field + "," + Quote(text) + ")")
    ensures LookupExpr(In, field, List(items)) == Ok("in(" + field + ",(" + JoinText(items, ",") + "))")
    ensures LookupExpr(Ilike, field, Str(text)) == Ok("ilike(" + field + "," + text + ")")
  {
    assert "eq" + "(" == "eq(" && "in" + "(" == "in(" && "ilike" + "(" == "ilike(";
    assert Call(In, field, "(" + JoinText(items, ",") + ")") == "in(" + field + ",(" + JoinText(items, ",") + "))";
  }

  /** The forms of the tests for null and empty, and of the fluent pattern operators. */
  lemma DocumentedTests(field: string, text: string)
    ensures LookupExpr(Empty, field, Bool(true)) == Ok("eq(" + field + ",empty())")
    ensures LookupExpr(Null, field, Bool(false)) == Ok("ne(" + field + ",null())")
    ensures FluentExpr(Like, field, Str(text)) == Ok("like(" + field + "," + text + ")")
    ensures FluentExpr(Ilike, field, Str(text)) == Ok("ilike(" + field + "," + text + ")")
  {
    assert "eq" + "(" == "eq(" && "ne" + "(" == "ne(" && "like" + "(" == "like(" && "ilike" + "(" == "ilike(";
    assert Call(Eq, field, "empty" + "()") == "eq(" + field + ",empty())";
    assert Call(Ne, field, "null" + "()") == "ne(" + field + ",null())";
  }

  /** The text of a value that is not a list. */
  predicate Reads(v: Value, text: string) {
    match v
    case Str(t) => text == t
    case Bool(b) => text == (if b then "true" else "false")
    case Number(digits, _) => text == digits
    case Moment(iso) => text == iso
    case _ => false
  }

  lemma CallText(op: Operator, name: string, field: string, argument: string)
    requires Word(op) == name
    ensures Call(op, field, argument) == name + "(" + field + "," + argument + ")"
  {
  }

  /** Comparisons quote the text of a string, a Boolean, a number or a date. */
  lemma DocumentedScalars(field: string, v: Value, text: string)
    requires Reads(v, text)
    ensures LookupExpr(Eq, field, v) == Ok("eq(" + field + "," + Quote(text) + ")")
    ensures LookupExpr(Ne, field, v) == Ok("ne(" + field + "," + Quote(text) + ")")
    ensures LookupExpr(Lt, field, v) == Ok("lt(" + field + "," + Quote(text) + ")")
    ensures LookupExpr(Le, field, v) == Ok("le(" + field + "," + Quote(text) + ")")
    ensures LookupExpr(Gt, field, v) == Ok("gt(" + field + "," + Quote(text) + ")")
    ensures LookupExpr(Ge, field, v) == Ok("ge(" + field + "," + Quote(text) + ")")
  {
    assert "eq" + "(" == "eq(" && "ne" + "(" == "ne(" && "lt" + "(" == "lt(";
    assert "le" + "(" == "le(" && "gt" + "(" == "gt(" && "ge" + "(" == "ge(";
  }

  /** Patterns take the text as it is; lists are joined by commas; nothing else is taken. */
  lemma DocumentedOthers(field: string, v: Value, text: string, items: seq<string>)
    requires Reads(v, text)
    ensures LookupExpr(Like, field, v) == Ok("like(" + field + "," + text + ")")
    ensures LookupExpr(Ilike, field, v) == Ok("ilike(" + field + "," + text + ")")
    ensures LookupExpr(In, field, List(items)) == Ok("in(" + field + ",(" + JoinText(items, ",") + "))")
    ensures LookupExpr(Out, field, List(items)) == Ok("out(" + field + ",(" + JoinText(items, ",") + "))")
  {
    assert "like" + "(" == "like(" && "ilike" + "(" == "ilike(" && "in" + "(" == "in(" && "out" + "(" == "out(";
    assert Call(In, field, "(" + JoinText(items, ",") + ")") == "in(" + field + ",(" + JoinText(items, ",") + "))";
    assert Call(Out, field, "(" + JoinText(items, ",") + ")") == "out(" + field + ",(" + JoinText(items, ",") + "))";
  }

  /** A lookup is a type error exactly for a scalar operator on a list or an unknown value, and for a list
      operator on anything but a list; the tests for null and empty take anything. */
  lemma RefusedValues(op: Operator, field: string, v: Value)
    ensures LookupExpr(op, field, v) == TypeError <==>
      match op
      case Null | Empty => false
      case In | Out => !v.List?
      case _ => v.List? || v.Absent? || v.Other?
    ensures LookupExpr(op, field, v) == TypeError || LookupExpr(op, field, v).Ok?
  {
  }

  /** A lookup tests for null or empty exactly on the value true; the fluent test on every truthy value. */
  lemma DocumentedTruth(field: string, v: Value)
    ensures LookupExpr(Null, field, v) == Ok((if v == Bool(true) then "eq(" else "ne(") + field + ",null())")
    ensures LookupExpr(Empty, field, v) == Ok((if v == Bool(true) then "eq(" else "ne(") + field + ",empty())")
    ensures
      var falsy := v == Str("") || v == Bool(false) || (v.Number? && v.zero) || v == List([]) || v == Absent;
      && FluentExpr(Null, field, v) == Ok((if falsy then "ne(" else "eq(") + field + ",null())")
      && FluentExpr(Empty, field, v) == Ok((if falsy then "ne(" else "eq(") + field + ",empty())")
  {
    assert "eq" + "(" == "eq(" && "ne" + "(" == "ne(" && "null" + "()" == "null()" && "empty" + "()" == "empty()";
    forall head: string, name: string ensures head + field + "," + (name + "()") + ")" == head + field + ("," + name + "())") {
      assert name + "()" + ")" == name + "())";
    }
    assert "," + "null" + "())" == ",null())" && "," + "empty" + "())" == ",empty())";
  }

  /** Escaping keeps different values different. */
  lemma {:induction false} EscapeTellsApart(a: string, b: string)
    ensures Escape(a) == Escape(b) <==> a == b
    decreases |a| + |b|
  {
    if Escape(a) == Escape(b) && a != "" && b != "" {
      assert Escape(a)[0] == (if a[0] == '\'' then '\\' else a[0]);
      assert Escape(b)[0] == (if b[0] == '\'' then '\\' else b[0]);
      var n, m := if a[0] == '\'' then 2 else 1, if b[0] == '\'' then 2 else 1;
      assert Escape(a)[n..] == Escape(a[1..]) && Escape(b)[m..] == Escape(b[1..]);
      if n == m {
        EscapeTellsApart(a[1..], b[1..]);
        assert a == [a[0]] + a[1..] && b == [b[0]] + b[1..];
      } else {
        NoLeadingQuote(a[1..]);
        NoLeadingQuote(b[1..]);
      }
    }
  }

  lemma NoLeadingQuote(v: string)
    ensures Escape(v) != "" ==> Escape(v)[0] != '\''
  {
  }

  /** Lookups of one operator and field on two strings, Booleans, numbers or dates print alike exactly if
      the values read alike. */
  lemma ScalarsTellApart(op: Operator, field: string, v: Value, text: string, v': Value, text': string)
    requires Compares(op) || op == Like || op == Ilike
    requires Reads(v, text) && Reads(v', text')
    ensures LookupExpr(op, field, v) == LookupExpr(op, field, v') <==> text == text'
  {
    EscapeTellsApart(text, text');
    QuoteOfEscape(text);
    QuoteOfEscape(text');
    CallTellsApart(op, field, if Compares(op) then Quote(text) else text, if Compares(op) then Quote(text') else text');
    assert LookupExpr(op, field, v) == Ok(Call(op, field, if Compares(op) then Quote(text) else text));
    assert LookupExpr(op, field, v') == Ok(Call(op, field, if Compares(op) then Quote(text') else text'));
  }

  lemma QuoteOfEscape(v: string)
    ensures |Quote(v)| == |Escape(v)| + 2 && Quote(v)[1..|Quote(v)| - 1] == Escape(v)
  {
  }

  lemma CallTellsApart(op: Operator, field: string, a: string, b: string)
    ensures Call(op, field, a) == Call(op, field, b) <==> a == b
  {
    var n := |Word(op) + "(" + field + ","|;
    assert Call(op, field, a)[n..|Call(op, field, a)| - 1] == a;
    assert Call(op, field, b)[n..|Call(op, field, b)| - 1] == b;
  }

  lemma QuotedApostrophe()
    ensures Quote("it's") == "'it\\'s'"
  {
    assert Escape("s") == "s" && "'s"[1..] == "s" && "t's"[1..] == "'s" && "it's"[1..] == "t's";
    assert Escape("'s") == "\\'s" && Escape("t's") == "t\\'s";
  }

  /** A scanning unquoter: `\'` stands for a quote, any other backslash for itself. */
  function Unquote(s: string): Option<(string, string)> {
    if s != "" && s[0] == '\'' then UnquoteRest(s[1..]) else None
  }

  function UnquoteRest(s: string): Option<(string, string)> {
    if s == "" then None
    else if s[0] == '\\' && |s| > 1 && s[1] == '\'' then
      match UnquoteRest(s[2..])
      case None => None
      case Some((v, rest)) => Some(("'" + v, rest))
    else if s[0] == '\'' then Some(("", s[1..]))
    else
      match UnquoteRest(s[1..])
      case None => None
      case Some((v, rest)) => Some(([s[0]] + v, rest))
  }

  predicate EndsWithBackslash(v: string) {
    v != "" && v[|v| - 1] == '\\'
  }

  lemma {:induction false} UnquoteEscaped(v: string)
    ensures UnquoteRest(Escape(v) + "'") == if EndsWithBackslash(v) then None else Some((v, ""))
  {
    if v == "" {
      assert Escape(v) + "'" == "'" && "'"[1..] == "";
    } else {
      var rest := Escape(v[1..]) + "'";
      UnquoteEscaped(v[1..]);
      if v[0] == '\'' {
        assert Escape(v) + "'" == "\\'" + rest;
        assert ("\\'" + rest)[2..] == rest;
        assert "'" + v[1..] == v;
      } else {
        assert Escape(v) + "'" == [v[0]] + rest;
        assert ([v[0]] + rest)[1..] == rest;
        assert [v[0]] + v[1..] == v;
        if v == "\\" {
          assert v[1..] == "" && rest == "'";
          assert ([v[0]] + rest)[2..] == "";
        } else if v[0] == '\\' {
          assert rest[0] != '\'';
        }
      }
    }
  }

  /** Quoting is undone by the scanner exactly for values that do not end in a backslash. */
  lemma QuoteRoundTrip(v: string)
    ensures Unquote(Quote(v)) == Some((v, "")) <==> !EndsWithBackslash(v)
  {
    UnquoteEscaped(v);
    assert Quote(v)[1..] == Escape(v) + "'";
  }

  /** A field of plain characters: nothing that the scanner would count. */
  predicate PlainField(field: string) {
    forall i :: 0 <= i < |field| ==> field[i] != '\'' && field[i] != '(' && field[i] != ')'
  }

  lemma {:induction false} ScanConcat(s: Scan, a: string, b: string)
    ensures ScanText(s, a + b) ==
            match ScanText(s, a) case None => None case Some(t) => ScanText(t, b)
    decreases |a|
  {
    if a == "" {
      assert a + b == b;
    } else if !Stops(s, a[0]) {
      assert (a + b)[1..] == a[1..] + b;
      ScanConcat(Step(s, a[0]), a[1..], b);
    }
  }

  lemma {:induction false} ScanPlain(s: Scan, field: string)
    requires s.mode == Plain && s.depth > 0 && PlainField(field)
    ensures ScanText(s, field) == Some(s)
    decreases |field|
  {
    if field != "" {
      ScanPlain(s, field[1..]);
    }
  }

  lemma {:induction false} ScanEscaped(s: Scan, v: string)
    requires s.mode != Plain
    ensures
      var r := ScanText(s, Escape(v));
      && r.Some? && r.value.depth == s.depth
      && r.value.mode == if v == "" then s.mode else if EndsWithBackslash(v) then Slash else Quoted
    decreases |v|
  {
    if v != "" {
      var first := if v[0] == '\'' then "\\'" else [v[0]];
      ScanConcat(s, first, Escape(v[1..]));
      var t := if v[0] == '\\' then s.(mode := Slash) else s.(mode := Quoted);
      ScanChars(s, v[0]);
      ScanEscaped(t, v[1..]);
    }
  }

  lemma ScanChars(s: Scan, c: char)
    requires s.mode != Plain
    ensures ScanText(s, if c == '\'' then "\\'" else [c]) == Some(s.(mode := if c == '\\' then Slash else Quoted))
  {
    if c == '\'' {
      assert "\\'"[1..] == "'" && "'"[1..] == "";
    } else {
      assert [c][1..] == "";
    }
  }

  /** A comparison leaf can be read back in a printed query exactly if its value does not end in a backslash. */
  lemma ComparisonAtomic(op: Operator, field: string, v: string)
    requires Compares(op) && PlainField(field)
    ensures Atomic(Call(op, field, Quote(v))) <==> !EndsWithBackslash(v)
  {
    var inside := Scan(1, Plain);
    var tail := Quote(v) + ")";
    var head := Word(op) + "(";
    assert Call(op, field, Quote(v)) == head + (field + ("," + tail));
    HeadScans(op);
    ScanConcat(START, head, field + ("," + tail));
    ScanPlain(inside, field);
    ScanConcat(inside, field, "," + tail);
    assert ("," + tail)[1..] == tail;
    QuotedScans(v);
    assert Call(op, field, Quote(v))[..3] == head[..3];
    NotAKeyword(op, field + ("," + tail));
  }

  lemma NotAKeyword(op: Operator, rest: string)
    requires Compares(op)
    ensures !StartsWithKeyword(Word(op) + "(" + rest)
  {
    var text := Word(op) + "(" + rest;
    assert |Word(op)| == 2 && Word(op)[0] != 'o';
    assert text[0] == Word(op)[0] && text[2] == '(';
    assert NOT[2] == 't' && AND[2] == 'd' && OR[0] == 'o';
  }

  lemma HeadScans(op: Operator)
    requires Compares(op)
    ensures ScanText(START, Word(op) + "(") == Some(Scan(1, Plain))
  {
    var a, b := Word(op)[0], Word(op)[1];
    assert a in "englt" && b in "qetl";
    assert Word(op) + "(" == [a, b, '('];
    assert [a, b, '('][1..] == [b, '('] && [b, '('][1..] == ['('] && ['('][1..] == [];
    assert ScanText(START, ['(']) == Some(Scan(1, Plain));
    assert ScanText(START, [b, '(']) == ScanText(START, ['(']);
  }

  lemma QuotedScans(v: string)
    ensures ScanText(Scan(1, Plain), Quote(v) + ")") == Some(START) <==> !EndsWithBackslash(v)
    ensures ScanText(Scan(1, Plain), Quote(v) + ")").Some?
  {
    var text := Escape(v) + "')";
    assert Quote(v) + ")" == "'" + text;
    assert ("'" + text)[1..] == text;
    ScanConcat(Scan(1, Quoted), Escape(v), "')");
    ScanEscaped(Scan(1, Quoted), v);
    assert "')"[1..] == ")" && ")"[1..] == "";
  }
}
