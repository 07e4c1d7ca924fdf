/** The generated condition expression "<attr> IN (:from0, :from1, ...)" and what DynamoDB makes
    of it (backend/internal/store/dynamo/store.go:66-78). */
module Condition {
  import opened Model
  import opened Text
  import opened Items

  function Placeholder(i: nat): string {
    ":from" + Decimal(i)
  }

  function Placeholders(n: nat): (ps: seq<string>)
    ensures |ps| == n
    ensures forall i :: 0 <= i < n ==> ps[i] == Placeholder(i)
  {
    if n == 0 then [] else Placeholders(n - 1) + [Placeholder(n - 1)]
  }

  function Values(from: seq<PageState>): map<string, string> {
    if from == [] then map[]
    else Values(from[..|from| - 1])[Placeholder(|from| - 1) := StateName(from[|from| - 1])]
  }

  function Join(parts: seq<string>): string {
    if parts == [] then "" else if |parts| == 1 then parts[0] else parts[0] + (", " + Join(parts[1..]))
  }

  function Expression(attr: string, from: seq<PageState>): string {
    attr + (" IN (" + (Join(Placeholders(|from|)) + ")"))
  }

  /** The builder: two collections filled in one loop. */
  method StateInCondition(attr: string, from: seq<PageState>) returns (expr: string, values: map<string, string>)
    ensures expr == Expression(attr, from)
    ensures values == Values(from)
  {
    var placeholders: seq<string> := [];
    values := map[];
    var i := 0;
    while i < |from|
      invariant 0 <= i <= |from|
      invariant placeholders == Placeholders(i)
      invariant values == Values(from[..i])
    {
      var ph := ":from" + Decimal(i);
      placeholders := placeholders + [ph];
      assert from[..i + 1][..i] == from[..i];
      values := values[ph := StateName(from[i])];
      i := i + 1;
    }
    assert from[..i] == from;
    expr := attr + (" IN (" + (Join(placeholders) + ")"));
  }

  // ------------------------------------------------------------ the service's reading

  /** The position of the first comma, or the length. */
  function Comma(s: string): (i: nat)
    ensures i <= |s|
    ensures i < |s| ==> s[i] == ','
    ensures forall k :: 0 <= k < i ==> s[k] != ','
  {
    if s == "" || s[0] == ',' then 0 else Comma(s[1..]) + 1
  }

  /** The operands between the parentheses, separated by comma and space. */
  function Operands(s: string): seq<string>
    decreases |s|
  {
    var i := Comma(s);
    if i + 1 < |s| && s[i + 1] == ' ' then [s[..i]] + Operands(s[i + 2..]) else [s]
  }

  /** Evaluating "<attr> IN (op, op, ...)": None when the expression is not of this form or an
      operand has no value (a validation error), else whether the attribute is there and equals
      one of the operands' values. */
  function Evaluate(expr: string, attr: string, values: map<string, string>, actual: Option<string>): Option<bool> {
    var open := attr + " IN (";
    if |expr| > |open| && expr[..|open|] == open && expr[|expr| - 1] == ')' then
      var ops := Operands(expr[|open|..|expr| - 1]);
      if forall op :: op in ops ==> op in values then
        Some(actual.Some? && exists op :: op in ops && values[op] == actual.value)
      else
        None
    else
      None
  }

  lemma CommaAfter(a: string, x: string)
    requires ',' !in a
    ensures Comma(a + ("," + x)) == |a|
  {
    var s := a + ("," + x);
    assert s[|a|] == ',';
    assert forall k :: 0 <= k < |a| ==> s[k] == a[k] && a[k] in a;
  }

  lemma CommaFree(s: string)
    requires ',' !in s
    ensures Operands(s) == [s]
  {
  }

  /** The first operand and the rest. */
  lemma FirstOperand(a: string, rest: string)
    requires ',' !in a
    ensures Operands(a + (", " + rest)) == [a] + Operands(rest)
  {
    var s := a + (", " + rest);
    assert ", " + rest == "," + (" " + rest);
    CommaAfter(a, " " + rest);
    assert s[..|a|] == a && s[|a| + 1] == ' ' && s[|a| + 2..] == rest;
  }

  lemma {:induction false} OperandsOfJoin(parts: seq<string>)
    requires parts != [] && forall p :: p in parts ==> ',' !in p
    ensures Operands(Join(parts)) == parts
  {
    hide Operands;
    assert parts[0] in parts;
    if |parts| == 1 {
      CommaFree(parts[0]);
    } else {
      assert forall p :: p in parts[1..] ==> p in parts;
      FirstOperand(parts[0], Join(parts[1..]));
      OperandsOfJoin(parts[1..]);
    }
  }

  /** Distinct positions get distinct placeholders, and none is one of the fixed ones. */
  lemma PlaceholdersDistinct(i: nat, j: nat)
    ensures Placeholder(i) == Placeholder(j) <==> i == j
    ensures Placeholder(i) != ":to" && Placeholder(i) != ":at" && Placeholder(i) != ":note"
      && Placeholder(i) != ":attempt"
    ensures ',' !in Placeholder(i)
  {
    if Placeholder(i) == Placeholder(j) {
      ConcatInjective(":from", ":from", Decimal(i), Decimal(j));
      DecimalInjective(i, j);
    }
    assert Placeholder(i)[1] == 'f' && ":to"[1] == 't' && ":at"[1] == 'a' && ":note"[1] == 'n' && ":attempt"[1] == 'a';
    assert forall c :: c in Decimal(i) ==> IsDigit(c);
    assert ',' !in ":from";
  }

  lemma {:induction false} ValuesAt(from: seq<PageState>, i: nat)
    requires i < |from|
    ensures Placeholder(i) in Values(from) && Values(from)[Placeholder(i)] == StateName(from[i])
    decreases |from|
  {
    var n := |from| - 1;
    PlaceholdersDistinct(i, n);
    if i < n {
      ValuesAt(from[..n], i);
      assert from[..n][i] == from[i];
    }
  }

  lemma ExpressionParts(attr: string, from: seq<PageState>)
    ensures var expr := Expression(attr, from); var open := attr + " IN (";
      && |expr| > |open| && expr[..|open|] == open && expr[|expr| - 1] == ')'
      && expr[|open|..|expr| - 1] == Join(Placeholders(|from|))
  {
    var open := attr + " IN (";
    var inner := Join(Placeholders(|from|));
    assert Expression(attr, from) == open + (inner + ")");
    hide Join, Placeholders;
  }

  /** The operands are the placeholders, and each stands for the name of its state. */
  lemma OperandValues(from: seq<PageState>, values: map<string, string>)
    requires from != []
    requires forall k :: k in Values(from) ==> k in values && values[k] == Values(from)[k]
    ensures Operands(Join(Placeholders(|from|))) == Placeholders(|from|)
    ensures forall i :: 0 <= i < |from| ==>
              Placeholders(|from|)[i] in values && values[Placeholders(|from|)[i]] == StateName(from[i])
  {
    hide Placeholder, Values, StateName, Operands, Join;
    var ops := Placeholders(|from|);
    forall p | p in ops ensures ',' !in p {
      var i :| 0 <= i < |ops| && ops[i] == p;
      PlaceholdersDistinct(i, i);
    }
    OperandsOfJoin(ops);
    forall i | 0 <= i < |from| ensures ops[i] in values && values[ops[i]] == StateName(from[i]) {
      ValuesAt(from, i);
    }
  }

  lemma SomeOperandMatches(from: seq<PageState>, ops: seq<string>, values: map<string, string>, actual: PageState)
    requires |ops| == |from|
    requires forall i :: 0 <= i < |from| ==> ops[i] in values && values[ops[i]] == StateName(from[i])
    ensures forall op :: op in ops ==> op in values
    ensures (exists op :: op in ops && values[op] == StateName(actual)) <==> actual in from
  {
  }

  /** The generated condition means membership: for every non-empty list of states and whatever
      further placeholders the update adds, it evaluates to whether the attribute holds the name
      of one of them. For the empty list DynamoDB rejects it. */
  lemma ConditionMeansMembership(attr: string, from: seq<PageState>, values: map<string, string>,
                                 actual: Option<PageState>)
    requires forall k :: k in Values(from) ==> k in values && values[k] == Values(from)[k]
    requires "" !in values
    ensures var name := if actual.Some? then Some(StateName(actual.value)) else None;
      Evaluate(Expression(attr, from), attr, values, name)
        == if from == [] then None else Some(actual.Some? && actual.value in from)
  {
    hide Evaluate, Expression, StateName, Values, Operands, Placeholders;
    var name := if actual.Some? then Some(StateName(actual.value)) else None;
    EvaluateOperands(attr, from, values, name);
    if from == [] {
      NoOperands();
    } else {
      hide Join;
      OperandValues(from, values);
      SomeOperandMatches(from, Placeholders(|from|), values, if actual.Some? then actual.value else Created);
    }
  }

  lemma NoOperands()
    ensures Operands(Join(Placeholders(0))) == [""]
  {
  }

  /** Evaluating the built expression is looking at the values of its operands. */
  lemma EvaluateOperands(attr: string, from: seq<PageState>, values: map<string, string>, actual: Option<string>)
    ensures var ops := Operands(Join(Placeholders(|from|)));
      Evaluate(Expression(attr, from), attr, values, actual)
        == if forall op :: op in ops ==> op in values
           then Some(actual.Some? && exists op :: op in ops && values[op] == actual.value) else None
  {
    hide Expression, Operands, Join, Placeholders;
    ExpressionParts(attr, from);
  }

  /** The builder's placeholders leave the fixed ones, and the empty name, free. */
  lemma {:induction false} FixedPlaceholdersFree(from: seq<PageState>)
    ensures forall k :: k in Values(from) ==> k != ":to" && k != ":at" && k != ":note" && k != ":attempt" && k != ""
  {
    if from != [] {
      FixedPlaceholdersFree(from[..|from| - 1]);
      PlaceholdersDistinct(|from| - 1, |from| - 1);
      assert Placeholder(|from| - 1)[0] == ':';
    }
  }
}
