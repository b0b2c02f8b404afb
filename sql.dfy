/**
  SQL statements as the models send them: the statement text as a sequence of
  tokens, where `Param` is a `?` placeholder and `Text` is the literal SQL between
  placeholders, together with the list of values bound to the placeholders.
 */
module Sql {
  import opened Js

  datatype Token = Text(text: string) | Param

  type Fragment = seq<Token>

  /** What `db.query(sql, params)` receives. */
  datatype Statement = Statement(sql: Fragment, params: seq<Value>)

  /** The number of `?` placeholders in a fragment. */
  function Placeholders(q: Fragment): nat
  {
    multiset(q)[Param]
  }

  /** A statement is well formed when every placeholder has exactly one value. */
  predicate WellFormed(st: Statement)
  {
    Placeholders(st.sql) == |st.params|
  }

  /** `Array.prototype.join`: the parts with `sep` between neighbours, nothing for no parts. */
  function Join(parts: seq<Fragment>, sep: Fragment): Fragment
  {
    if |parts| == 0 then []
    else if |parts| == 1 then parts[0]
    else parts[0] + sep + Join(parts[1..], sep)
  }

  /** The placeholders of all parts together. */
  function TotalPlaceholders(parts: seq<Fragment>): nat
  {
    if parts == [] then 0 else Placeholders(parts[0]) + TotalPlaceholders(parts[1..])
  }

  lemma {:induction false} TotalPlaceholdersAppend(a: seq<Fragment>, b: seq<Fragment>)
    ensures TotalPlaceholders(a + b) == TotalPlaceholders(a) + TotalPlaceholders(b)
  {
    if a == [] {
      assert a + b == b;
    } else {
      assert (a + b)[1..] == a[1..] + b;
      TotalPlaceholdersAppend(a[1..], b);
    }
  }

  /** A separator without placeholders adds none: the joined fragment has exactly the
      placeholders of its parts. */
  lemma {:induction false} JoinPlaceholders(parts: seq<Fragment>, sep: Fragment)
    requires Placeholders(sep) == 0
    ensures Placeholders(Join(parts, sep)) == TotalPlaceholders(parts)
  {
    if |parts| == 1 {
      assert parts[1..] == [];
    } else if |parts| > 1 {
      JoinPlaceholders(parts[1..], sep);
      assert multiset(Join(parts, sep)) == multiset(parts[0]) + multiset(sep) + multiset(Join(parts[1..], sep));
    }
  }

  /** Joining invents no token: every token of the result comes from the separator or a part. */
  lemma {:induction false} JoinTokens(parts: seq<Fragment>, sep: Fragment, t: Token)
    requires t in Join(parts, sep)
    ensures t in sep || exists i :: 0 <= i < |parts| && t in parts[i]
  {
    if |parts| == 1 {
      assert t in parts[0];
    } else if |parts| > 1 && t !in parts[0] && t !in sep {
      JoinTokens(parts[1..], sep, t);
      var i :| 0 <= i < |parts[1..]| && t in parts[1..][i];
      assert t in parts[i + 1];
    }
  }

  /** One filter's contribution to a WHERE clause: its condition and the values bound to
      the condition's placeholders. */
  datatype Clause = Clause(condition: Fragment, params: seq<Value>)

  predicate Balanced(c: Clause)
  {
    Placeholders(c.condition) == |c.params|
  }

  /** The conditions of the clauses, in order. */
  function ConditionsOf(cs: seq<Clause>): (r: seq<Fragment>)
    ensures |r| == |cs|
  {
    if cs == [] then [] else ConditionsOf(cs[..|cs| - 1]) + [cs[|cs| - 1].condition]
  }

  /** The values of the clauses, clause after clause. */
  function ParamsOf(cs: seq<Clause>): seq<Value>
  {
    if cs == [] then [] else ParamsOf(cs[..|cs| - 1]) + cs[|cs| - 1].params
  }

  /** Clauses whose conditions each carry as many placeholders as values carry, together,
      as many placeholders as values. */
  lemma {:induction false} BalancedClauses(cs: seq<Clause>)
    requires AllBalanced(cs)
    ensures TotalPlaceholders(ConditionsOf(cs)) == |ParamsOf(cs)|
  {
    if cs != [] {
      var init, last := cs[..|cs| - 1], cs[|cs| - 1];
      assert forall c :: c in init ==> c in cs;
      assert last in cs;
      BalancedClauses(init);
      assert ConditionsOf(cs) == ConditionsOf(init) + [last.condition];
      TotalPlaceholdersAppend(ConditionsOf(init), [last.condition]);
      assert TotalPlaceholders([last.condition]) == Placeholders(last.condition);
    }
  }

  /** A condition matching one pattern against four columns, as both searches build it,
      has four placeholders. */
  lemma FourLikes(a: string, b: string, c: string, d: string, e: string)
    ensures Placeholders([Text(a), Param, Text(b), Param, Text(c), Param, Text(d), Param, Text(e)]) == 4
  {
  }

  /** `xs` when `present`, nothing otherwise. */
  function Optional<T>(present: bool, xs: seq<T>): seq<T>
  {
    if present then xs else []
  }

  /** One clause when its filter is present, none otherwise. */
  function Piece(present: bool, c: Clause): seq<Clause>
  {
    if present then [c] else []
  }

  predicate AllBalanced(cs: seq<Clause>)
  {
    forall c :: c in cs ==> Balanced(c)
  }

  lemma AllBalancedAppend(a: seq<Clause>, b: seq<Clause>)
    requires AllBalanced(a) && AllBalanced(b)
    ensures AllBalanced(a + b)
  {
  }

  /** No condition of the clauses spells ` WHERE `. */
  predicate WhereFree(cs: seq<Clause>)
  {
    forall c :: c in cs ==> WhereKeyword !in c.condition
  }

  lemma WhereFreeAppend(a: seq<Clause>, b: seq<Clause>)
    requires WhereFree(a) && WhereFree(b)
    ensures WhereFree(a + b)
  {
  }

  lemma {:induction false} ConditionsOfAppend(a: seq<Clause>, b: seq<Clause>)
    ensures ConditionsOf(a + b) == ConditionsOf(a) + ConditionsOf(b)
  {
    if b != [] {
      var init := b[..|b| - 1];
      assert (a + b)[..|a + b| - 1] == a + init;
      ConditionsOfAppend(a, init);
    } else {
      assert a + b == a;
    }
  }

  /** Every condition of the clauses is free of ` WHERE ` when every clause is. */
  lemma {:induction false} ConditionsOfWhereFree(cs: seq<Clause>)
    requires WhereFree(cs)
    ensures forall c :: c in ConditionsOf(cs) ==> WhereKeyword !in c
  {
    if cs != [] {
      var init := cs[..|cs| - 1];
      assert cs[|cs| - 1] in cs;
      assert forall c :: c in init ==> c in cs;
      ConditionsOfWhereFree(init);
    }
  }

  lemma PieceConditions(present: bool, c: Clause)
    ensures ConditionsOf(Piece(present, c)) == Optional(present, [c.condition])
  {
  }

  lemma PieceParams(present: bool, c: Clause)
    ensures ParamsOf(Piece(present, c)) == Optional(present, c.params)
  {
    if present {
      assert [c][..0] == [];
    }
  }

  lemma {:induction false} ParamsOfAppend(a: seq<Clause>, b: seq<Clause>)
    ensures ParamsOf(a + b) == ParamsOf(a) + ParamsOf(b)
  {
    if b != [] {
      var init := b[..|b| - 1];
      assert (a + b)[..|a + b| - 1] == a + init;
      ParamsOfAppend(a, init);
    } else {
      assert a + b == a;
    }
  }

  /** Appending a piece appends its condition and its values. */
  lemma AppendPiece(cs: seq<Clause>, present: bool, c: Clause)
    ensures ConditionsOf(cs + Piece(present, c)) == ConditionsOf(cs) + Optional(present, [c.condition])
    ensures ParamsOf(cs + Piece(present, c)) == ParamsOf(cs) + Optional(present, c.params)
  {
    ConditionsOfAppend(cs, Piece(present, c));
    ParamsOfAppend(cs, Piece(present, c));
    PieceConditions(present, c);
    PieceParams(present, c);
  }

  /** One filter step of a `findAll`: when the filter is present, push its condition onto
      `conditions` and its values onto `params`. `pushed` is the list of clauses pushed so far. */
  method PushWhen(present: bool, c: Clause, conditions: seq<Fragment>, params: seq<Value>, ghost pushed: seq<Clause>)
    returns (conditions': seq<Fragment>, params': seq<Value>)
    requires conditions == ConditionsOf(pushed) && params == ParamsOf(pushed)
    ensures conditions' == ConditionsOf(pushed + Piece(present, c))
    ensures params' == ParamsOf(pushed + Piece(present, c))
  {
    conditions', params' := conditions, params;
    if present {
      conditions' := conditions' + [c.condition];
      params' := params' + c.params;
    }
    AppendPiece(pushed, present, c);
  }

  const WhereKeyword := Text(" WHERE ")
  const AndKeyword := Text(" AND ")

  /** A SELECT built as both `findAll`s build theirs: `base`, then ` WHERE ` and the
      conditions joined with ` AND ` when there is at least one condition, then `order`. */
  function Select(base: Fragment, conditions: seq<Fragment>, order: Fragment): Fragment
  {
    base + (if |conditions| > 0 then [WhereKeyword] + Join(conditions, [AndKeyword]) else []) + order
  }

  lemma SelectPlaceholders(base: Fragment, conditions: seq<Fragment>, order: Fragment)
    requires Placeholders(base) == 0 && Placeholders(order) == 0
    ensures Placeholders(Select(base, conditions, order)) == TotalPlaceholders(conditions)
  {
    JoinPlaceholders(conditions, [AndKeyword]);
    if |conditions| == 0 {
      assert Select(base, conditions, order) == base + order;
    } else {
      assert Select(base, conditions, order) == base + ([WhereKeyword] + Join(conditions, [AndKeyword])) + order;
    }
  }

  /** ` WHERE ` is emitted exactly when there is a condition (as long as no piece spells it). */
  lemma SelectWhere(base: Fragment, conditions: seq<Fragment>, order: Fragment)
    requires WhereKeyword !in base && WhereKeyword !in order
    requires forall c :: c in conditions ==> WhereKeyword !in c
    ensures WhereKeyword in Select(base, conditions, order) <==> |conditions| > 0
  {
    if WhereKeyword in Join(conditions, [AndKeyword]) {
      JoinTokens(conditions, [AndKeyword], WhereKeyword);
    }
  }

  /** The ordering clause closes the statement. */
  lemma SelectEndsWithOrder(base: Fragment, conditions: seq<Fragment>, order: Fragment)
    ensures var q := Select(base, conditions, order); |q| >= |order| && q[|q| - |order|..] == order
  {
  }

  /** The tail both `findAll`s run once the conditions are collected: ` WHERE ` and the
      conditions joined with ` AND ` only when there is a condition, then the ordering. */
  method AppendWhereAndOrder(base: Fragment, conditions: seq<Fragment>, order: Fragment) returns (q: Fragment)
    ensures q == Select(base, conditions, order)
  {
    q := base;
    if |conditions| > 0 {
      q := q + ([WhereKeyword] + Join(conditions, [AndKeyword]));
    }
    q := q + order;
  }

  /** The SELECT both `findAll`s send for a list of clauses. */
  function FilteredSelect(base: Fragment, cs: seq<Clause>, order: Fragment): Statement
  {
    Statement(Select(base, ConditionsOf(cs), order), ParamsOf(cs))
  }

  /** With balanced clauses and a base and ordering clause free of placeholders, every
      placeholder of the SELECT has exactly one value. */
  lemma FilteredSelectWellFormed(base: Fragment, cs: seq<Clause>, order: Fragment)
    requires Placeholders(base) == 0 && Placeholders(order) == 0
    requires AllBalanced(cs)
    ensures WellFormed(FilteredSelect(base, cs, order))
  {
    BalancedClauses(cs);
    SelectPlaceholders(base, ConditionsOf(cs), order);
  }

  /** ` WHERE ` is emitted exactly when there is at least one clause. */
  lemma FilteredSelectWhere(base: Fragment, cs: seq<Clause>, order: Fragment)
    requires WhereKeyword !in base && WhereKeyword !in order
    requires WhereFree(cs)
    ensures WhereKeyword in FilteredSelect(base, cs, order).sql <==> |cs| > 0
  {
    ConditionsOfWhereFree(cs);
    SelectWhere(base, ConditionsOf(cs), order);
  }
}
