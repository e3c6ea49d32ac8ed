/** What operators and pipeline steps compute, told by the values they are given. */
module Operators {
  import opened Wrappers
  import opened Ast
  import opened Values
  import opened Evaluator

  // ---------- operators ----------

  /** Both operands have a value. */
  predicate Operands(a: Expr, b: Expr, env: Env, elem: Option<Value>, x: Value, y: Value) {
    hide *;
    Eval(a, env, elem).val == Some(x) && Eval(b, env, elem).val == Some(y)
  }

  function ValueOf(op: BinOp, a: Expr, b: Expr, env: Env, elem: Option<Value>): Option<Value> {
    hide *;
    Eval(Binary(op, a, b), env, elem).val
  }

  predicate Measures(v: Value, n: int) {
    hide *;
    v == Value.Int(n) || (n >= 0 && v == Value.Duration(n))
  }

  /** `s` is a proper prefix of `t`, or smaller at the first place where they differ. */
  ghost predicate Precedes(s: string, t: string) {
    hide *;
    exists k: nat | k <= |s| && k <= |t| ::
      s[..k] == t[..k] && k < |t| && (k == |s| || s[k] < t[k])
  }

  /** Sixty-four bits of `n`. */
  ghost predicate Wraps(n: int, r: int) {
    hide *;
    -0x8000_0000_0000_0000 <= r < 0x8000_0000_0000_0000 && (n - r) % 0x1_0000_0000_0000_0000 == 0
  }

  lemma {:induction false} LessIsPrecedes(s: string, t: string)
    ensures hide *; StringLess(s, t) <==> Precedes(s, t)
  {
    if s != "" && t != "" && s[0] == t[0] {
      LessIsPrecedes(s[1..], t[1..]);
      if Precedes(s[1..], t[1..]) {
        var k: nat :| k <= |s| - 1 && k <= |t| - 1 && s[1..][..k] == t[1..][..k] && k < |t| - 1
                      && (k == |s| - 1 || s[1..][k] < t[1..][k]);
        assert s[..k + 1] == [s[0]] + s[1..][..k] && t[..k + 1] == [t[0]] + t[1..][..k];
        assert k + 1 == |s| || s[k + 1] < t[k + 1];
      }
      if k: nat :| k <= |s| && k <= |t| && s[..k] == t[..k] && k < |t| && (k == |s| || s[k] < t[k]) {
        assert k > 0;
        assert s[1..][..k - 1] == s[..k][1..] && t[1..][..k - 1] == t[..k][1..];
        assert k - 1 == |s[1..]| || s[1..][k - 1] < t[1..][k - 1];
      }
    } else if s == "" && t != "" {
      assert s[..0] == t[..0];
    } else if s != "" && t != "" {
      assert s[..0] == t[..0];
      if k: nat :| k <= |s| && k <= |t| && s[..k] == t[..k] && k < |t| && (k == |s| || s[k] < t[k]) {
        if k > 0 { assert s[..k][0] == t[..k][0]; }
      }
    }
  }

  lemma BinaryOf(op: BinOp, a: Expr, b: Expr, env: Env, elem: Option<Value>, x: Value, y: Value)
    requires hide *; Operands(a, b, env, elem, x, y) && !op.And? && !op.Or?
    ensures ValueOf(op, a, b, env, elem) == ApplyBinary(op, x, y)
  {
    hide ApplyBinary;
  }

  /** Numbers and durations compare by size, texts by their first difference; whatever else is compared is an
      error, except for equality. */
  lemma Comparisons(a: Expr, b: Expr, env: Env, elem: Option<Value>, x: Value, y: Value)
    requires hide *; Operands(a, b, env, elem, x, y)
    ensures ValueOf(Eq, a, b, env, elem) == Some(Value.Bool(x == y))
    ensures ValueOf(Ne, a, b, env, elem) == Some(Value.Bool(x != y))
    ensures forall m: int, n: int | Measures(x, m) && Measures(y, n) ::
              && ValueOf(Lt, a, b, env, elem) == Some(Value.Bool(m < n))
              && ValueOf(Le, a, b, env, elem) == Some(Value.Bool(m <= n))
              && ValueOf(Gt, a, b, env, elem) == Some(Value.Bool(m > n))
              && ValueOf(Ge, a, b, env, elem) == Some(Value.Bool(m >= n))
    ensures x.Str? && y.Str? ==>
              && ValueOf(Lt, a, b, env, elem) == Some(Value.Bool(Precedes(x.s, y.s)))
              && ValueOf(Le, a, b, env, elem) == Some(Value.Bool(Precedes(x.s, y.s) || x.s == y.s))
              && ValueOf(Gt, a, b, env, elem) == Some(Value.Bool(!(Precedes(x.s, y.s) || x.s == y.s)))
              && ValueOf(Ge, a, b, env, elem) == Some(Value.Bool(!Precedes(x.s, y.s)))
    ensures !(x.Str? && y.Str?) && !((x.Int? || x.Duration?) && (y.Int? || y.Duration?)) ==>
              && ValueOf(Lt, a, b, env, elem) == None && ValueOf(Le, a, b, env, elem) == None
              && ValueOf(Gt, a, b, env, elem) == None && ValueOf(Ge, a, b, env, elem) == None
  {
    hide Eval, ValueOf;
    forall op: BinOp | !op.And? && !op.Or? ensures ValueOf(op, a, b, env, elem) == ApplyBinary(op, x, y) {
      BinaryOf(op, a, b, env, elem, x, y);
    }
    if x.Str? && y.Str? { LessIsPrecedes(x.s, y.s); }
  }

  /** Integers wrap around; a text is joined with the text of whatever is added to it. */
  lemma Sums(a: Expr, b: Expr, env: Env, elem: Option<Value>, x: Value, y: Value, r: int)
    requires hide *; Operands(a, b, env, elem, x, y)
    ensures x.Int? && y.Int? ==>
              && (Wraps(x.n + y.n, r) ==> ValueOf(Add, a, b, env, elem) == Some(Value.Int(r)))
              && (Wraps(x.n - y.n, r) ==> ValueOf(Sub, a, b, env, elem) == Some(Value.Int(r)))
              && (Wraps(x.n * y.n, r) ==> ValueOf(Mul, a, b, env, elem) == Some(Value.Int(r)))
    ensures x.Str? || y.Str? ==> ValueOf(Add, a, b, env, elem) == Some(Value.Str(x.Display() + y.Display()))
    ensures !(x.Int? && y.Int?) ==> ValueOf(Sub, a, b, env, elem) == None && ValueOf(Mul, a, b, env, elem) == None
  {
    hide Eval, ValueOf, Wrap64, Wraps, Compare;
    BinaryOf(Add, a, b, env, elem, x, y);
    BinaryOf(Sub, a, b, env, elem, x, y);
    BinaryOf(Mul, a, b, env, elem, x, y);
    if x.Int? && y.Int? {
      if Wraps(x.n + y.n, r) { WrapsOnce(x.n + y.n, r); }
      if Wraps(x.n - y.n, r) { WrapsOnce(x.n - y.n, r); }
      if Wraps(x.n * y.n, r) { WrapsOnce(x.n * y.n, r); }
    }
  }

  lemma WrapsOnce(n: int, r: int)
    requires hide *; Wraps(n, r)
    ensures Wrap64(n) == r
  {
    var k := (n - r) / 0x1_0000_0000_0000_0000;
    assert n == r + k * 0x1_0000_0000_0000_0000;
  }

  /** What counts as false. */
  predicate Falsy(v: Value) {
    hide *;
    || v in {Value.Null, Value.Bool(false), Value.Int(0), Value.Str(""), Value.Array([]), Object([]), Value.Duration(0)}
    || v.Err?
  }

  lemma FalsyExactly(v: Value)
    ensures hide *; v.Truthy() <==> !Falsy(v)
  {
  }

  /** `and` and `or` look at their right side only when the left does not decide. */
  lemma Connectives(a: Expr, b: Expr, env: Env, elem: Option<Value>, x: Value, y: Value)
    requires hide *; Eval(a, env, elem).val == Some(x)
    ensures Falsy(x) ==> ValueOf(And, a, b, env, elem) == Some(Value.Bool(false))
    ensures !Falsy(x) ==> ValueOf(Or, a, b, env, elem) == Some(Value.Bool(true))
    ensures Eval(b, env, elem).val == Some(y) ==>
              && ValueOf(And, a, b, env, elem) == Some(Value.Bool(!Falsy(x) && !Falsy(y)))
              && ValueOf(Or, a, b, env, elem) == Some(Value.Bool(!Falsy(x) || !Falsy(y)))
    ensures Eval(Unary(Not, a), env, elem).val == Some(Value.Bool(Falsy(x)))
  {
    FalsyExactly(x);
    FalsyExactly(y);
    hide Falsy;
    assert ApplyBinary(And, x, y) == Some(Value.Bool(x.Truthy() && y.Truthy()));
    assert ApplyBinary(Or, x, y) == Some(Value.Bool(x.Truthy() || y.Truthy()));
    assert ApplyUnary(Not, x) == Some(Value.Bool(!x.Truthy()));
    hide ApplyBinary, ApplyUnary;
  }

  // ---------- pipeline steps ----------

  /** What a step computes for one element: a lambda binds it, and any expression sees it as the implicit one. */
  function Applied(e: Expr, env: Env, item: Value): Option<Value> {
    hide *;
    if e.Lambda? then Eval(e.body, Insert(env, e.param, item), Some(item)).val else Eval(e, env, Some(item)).val
  }

  predicate AppliedAll(e: Expr, env: Env, items: seq<Value>, vs: seq<Value>) {
    hide *;
    |vs| == |items| && forall i | 0 <= i < |items| :: Applied(e, env, items[i]) == Some(vs[i])
  }

  /** `kept` is what stands in `items` at the places `at`, in order. */
  predicate At(items: seq<Value>, at: seq<nat>, kept: seq<Value>) {
    hide *;
    && |at| == |kept| && (forall i: nat, j: nat | i < j < |at| :: at[i] < at[j])
    && forall i | 0 <= i < |at| :: at[i] < |items| && kept[i] == items[at[i]]
  }

  lemma {:induction false} EachApplied(e: Expr, env: Env, items: seq<Value>, vs: seq<Value>)
    requires hide *; AppliedAll(e, env, items, vs)
    ensures ApplyEach([e], env, items).val == Some(vs)
    decreases |items|
  {
    hide Eval;
    if items != [] {
      forall i | 0 <= i < |items| - 1 ensures items[1..][i] == items[i + 1] && vs[1..][i] == vs[i + 1] {}
      EachApplied(e, env, items[1..], vs[1..]);
      assert vs == [vs[0]] + vs[1..];
    }
  }

  /** The places of the elements that are kept. */
  function Kept(flags: seq<Value>): (at: seq<nat>)
    ensures forall i: nat, j: nat | i < j < |at| :: at[i] < at[j]
    ensures forall i: nat :: i in at <==> i < |flags| && flags[i].Truthy()
  {
    hide *;
    if flags == [] then []
    else
      var k := |flags| - 1;
      var at := Kept(flags[..k]);
      assert forall i: nat | i < |at| :: at[i] in at;
      at + if flags[k].Truthy() then [k] else []
  }

  lemma {:induction false} KeepLast(items: seq<Value>, flags: seq<Value>)
    requires hide *; |flags| == |items| && items != []
    ensures var n := |items| - 1;
            Keep(items, flags) == Keep(items[..n], flags[..n]) + if flags[n].Truthy() then [items[n]] else []
  {
    if |items| > 1 {
      KeepLast(items[1..], flags[1..]);
      assert items[1..][..|items| - 2] == items[..|items| - 1][1..];
      assert flags[1..][..|items| - 2] == flags[..|items| - 1][1..];
    }
  }

  lemma AtLast(items: seq<Value>, at: seq<nat>, kept: seq<Value>, more: bool)
    requires hide *; items != [] && At(items[..|items| - 1], at, kept)
    ensures var n := |items| - 1;
            At(items, at + if more then [n] else [], kept + if more then [items[n]] else [])
  {
  }

  lemma {:induction false} KeepsThose(items: seq<Value>, flags: seq<Value>)
    requires hide *; |flags| == |items|
    ensures At(items, Kept(flags), Keep(items, flags))
  {
    if items != [] {
      var n := |items| - 1;
      KeepLast(items, flags);
      KeepsThose(items[..n], flags[..n]);
      AtLast(items, Kept(flags[..n]), Keep(items[..n], flags[..n]), flags[n].Truthy());
      hide Keep, At;
    }
  }

  /** `filter` keeps, in order, exactly the elements its test accepts; `map` gives what it computes for each. */
  lemma FilterAndMap(v: Value, e: Expr, env: Env, vs: seq<Value>) returns (at: seq<nat>, kept: seq<Value>)
    requires hide Eval, EvalCall, ApplyOp, ApplyPipeline, ApplyEach; AppliedAll(e, env, v.Items(), vs)
    ensures ApplyOp(v, MapOp(e), env).val == Some(Value.Array(vs))
    ensures ApplyOp(v, Filter(e), env).val == Some(Value.Array(kept)) && At(v.Items(), at, kept)
    ensures forall i: nat | i < |v.Items()| :: i in at <==> !Falsy(vs[i])
  {
    hide Eval;
    EachApplied(e, env, v.Items(), vs);
    kept := Keep(v.Items(), vs);
    at := Kept(vs);
    KeepsThose(v.Items(), vs);
    forall i: nat | i < |vs| ensures vs[i].Truthy() <==> !Falsy(vs[i]) { FalsyExactly(vs[i]); }
  }

  /** `limit` and `skip` part the elements at the count, none of them for a negative one; `reverse` turns them
      round; `count` counts them. */
  lemma Slices(v: Value, e: Expr, env: Env, n: int)
    requires hide *; Eval(e, env, None).val == Some(Value.Int(n))
    ensures var items := v.Items();
            var k := if n < 0 then 0 else if n < |items| then n else |items|;
            && ApplyOp(v, Limit(e), env).val == Some(Value.Array(items[..k]))
            && ApplyOp(v, Skip(e), env).val == Some(Value.Array(items[k..]))
            && ApplyOp(v, Reverse, env).val
               == Some(Value.Array(seq(|items|, i requires 0 <= i < |items| => items[|items| - 1 - i])))
            && ApplyOp(v, Count, env).val == Some(Value.Int(|items|))
  {
    hide Eval, Take, Reversed;
    ReversedIs(v.Items());
    TakeIs(v.Items(), n);
    var items := v.Items();
    var taken := Take(items, n);
    assert ApplyOp(v, Limit(e), env).val == Some(Value.Array(taken));
    assert ApplyOp(v, Skip(e), env).val == Some(Value.Array(items[|taken|..]));
  }

  lemma TakeIs(items: seq<Value>, n: int)
    ensures hide *; Take(items, n) == items[..if n < 0 then 0 else if n < |items| then n else |items|]
  {
  }

  lemma {:induction false} ReversedIs(items: seq<Value>)
    ensures hide *; Reversed(items) == seq(|items|, i requires 0 <= i < |items| => items[|items| - 1 - i])
  {
    if items != [] { ReversedIs(items[1..]); }
  }

  /** What `unique` and `sum` look at: each element, or what the key computes for it. */
  predicate KeysFor(key: Option<Expr>, env: Env, items: seq<Value>, keys: seq<Value>) {
    hide *;
    if key.None? then keys == items
    else |keys| == |items| && forall i | 0 <= i < |items| :: Eval(key.value, env, Some(items[i])).val == Some(keys[i])
  }

  lemma {:induction false} KeysAre(key: Option<Expr>, env: Env, items: seq<Value>, keys: seq<Value>)
    requires hide *; KeysFor(key, env, items, keys)
    ensures KeysOf(key, env, items).val == Some(keys)
  {
    hide Eval;
    if key.Some? && items != [] {
      forall i | 0 <= i < |items| - 1 ensures items[1..][i] == items[i + 1] && keys[1..][i] == keys[i + 1] {}
      KeysAre(key, env, items[1..], keys[1..]);
      assert keys == [keys[0]] + keys[1..];
    }
  }

  predicate IsFresh(keys: seq<Value>, i: nat) { i < |keys| && keys[i] !in keys[..i] }

  /** The places of the keys that did not come before. */
  function Fresh(keys: seq<Value>, k: nat): (at: seq<nat>)
    requires k <= |keys|
    ensures forall i: nat, j: nat | i < j < |at| :: at[i] < at[j]
    ensures forall i: nat :: i in at <==> i < k && IsFresh(keys, i)
  {
    hide *;
    if k == 0 then []
    else
      var at := Fresh(keys, k - 1);
      assert forall i: nat | i < |at| :: at[i] in at;
      at + if IsFresh(keys, k - 1) then [k - 1] else []
  }

  lemma {:induction false} FirstLast(items: seq<Value>, keys: seq<Value>, seen: seq<Value>)
    requires hide *; |keys| == |items| && items != []
    ensures var n := |items| - 1;
            FirstOfEach(items, keys, seen)
            == FirstOfEach(items[..n], keys[..n], seen)
               + if keys[n] in seen || keys[n] in keys[..n] then [] else [items[n]]
  {
    if |items| > 1 {
      var n := |items| - 1;
      FirstLast(items[1..], keys[1..], if keys[0] in seen then seen else seen + [keys[0]]);
      assert items[1..][..n - 1] == items[..n][1..] && keys[1..][..n - 1] == keys[..n][1..];
      assert keys[..n] == [keys[0]] + keys[1..][..n - 1];
    }
  }

  lemma {:induction false} FirstOnes(items: seq<Value>, keys: seq<Value>, k: nat)
    requires hide *; k <= |keys| == |items|
    ensures At(items[..k], Fresh(keys, k), FirstOfEach(items[..k], keys[..k], []))
  {
    if k > 0 {
      var n := k - 1;
      assert items[..k][..n] == items[..n] && keys[..k][..n] == keys[..n];
      FirstLast(items[..k], keys[..k], []);
      FirstOnes(items, keys, n);
      AtLast(items[..k], Fresh(keys, n), FirstOfEach(items[..n], keys[..n], []), IsFresh(keys, n));
      hide FirstOfEach, At;
    }
  }

  function Total(ns: seq<Value>): int {
    hide *;
    if ns == [] then 0 else Total(ns[..|ns| - 1]) + if ns[|ns| - 1].Int? then ns[|ns| - 1].n else 0
  }

  lemma {:induction false} SumIsTotal(ns: seq<Value>)
    ensures hide *; SumInts(ns) == Total(ns)
  {
    if |ns| > 1 {
      SumIsTotal(ns[1..]);
      SumIsTotal(ns[..|ns| - 1]);
      SumIsTotal(ns[1..][..|ns| - 2]);
      assert ns[1..][..|ns| - 2] == ns[..|ns| - 1][1..];
    }
  }

  /** `unique` keeps the first element of every key; `sum` adds integers and takes nothing else. */
  lemma UniqueAndSum(v: Value, key: Option<Expr>, env: Env, keys: seq<Value>) returns (at: seq<nat>, kept: seq<Value>)
    requires hide *; KeysFor(key, env, v.Items(), keys)
    ensures ApplyOp(v, Unique(key), env).val == Some(Value.Array(kept)) && At(v.Items(), at, kept)
    ensures forall i: nat | i < |keys| :: i in at <==> IsFresh(keys, i)
    ensures ApplyOp(v, Sum(key), env).val
         == if forall k | k in keys :: k.Int? then Some(Value.Int(Total(keys))) else None
  {
    hide Eval, KeysOf, FirstOfEach, SumInts, Total, IsFresh, Fresh, At;
    KeysAre(key, env, v.Items(), keys);
    kept := FirstOfEach(v.Items(), keys, []);
    at := Fresh(keys, |keys|);
    FirstOnes(v.Items(), keys, |keys|);
    assert v.Items()[..|keys|] == v.Items() && keys[..|keys|] == keys;
    hide At;
    SumIsTotal(keys);
  }

  function Parts(items: seq<Value>): seq<Value> {
    hide *;
    if items == [] then []
    else
      var last := items[|items| - 1];
      Parts(items[..|items| - 1]) + if last.Array? then last.items else [last]
  }

  lemma {:induction false} FlattenedIsParts(items: seq<Value>)
    ensures hide *; Flattened(items) == Parts(items)
  {
    if |items| > 1 {
      FlattenedIsParts(items[1..]);
      FlattenedIsParts(items[..|items| - 1]);
      FlattenedIsParts(items[1..][..|items| - 2]);
      assert items[1..][..|items| - 2] == items[..|items| - 1][1..];
    }
  }

  /** `flatten` replaces every array by its elements, one level deep. */
  lemma Flattens(v: Value, env: Env)
    ensures hide *; ApplyOp(v, Flatten, env).val == Some(Value.Array(Parts(v.Items())))
  {
    FlattenedIsParts(v.Items());
  }
}
