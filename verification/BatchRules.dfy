/** The `batch:` setting of an endpoint, which is read twice: lowering takes a rule from it only when it
    names a query parameter and a key field; the warnings count an endpoint as batched as soon as it has
    one.  Nothing checks that a setting is complete. */
module BatchRules {
  import opened Wrappers
  import opened Ast
  import opened Lowering

  datatype Setting = Setting(key: string, values: seq<Expr>)

  datatype Endpoint = Endpoint(name: string, settings: seq<Setting>)

  // ---------- what lowering reads ----------

  /** A name given as `.id` or as text; interpolations in the text are left out. */
  function StrAtom(e: Expr): Option<string> {
    match e
    case ImplicitField(field) => Some(field)
    case Str(parts) => Some(LitText(parts))
    case _ => None
  }

  function LitText(parts: seq<StrPart>): string {
    if parts == [] then ""
    else LitText(parts[..|parts| - 1]) + if parts[|parts| - 1].Lit? then parts[|parts| - 1].text else ""
  }

  predicate Gives(v: Expr, name: string) {
    v.Call? && v.callee == Ident(name) && v.args != []
  }

  /** The argument of the last `name(..)` among the values, as a name. */
  function Given(values: seq<Expr>, name: string): Option<string> {
    if values == [] then None
    else if Gives(values[|values| - 1], name) then StrAtom(values[|values| - 1].args[0])
    else Given(values[..|values| - 1], name)
  }

  predicate HasBatch(e: Endpoint) {
    exists s :: s in e.settings && s.key == "batch"
  }

  /** The values of the first `batch` setting. */
  function BatchValues(settings: seq<Setting>): Option<seq<Expr>> {
    if settings == [] then None
    else if settings[0].key == "batch" then Some(settings[0].values)
    else BatchValues(settings[1..])
  }

  /** The rule of an endpoint, if its setting is complete. */
  function RuleOf(e: Endpoint): Option<BatchRule> {
    hide *;
    var values := BatchValues(e.settings);
    if values.None? then None
    else
      var queryParam, keyField := Given(values.value, "param"), Given(values.value, "key");
      if queryParam.Some? && keyField.Some? then Some(BatchRule(queryParam.value, keyField.value)) else None
  }

  /** The rules that lowering fills in; of endpoints with one name, the last complete one counts. */
  function Rules(es: seq<Endpoint>): map<string, BatchRule> {
    hide *;
    if es == [] then map[]
    else
      var rules, e := Rules(es[..|es| - 1]), es[|es| - 1];
      if RuleOf(e).Some? then rules[e.name := RuleOf(e).value] else rules
  }

  /** The rules as lowering reads them. */
  method EndpointBatchRules(es: seq<Endpoint>) returns (rules: map<string, BatchRule>)
    ensures rules == Rules(es)
  {
    hide Given, BatchValues;
    rules := map[];
    for i := 0 to |es|
      invariant rules == Rules(es[..i])
    {
      assert es[..i + 1] == es[..i] + [es[i]];
      var values := BatchValues(es[i].settings);
      if values.Some? {
        var rule := ReadRule(values.value);
        if rule.Some? { rules := rules[es[i].name := rule.value]; }
      }
    }
    assert es[..|es|] == es;
  }

  /** One pass over the values of a setting. */
  method ReadRule(values: seq<Expr>) returns (rule: Option<BatchRule>)
    ensures rule == (var queryParam, keyField := Given(values, "param"), Given(values, "key");
                     if queryParam.Some? && keyField.Some? then Some(BatchRule(queryParam.value, keyField.value))
                     else None)
  {
    hide StrAtom;
    var queryParam: Option<string>, keyField: Option<string> := None, None;
    for i := 0 to |values|
      invariant queryParam == Given(values[..i], "param") && keyField == Given(values[..i], "key")
    {
      var v := values[i];
      assert values[..i + 1] == values[..i] + [v];
      if v.Call? && v.callee.Ident? && v.args != [] {
        var name := Atom(v.args[0]);
        if v.callee.name == "param" {
          queryParam := name;
        } else if v.callee.name == "key" {
          keyField := name;
        }
      }
    }
    assert values[..|values|] == values;
    rule := if queryParam.Some? && keyField.Some? then Some(BatchRule(queryParam.value, keyField.value)) else None;
  }

  method Atom(e: Expr) returns (name: Option<string>)
    ensures name == StrAtom(e)
  {
    match e
    case ImplicitField(field) => name := Some(field);
    case Str(parts) =>
      var text := "";
      for i := 0 to |parts|
        invariant text == LitText(parts[..i])
      {
        assert parts[..i + 1] == parts[..i] + [parts[i]];
        if parts[i].Lit? { text := text + parts[i].text; }
      }
      assert parts[..|parts|] == parts;
      name := Some(text);
    case _ => name := None;
  }

  // ---------- what the warnings read ----------

  /** The endpoints with a `batch` setting, whatever is in it. */
  function Batched(es: seq<Endpoint>): set<string> {
    if es == [] then {}
    else Batched(es[..|es| - 1]) + if HasBatch(es[|es| - 1]) then {es[|es| - 1].name} else {}
  }

  method EndpointsWithBatch(es: seq<Endpoint>) returns (names: set<string>)
    ensures names == Batched(es)
  {
    names := {};
    for i := 0 to |es|
      invariant names == Batched(es[..i])
    {
      assert es[..i + 1] == es[..i] + [es[i]];
      if exists s :: s in es[i].settings && s.key == "batch" { names := names + {es[i].name}; }
    }
    assert es[..|es|] == es;
  }

  // ---------- the two readings against each other ----------

  /** An endpoint of that name has a complete rule. */
  predicate Ruled(es: seq<Endpoint>, name: string) {
    exists e :: e in es && e.name == name && RuleOf(e).Some?
  }

  lemma {:induction false} BatchFound(settings: seq<Setting>)
    ensures BatchValues(settings).Some? <==> exists s :: s in settings && s.key == "batch"
  {
    if settings != [] { BatchFound(settings[1..]); }
  }

  /** A fetch gets a batch rule exactly when some endpoint of that name has a complete setting. */
  lemma {:induction false} RulesExactly(es: seq<Endpoint>, name: string)
    ensures name in Rules(es) <==> Ruled(es, name)
  {
    if es != [] {
      var init, last := es[..|es| - 1], es[|es| - 1];
      RulesExactly(init, name);
      assert es == init + [last];
      if Ruled(init, name) {
        var e :| e in init && e.name == name && RuleOf(e).Some?;
        assert e in es;
      }
      if last.name == name && RuleOf(last).Some? { assert last in es; }
    }
  }

  /** The warnings count as batched exactly the endpoints with a `batch` setting. */
  lemma {:induction false} BatchedExactly(es: seq<Endpoint>, name: string)
    ensures name in Batched(es) <==> exists e :: e in es && e.name == name && HasBatch(e)
  {
    if es != [] {
      var init, last := es[..|es| - 1], es[|es| - 1];
      BatchedExactly(init, name);
      assert es == init + [last];
      if name in Batched(init) {
        var e :| e in init && e.name == name && HasBatch(e);
        assert e in es;
      }
    }
  }

  /** What lowering batches the warnings count as batched, but not the other way round. */
  lemma RulesAreBatched(es: seq<Endpoint>)
    ensures Rules(es).Keys <= Batched(es)
  {
    forall name | name in Rules(es) ensures name in Batched(es) {
      RulesExactly(es, name);
      var e :| e in es && e.name == name && RuleOf(e).Some?;
      BatchFound(e.settings);
      BatchedExactly(es, name);
    }
  }
}
