/** Information-flow labels: the most sensitive label that a type carries, through records that may
    refer to each other and to themselves. */
module Labels {
  import opened Wrappers

  datatype Label = Public | Pii | Secret

  datatype ErrDomain = Open | Variants(variants: seq<string>)

  datatype Type =
    | Unknown
    | IntType
    | FloatType
    | BoolType
    | StringType
    | NullType
    | DurationType
    | Semantic(name: string)
    | Record(name: string)
    | ArrayOf(element: Type)
    | OptionalOf(element: Type)
    | ResultOf(ok: Type, domain: ErrDomain)

  datatype RecordField = RecordField(name: string, ty: Type)

  type TypeTable = map<string, seq<RecordField>>

  function Rank(l: Label): nat {
    match l case Public => 0 case Pii => 1 case Secret => 2
  }

  function IntrinsicLabel(ty: Type): Label {
    if ty == Semantic("Secret") then Secret else if ty == Semantic("PII") then Pii else Public
  }

  /** A label and, unless the value itself carries it, the fields that lead to it. */
  datatype Finding = Finding(worst: Label, path: Option<seq<string>>)

  const NONE_FOUND := Finding(Public, None)

  function Candidate(f: RecordField, nested: Finding): Finding {
    var direct := IntrinsicLabel(f.ty);
    if Rank(direct) >= Rank(nested.worst) then Finding(direct, Some([f.name]))
    else Finding(nested.worst, Some(if nested.path.Some? then [f.name] + nested.path.value else [f.name]))
  }

  function Worse(a: Finding, b: Finding): Finding {
    if Rank(b.worst) > Rank(a.worst) then b else a
  }

  /** The worst label found from `ty` when the records in `visited` are being looked into already. */
  function Worst(table: TypeTable, ty: Type, visited: set<string>): Finding
    decreases table.Keys - visited, ty, 0
  {
    match ty
    case Record(name) =>
      if name in visited || name !in table then NONE_FOUND
      else WorstField(table, table[name], |table[name]|, visited + {name})
    case ArrayOf(t) => Worst(table, t, visited)
    case OptionalOf(t) => Worst(table, t, visited)
    case other => Finding(IntrinsicLabel(other), None)
  }

  /** The worst among the first `k` fields. */
  function WorstField(table: TypeTable, fields: seq<RecordField>, k: nat, visited: set<string>): Finding
    requires k <= |fields|
    decreases table.Keys - visited, fields, k
  {
    if k == 0 then NONE_FOUND
    else
      Worse(WorstField(table, fields, k - 1, visited),
            Candidate(fields[k - 1], Worst(table, fields[k - 1].ty, visited)))
  }

  /** The search as the type check runs it, with one set of visited records that it adds to and takes
      from as it goes. */
  class Search {
    const table: TypeTable
    var visited: set<string>

    constructor (table: TypeTable)
      ensures this.table == table && visited == {}
    {
      this.table := table;
      visited := {};
    }

    method WorstLabel(ty: Type) returns (worst: Finding)
      modifies this
      ensures visited == old(visited)
      ensures worst == Worst(table, ty, visited)
      decreases table.Keys - visited, ty
    {
      match ty {
        case Record(name) =>
          if name in visited { return NONE_FOUND; }
          ghost var before := visited;
          visited := visited + {name};
          worst := NONE_FOUND;
          if name in table {
            var fields := table[name];
            for i := 0 to |fields|
              invariant visited == before + {name}
              invariant worst == WorstField(table, fields, i, visited)
            {
              var f := fields[i];
              var direct := IntrinsicLabel(f.ty);
              var nested := WorstLabel(f.ty);
              var candidate := if Rank(direct) >= Rank(nested.worst) then Finding(direct, Some([f.name]))
                               else Finding(nested.worst,
                                   Some(if nested.path.Some? then [f.name] + nested.path.value else [f.name]));
              if Rank(candidate.worst) > Rank(worst.worst) { worst := candidate; }
            }
          }
          visited := visited - {name};
          assert visited == before;
        case ArrayOf(t) => worst := WorstLabel(t);
        case OptionalOf(t) => worst := WorstLabel(t);
        case other => worst := Finding(IntrinsicLabel(other), None);
      }
    }
  }

  // ---------- what the search finds ----------

  /** The type inside any arrays and optionals. */
  function Peel(ty: Type): Type {
    match ty case ArrayOf(t) => Peel(t) case OptionalOf(t) => Peel(t) case other => other
  }

  /** The fields `path` lead from `ty` to `target`. */
  predicate Leads(table: TypeTable, ty: Type, path: seq<string>, target: Type)
    decreases |path|
  {
    if path == [] then Peel(ty) == target
    else
      var r := Peel(ty);
      r.Record? && r.name in table
      && exists f :: f in table[r.name] && f.name == path[0] && Leads(table, f.ty, path[1..], target)
  }

  lemma {:induction false} WorstPeels(table: TypeTable, ty: Type, visited: set<string>)
    ensures Worst(table, ty, visited) == Worst(table, Peel(ty), visited)
    decreases ty
  {
    match ty {
      case ArrayOf(t) => WorstPeels(table, t, visited);
      case OptionalOf(t) => WorstPeels(table, t, visited);
      case _ =>
    }
  }

  lemma {:induction false} LeadsPeels(table: TypeTable, ty: Type, path: seq<string>, target: Type)
    ensures Leads(table, ty, path, target) == Leads(table, Peel(ty), path, target)
    decreases ty
  {
    match ty {
      case ArrayOf(t) => LeadsPeels(table, t, path, target);
      case OptionalOf(t) => LeadsPeels(table, t, path, target);
      case _ =>
    }
  }

  function PathOf(f: Finding): seq<string> { if f.path.Some? then f.path.value else [] }

  /** What is found is really there: the path leads to a type that carries the label. */
  lemma {:induction false} FoundIsReal(table: TypeTable, ty: Type, visited: set<string>) returns (target: Type)
    requires Worst(table, ty, visited).worst != Public
    ensures Leads(table, ty, PathOf(Worst(table, ty, visited)), target)
            && IntrinsicLabel(target) == Worst(table, ty, visited).worst
    ensures Worst(table, ty, visited).path.None? <==> !Peel(ty).Record?
    decreases table.Keys - visited, ty, 0
  {
    WorstPeels(table, ty, visited);
    match ty {
      case ArrayOf(t) => target := FoundIsReal(table, t, visited); LeadsPeels(table, ty,
          PathOf(Worst(table, ty, visited)), target); LeadsPeels(table, t, PathOf(Worst(table, ty, visited)), target);
      case OptionalOf(t) => target := FoundIsReal(table, t, visited); LeadsPeels(table, ty,
          PathOf(Worst(table, ty, visited)), target); LeadsPeels(table, t, PathOf(Worst(table, ty, visited)), target);
      case Record(name) => target := FieldIsReal(table, name, |table[name]|, visited + {name});
      case _ => target := ty;
    }
  }

  lemma {:induction false} FieldIsReal(table: TypeTable, name: string, k: nat,
      visited: set<string>) returns (target: Type)
    requires hide *; name in table && k <= |table[name]| && WorstField(table, table[name], k, visited).worst != Public
    ensures var w := WorstField(table, table[name], k, visited);
            w.path.Some? && Leads(table, Record(name), w.path.value, target) && IntrinsicLabel(target) == w.worst
    decreases table.Keys - visited, table[name], k
  {
    var f := table[name][k - 1];
    var c := Candidate(f, Worst(table, f.ty, visited));
    if WorstField(table, table[name], k, visited) == c {
      var nested := Worst(table, f.ty, visited);
      if Rank(IntrinsicLabel(f.ty)) >= Rank(nested.worst) {
        target := f.ty;
        assert [f.name][1..] == [];
        assert Leads(table, f.ty, [], target);
      } else {
        target := FoundIsReal(table, f.ty, visited);
        var path := [f.name] + PathOf(nested);
        assert path[1..] == PathOf(nested);
        assert [f.name] + [] == [f.name];
        assert c.path == Some(path);
      }
      assert Leads(table, Record(name), c.path.value, target);
    } else {
      target := FieldIsReal(table, name, k - 1, visited);
    }
  }

  // ---------- nothing worse is missed ----------

  /** The records looked into from `ty`. */
  ghost function Visit(table: TypeTable, ty: Type, visited: set<string>): set<string>
    decreases table.Keys - visited, ty, 0
  {
    match ty
    case Record(name) =>
      if name in visited || name !in table then {}
      else {name} + VisitFields(table, table[name], |table[name]|, visited + {name})
    case ArrayOf(t) => Visit(table, t, visited)
    case OptionalOf(t) => Visit(table, t, visited)
    case _ => {}
  }

  ghost function VisitFields(table: TypeTable, fields: seq<RecordField>, k: nat, visited: set<string>): set<string>
    requires k <= |fields|
    decreases table.Keys - visited, fields, k
  {
    if k == 0 then {}
    else VisitFields(table, fields, k - 1, visited) + Visit(table, fields[k - 1].ty, visited)
  }

  /** A field of type `ty` has no worse label than `most` itself, and leads to a record in `s`. */
  ghost predicate Handled(table: TypeTable, ty: Type, s: set<string>, most: nat) {
    Rank(IntrinsicLabel(Peel(ty))) <= most && (Peel(ty).Record? && Peel(ty).name in table ==> Peel(ty).name in s)
  }

  ghost predicate AllHandled(table: TypeTable, names: set<string>, s: set<string>, most: nat) {
    forall name, f | name in names && name in table && f in table[name] :: Handled(table, f.ty, s, most)
  }

  /** The walk accounts for every field of every record it looks into; only records on the stack are
      left to those who put them there. */
  lemma {:induction false} VisitHandles(table: TypeTable, ty: Type, visited: set<string>)
    ensures Handled(table, ty, Visit(table, ty, visited) + visited, Rank(Worst(table, ty, visited).worst))
    ensures AllHandled(table, Visit(table, ty, visited), Visit(table, ty, visited) + visited,
            Rank(Worst(table, ty, visited).worst))
    decreases table.Keys - visited, ty, 0
  {
    match ty {
      case ArrayOf(t) => VisitHandles(table, t, visited);
      case OptionalOf(t) => VisitHandles(table, t, visited);
      case Record(name) =>
        if name !in visited && name in table {
          FieldsHandled(table, table[name], |table[name]|, visited + {name});
          assert Visit(table, ty, visited) + visited == VisitFields(table, table[name], |table[name]|,
              visited + {name}) + (visited + {name});
        }
      case _ =>
    }
  }

  lemma {:induction false} FieldsHandled(table: TypeTable, fields: seq<RecordField>, k: nat, visited: set<string>)
    requires hide *; k <= |fields|
    ensures var s, most := VisitFields(table, fields, k, visited), Rank(WorstField(table, fields, k, visited).worst);
            && (forall i | 0 <= i < k :: Handled(table, fields[i].ty, s + visited, most))
            && AllHandled(table, s, s + visited, most)
    decreases table.Keys - visited, fields, k
  {
    if k > 0 {
      FieldsHandled(table, fields, k - 1, visited);
      VisitHandles(table, fields[k - 1].ty, visited);
      CandidateAtLeast(fields[k - 1], Worst(table, fields[k - 1].ty, visited));
    }
  }

  lemma CandidateAtLeast(f: RecordField, nested: Finding)
    ensures Rank(Candidate(f, nested).worst) >= Rank(nested.worst)
  {
  }

  lemma {:induction false} NothingWorse(table: TypeTable, ty: Type, path: seq<string>, target: Type, s: set<string>,
      most: nat)
    requires Handled(table, ty, s, most) && AllHandled(table, s, s, most) && Leads(table, ty, path, target)
    ensures Rank(IntrinsicLabel(target)) <= most
    decreases |path|
  {
    if path != [] {
      var r := Peel(ty);
      var f :| f in table[r.name] && f.name == path[0] && Leads(table, f.ty, path[1..], target);
      NothingWorse(table, f.ty, path[1..], target, s, most);
    }
  }

  /** On any table of records, cyclic ones included, the search returns exactly the worst label that
      can be reached through fields, arrays and optionals, and a path that leads to it. */
  lemma WorstIsExact(table: TypeTable, ty: Type)
    ensures forall path, target | Leads(table, ty, path, target) ::
            Rank(IntrinsicLabel(target)) <= Rank(Worst(table, ty, {}).worst)
    ensures Worst(table, ty, {}).worst != Public ==>
              exists target :: Leads(table, ty, PathOf(Worst(table, ty, {})), target)
                  && IntrinsicLabel(target) == Worst(table, ty, {}).worst
  {
    hide *;
    var s, most := Visit(table, ty, {}), Rank(Worst(table, ty, {}).worst);
    VisitHandles(table, ty, {});
    assert s + {} == s;
    forall path, target | Leads(table, ty, path, target) ensures Rank(IntrinsicLabel(target)) <= most {
      NothingWorse(table, ty, path, target, s, most);
    }
    if Worst(table, ty, {}).worst != Public { var target := FoundIsReal(table, ty, {}); }
  }

  /** Fields lead from `ty` to a value of the semantic type `name`. */
  ghost predicate Reaches(table: TypeTable, ty: Type, name: string) {
    exists path :: Leads(table, ty, path, Semantic(name))
  }

  /** A type is secret exactly when fields lead to a `Secret`, and personal exactly when they lead to a `PII` and to
      no `Secret`. */
  lemma LabelExactly(table: TypeTable, ty: Type)
    ensures Worst(table, ty, {}).worst == Secret <==> Reaches(table, ty, "Secret")
    ensures Worst(table, ty, {}).worst == Pii <==> Reaches(table, ty, "PII") && !Reaches(table, ty, "Secret")
  {
    hide Worst, Leads, PathOf;
    WorstIsExact(table, ty);
    assert IntrinsicLabel(Semantic("Secret")) == Secret && IntrinsicLabel(Semantic("PII")) == Pii;
    var w := Worst(table, ty, {}).worst;
    if w != Public {
      var target :| Leads(table, ty, PathOf(Worst(table, ty, {})), target) && IntrinsicLabel(target) == w;
      assert target == Semantic(if w == Secret then "Secret" else "PII");
    }
  }
}
