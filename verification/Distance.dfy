/** Edit distance between names, and the suggestion for a mistyped one. */
module Distance {
  import opened Wrappers

  /** Ways of turning one text into another, a step at a time; a transposition swaps two neighbours,
      and no part is edited twice. */
  datatype Edit = Keep | Substitute | Insert | Delete | Transpose

  /** The script turns the first `i` characters of `a` into the first `j` of `b`. */
  predicate Aligns(script: seq<Edit>, a: string, b: string, i: nat, j: nat)
    requires i <= |a| && j <= |b|
    decreases |script|
  {
    if script == [] then i == 0 && j == 0
    else
      var rest := script[..|script| - 1];
      match script[|script| - 1]
      case Keep => i > 0 && j > 0 && a[i - 1] == b[j - 1] && Aligns(rest, a, b, i - 1, j - 1)
      case Substitute => i > 0 && j > 0 && Aligns(rest, a, b, i - 1, j - 1)
      case Insert => j > 0 && Aligns(rest, a, b, i, j - 1)
      case Delete => i > 0 && Aligns(rest, a, b, i - 1, j)
      case Transpose =>
        i > 1 && j > 1 && a[i - 1] == b[j - 2] && a[i - 2] == b[j - 1] && Aligns(rest, a, b, i - 2, j - 2)
  }

  /** How many edits a script makes; keeping a character is free. */
  function Price(script: seq<Edit>): nat {
    if script == [] then 0
    else Price(script[..|script| - 1]) + if script[|script| - 1].Keep? then 0 else 1
  }

  function Min(a: nat, b: nat): nat { if b < a then b else a }

  /** `a` and `b` end, at `i` and `j`, in the same two characters the other way round. */
  predicate Swapped(a: string, b: string, i: nat, j: nat)
    requires i <= |a| && j <= |b|
  {
    i > 1 && j > 1 && a[i - 1] == b[j - 2] && a[i - 2] == b[j - 1]
  }

  /** A cell from its neighbours above, to the left, on the diagonal and two back on the diagonal. */
  function Combine(same: bool, swapped: bool, up: nat, left: nat, diagonal: nat, back: nat): nat {
    var best := Min(Min(up + 1, left + 1), diagonal + if same then 0 else 1);
    if swapped then Min(best, back + 1) else best
  }

  function Cell(a: string, b: string, i: nat, j: nat): nat
    requires i <= |a| && j <= |b|
    decreases i + j
  {
    if i == 0 then j
    else if j == 0 then i
    else
      Combine(a[i - 1] == b[j - 1], Swapped(a, b, i, j), Cell(a, b, i - 1, j), Cell(a, b, i, j - 1),
              Cell(a, b, i - 1, j - 1), if i > 1 && j > 1 then Cell(a, b, i - 2, j - 2) else 0)
  }

  lemma CellIs(a: string, b: string, i: nat, j: nat)
    requires i <= |a| && j <= |b|
    ensures i == 0 ==> Cell(a, b, i, j) == j
    ensures j == 0 ==> Cell(a, b, i, j) == i
    ensures i > 0 && j > 0 ==>
              Cell(a, b, i, j) ==
              Combine(a[i - 1] == b[j - 1], Swapped(a, b, i, j), Cell(a, b, i - 1, j), Cell(a, b, i, j - 1),
                      Cell(a, b, i - 1, j - 1), if i > 1 && j > 1 then Cell(a, b, i - 2, j - 2) else 0)
  {
  }

  function Dist(a: string, b: string): nat {
    Cell(a, b, |a|, |b|)
  }

  /** Row `i` of the table is filled up to column `j`. */
  ghost predicate Row(d: array2<nat>, a: string, b: string, i: nat, j: nat)
    requires i <= |a| && j <= |b| + 1 && d.Length0 == |a| + 1 && d.Length1 == |b| + 1
    reads d
  {
    forall y: nat | y < j :: d[i, y] == Cell(a, b, i, y)
  }

  ghost predicate FullRow(d: array2<nat>, a: string, b: string, i: nat)
    requires i <= |a| && d.Length0 == |a| + 1 && d.Length1 == |b| + 1
    reads d
  {
    Row(d, a, b, i, |b| + 1)
  }

  /** The distance, by filling the table row by row. */
  method Levenshtein(a: string, b: string) returns (r: nat)
    ensures r == Dist(a, b)
  {
    hide Cell;
    var n, m := |a|, |b|;
    var d := new nat[n + 1, m + 1]((i, j) => 0);
    for i := 0 to n + 1
      invariant forall x: nat | x < i :: d[x, 0] == x
    {
      d[i, 0] := i;
    }
    for j := 0 to m + 1
      invariant forall x: nat | x <= n :: d[x, 0] == x
      invariant Row(d, a, b, 0, j)
    {
      CellIs(a, b, 0, j);
      d[0, j] := j;
    }
    for i := 1 to n + 1
      invariant forall x: nat | x <= n :: d[x, 0] == x
      invariant forall x: nat | x < i :: FullRow(d, a, b, x)
    {
      CellIs(a, b, i, 0);
      for j := 1 to m + 1
        invariant forall x: nat | x <= n :: d[x, 0] == x
        invariant forall x: nat | x < i :: FullRow(d, a, b, x)
        invariant Row(d, a, b, i, j)
      {
        assert FullRow(d, a, b, i - 1) && (i > 1 ==> FullRow(d, a, b, i - 2));
        CellIs(a, b, i, j);
        var cost := if a[i - 1] == b[j - 1] then 0 else 1;
        var best := Min(Min(d[i - 1, j] + 1, d[i, j - 1] + 1), d[i - 1, j - 1] + cost);
        if i > 1 && j > 1 && a[i - 1] == b[j - 2] && a[i - 2] == b[j - 1] {
          best := Min(best, d[i - 2, j - 2] + 1);
        }
        FillCell(d, a, b, i, j, best);
      }
    }
    assert FullRow(d, a, b, n);
    r := d[n, m];
  }

  /** Writing a cell leaves the rows above and the rest of its row alone. */
  method FillCell(d: array2<nat>, ghost a: string, ghost b: string, i: nat, j: nat, best: nat)
    requires 0 < i <= |a| && 0 < j <= |b| && d.Length0 == |a| + 1 && d.Length1 == |b| + 1
    requires best == Cell(a, b, i, j) && Row(d, a, b, i, j)
    requires forall x: nat | x < i :: FullRow(d, a, b, x)
    modifies d
    ensures Row(d, a, b, i, j + 1)
    ensures forall x: nat | x < i :: FullRow(d, a, b, x)
    ensures forall x: nat | x <= |a| :: d[x, 0] == old(d[x, 0])
  {
    hide Cell;
    d[i, j] := best;
    forall x: nat | x < i ensures FullRow(d, a, b, x) { assert old(FullRow(d, a, b, x)); }
  }

  // ---------- the distance is the cheapest script ----------

  lemma {:induction false} NoScriptIsCheaper(script: seq<Edit>, a: string, b: string, i: nat, j: nat)
    requires i <= |a| && j <= |b| && Aligns(script, a, b, i, j)
    ensures Cell(a, b, i, j) <= Price(script)
    decreases |script|
  {
    hide Cell;
    CellIs(a, b, i, j);
    if script != [] {
      var rest := script[..|script| - 1];
      match script[|script| - 1] {
        case Keep => NoScriptIsCheaper(rest, a, b, i - 1, j - 1);
        case Substitute => NoScriptIsCheaper(rest, a, b, i - 1, j - 1);
        case Insert => NoScriptIsCheaper(rest, a, b, i, j - 1); CellIs(a, b, i, j - 1);
        case Delete => NoScriptIsCheaper(rest, a, b, i - 1, j); CellIs(a, b, i - 1, j);
        case Transpose => NoScriptIsCheaper(rest, a, b, i - 2, j - 2);
      }
    }
  }

  /** The last edit of a cheapest script. */
  function LastEdit(a: string, b: string, i: nat, j: nat): Edit
    requires i <= |a| && j <= |b| && (i > 0 || j > 0)
  {
    var best := Cell(a, b, i, j);
    if i > 0 && Cell(a, b, i - 1, j) + 1 == best then Delete
    else if j > 0 && Cell(a, b, i, j - 1) + 1 == best then Insert
    else if i == 0 || j == 0 then Keep
    else if Cell(a, b, i - 1, j - 1) + (if a[i - 1] == b[j - 1] then 0 else 1) == best
    then (if a[i - 1] == b[j - 1] then Keep else Substitute)
    else Transpose
  }

  /** The last edit ends a cheapest script. */
  lemma LastEditFits(a: string, b: string, i: nat, j: nat)
    requires i <= |a| && j <= |b| && (i > 0 || j > 0)
    ensures match LastEdit(a, b, i, j)
            case Delete => i > 0 && Cell(a, b, i, j) == Cell(a, b, i - 1, j) + 1
            case Insert => j > 0 && Cell(a, b, i, j) == Cell(a, b, i, j - 1) + 1
            case Keep => i > 0 && j > 0 && a[i - 1] == b[j - 1] && Cell(a, b, i, j) == Cell(a, b, i - 1, j - 1)
            case Substitute => i > 0 && j > 0 && Cell(a, b, i, j) == Cell(a, b, i - 1, j - 1) + 1
            case Transpose => i > 1 && j > 1 && a[i - 1] == b[j - 2] && a[i - 2] == b[j - 1]
                              && Cell(a, b, i, j) == Cell(a, b, i - 2, j - 2) + 1
  {
    hide Cell;
    CellIs(a, b, i, j);
    if i > 0 { CellIs(a, b, i - 1, j); }
    if j > 0 { CellIs(a, b, i, j - 1); }
  }

  lemma {:induction false} SomeScript(a: string, b: string, i: nat, j: nat) returns (script: seq<Edit>)
    requires i <= |a| && j <= |b|
    ensures Aligns(script, a, b, i, j) && Price(script) == Cell(a, b, i, j)
    decreases i + j
  {
    hide Cell, LastEdit;
    CellIs(a, b, i, j);
    if i == 0 && j == 0 {
      script := [];
    } else {
      var last := LastEdit(a, b, i, j);
      LastEditFits(a, b, i, j);
      var rest: seq<Edit>;
      match last {
        case Delete => rest := SomeScript(a, b, i - 1, j);
        case Insert => rest := SomeScript(a, b, i, j - 1);
        case Transpose => rest := SomeScript(a, b, i - 2, j - 2);
        case _ => rest := SomeScript(a, b, i - 1, j - 1);
      }
      script := rest + [last];
      assert script[..|script| - 1] == rest;
    }
  }

  /** The distance is the least number of edits over all scripts. */
  lemma DistanceIsMinimal(a: string, b: string)
    ensures forall script | Aligns(script, a, b, |a|, |b|) :: Dist(a, b) <= Price(script)
    ensures exists script :: Aligns(script, a, b, |a|, |b|) && Price(script) == Dist(a, b)
  {
    forall script | Aligns(script, a, b, |a|, |b|) ensures Dist(a, b) <= Price(script) {
      NoScriptIsCheaper(script, a, b, |a|, |b|);
    }
    var s := SomeScript(a, b, |a|, |b|);
  }

  // ---------- laws ----------

  lemma {:induction false} CellSymmetric(a: string, b: string, i: nat, j: nat)
    requires i <= |a| && j <= |b|
    ensures Cell(a, b, i, j) == Cell(b, a, j, i)
    decreases i + j
  {
    hide Cell;
    CellIs(a, b, i, j);
    CellIs(b, a, j, i);
    if i > 0 && j > 0 {
      CellSymmetric(a, b, i - 1, j);
      CellSymmetric(a, b, i, j - 1);
      CellSymmetric(a, b, i - 1, j - 1);
      if i > 1 && j > 1 { CellSymmetric(a, b, i - 2, j - 2); }
    }
  }

  lemma {:induction false} CellBounds(a: string, b: string, i: nat, j: nat)
    requires i <= |a| && j <= |b|
    ensures i <= Cell(a, b, i, j) + j && j <= Cell(a, b, i, j) + i
    ensures Cell(a, b, i, j) <= Max(i, j)
    decreases i + j
  {
    hide Cell;
    CellIs(a, b, i, j);
    if i > 0 && j > 0 {
      CellBounds(a, b, i - 1, j);
      CellBounds(a, b, i, j - 1);
      CellBounds(a, b, i - 1, j - 1);
      if i > 1 && j > 1 { CellBounds(a, b, i - 2, j - 2); }
    }
  }

  lemma {:induction false} CellZero(a: string, b: string, i: nat, j: nat)
    requires i <= |a| && j <= |b|
    ensures Cell(a, b, i, j) == 0 <==> a[..i] == b[..j]
    decreases i + j
  {
    if i > 0 && j > 0 {
      CellZero(a, b, i - 1, j - 1);
      assert a[..i] == a[..i - 1] + [a[i - 1]] && b[..j] == b[..j - 1] + [b[j - 1]];
      if a[..i] == b[..j] { assert a[i - 1] == a[..i][i - 1] == b[..j][j - 1]
          && a[..i - 1] == a[..i][..i - 1] == b[..j][..j - 1]; }
    }
  }

  /** Symmetric, zero exactly on equal texts, and between the difference of the lengths and the
      greater length. */
  lemma DistanceLaws(a: string, b: string)
    ensures Dist(a, b) == Dist(b, a)
    ensures Dist(a, b) == 0 <==> a == b
    ensures |a| <= Dist(a, b) + |b| && |b| <= Dist(a, b) + |a| && Dist(a, b) <= Max(|a|, |b|)
  {
    CellSymmetric(a, b, |a|, |b|);
    CellZero(a, b, |a|, |b|);
    CellBounds(a, b, |a|, |b|);
    assert a[..|a|] == a && b[..|b|] == b;
  }

  // ---------- suggestions ----------

  /** Lengths are measured in UTF-8 bytes, although distances are in characters. */
  function Utf8Len(s: string): nat {
    if s == [] then 0
    else
      var c := s[|s| - 1] as int;
      Utf8Len(s[..|s| - 1]) + if c < 0x80 then 1 else if c < 0x800 then 2 else if c < 0x10000 then 3 else 4
  }

  /** A third of the longer name, between one and three edits. */
  function Threshold(a: string, b: string): nat {
    Min(Max(Max(Utf8Len(a), Utf8Len(b)) / 3, 1), 3)
  }

  /** Candidate `k` is the first of the nearest. */
  predicate Nearest(name: string, candidates: seq<string>, k: nat) {
    k < |candidates|
    && (forall i | 0 <= i < |candidates| :: Dist(name, candidates[k]) <= Dist(name, candidates[i]))
    && (forall i | 0 <= i < k :: Dist(name, candidates[k]) < Dist(name, candidates[i]))
  }

  /** Suggest the first of the nearest candidates, if it is near enough, and nothing otherwise. */
  method DidYouMean(name: string, candidates: seq<string>) returns (r: Option<string>)
    ensures r.Some? ==> exists k: nat :: Nearest(name, candidates, k) && r.value == candidates[k]
                                    && Dist(name, candidates[k]) <= Threshold(name, candidates[k])
    ensures r.None? ==> forall k: nat | Nearest(name, candidates, k) ::
            Dist(name, candidates[k]) > Threshold(name, candidates[k])
  {
    hide Dist, Threshold;
    var best: Option<(nat, string)> := None;
    ghost var at: nat := 0;
    for i := 0 to |candidates|
      invariant best.None? <==> i == 0
      invariant best.Some? ==> at < i && best.value == (Dist(name, candidates[at]), candidates[at])
      invariant best.Some? ==> forall j | 0 <= j < i :: Dist(name, candidates[at]) <= Dist(name, candidates[j])
      invariant best.Some? ==> forall j | 0 <= j < at :: Dist(name, candidates[at]) < Dist(name, candidates[j])
    {
      var d := Levenshtein(name, candidates[i]);
      if best.None? || d < best.value.0 {
        best := Some((d, candidates[i]));
        at := i;
      }
    }
    r := None;
    if best.Some? {
      assert Nearest(name, candidates, at);
      OnlyOneNearest(name, candidates, at);
      if best.value.0 <= Threshold(name, best.value.1) { r := Some(best.value.1); }
    }
  }

  lemma OnlyOneNearest(name: string, candidates: seq<string>, k: nat)
    requires Nearest(name, candidates, k)
    ensures forall j: nat | Nearest(name, candidates, j) :: j == k
  {
    hide Dist;
    forall j: nat | Nearest(name, candidates, j) ensures j == k {
      assert Dist(name, candidates[j]) == Dist(name, candidates[k]);
    }
  }

  /** A suggestion at distance zero is the name itself. */
  lemma ExactNameIsSuggested(name: string, candidates: seq<string>, k: nat)
    requires name in candidates && Nearest(name, candidates, k)
    ensures candidates[k] == name && Dist(name, candidates[k]) <= Threshold(name, candidates[k])
  {
    var i: nat :| i < |candidates| && candidates[i] == name;
    DistanceLaws(name, name);
    DistanceLaws(name, candidates[k]);
  }

  /** In names of plain characters, one edit is forgiven up to five characters, two up to eight, three beyond. */
  lemma ThresholdSteps(a: string, b: string)
    requires (forall c | c in a :: c < '\U{80}') && (forall c | c in b :: c < '\U{80}')
    ensures var n := if |a| < |b| then |b| else |a|;
            Threshold(a, b) == if n <= 5 then 1 else if n <= 8 then 2 else 3
  {
    PlainLength(a);
    PlainLength(b);
  }

  lemma {:induction false} PlainLength(s: string)
    requires forall c | c in s :: c < '\U{80}'
    ensures Utf8Len(s) == |s|
  {
    if s != [] {
      var rest := s[..|s| - 1];
      forall c | c in rest ensures c in s {}
      assert s[|s| - 1] in s;
      PlainLength(rest);
    }
  }
}
