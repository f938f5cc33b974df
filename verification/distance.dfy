/** The edit distance behind "did you mean", and the suggestion made from it.
    Characters stand for the bytes the source compares. */
module Distance {
  import opened Paths

  function Min3(a: int, b: int, c: int): (m: int)
    ensures m <= a && m <= b && m <= c && (m == a || m == b || m == c)
  {
    var m := if b < a then b else a;
    if c < m then c else m
  }

  /** The distance between the first `i` characters of one text and the first `j` of another. */
  function D(a: string, b: string, i: nat, j: nat): int
    requires i <= |a| && j <= |b|
    decreases i + j
  {
    if i == 0 then j
    else if j == 0 then i
    else Min3(D(a, b, i, j - 1) + 1, D(a, b, i - 1, j) + 1, D(a, b, i - 1, j - 1) + if a[i - 1] == b[j - 1] then 0 else 1)
  }

  function Lev(a: string, b: string): int {
    D(a, b, |a|, |b|)
  }

  ghost predicate IsRow(row: array<int>, a: string, b: string, i: nat, upTo: nat)
    requires i <= |a|
    reads row
  {
    row.Length == |b| + 1 && forall k :: 0 <= k < upTo && k <= |b| ==> row[k] == D(a, b, i, k)
  }

  method FillRow(a: string, b: string, i: nat, prev: array<int>, cur: array<int>)
    requires 1 <= i <= |a| && prev != cur && cur.Length == |b| + 1 && IsRow(prev, a, b, i - 1, |b| + 1)
    modifies cur
    ensures IsRow(cur, a, b, i, |b| + 1)
  {
    cur[0] := i;
    for j := 1 to |b| + 1
      invariant IsRow(cur, a, b, i, j) && IsRow(prev, a, b, i - 1, |b| + 1)
    {
      var cost := 1;
      if a[i - 1] == b[j - 1] {
        cost := 0;
      }
      cur[j] := Min3(cur[j - 1] + 1, prev[j] + 1, prev[j - 1] + cost);
    }
  }

  /** Two rows are enough: each is filled from the other, and then they trade places. */
  method EditDistance(a: string, b: string) returns (d: int)
    ensures d == Lev(a, b)
  {
    if a == b {
      ZeroIff(a, b, |a|, |b|);
      return 0;
    }
    var prev, cur := new int[|b| + 1], new int[|b| + 1];
    for j := 0 to |b| + 1
      invariant IsRow(prev, a, b, 0, j)
    {
      prev[j] := j;
    }
    for i := 1 to |a| + 1
      invariant prev != cur && cur.Length == |b| + 1 && fresh(prev) && fresh(cur)
      invariant IsRow(prev, a, b, i - 1, |b| + 1)
    {
      FillRow(a, b, i, prev, cur);
      prev, cur := cur, prev;
    }
    return prev[|b|];
  }

  // ----- a metric -----

  lemma {:induction false} Bounds(a: string, b: string, i: nat, j: nat)
    requires i <= |a| && j <= |b|
    ensures i - j <= D(a, b, i, j) && j - i <= D(a, b, i, j)
    ensures D(a, b, i, j) <= if i < j then j else i
    decreases i + j
  {
    if i > 0 && j > 0 {
      Bounds(a, b, i, j - 1);
      Bounds(a, b, i - 1, j);
      Bounds(a, b, i - 1, j - 1);
    }
  }

  lemma {:induction false} ZeroIff(a: string, b: string, i: nat, j: nat)
    requires i <= |a| && j <= |b|
    ensures D(a, b, i, j) == 0 <==> a[..i] == b[..j]
    decreases i + j
  {
    Bounds(a, b, i, j);
    if i > 0 && j > 0 {
      Bounds(a, b, i, j - 1);
      Bounds(a, b, i - 1, j);
      ZeroIff(a, b, i - 1, j - 1);
      Bounds(a, b, i - 1, j - 1);
      SameLast(a, b, i, j);
    }
  }

  lemma {:induction false} SameLast(a: string, b: string, i: nat, j: nat)
    requires 0 < i <= |a| && 0 < j <= |b|
    ensures a[..i] == b[..j] <==> a[..i - 1] == b[..j - 1] && a[i - 1] == b[j - 1]
  {
  }

  lemma {:induction false} Symmetric(a: string, b: string, i: nat, j: nat)
    requires i <= |a| && j <= |b|
    ensures D(a, b, i, j) == D(b, a, j, i)
    decreases i + j
  {
    if i > 0 && j > 0 {
      Symmetric(a, b, i, j - 1);
      Symmetric(a, b, i - 1, j);
      Symmetric(a, b, i - 1, j - 1);
    }
  }

  function Cost(c: char, d: char): int {
    if c == d then 0 else 1
  }

  /** The last edit of a shortest script inserts, deletes, or does what it must to the last characters. */
  lemma {:induction false} LastEdit(a: string, b: string, i: nat, j: nat)
    requires 0 < i <= |a| && 0 < j <= |b|
    ensures D(a, b, i, j) <= D(a, b, i, j - 1) + 1 && D(a, b, i, j) <= D(a, b, i - 1, j) + 1
    ensures D(a, b, i, j) <= D(a, b, i - 1, j - 1) + Cost(a[i - 1], b[j - 1])
    ensures || D(a, b, i, j) == D(a, b, i, j - 1) + 1 || D(a, b, i, j) == D(a, b, i - 1, j) + 1
            || D(a, b, i, j) == D(a, b, i - 1, j - 1) + Cost(a[i - 1], b[j - 1])
  {
  }

  lemma {:induction false} Triangle(a: string, b: string, c: string, i: nat, j: nat, k: nat)
    requires i <= |a| && j <= |b| && k <= |c|
    ensures D(a, c, i, k) <= D(a, b, i, j) + D(b, c, j, k)
    decreases i + j + k, 1
  {
    if i == 0 || j == 0 || k == 0 {
      Bounds(a, b, i, j);
      Bounds(b, c, j, k);
      Bounds(a, c, i, k);
    } else {
      LastEdit(a, b, i, j);
      LastEdit(b, c, j, k);
      if D(a, b, i, j) == D(a, b, i - 1, j) + 1 {
        FirstDeletes(a, b, c, i, j, k);
      } else if D(b, c, j, k) == D(b, c, j, k - 1) + 1 {
        SecondInserts(a, b, c, i, j, k);
      } else if D(a, b, i, j) == D(a, b, i, j - 1) + 1 {
        if D(b, c, j, k) == D(b, c, j - 1, k) + 1 {
          InsertsDeletes(a, b, c, i, j, k);
        } else {
          InsertsReplaces(a, b, c, i, j, k);
        }
      } else if D(b, c, j, k) == D(b, c, j - 1, k) + 1 {
        ReplacesDeletes(a, b, c, i, j, k);
      } else {
        ReplacesReplaces(a, b, c, i, j, k);
      }
    }
  }

  /** By the last edit of the first script, or of the second. */
  lemma {:induction false} FirstDeletes(a: string, b: string, c: string, i: nat, j: nat, k: nat)
    requires 0 < i <= |a| && 0 < j <= |b| && 0 < k <= |c|
    requires D(a, b, i, j) == D(a, b, i - 1, j) + 1
    ensures D(a, c, i, k) <= D(a, b, i, j) + D(b, c, j, k)
    decreases i + j + k, 0
  {
    LastEdit(a, c, i, k);
    Triangle(a, b, c, i - 1, j, k);
    AddUp(D(a, c, i, k), D(a, b, i, j), D(b, c, j, k), D(a, c, i - 1, k), D(a, b, i - 1, j), D(b, c, j, k), 1, 1, 0);
  }

  lemma {:induction false} SecondInserts(a: string, b: string, c: string, i: nat, j: nat, k: nat)
    requires 0 < i <= |a| && 0 < j <= |b| && 0 < k <= |c|
    requires D(b, c, j, k) == D(b, c, j, k - 1) + 1
    ensures D(a, c, i, k) <= D(a, b, i, j) + D(b, c, j, k)
    decreases i + j + k, 0
  {
    LastEdit(a, c, i, k);
    Triangle(a, b, c, i, j, k - 1);
    AddUp(D(a, c, i, k), D(a, b, i, j), D(b, c, j, k), D(a, c, i, k - 1), D(a, b, i, j), D(b, c, j, k - 1), 1, 0, 1);
  }

  lemma {:induction false} InsertsDeletes(a: string, b: string, c: string, i: nat, j: nat, k: nat)
    requires 0 < i <= |a| && 0 < j <= |b| && 0 < k <= |c|
    requires D(a, b, i, j) == D(a, b, i, j - 1) + 1 && D(b, c, j, k) == D(b, c, j - 1, k) + 1
    ensures D(a, c, i, k) <= D(a, b, i, j) + D(b, c, j, k)
    decreases i + j + k, 0
  {
    LastEdit(a, c, i, k);
    Triangle(a, b, c, i, j - 1, k);
    AddUp(D(a, c, i, k), D(a, b, i, j), D(b, c, j, k), D(a, c, i, k), D(a, b, i, j - 1), D(b, c, j - 1, k), 0, 1, 1);
  }

  lemma {:induction false} InsertsReplaces(a: string, b: string, c: string, i: nat, j: nat, k: nat)
    requires 0 < i <= |a| && 0 < j <= |b| && 0 < k <= |c|
    requires D(a, b, i, j) == D(a, b, i, j - 1) + 1 && D(b, c, j, k) == D(b, c, j - 1, k - 1) + Cost(b[j - 1], c[k - 1])
    ensures D(a, c, i, k) <= D(a, b, i, j) + D(b, c, j, k)
    decreases i + j + k, 0
  {
    LastEdit(a, c, i, k);
    Triangle(a, b, c, i, j - 1, k - 1);
    AddUp(D(a, c, i, k), D(a, b, i, j), D(b, c, j, k), D(a, c, i, k - 1), D(a, b, i, j - 1), D(b, c, j - 1, k - 1), 1, 1, Cost(b[j - 1], c[k - 1]));
  }

  lemma {:induction false} ReplacesDeletes(a: string, b: string, c: string, i: nat, j: nat, k: nat)
    requires 0 < i <= |a| && 0 < j <= |b| && 0 < k <= |c|
    requires D(a, b, i, j) == D(a, b, i - 1, j - 1) + Cost(a[i - 1], b[j - 1]) && D(b, c, j, k) == D(b, c, j - 1, k) + 1
    ensures D(a, c, i, k) <= D(a, b, i, j) + D(b, c, j, k)
    decreases i + j + k, 0
  {
    LastEdit(a, c, i, k);
    Triangle(a, b, c, i - 1, j - 1, k);
    AddUp(D(a, c, i, k), D(a, b, i, j), D(b, c, j, k), D(a, c, i - 1, k), D(a, b, i - 1, j - 1), D(b, c, j - 1, k), 1, Cost(a[i - 1], b[j - 1]), 1);
  }

  lemma {:induction false} ReplacesReplaces(a: string, b: string, c: string, i: nat, j: nat, k: nat)
    requires 0 < i <= |a| && 0 < j <= |b| && 0 < k <= |c|
    requires D(a, b, i, j) == D(a, b, i - 1, j - 1) + Cost(a[i - 1], b[j - 1])
    requires D(b, c, j, k) == D(b, c, j - 1, k - 1) + Cost(b[j - 1], c[k - 1])
    ensures D(a, c, i, k) <= D(a, b, i, j) + D(b, c, j, k)
    decreases i + j + k, 0
  {
    LastEdit(a, c, i, k);
    Triangle(a, b, c, i - 1, j - 1, k - 1);
    AddUp(D(a, c, i, k), D(a, b, i, j), D(b, c, j, k), D(a, c, i - 1, k - 1), D(a, b, i - 1, j - 1), D(b, c, j - 1, k - 1),
          Cost(a[i - 1], c[k - 1]), Cost(a[i - 1], b[j - 1]), Cost(b[j - 1], c[k - 1]));
  }

  lemma {:induction false} AddUp(ac: int, ab: int, bc: int, ac': int, ab': int, bc': int, x: int, y: int, z: int)
    requires ac' <= ab' + bc' && ac <= ac' + x && ab == ab' + y && bc == bc' + z && x <= y + z
    ensures ac <= ab + bc
  {
  }

  /** The distance is zero only on equal texts, symmetric, satisfies the triangle
      inequality, and lies between the difference of the lengths and the longer one. */
  lemma {:induction false} IsAMetric(a: string, b: string, c: string)
    ensures Lev(a, b) == 0 <==> a == b
    ensures Lev(a, b) == Lev(b, a)
    ensures Lev(a, c) <= Lev(a, b) + Lev(b, c)
    ensures |a| - |b| <= Lev(a, b) <= if |a| < |b| then |b| else |a|
    ensures |b| - |a| <= Lev(a, b)
  {
    ZeroIff(a, b, |a|, |b|);
    assert a[..|a|] == a && b[..|b|] == b;
    Symmetric(a, b, |a|, |b|);
    Triangle(a, b, c, |a|, |b|, |c|);
    Bounds(a, b, |a|, |b|);
  }

  // ----- the least number of edits -----

  /** One character inserted, deleted or replaced. */
  datatype Edit = Insertion(at: nat, c: char) | Deletion(at: nat) | Replacement(at: nat, c: char) {
    predicate Fits(s: string) { if Insertion? then at <= |s| else at < |s| }

    function Apply(s: string): string
      requires Fits(s)
    {
      match this
      case Insertion(at, c) => s[..at] + [c] + s[at..]
      case Deletion(at) => s[..at] + s[at + 1..]
      case Replacement(at, c) => s[..at] + [c] + s[at + 1..]
    }
  }

  /** A script of edits leads from one text to another. */
  predicate Leads(a: string, script: seq<Edit>, b: string)
    decreases |script|
  {
    if script == [] then a == b
    else script[0].Fits(a) && Leads(script[0].Apply(a), script[1..], b)
  }

  lemma {:induction false} SamePrefix(a: string, b: string, i: nat)
    requires i <= |a| && i <= |b| && a[..i] == b[..i]
    ensures D(a, b, i, i) == 0
  {
    ZeroIff(a, b, i, i);
  }

  lemma {:induction false} InsertionCosts(a: string, b: string, at: nat, c: char, i: nat)
    requires at <= i <= |a| && b == a[..at] + [c] + a[at..]
    ensures D(a, b, i, i + 1) <= 1
  {
    if i == at {
      assert a[..i] == b[..i];
      SamePrefix(a, b, i);
    } else {
      InsertionCosts(a, b, at, c, i - 1);
      assert a[i - 1] == b[i];
    }
  }

  lemma {:induction false} ReplacementCosts(a: string, b: string, at: nat, c: char, i: nat)
    requires at < i <= |a| && b == a[..at] + [c] + a[at + 1..]
    ensures D(a, b, i, i) <= 1
  {
    if i == at + 1 {
      assert a[..at] == b[..at];
      SamePrefix(a, b, at);
    } else {
      ReplacementCosts(a, b, at, c, i - 1);
      assert a[i - 1] == b[i - 1];
    }
  }

  lemma {:induction false} EditCosts(a: string, e: Edit)
    requires e.Fits(a)
    ensures Lev(a, e.Apply(a)) <= 1
  {
    var b := e.Apply(a);
    match e
    case Insertion(at, c) => InsertionCosts(a, b, at, c, |a|);
    case Replacement(at, c) => ReplacementCosts(a, b, at, c, |a|);
    case Deletion(at) =>
      assert a == b[..at] + [a[at]] + b[at..];
      InsertionCosts(b, a, at, a[at], |b|);
      Symmetric(a, b, |a|, |b|);
  }

  /** No script is shorter than the distance. */
  lemma {:induction false} NoShorterScript(a: string, script: seq<Edit>, b: string)
    requires Leads(a, script, b)
    ensures Lev(a, b) <= |script|
    decreases |script|
  {
    if script == [] {
      IsAMetric(a, b, b);
    } else {
      var c := script[0].Apply(a);
      EditCosts(a, script[0]);
      NoShorterScript(c, script[1..], b);
      IsAMetric(a, c, b);
    }
  }

  lemma {:induction false} OneMoreEdit(a: string, e: Edit, c: string, script: seq<Edit>, b: string)
    requires e.Fits(a) && e.Apply(a) == c && Leads(c, script, b)
    ensures Leads(a, [e] + script, b)
  {
  }

  /** And one script is as short: with the same text after both. */
  lemma {:induction false} ShortestScript(a: string, b: string, i: nat, j: nat, t: string) returns (script: seq<Edit>)
    requires i <= |a| && j <= |b|
    ensures |script| == D(a, b, i, j) && Leads(a[..i] + t, script, b[..j] + t)
    decreases i + j, 1
  {
    if i == 0 && j == 0 {
      script := [];
    } else if j > 0 && D(a, b, i, j) == D(a, b, i, j - 1) + 1 {
      script := EndsInserting(a, b, i, j, t);
    } else if i > 0 && D(a, b, i, j) == D(a, b, i - 1, j) + 1 {
      script := EndsDeleting(a, b, i, j, t);
    } else {
      LastEdit(a, b, i, j);
      script := EndsReplacing(a, b, i, j, t);
    }
  }

  lemma {:induction false} EndsInserting(a: string, b: string, i: nat, j: nat, t: string) returns (script: seq<Edit>)
    requires i <= |a| && 0 < j <= |b| && D(a, b, i, j) == D(a, b, i, j - 1) + 1
    ensures |script| == D(a, b, i, j) && Leads(a[..i] + t, script, b[..j] + t)
    decreases i + j, 0
  {
    var u := [b[j - 1]] + t;
    script := ShortestScript(a, b, i, j - 1, u);
    Shifted(b, j, t);
    var e := Insertion(i, b[j - 1]);
    assert e.Apply(a[..i] + t) == a[..i] + u;
    OneMoreEdit(a[..i] + t, e, a[..i] + u, script, b[..j] + t);
    script := [e] + script;
  }

  lemma {:induction false} EndsDeleting(a: string, b: string, i: nat, j: nat, t: string) returns (script: seq<Edit>)
    requires 0 < i <= |a| && j <= |b| && D(a, b, i, j) == D(a, b, i - 1, j) + 1
    ensures |script| == D(a, b, i, j) && Leads(a[..i] + t, script, b[..j] + t)
    decreases i + j, 0
  {
    script := ShortestScript(a, b, i - 1, j, t);
    var e := Deletion(i - 1);
    assert e.Apply(a[..i] + t) == a[..i - 1] + t;
    OneMoreEdit(a[..i] + t, e, a[..i - 1] + t, script, b[..j] + t);
    script := [e] + script;
  }

  lemma {:induction false} EndsReplacing(a: string, b: string, i: nat, j: nat, t: string) returns (script: seq<Edit>)
    requires 0 < i <= |a| && 0 < j <= |b| && D(a, b, i, j) == D(a, b, i - 1, j - 1) + Cost(a[i - 1], b[j - 1])
    ensures |script| == D(a, b, i, j) && Leads(a[..i] + t, script, b[..j] + t)
    decreases i + j, 0
  {
    script := ShortestScript(a, b, i - 1, j - 1, [b[j - 1]] + t);
    Shifted(b, j, t);
    if a[i - 1] == b[j - 1] {
      Shifted(a, i, t);
    } else {
      script := ReplaceFirst(a, i, b[j - 1], t, script, b[..j] + t);
    }
  }

  lemma {:induction false} ReplaceFirst(a: string, i: nat, c: char, t: string, script: seq<Edit>, b: string) returns (longer: seq<Edit>)
    requires 0 < i <= |a| && Leads(a[..i - 1] + ([c] + t), script, b)
    ensures |longer| == |script| + 1 && Leads(a[..i] + t, longer, b)
  {
    var e := Replacement(i - 1, c);
    ReplaceLast(a, i, c, t);
    OneMoreEdit(a[..i] + t, e, a[..i - 1] + ([c] + t), script, b);
    longer := [e] + script;
  }

  lemma {:induction false} ReplaceLast(a: string, i: nat, c: char, t: string)
    requires 0 < i <= |a|
    ensures Replacement(i - 1, c).Fits(a[..i] + t) && Replacement(i - 1, c).Apply(a[..i] + t) == a[..i - 1] + ([c] + t)
  {
  }

  lemma {:induction false} Shifted(s: string, i: nat, t: string)
    requires 0 < i <= |s|
    ensures s[..i] + t == s[..i - 1] + ([s[i - 1]] + t)
  {
  }

  /** The distance is the least number of single-character edits. */
  lemma {:induction false} LeastEdits(a: string, b: string)
    ensures exists script :: |script| == Lev(a, b) && Leads(a, script, b)
    ensures forall script :: Leads(a, script, b) ==> Lev(a, b) <= |script|
  {
    var script := ShortestScript(a, b, |a|, |b|, "");
    assert a[..|a|] + "" == a && b[..|b|] + "" == b;
    assert Leads(a, script, b);
    forall other: seq<Edit> | Leads(a, other, b) ensures Lev(a, b) <= |other| {
      NoShorterScript(a, other, b);
    }
  }

  // ----- the suggestion -----

  function Stripped(name: string): string {
    if |name| >= 2 && name[..2] == "--" then name[2..] else name
  }

  /** The first of the nearest field names. */
  ghost predicate FirstNearest(fields: seq<string>, name: string, i: nat) {
    && i < |fields|
    && (forall k :: 0 <= k < |fields| ==> Lev(name, fields[i]) <= Lev(name, fields[k]))
    && (forall k :: 0 <= k < i ==> Lev(name, fields[i]) < Lev(name, fields[k]))
  }

  const FAR := 0x4000_0000

  /** The first nearest field is suggested exactly when it is within four edits and
      has a name at all. */
  method Suggest(fields: seq<string>, typed: string) returns (r: Option<string>)
    ensures r.Some? <==> exists i: nat :: FirstNearest(fields, Stripped(typed), i)
                                     && Lev(Stripped(typed), fields[i]) <= 4 && fields[i] != ""
    ensures r.Some? ==> exists i: nat :: FirstNearest(fields, Stripped(typed), i) && r.value == fields[i]
  {
    var name := Stripped(typed);
    var best, bestD := "", FAR;
    ghost var at: int := -1;
    for k := 0 to |fields|
      invariant -1 <= at < k
      invariant at < 0 ==> best == "" && bestD == FAR && forall m :: 0 <= m < k ==> Lev(name, fields[m]) >= FAR
      invariant at >= 0 ==> best == fields[at] && bestD == Lev(name, fields[at]) && FirstNearest(fields[..k], name, at)
    {
      var d := EditDistance(name, fields[k]);
      if d < bestD {
        best, bestD, at := fields[k], d, k;
      }
      assert forall m :: 0 <= m < k ==> fields[..k + 1][m] == fields[..k][m];
    }
    assert fields[..|fields|] == fields;
    if best != "" && bestD <= 4 {
      return Some(best);
    }
    return None;
  }
}
