/** Array specifications: "0-9:2,20%3" and the task indices it stands for. */
module Arrays {
  import opened Lists
  import opened Paths
  import opened Sorting
  import opened Text

  const MAX_ARRAY_TASKS := 10_000

  /** One part of a specification. */
  datatype Part = Blank | Bad | Span(lo: int, hi: int, step: int) {
    predicate Has(i: int) {
      Span? && step > 0 && lo <= i <= hi && (i - lo) % step == 0
    }
  }

  /** The step of a part, and what stands in front of it. */
  function StepOf(part: string): Option<(string, int)> {
    var colon := Find(part, ':');
    if colon.None? then Some((part, 1))
    else
      var step := ParseInt(part[colon.value + 1..]);
      if step.None? || step.value < 1 then None else Some((part[..colon.value], step.value))
  }

  function BoundsOf(part: string): Option<(int, int)> {
    var dash := Find(part, '-');
    if dash.None? then
      var lo := ParseInt(part);
      if lo.None? then None else Some((lo.value, lo.value))
    else
      var lo, hi := ParseInt(part[..dash.value]), ParseInt(part[dash.value + 1..]);
      if lo.None? || hi.None? then None else Some((lo.value, hi.value))
  }

  function PartOf(text: string): Part {
    var part := TrimSpace(text);
    if part == "" then Blank
    else
      var step := StepOf(part);
      if step.None? then Bad
      else
        var bounds := BoundsOf(step.value.0);
        if bounds.None? || bounds.value.1 < bounds.value.0 then Bad
        else if (bounds.value.1 - bounds.value.0) / step.value.1 > MAX_ARRAY_TASKS then Bad
        else Span(bounds.value.0, bounds.value.1, step.value.1)
  }

  function PartsOf(texts: seq<string>): (ps: seq<Part>)
    ensures |ps| == |texts| && forall k :: 0 <= k < |texts| ==> ps[k] == PartOf(texts[k])
  {
    seq(|texts|, k requires 0 <= k < |texts| => PartOf(texts[k]))
  }

  ghost predicate Covers(ps: seq<Part>, i: int) {
    exists p :: p in ps && p.Has(i)
  }

  /** A good part's indices are natural numbers, and its bounds are in order. */
  lemma {:induction false} GoodSpan(text: string)
    requires PartOf(text).Span?
    ensures 0 <= PartOf(text).lo <= PartOf(text).hi && PartOf(text).step > 0
  {
  }

  /** A throttle and the list in front of it. */
  datatype Request = BadThrottle | Request(list: string, throttle: nat)

  function RequestOf(s: string): Request {
    var percent := Find(s, '%');
    if percent.None? then Request(s, 0)
    else
      var t := ParseInt(TrimSpace(s[percent.value + 1..]));
      if t.None? || t.value < 1 then BadThrottle else Request(s[..percent.value], t.value)
  }

  datatype Outcome = Refused | Tasks(tasks: seq<int>, throttle: nat)

  ghost predicate Increasing(xs: seq<int>) {
    forall a, b :: 0 <= a < b < |xs| ==> xs[a] < xs[b]
  }

  ghost predicate Distinct(xs: seq<int>) {
    forall a, b :: 0 <= a < b < |xs| ==> xs[a] != xs[b]
  }

  /** The indices of one part, appended to those of the parts before it. */
  method Expand(p: Part, had: seq<int>) returns (tasks: seq<int>)
    requires p.Span? && p.lo <= p.hi && p.step > 0 && Distinct(had)
    ensures Distinct(tasks) && forall x :: x in tasks <==> x in had || p.Has(x)
  {
    tasks := had;
    var i := p.lo;
    while i <= p.hi
      invariant Distinct(tasks) && i >= p.lo && (i - p.lo) % p.step == 0
      invariant forall x :: x in tasks <==> x in had || (p.Has(x) && x < i)
      decreases p.hi + 1 - i
    {
      if i !in tasks {
        tasks := tasks + [i];
      }
      NoneBetween(p, i);
      i := i + p.step;
    }
  }

  lemma {:induction false} NoneBetween(p: Part, i: int)
    requires p.Span? && p.step > 0 && (i - p.lo) % p.step == 0
    ensures (i + p.step - p.lo) % p.step == 0
    ensures forall x :: i < x < i + p.step ==> !p.Has(x)
  {
    StepTogether(i - p.lo, p.step, p.step);
    forall x | i < x < i + p.step ensures !p.Has(x) {
      StepTogether(i - p.lo, x - i, p.step);
    }
  }

  lemma {:induction false} StepTogether(a: int, b: int, step: int)
    requires step > 0 && a % step == 0 && 0 < b <= step
    ensures (a + b) % step == 0 <==> b == step
  {
    var q := a / step;
    assert a == q * step;
    if b == step {
      assert a + b == (q + 1) * step;
      MultipleOf(q + 1, step, 0);
    } else {
      MultipleOf(q, step, b);
    }
  }

  lemma {:induction false} MultipleOf(q: int, step: int, b: int)
    requires step > 0 && 0 <= b < step
    ensures (q * step + b) % step == b
  {
    var x := q * step + b;
    assert x == (x / step) * step + x % step;
    assert (q - x / step) * step == x % step - b;
    AtLeastOne(q - x / step, step);
  }

  lemma {:induction false} AtLeastOne(d: int, step: int)
    requires step > 0
    ensures d >= 1 ==> d * step >= step
    ensures d <= -1 ==> d * step <= -step
  {
  }

  /** The tasks of a specification: in order, each once, and exactly those that some
      part stands for; refused exactly when the throttle or a part is malformed, a part
      is too long, or all parts together come to more than ten thousand tasks. */
  method ParseArray(text: string) returns (r: Outcome)
    ensures r.Tasks? ==> Increasing(r.tasks) && |r.tasks| <= MAX_ARRAY_TASKS && forall i :: i in r.tasks ==> i >= 0
    ensures var s := TrimSpace(text);
            if s == "" then r == Tasks([], 0)
            else
              var q := RequestOf(s);
              if q.BadThrottle? then r == Refused
              else
                var parts := PartsOf(Split(q.list, ','));
                && (r.Tasks? ==> Bad !in parts && r.throttle == q.throttle && forall i :: i in r.tasks <==> Covers(parts, i))
                && (r.Refused? <==> Bad in parts || TooMany(parts))
  {
    var s := TrimSpace(text);
    if s == "" {
      return Tasks([], 0);
    }
    var q := RequestOf(s);
    if q.BadThrottle? {
      return Refused;
    }
    r := ParseParts(Split(q.list, ','), q.throttle);
  }

  ghost predicate TooMany(ps: seq<Part>) {
    exists all: seq<int> :: |all| > MAX_ARRAY_TASKS && Distinct(all) && forall i :: i in all ==> Covers(ps, i)
  }

  method ParseParts(texts: seq<string>, throttle: nat) returns (r: Outcome)
    ensures r.Tasks? ==>
              && Increasing(r.tasks) && |r.tasks| <= MAX_ARRAY_TASKS && (forall i :: i in r.tasks ==> i >= 0)
              && Bad !in PartsOf(texts) && r.throttle == throttle && forall i :: i in r.tasks <==> Covers(PartsOf(texts), i)
    ensures r.Refused? <==> Bad in PartsOf(texts) || TooMany(PartsOf(texts))
  {
    ghost var ps := PartsOf(texts);
    var tasks: seq<int> := [];
    for k := 0 to |texts|
      invariant Bad !in ps[..k] && Distinct(tasks)
      invariant forall i :: i in tasks <==> Covers(ps[..k], i)
      invariant forall i :: i in tasks ==> i >= 0
    {
      var p := PartOf(texts[k]);
      assert p == ps[k] && ps[k] in ps;
      if p == Bad {
        return Refused;
      }
      if p.Span? {
        GoodSpan(texts[k]);
        tasks := Expand(p, tasks);
      }
      OneMore(ps, k);
      CoversGrows(ps[..k], p);
    }
    All(ps);
    var sorted := Sort((a: int, b: int) => a < b, tasks);
    SortedTasks(tasks, sorted);
    if |sorted| > MAX_ARRAY_TASKS {
      return Refused;
    }
    NotTooMany(ps, sorted);
    return Tasks(sorted, throttle);
  }

  /** All there is to be covered is in the list, and that is short enough. */
  lemma {:induction false} NotTooMany(ps: seq<Part>, tasks: seq<int>)
    requires |tasks| <= MAX_ARRAY_TASKS && forall i :: i in tasks <==> Covers(ps, i)
    ensures !TooMany(ps)
  {
    forall all: seq<int> | Distinct(all) && (forall i :: i in all ==> Covers(ps, i)) ensures |all| <= MAX_ARRAY_TASKS {
      NoMoreThan(all, tasks);
    }
  }

  lemma {:induction false} NoMoreThan(xs: seq<int>, ys: seq<int>)
    requires Distinct(xs) && forall i :: i in xs ==> i in ys
    ensures |xs| <= |ys|
  {
    if xs != [] {
      var n := |xs| - 1;
      assert xs[n] in xs;
      var k: nat :| k < |ys| && ys[k] == xs[n];
      var rest := ys[..k] + ys[k + 1..];
      forall i | i in xs[..n] ensures i in rest {
        var a: nat :| a < n && xs[a] == i;
        assert xs[a] in xs && i in ys && i != ys[k];
        var b: nat :| b < |ys| && ys[b] == i;
        assert b < k ==> rest[b] == i;
        assert b > k ==> rest[b - 1] == i;
      }
      NoMoreThan(xs[..n], rest);
    }
  }

  lemma {:induction false} SortedTasks(tasks: seq<int>, sorted: seq<int>)
    requires Distinct(tasks) && multiset(sorted) == multiset(tasks)
    requires forall a, b :: 0 <= a < b < |sorted| ==> sorted[a] == sorted[b] || sorted[a] < sorted[b]
    ensures Increasing(sorted) && |sorted| == |tasks| && forall i :: i in sorted <==> i in tasks
  {
    assert |multiset(sorted)| == |multiset(tasks)|;
    forall i ensures i in sorted <==> i in tasks {
      assert i in multiset(sorted) <==> i in multiset(tasks);
    }
    forall a, b | 0 <= a < b < |sorted| ensures sorted[a] != sorted[b] {
      if sorted[a] == sorted[b] {
        TwiceIsTwo(sorted, a, b);
        OnceIsOne(tasks, sorted[a]);
      }
    }
  }

  lemma {:induction false} TwiceIsTwo(xs: seq<int>, a: nat, b: nat)
    requires a < b < |xs| && xs[a] == xs[b]
    ensures multiset(xs)[xs[a]] >= 2
  {
    assert xs == xs[..b] + [xs[b]] + xs[b + 1..];
    assert xs[..b][a] == xs[a] && xs[a] in multiset(xs[..b]);
  }

  lemma {:induction false} OnceIsOne(xs: seq<int>, x: int)
    requires Distinct(xs)
    ensures multiset(xs)[x] <= 1
  {
    if xs != [] {
      var n := |xs| - 1;
      OnceIsOne(xs[..n], x);
      assert xs == xs[..n] + [xs[n]];
      if xs[n] == x {
        assert x !in xs[..n];
      }
    }
  }

  lemma {:induction false} CoversGrows(ps: seq<Part>, p: Part)
    ensures forall i :: Covers(ps + [p], i) <==> Covers(ps, i) || p.Has(i)
  {
  }

  // ----- what a user writes -----

  lemma {:induction false} FindFirst(s: string, k: nat, c: char)
    requires k < |s| && s[k] == c && c !in s[..k]
    ensures Find(s, c) == Some(k)
  {
  }

  lemma {:induction false} FindAfter(front: string, back: string, c: char)
    requires c !in front
    ensures var s := front + [c] + back; Find(s, c) == Some(|front|) && s[..|front|] == front && s[|front| + 1..] == back
  {
    var s := front + [c] + back;
    assert s[..|front|] == front;
    FindFirst(s, |front|, c);
  }

  lemma {:induction false} BoundsAsWritten(lo: string, hi: string)
    requires AllDigits(lo) && ParseInt(lo).Some? && ParseInt(hi).Some?
    ensures BoundsOf(lo + ['-'] + hi) == Some((ParseInt(lo).value, ParseInt(hi).value))
  {
    FindAfter(lo, hi, '-');
  }

  lemma {:induction false} StepAsWritten(bounds: string, step: string)
    requires ':' !in bounds && ParseInt(step).Some? && ParseInt(step).value >= 1
    ensures StepOf(bounds + [':'] + step) == Some((bounds, ParseInt(step).value))
  {
    FindAfter(bounds, step, ':');
  }

  lemma {:induction false} WrittenIsTrimmed(bounds: string, step: string)
    requires bounds != "" && IsDigit(bounds[0]) && AllDigits(step)
    ensures TrimSpace(bounds + [':'] + step) == bounds + [':'] + step
  {
  }

  lemma {:induction false} PartIs(part: string, bounds: string, lo: int, hi: int, step: int)
    requires TrimSpace(part) == part != "" && StepOf(part) == Some((bounds, step)) && BoundsOf(bounds) == Some((lo, hi))
    requires lo <= hi && step > 0 && (hi - lo) / step <= MAX_ARRAY_TASKS
    ensures PartOf(part) == Span(lo, hi, step)
  {
  }

  lemma {:induction false} NoColon(lo: string, hi: string)
    requires AllDigits(lo) && AllDigits(hi)
    ensures ':' !in lo + ['-'] + hi
  {
  }

  /** Three numerals written "lo-hi:step" stand for exactly that span. */
  lemma {:induction false} SpanAsWritten(lo: string, hi: string, step: string, l: int, h: int, d: int)
    requires AllDigits(lo) && AllDigits(hi) && AllDigits(step)
    requires ParseInt(lo) == Some(l) && ParseInt(hi) == Some(h) && ParseInt(step) == Some(d)
    requires l <= h && d >= 1 && (h - l) / d <= MAX_ARRAY_TASKS
    ensures PartOf(lo + ['-'] + hi + [':'] + step) == Span(l, h, d)
  {
    var bounds := lo + ['-'] + hi;
    NoColon(lo, hi);
    BoundsAsWritten(lo, hi);
    StepAsWritten(bounds, step);
    assert bounds[0] == lo[0] && IsDigit(lo[0]);
    WrittenIsTrimmed(bounds, step);
    PartIs(bounds + [':'] + step, bounds, l, h, d);
  }
}
