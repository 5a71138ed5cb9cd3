// The nodes a template validates: sorted names, and how many of them
// (internal/controller/fenceagentsremediationtemplate_controller.go).
module Samples {
  import opened Basics

  // Byte-wise order of strings, as sort.Strings uses it.
  predicate Less(a: string, b: string) {
    if b == "" then false
    else if a == "" then true
    else a[0] < b[0] || (a[0] == b[0] && Less(a[1..], b[1..]))
  }

  lemma {:induction false} LessTotal(a: string, b: string)
    ensures Less(a, b) || a == b || Less(b, a)
    ensures !(Less(a, b) && Less(b, a))
    decreases |a|
  {
    if a != "" && b != "" {
      LessTotal(a[1..], b[1..]);
      if a[0] == b[0] && a[1..] == b[1..] { assert a == [a[0]] + a[1..] == b; }
    }
  }

  // The first difference decides, and a proper prefix comes first.
  lemma {:induction false} LessExactly(a: string, b: string)
    ensures Less(a, b) <==>
              exists i :: 0 <= i <= |a| && i <= |b| && a[..i] == b[..i] &&
                          ((i == |a| && i < |b|) || (i < |a| && i < |b| && a[i] < b[i]))
    decreases |a|
  {
    assert a[..0] == b[..0];
    if a != "" && b != "" {
      LessExactly(a[1..], b[1..]);
      if a[0] == b[0] {
        forall i | 0 <= i < |a| && i < |b| ensures a[1..][..i] == b[1..][..i] <==> a[..i + 1] == b[..i + 1] {
          assert a[..i + 1] == [a[0]] + a[1..][..i] && b[..i + 1] == [b[0]] + b[1..][..i];
        }
      } else {
        assert forall i :: 0 < i <= |a| && i <= |b| ==> a[..i][0] != b[..i][0];
      }
    }
  }

  lemma {:induction false} LessTransitive(a: string, b: string, c: string)
    requires Less(a, b) && Less(b, c)
    ensures Less(a, c)
    decreases |a|
  {
    if a != "" && a[0] == b[0] == c[0] { LessTransitive(a[1..], b[1..], c[1..]); }
  }

  ghost predicate Ascending(s: seq<string>) {
    forall i, j :: 0 <= i < j < |s| ==> Less(s[i], s[j])
  }

  function Elements(s: seq<string>): set<string> { set n | n in s }

  // In order, repeats allowed.
  ghost predicate Ordered(s: seq<string>) {
    forall i, j :: 0 <= i < j < |s| ==> !Less(s[j], s[i])
  }

  ghost predicate NoRepeats(s: seq<string>) {
    forall i, j :: 0 <= i < j < |s| ==> s[i] != s[j]
  }

  function Inserted(n: string, s: seq<string>): seq<string> {
    if s == [] then [n]
    else if Less(n, s[0]) then [n] + s
    else [s[0]] + Inserted(n, s[1..])
  }

  lemma {:induction false} InsertedContents(n: string, s: seq<string>)
    ensures multiset(Inserted(n, s)) == multiset(s) + multiset{n}
  {
    if s != [] {
      InsertedContents(n, s[1..]);
      assert s == [s[0]] + s[1..];
    }
  }

  lemma {:induction false} InsertedOrdered(n: string, s: seq<string>)
    requires Ordered(s)
    ensures Ordered(Inserted(n, s))
  {
    if s != [] {
      var rest := Inserted(n, s[1..]);
      if Less(n, s[0]) {
        LessTotal(n, s[0]);
        forall j | 0 <= j < |s| ensures !Less(s[j], n) {
          if Less(s[j], n) { LessTransitive(s[j], n, s[0]); }
        }
      } else {
        InsertedOrdered(n, s[1..]);
        InsertedContents(n, s[1..]);
        forall j | 0 <= j < |rest| ensures !Less(rest[j], s[0]) {
          assert rest[j] in multiset(rest);
          assert rest[j] == n || rest[j] in s[1..];
        }
      }
    }
  }

  // sort.Strings: the same names, each as often, in order.
  method SortStrings(names: seq<string>) returns (sorted: seq<string>)
    ensures Ordered(sorted) && multiset(sorted) == multiset(names)
  {
    sorted := [];
    for i := 0 to |names|
      invariant Ordered(sorted) && multiset(sorted) == multiset(names[..i])
    {
      InsertedOrdered(names[i], sorted);
      InsertedContents(names[i], sorted);
      sorted := Inserted(names[i], sorted);
      assert names[..i + 1] == names[..i] + [names[i]];
    }
    assert names[..|names|] == names;
  }

  // Names without repeats are strictly ascending once they are in order.
  lemma OrderedAscends(names: seq<string>, sorted: seq<string>)
    requires NoRepeats(names) && Ordered(sorted) && multiset(sorted) == multiset(names)
    ensures Ascending(sorted) && Elements(sorted) == Elements(names)
  {
    forall n ensures n in sorted <==> n in names {
      assert n in multiset(sorted) <==> n in multiset(names);
    }
    OnceEach(names);
    forall i, j | 0 <= i < j < |sorted| ensures Less(sorted[i], sorted[j]) {
      if sorted[i] == sorted[j] { Twice(sorted, i, j); }
      LessTotal(sorted[i], sorted[j]);
    }
  }

  lemma {:induction false} OnceEach(s: seq<string>)
    requires NoRepeats(s)
    ensures forall n :: multiset(s)[n] <= 1
  {
    if s != [] {
      var front, last := s[..|s| - 1], s[|s| - 1];
      OnceEach(front);
      assert s == front + [last];
      assert last !in multiset(front);
    }
  }

  lemma Twice(s: seq<string>, i: nat, j: nat)
    requires i < j < |s| && s[i] == s[j]
    ensures multiset(s)[s[i]] >= 2
  {
    assert s == s[..j] + s[j..];
    assert s[i] in multiset(s[..j]) by { assert s[..j][i] == s[i]; }
    assert s[i] in multiset(s[j..]) by { assert s[j..][0] == s[i]; }
  }

  // Main result.  A set of names has one ascending list, so neither map order nor the
  // sorting algorithm matters.
  lemma {:induction false} AscendingUnique(a: seq<string>, b: seq<string>)
    requires Ascending(a) && Ascending(b) && Elements(a) == Elements(b)
    ensures a == b
    decreases |a|
  {
    assert a != [] ==> a[0] in Elements(a);
    assert b != [] ==> b[0] in Elements(b);
    if a != [] && b != [] {
      HeadsAgree(a, b);
      TailElements(a);
      TailElements(b);
      AscendingUnique(a[1..], b[1..]);
      assert a == [a[0]] + a[1..] && b == [b[0]] + b[1..];
    }
  }

  lemma HeadsAgree(a: seq<string>, b: seq<string>)
    requires Ascending(a) && Ascending(b) && Elements(a) == Elements(b) && a != [] && b != []
    ensures a[0] == b[0]
  {
    assert a[0] in Elements(b) && b[0] in Elements(a);
    var i :| 0 <= i < |b| && b[i] == a[0];
    var j :| 0 <= j < |a| && a[j] == b[0];
    LessTotal(a[0], b[0]);
  }

  lemma TailElements(a: seq<string>)
    requires Ascending(a) && a != []
    ensures Elements(a[1..]) == Elements(a) - {a[0]}
  {
    forall n | n in a[1..] ensures n != a[0] {
      var i :| 0 <= i < |a[1..]| && a[1..][i] == n;
      assert a[i + 1] == n;
      LessTotal(n, n);
    }
    assert a == [a[0]] + a[1..];
  }

  // ---------------------------------------------------------------- the sample size

  // StatusValidationSample: absent, a count, a percentage, or a string that is neither.
  datatype Sample = Unset | Count(n: int) | Percent(p: int) | Malformed

  function Ceil(num: int, den: nat): int
    requires den > 0
  {
    (num + den - 1) / den
  }

  // calculateSampleSize; None is an error.
  function SampleSize(total: nat, sample: Sample): Option<int> {
    match sample
    case Unset => Some(0)
    case Malformed => None
    case Count(n) => Some(if n > total then total else n)
    case Percent(p) => Some(if Ceil(p * total, 100) > total then total else Ceil(p * total, 100))
  }

  // What the API server admits as a sample.
  predicate AdmittedSample(sample: Sample) {
    match sample
    case Unset => true
    case Count(n) => 0 <= n
    case Percent(p) => 0 <= p <= 100
    case Malformed => false
  }

  // Main result.  The size of an admitted sample is the least number of nodes that is at
  // least the share asked for (or the count, capped), and it is nothing exactly when
  // nothing was asked for.
  lemma SampleSizeIs(total: nat, sample: Sample)
    requires AdmittedSample(sample)
    ensures SampleSize(total, sample).Some? && 0 <= SampleSize(total, sample).value <= total
    ensures sample.Percent? ==>
              forall k: int :: k >= SampleSize(total, sample).value <==> 100 * k >= sample.p * total
    ensures sample.Count? ==>
              SampleSize(total, sample).value == if sample.n <= total then sample.n else total
    ensures total > 0 ==>
              (SampleSize(total, sample).value == 0 <==> sample.Unset? || sample == Count(0) || sample == Percent(0))
  {}

  lemma MulMonotone(a: int, b: int, n: nat)
    requires a <= b
    ensures a * n <= b * n
  {}

  // Asking for at least as much, in the same way.
  predicate AsksForMore(a: Sample, b: Sample) {
    (a.Percent? && b.Percent? && a.p <= b.p) || (a.Count? && b.Count? && a.n <= b.n) || a.Unset?
  }

  // Asking for more selects a longer prefix of the same list.
  lemma SamplesNest(total: nat, a: Sample, b: Sample, sorted: seq<string>)
    requires AdmittedSample(a) && AdmittedSample(b) && AsksForMore(a, b) && |sorted| == total
    ensures 0 <= SampleSize(total, a).value <= SampleSize(total, b).value <= total
    ensures sorted[..SampleSize(total, a).value] <= sorted[..SampleSize(total, b).value]
  {
    SampleSizeIs(total, a);
    SampleSizeIs(total, b);
    if a.Percent? {
      MulMonotone(a.p, b.p, total);
      var k := SampleSize(total, b).value;
      assert 100 * k >= b.p * total >= a.p * total;
    }
  }
}
