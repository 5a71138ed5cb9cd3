// internal/controller/fenceagentsremediationtemplate_controller.go: one round of status
// validation, one node a reconcile.
module Templates {
  import opened Basics
  import opened Samples
  import Params

  // The validation condition with its observed generation.
  datatype Verdict = Verdict(status: Tri, generation: int)

  // The status of a template; nil maps are empty.
  datatype TemplateState = TemplateState(
    condition: Option<Verdict>,
    failed: map<string, string>,
    passed: map<string, string>)

  // What probing a node says: nothing when it passed, else why it failed (its parameters
  // did not build, the command failed, or the node is not on).
  type Probe = string -> Option<string>

  predicate NeedsNew(st: TemplateState, generation: int) {
    st.condition.None? || st.condition.value.generation != generation
  }

  predicate Finished(st: TemplateState, generation: int) {
    !NeedsNew(st, generation) && st.condition.value.status != Unknown
  }

  // A new round forgets the last one.
  function Opened(st: TemplateState, generation: int): TemplateState {
    if NeedsNew(st, generation) then TemplateState(Some(Verdict(Unknown, generation)), map[], map[]) else st
  }

  // The first selected node without a verdict, or the number of selected nodes.
  function FirstUndecided(st: TemplateState, selected: seq<string>): (i: nat)
    ensures i <= |selected|
    ensures forall j :: 0 <= j < i ==> selected[j] in st.failed || selected[j] in st.passed
    ensures i < |selected| ==> selected[i] !in st.failed && selected[i] !in st.passed
  {
    if selected == [] then 0
    else if selected[0] in st.failed || selected[0] in st.passed then
      assert forall j :: 0 < j < |selected| ==> selected[j] == selected[1..][j - 1];
      1 + FirstUndecided(st, selected[1..])
    else 0
  }

  function Probed(st: TemplateState, n: string, probe: Probe): TemplateState {
    match probe(n)
    case None => st.(passed := st.passed[n := "Success"])
    case Some(why) => st.(failed := st.failed[n := why])
  }

  function Closed(st: TemplateState, generation: int): TemplateState {
    TemplateState(Some(Verdict(if st.failed == map[] then True else False, generation)), st.failed, map[])
  }

  // One reconcile of an unfinished round with nodes to check.
  function RoundStep(st: TemplateState, generation: int, selected: seq<string>, probe: Probe): TemplateState {
    var open := Opened(st, generation);
    var i := FirstUndecided(open, selected);
    if i < |selected| then Probed(open, selected[i], probe) else Closed(open, generation)
  }

  // The whole reconcile: names are the nodes of the spec in ascending order.
  function Reconciled(st: TemplateState, generation: int, names: seq<string>, sample: Sample, probe: Probe)
    : TemplateState
  {
    if Finished(st, generation) || names == [] then st
    else match SampleSize(|names|, sample)
      case None => st.(condition := Some(Verdict(False, generation)))
      case Some(size) =>
        if size == 0 then TemplateState(None, map[], map[])
        else if size < 0 then st
        else RoundStep(st, generation, names[..size], probe)
  }

  // Whether it asks to be called again at once.
  function Requeues(st: TemplateState, generation: int, names: seq<string>, sample: Sample): bool {
    !Finished(st, generation) && names != [] &&
    var size := SampleSize(|names|, sample);
    size.Some? && size.value > 0 && size.value <= |names| &&
    FirstUndecided(Opened(st, generation), names[..size.value]) < size.value
  }

  lemma SameElements(names: seq<string>, all: set<string>)
    requires forall n :: n in names <==> n in all
    ensures Elements(names) == all
  {}

  class TemplateStatus {
    var condition: Option<Verdict>
    var failed: map<string, string>
    var passed: map<string, string>

    constructor ()
      ensures State() == TemplateState(None, map[], map[])
    {
      condition, failed, passed := None, map[], map[];
    }

    function State(): TemplateState
      reads this
    {
      TemplateState(condition, failed, passed)
    }

    // The loop over the selected nodes, which returns after the first undecided one.
    method ValidateNodes(selected: seq<string>, probe: Probe) returns (requeue: bool)
      modifies this
      ensures var i := FirstUndecided(old(State()), selected);
              && (requeue <==> i < |selected|)
              && State() == if i < |selected| then Probed(old(State()), selected[i], probe) else old(State())
    {
      ghost var st := State();
      for i := 0 to |selected|
        invariant State() == st
        invariant forall j :: 0 <= j < i ==> selected[j] in st.failed || selected[j] in st.passed
      {
        var n := selected[i];
        if n in failed { continue; }
        if n in passed { continue; }
        match probe(n) {
          case None => passed := passed[n := "Success"];
          case Some(why) => failed := failed[n := why];
        }
        return true;
      }
      return false;
    }

    // The rest of the reconcile, once the names are sorted.
    method ValidateSorted(generation: int, sorted: seq<string>, sample: Sample, probe: Probe) returns (requeue: bool)
      requires AdmittedSample(sample) || sample.Malformed?
      modifies this
      ensures State() == Reconciled(old(State()), generation, sorted, sample, probe)
      ensures requeue <==> Requeues(old(State()), generation, sorted, sample)
    {
      var needsNewValidation := condition.None? || condition.value.generation != generation;
      if condition.Some? && condition.value.status != Unknown && !needsNewValidation { return false; }
      if sorted == [] { return false; }
      var size := SampleSize(|sorted|, sample);
      if size.None? {
        condition := Some(Verdict(False, generation));
        return false;
      }
      SampleSizeIs(|sorted|, sample);
      if size.value == 0 {
        condition, failed, passed := None, map[], map[];
        return false;
      }
      var selected := sorted[..size.value];
      if needsNewValidation {
        failed, passed := map[], map[];
        condition := Some(Verdict(Unknown, generation));
      }
      requeue := ValidateNodes(selected, probe);
      if requeue { return; }
      passed := map[];
      var allOK := failed == map[];
      condition := Some(Verdict(if allOK then True else False, generation));
    }

    // validateFenceStatusForTemplate
    method Validate(generation: int, spec: Params.Spec, sample: Sample, probe: Probe) returns (requeue: bool)
      requires AdmittedSample(sample) || sample.Malformed?
      modifies this
      ensures forall names: seq<string> :: Ascending(names) && Elements(names) == Params.NodesNamed(spec) ==>
                && State() == Reconciled(old(State()), generation, names, sample, probe)
                && (requeue <==> Requeues(old(State()), generation, names, sample))
    {
      hide Ordered, NoRepeats, Less, Ascending, Elements, Params.NodesNamed, Reconciled, Requeues;
      var nodeNames := Params.GetNodeNamesFromSpec(spec);
      var sorted := SortStrings(nodeNames);
      OrderedAscends(nodeNames, sorted);
      SameElements(nodeNames, Params.NodesNamed(spec));
      forall names: seq<string> | Ascending(names) && Elements(names) == Params.NodesNamed(spec)
        ensures names == sorted
      {
        AscendingUnique(names, sorted);
      }
      requeue := ValidateSorted(generation, sorted, sample, probe);
    }
  }

  // ---------------------------------------------------------------- a whole round

  // The state after k reconciles; the answers may change from one to the next.
  function After(st: TemplateState, generation: int, names: seq<string>, sample: Sample,
                 probes: nat -> Probe, k: nat): TemplateState
  {
    if k == 0 then st
    else Reconciled(After(st, generation, names, sample, probes, k - 1), generation, names, sample, probes(k - 1))
  }

  // The first k nodes have the verdict of their probe, and no other node has one.
  ghost predicate Decided(st: TemplateState, selected: seq<string>, probes: nat -> Probe, k: nat)
    requires k <= |selected|
  {
    && (forall i :: 0 <= i < k ==>
          && (selected[i] in st.failed <==> probes(i)(selected[i]).Some?)
          && (selected[i] in st.passed <==> probes(i)(selected[i]).None?)
          && (selected[i] in st.failed ==> probes(i)(selected[i]) == Some(st.failed[selected[i]])))
    && (forall n :: n in st.failed || n in st.passed ==> n in selected[..k])
  }

  // In a round the k-th reconcile probes the k-th node.
  ghost predicate Halfway(st: TemplateState, generation: int, selected: seq<string>, probes: nat -> Probe, k: nat)
    requires k <= |selected|
  {
    st.condition == Some(Verdict(Unknown, generation)) && Decided(st, selected, probes, k)
  }

  lemma {:induction false} HalfwayFirst(st: TemplateState, selected: seq<string>, probes: nat -> Probe, k: nat)
    requires Ascending(selected) && k <= |selected| && Decided(st, selected, probes, k)
    ensures FirstUndecided(st, selected) == k
    ensures st.failed.Keys !! st.passed.Keys
  {
    Different(selected);
    assert forall i :: 0 <= i < k ==> selected[i] in st.failed || selected[i] in st.passed;
    assert k < |selected| ==> selected[k] !in selected[..k];
    forall n | n in st.failed ensures n !in st.passed {
      var i :| 0 <= i < k && selected[..k][i] == n;
      assert selected[i] == n;
    }
  }

  lemma ProbedDecides(st: TemplateState, selected: seq<string>, probes: nat -> Probe, k: nat)
    requires Ascending(selected) && k < |selected| && Decided(st, selected, probes, k)
    ensures Decided(Probed(st, selected[k], probes(k)), selected, probes, k + 1)
  {
    Different(selected);
    assert selected[k] !in selected[..k];
    assert selected[..k + 1] == selected[..k] + [selected[k]];
  }

  lemma Different(s: seq<string>)
    requires Ascending(s)
    ensures forall i, j :: 0 <= i < j < |s| ==> s[i] != s[j]
  {
    forall i, j | 0 <= i < j < |s| ensures s[i] != s[j] {
      LessTotal(s[i], s[i]);
    }
  }

  ghost predicate NewRound(st: TemplateState, generation: int, names: seq<string>, sample: Sample) {
    && (st.condition.None? || st.condition.value.generation != generation)
    && Ascending(names) && names != []
    && AdmittedSample(sample) && SampleSize(|names|, sample).value > 0
  }

  // A reconcile of an unfinished round that has k verdicts adds the next one.
  lemma NextVerdict(st: TemplateState, generation: int, names: seq<string>, sample: Sample,
                    probes: nat -> Probe, k: nat)
    requires Ascending(names) && AdmittedSample(sample)
    requires 0 <= k < SampleSize(|names|, sample).value <= |names|
    requires !Finished(st, generation)
    requires Halfway(Opened(st, generation), generation, names[..SampleSize(|names|, sample).value], probes, k)
    ensures var t := Reconciled(st, generation, names, sample, probes(k));
            && t.condition == Some(Verdict(Unknown, generation)) && !Finished(t, generation)
            && Halfway(Opened(t, generation), generation, names[..SampleSize(|names|, sample).value], probes, k + 1)
  {
    var selected := names[..SampleSize(|names|, sample).value];
    var before := Opened(st, generation);
    HalfwayFirst(before, selected, probes, k);
    ProbedDecides(before, selected, probes, k);
    assert Reconciled(st, generation, names, sample, probes(k)) == Probed(before, selected[k], probes(k));
  }

  lemma AfterNext(st: TemplateState, generation: int, names: seq<string>, sample: Sample,
                  probes: nat -> Probe, k: nat)
    requires k > 0
    ensures After(st, generation, names, sample, probes, k) ==
            Reconciled(After(st, generation, names, sample, probes, k - 1), generation, names, sample, probes(k - 1))
  {}

  lemma RoundStarts(st: TemplateState, generation: int, selected: seq<string>, probes: nat -> Probe)
    requires NeedsNew(st, generation)
    ensures !Finished(st, generation) && Halfway(Opened(st, generation), generation, selected, probes, 0)
  {}

  // After k reconciles of a new round, k nodes have a verdict.
  lemma {:induction false} RoundHalfway(st: TemplateState, generation: int, names: seq<string>, sample: Sample,
                                        probes: nat -> Probe, k: nat)
    requires NewRound(st, generation, names, sample)
    requires k <= SampleSize(|names|, sample).value <= |names|
    ensures Halfway(Opened(After(st, generation, names, sample, probes, k), generation), generation,
                    names[..SampleSize(|names|, sample).value], probes, k)
    ensures !Finished(After(st, generation, names, sample, probes, k), generation)
    ensures k > 0 ==> After(st, generation, names, sample, probes, k).condition == Some(Verdict(Unknown, generation))
    decreases k
  {
    var selected := names[..SampleSize(|names|, sample).value];
    hide Reconciled, Halfway, Finished, Opened, NeedsNew, Ascending;
    if k == 0 {
      RoundStarts(st, generation, selected, probes);
    } else {
      hide After;
      var before := After(st, generation, names, sample, probes, k - 1);
      RoundHalfway(st, generation, names, sample, probes, k - 1);
      NextVerdict(before, generation, names, sample, probes, k - 1);
      AfterNext(st, generation, names, sample, probes, k);
    }
  }

  lemma RoundRequeues(st: TemplateState, generation: int, names: seq<string>, sample: Sample,
                      probes: nat -> Probe, k: nat)
    requires NewRound(st, generation, names, sample)
    requires k <= SampleSize(|names|, sample).value <= |names|
    ensures !Finished(After(st, generation, names, sample, probes, k), generation)
    ensures Requeues(After(st, generation, names, sample, probes, k), generation, names, sample) <==>
              k < SampleSize(|names|, sample).value
  {
    RoundHalfway(st, generation, names, sample, probes, k);
    HalfwayFirst(Opened(After(st, generation, names, sample, probes, k), generation),
                 names[..SampleSize(|names|, sample).value], probes, k);
  }

  // How a round ends: the verdict is True exactly when every selected node passed when it
  // was probed, and exactly the failures are reported.
  ghost predicate RightVerdict(end: TemplateState, generation: int, selected: seq<string>, probes: nat -> Probe) {
    && end.condition.Some? && end.condition.value.generation == generation && end.passed == map[]
    && (end.condition.value.status == True <==> forall i :: 0 <= i < |selected| ==> probes(i)(selected[i]).None?)
    && (end.condition.value.status == True || end.condition.value.status == False)
    && (forall i :: 0 <= i < |selected| ==> (selected[i] in end.failed <==> probes(i)(selected[i]).Some?))
    && (forall i :: 0 <= i < |selected| && selected[i] in end.failed ==>
          probes(i)(selected[i]) == Some(end.failed[selected[i]]))
    && (forall n :: n in end.failed ==> n in selected)
  }

  lemma ClosedIsRight(st: TemplateState, generation: int, selected: seq<string>, probes: nat -> Probe)
    requires Halfway(st, generation, selected, probes, |selected|)
    ensures RightVerdict(Closed(st, generation), generation, selected, probes)
  {
    assert selected[..|selected|] == selected;
    if st.failed != map[] {
      var n :| n in st.failed;
      var i :| 0 <= i < |selected| && selected[i] == n;
      assert probes(i)(selected[i]).Some?;
    }
  }

  // Main result.  A template that was edited since its verdict starts over: after one
  // reconcile the verdict is unknown, for the new generation, and only the node just probed
  // has an entry, what its probe said.
  lemma EditStartsOver(st: TemplateState, generation: int, names: seq<string>, sample: Sample, probe: Probe)
    requires st.condition.Some? && st.condition.value.generation != generation
    requires Ascending(names) && names != [] && AdmittedSample(sample) && SampleSize(|names|, sample).value > 0
    ensures var t := Reconciled(st, generation, names, sample, probe);
            && t.condition == Some(Verdict(Unknown, generation))
            && t.passed == (if probe(names[0]).None? then map[names[0] := "Success"] else map[])
            && t.failed == (if probe(names[0]).None? then map[] else map[names[0] := probe(names[0]).value])
            && Requeues(st, generation, names, sample)
  {
    SampleSizeIs(|names|, sample);
    var selected := names[..SampleSize(|names|, sample).value];
    assert selected[0] == names[0];
    assert FirstUndecided(Opened(st, generation), selected) == 0;
  }

  // Main result.  Nothing asked for clears every earlier result; a sample that is neither a
  // count nor a percentage fails the template at this generation and keeps the entries; and
  // without nodes nothing is touched.  None of them asks for another reconcile.
  lemma NothingToValidate(st: TemplateState, generation: int, names: seq<string>, sample: Sample, probe: Probe)
    requires st.condition.None? || st.condition.value.generation != generation || st.condition.value.status == Unknown
    ensures names == [] ==> Reconciled(st, generation, names, sample, probe) == st
    ensures names != [] && (sample == Unset || sample == Count(0) || sample == Percent(0)) ==>
              Reconciled(st, generation, names, sample, probe) == TemplateState(None, map[], map[])
    ensures names != [] && sample == Malformed ==>
              Reconciled(st, generation, names, sample, probe) ==
              TemplateState(Some(Verdict(False, generation)), st.failed, st.passed)
    ensures names == [] || sample == Unset || sample == Count(0) || sample == Percent(0) || sample == Malformed ==>
              !Requeues(st, generation, names, sample)
  {}

  // Main result.  A new round is over after exactly one reconcile a selected node and one
  // more; until then the verdict is unknown and each but the last asks for another; and
  // the verdict is right, for this generation.
  lemma RoundVerdict(st: TemplateState, generation: int, names: seq<string>, sample: Sample, probes: nat -> Probe)
    requires NewRound(st, generation, names, sample)
    ensures var size := SampleSize(|names|, sample).value;
            && 0 < size <= |names|
            && (forall k :: 0 <= k <= size ==>
                  (Requeues(After(st, generation, names, sample, probes, k), generation, names, sample) <==> k < size))
            && (forall k :: 0 < k <= size ==>
                  After(st, generation, names, sample, probes, k).condition == Some(Verdict(Unknown, generation)))
            && RightVerdict(After(st, generation, names, sample, probes, size + 1), generation, names[..size], probes)
  {
    SampleSizeIs(|names|, sample);
    var size := SampleSize(|names|, sample).value;
    forall k | 0 <= k <= size
      ensures !Finished(After(st, generation, names, sample, probes, k), generation)
      ensures Requeues(After(st, generation, names, sample, probes, k), generation, names, sample) <==> k < size
    {
      RoundRequeues(st, generation, names, sample, probes, k);
    }
    forall k | 0 < k <= size
      ensures After(st, generation, names, sample, probes, k).condition == Some(Verdict(Unknown, generation))
    {
      RoundHalfway(st, generation, names, sample, probes, k);
    }
    RoundHalfway(st, generation, names, sample, probes, size);
    var last := Opened(After(st, generation, names, sample, probes, size), generation);
    HalfwayFirst(last, names[..size], probes, size);
    ClosedIsRight(last, generation, names[..size], probes);
    assert After(st, generation, names, sample, probes, size + 1) == Closed(last, generation);
  }

  // A finished round stays as it is until the generation changes.
  lemma {:induction false} FinishedStays(st: TemplateState, generation: int, names: seq<string>, sample: Sample,
                                         probes: nat -> Probe, k: nat)
    requires st.condition.Some? && st.condition.value.generation == generation && st.condition.value.status != Unknown
    ensures After(st, generation, names, sample, probes, k) == st
  {
    if k > 0 { FinishedStays(st, generation, names, sample, probes, k - 1); }
  }
}
