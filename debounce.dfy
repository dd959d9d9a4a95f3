/** The debounce/confirmation machine that turns per-frame observations into
    rare "label confirmed" events. The state is the triple the task keeps
    between frames; -1 stands for "no label yet", as in the task. */
module Debounce {
  import opened Wrappers
  import opened Reduction

  /** An observation counts only when its confidence reaches this value. */
  const ConfidenceThreshold: real := 0.90

  /** Length of the run that confirms a label (DEBOUNCE_THRESHOLD). */
  const DebounceThreshold: int := 3

  /** The "no label" value of lastSeen and confirmed. */
  const NoLabel: int := -1

  /** The two background classes ("unlabeled" and "unknown") whose
      confirmation is never published. */
  const DefaultBackground: set<int> := {0, 6}

  datatype DebounceState = DebounceState(lastSeen: int, counter: int, confirmed: int)

  /** The state at task start. */
  const Initial: DebounceState := DebounceState(NoLabel, 0, NoLabel)

  /** The state after one frame, and the label it confirmed, if any. */
  datatype StepResult = StepResult(next: DebounceState, confirmation: Option<nat>)

  predicate Accepted(o: Observation) { o.confidence >= ConfidenceThreshold }

  /** One frame: count a confident observation into the current run (or
      start a new run), and confirm its label once the run reaches the
      threshold and the label is not the one already confirmed. */
  function Step(st: DebounceState, o: Observation): (r: StepResult)
    ensures !Accepted(o) ==> r == StepResult(st, None)
    ensures r.confirmation.Some? <==>
              Accepted(o) && st.confirmed != o.labelIndex &&
              (if o.labelIndex == st.lastSeen then st.counter + 1 else 1) >= DebounceThreshold
    ensures r.confirmation.Some? ==>
              r.confirmation.value == o.labelIndex && r.next == DebounceState(o.labelIndex, 0, o.labelIndex)
    ensures r.confirmation.None? ==> r.next.confirmed == st.confirmed
    ensures Accepted(o) && r.confirmation.None? ==>
              r.next.lastSeen == o.labelIndex &&
              r.next.counter == (if o.labelIndex == st.lastSeen then st.counter + 1 else 1)
  {
    if !Accepted(o) then StepResult(st, None)
    else
      var run := if o.labelIndex == st.lastSeen then st.(counter := st.counter + 1)
                 else st.(lastSeen := o.labelIndex, counter := 1);
      if run.counter >= DebounceThreshold && st.confirmed != o.labelIndex then
        StepResult(run.(confirmed := o.labelIndex, counter := 0), Some(o.labelIndex))
      else
        StepResult(run, None)
  }

  /** What every reachable state satisfies: the counter is never negative, a
      run long enough to confirm belongs to the confirmed label, and a zero
      counter means the last label seen is the confirmed one. */
  ghost predicate Inv(st: DebounceState)
  {
    st.counter >= 0 &&
    (st.counter >= DebounceThreshold ==> st.confirmed == st.lastSeen) &&
    (st.counter == 0 ==> st.confirmed == st.lastSeen) &&
    (st.confirmed == NoLabel ==> st.lastSeen == NoLabel || st.counter > 0) &&
    st.lastSeen >= NoLabel && st.confirmed >= NoLabel
  }

  lemma InitialInv()
    ensures Inv(Initial)
  {
  }

  lemma StepPreservesInv(st: DebounceState, o: Observation)
    requires Inv(st)
    ensures Inv(Step(st, o).next)
  {
  }

  /** The confirmation of one step as a sequence of zero or one labels. */
  function Emitted(s: StepResult): seq<nat>
  {
    if s.confirmation.Some? then [s.confirmation.value] else []
  }

  /** Several frames in order: the final state and every confirmation, in
      the order they happened (background ones included). */
  datatype RunResult = RunResult(final: DebounceState, confirms: seq<nat>)

  function Run(st: DebounceState, obs: seq<Observation>): RunResult
    decreases |obs|
  {
    if obs == [] then RunResult(st, [])
    else
      var r := Run(st, obs[..|obs| - 1]);
      var s := Step(r.final, obs[|obs| - 1]);
      RunResult(s.next, r.confirms + Emitted(s))
  }

  /** The published events among the confirmations: those outside the
      background set, in order. */
  function Events(confirms: seq<nat>, background: set<int>): seq<nat>
    decreases |confirms|
  {
    if confirms == [] then []
    else
      var last := confirms[|confirms| - 1];
      Events(confirms[..|confirms| - 1], background) + (if last in background then [] else [last])
  }

  /** The events are exactly the confirmations outside the background set. */
  lemma {:induction false} EventsFilter(confirms: seq<nat>, background: set<int>)
    ensures var e := Events(confirms, background);
            |e| <= |confirms| &&
            (forall x :: x in e <==> x in confirms && x !in background)
    decreases |confirms|
  {
    if confirms != [] {
      var p := confirms[..|confirms| - 1];
      EventsFilter(p, background);
      assert confirms == p + [confirms[|confirms| - 1]];
    }
  }

  lemma EventsSnoc(c: seq<nat>, x: nat, background: set<int>)
    ensures Events(c + [x], background) == Events(c, background) + (if x in background then [] else [x])
  {
    assert (c + [x])[..|c|] == c;
  }

  lemma RunSnoc(st: DebounceState, obs: seq<Observation>, o: Observation)
    ensures Run(st, obs + [o]) ==
            var r := Run(st, obs); var s := Step(r.final, o);
            RunResult(s.next, r.confirms + Emitted(s))
  {
    assert (obs + [o])[..|obs|] == obs;
  }

  /** Running two stretches of frames one after the other is running their
      concatenation. */
  lemma {:induction false} RunAppend(st: DebounceState, a: seq<Observation>, b: seq<Observation>)
    ensures Run(st, a + b) ==
            var ra := Run(st, a); var rb := Run(ra.final, b);
            RunResult(rb.final, ra.confirms + rb.confirms)
    decreases |b|
  {
    if b == [] {
      assert a + b == a;
    } else {
      var b' := b[..|b| - 1];
      assert a + b == (a + b') + [b[|b| - 1]];
      assert b == b' + [b[|b| - 1]];
      RunSnoc(st, a + b', b[|b| - 1]);
      RunAppend(st, a, b');
      RunSnoc(Run(st, a).final, b', b[|b| - 1]);
    }
  }

  lemma {:induction false} RunPreservesInv(st: DebounceState, obs: seq<Observation>)
    requires Inv(st)
    ensures Inv(Run(st, obs).final)
    decreases |obs|
  {
    if obs != [] {
      RunPreservesInv(st, obs[..|obs| - 1]);
      StepPreservesInv(Run(st, obs[..|obs| - 1]).final, obs[|obs| - 1]);
    }
  }

  /** Frames below the confidence threshold, however many and whatever
      their labels, change nothing and confirm nothing. */
  lemma {:induction false} LowConfidenceIgnored(st: DebounceState, obs: seq<Observation>)
    requires forall i :: 0 <= i < |obs| ==> obs[i].confidence < ConfidenceThreshold
    ensures Run(st, obs) == RunResult(st, [])
    decreases |obs|
  {
    if obs != [] {
      LowConfidenceIgnored(st, obs[..|obs| - 1]);
    }
  }

  /** Confirmations never repeat: each one differs from the label confirmed
      before it, and the confirmed label changes only through them. */
  lemma {:induction false} NoRepeatedConfirmation(st: DebounceState, obs: seq<Observation>)
    ensures var r := Run(st, obs);
            (forall i :: 0 < i < |r.confirms| ==> r.confirms[i] != r.confirms[i - 1]) &&
            (|r.confirms| > 0 ==> r.confirms[0] != st.confirmed &&
                                  r.final.confirmed == r.confirms[|r.confirms| - 1]) &&
            (|r.confirms| == 0 ==> r.final.confirmed == st.confirmed)
    decreases |obs|
  {
    if obs != [] {
      NoRepeatedConfirmation(st, obs[..|obs| - 1]);
    }
  }

  /** k copies of one observation. */
  function Repeat(o: Observation, k: nat): (r: seq<Observation>)
    ensures |r| == k
  {
    if k == 0 then [] else Repeat(o, k - 1) + [o]
  }

  lemma {:induction false} RepeatSplit(o: Observation, j: nat, k: nat)
    ensures Repeat(o, j + k) == Repeat(o, j) + Repeat(o, k)
    decreases k
  {
    if k == 0 {
      assert Repeat(o, j) + [] == Repeat(o, j);
    } else {
      RepeatSplit(o, j, k - 1);
      assert Repeat(o, j + k) == Repeat(o, j + k - 1) + [o];
    }
  }

  /** Once a label is confirmed, more frames of that label confirm nothing. */
  lemma {:induction false} HoldingConfirmedLabel(st: DebounceState, o: Observation, k: nat)
    requires st.confirmed == o.labelIndex
    ensures Run(st, Repeat(o, k)).confirms == []
    ensures Run(st, Repeat(o, k)).final.confirmed == o.labelIndex
    decreases k
  {
    if k > 0 {
      RepeatSplit(o, k - 1, 1);
      RunSnoc(st, Repeat(o, k - 1), o);
      HoldingConfirmedLabel(st, o, k - 1);
    }
  }

  /** The length the current run of o's label already has. */
  function RunSoFar(st: DebounceState, o: Observation): int
  {
    if st.lastSeen == o.labelIndex then st.counter else 0
  }

  /** One confident frame of a label that is not the confirmed one: it
      confirms the label exactly when it completes the run, and otherwise
      lengthens the run by one. */
  lemma StepTowardConfirmation(st: DebounceState, o: Observation)
    requires st.counter >= 0
    requires Accepted(o) && st.confirmed != o.labelIndex
    ensures var s := Step(st, o);
            (s.confirmation.Some? <==> RunSoFar(st, o) + 1 >= DebounceThreshold) &&
            (s.confirmation.Some? ==> s.confirmation == Some(o.labelIndex) && s.next.confirmed == o.labelIndex) &&
            (s.confirmation.None? ==> s.next.counter >= 0 && s.next.confirmed == st.confirmed &&
                                      RunSoFar(s.next, o) == RunSoFar(st, o) + 1)
  {
  }

  /** Enough confident frames of a label that is not the confirmed one to
      complete its run confirm it, exactly once. */
  lemma {:induction false} ConfirmWithin(st: DebounceState, o: Observation, k: nat)
    requires st.counter >= 0
    requires Accepted(o) && st.confirmed != o.labelIndex
    requires k >= 1 && k + RunSoFar(st, o) >= DebounceThreshold
    ensures Run(st, Repeat(o, k)).confirms == [o.labelIndex]
    ensures Run(st, Repeat(o, k)).final.confirmed == o.labelIndex
    decreases k, 1
  {
    StepTowardConfirmation(st, o);
    if Step(st, o).confirmation.Some? {
      ConfirmNow(st, o, k);
    } else {
      ConfirmLater(st, o, k);
    }
  }

  /** The first frame completes the run; the other frames hold the label. */
  lemma ConfirmNow(st: DebounceState, o: Observation, k: nat)
    requires k >= 1
    requires Step(st, o).confirmation == Some(o.labelIndex)
    requires Step(st, o).next.confirmed == o.labelIndex
    ensures Run(st, Repeat(o, k)).confirms == [o.labelIndex]
    ensures Run(st, Repeat(o, k)).final.confirmed == o.labelIndex
  {
    var s1 := Step(st, o);
    RunRepeatCons(st, o, k);
    HoldingConfirmedLabel(s1.next, o, k - 1);
    assert Emitted(s1) == [o.labelIndex];
    assert Emitted(s1) + [] == [o.labelIndex];
  }

  /** The first frame only lengthens the run; the rest complete it. */
  lemma ConfirmLater(st: DebounceState, o: Observation, k: nat)
    requires Accepted(o) && k >= 2
    requires Step(st, o).confirmation.None?
    requires Step(st, o).next.counter >= 0 && Step(st, o).next.confirmed != o.labelIndex
    requires k - 1 + RunSoFar(Step(st, o).next, o) >= DebounceThreshold
    ensures Run(st, Repeat(o, k)).confirms == [o.labelIndex]
    ensures Run(st, Repeat(o, k)).final.confirmed == o.labelIndex
    decreases k, 0
  {
    var s1 := Step(st, o);
    RunRepeatCons(st, o, k);
    ConfirmWithin(s1.next, o, k - 1);
    var r := Run(s1.next, Repeat(o, k - 1));
    assert Run(st, Repeat(o, k)).confirms == Emitted(s1) + r.confirms;
    assert Emitted(s1) + r.confirms == r.confirms by {
      assert Emitted(s1) == [];
    }
  }

  /** k + 1 frames of one label: the first, then the other k. */
  lemma RunRepeatCons(st: DebounceState, o: Observation, k: nat)
    requires k >= 1
    ensures var s := Step(st, o); var r := Run(s.next, Repeat(o, k - 1));
            Run(st, Repeat(o, k)) == RunResult(r.final, Emitted(s) + r.confirms)
  {
    RepeatCons(o, k - 1);
    RunCons(st, o, Repeat(o, k - 1));
  }

  lemma RepeatCons(o: Observation, k: nat)
    ensures Repeat(o, k + 1) == [o] + Repeat(o, k)
  {
    RepeatSplit(o, 1, k);
    assert Repeat(o, 1) == [] + [o];
  }

  /** Running a frame and then more frames. */
  lemma RunCons(st: DebounceState, o: Observation, rest: seq<Observation>)
    ensures Run(st, [o] + rest) ==
            var s := Step(st, o); var r := Run(s.next, rest);
            RunResult(r.final, Emitted(s) + r.confirms)
  {
    RunAppend(st, [o], rest);
    RunSnoc(st, [], o);
    assert [] + [o] == [o];
  }

  /** Three or more consecutive confident frames of a label that is not the
      confirmed one confirm it exactly once. */
  lemma RepeatConfirmsOnce(st: DebounceState, o: Observation, k: nat)
    requires st.counter >= 0
    requires Accepted(o) && k >= 3
    ensures Run(st, Repeat(o, k)).confirms == (if st.confirmed == o.labelIndex then [] else [o.labelIndex])
    ensures Run(st, Repeat(o, k)).final.confirmed == o.labelIndex
  {
    if st.confirmed == o.labelIndex {
      HoldingConfirmedLabel(st, o, k);
    } else {
      ConfirmWithin(st, o, k);
    }
  }

  /** Without background labels among them, every confirmation is published. */
  lemma {:induction false} EventsWithoutBackground(c: seq<nat>, background: set<int>)
    requires forall i :: 0 <= i < |c| ==> c[i] !in background
    ensures Events(c, background) == c
    decreases |c|
  {
    if c != [] {
      EventsWithoutBackground(c[..|c| - 1], background);
      assert c == c[..|c| - 1] + [c[|c| - 1]];
    }
  }

  /** [A, A, A, A, A] from the initial state publishes A once. */
  lemma FiveFramesOneEvent(a: Observation, background: set<int>)
    requires Accepted(a) && a.labelIndex !in background
    ensures Events(Run(Initial, Repeat(a, 5)).confirms, background) == [a.labelIndex]
  {
    RepeatConfirmsOnce(Initial, a, 5);
    EventsWithoutBackground([a.labelIndex], background);
  }

  /** [A, A, A, B, B, B] publishes A, then B. */
  lemma TwoLabelsTwoEvents(a: Observation, b: Observation, background: set<int>)
    requires Accepted(a) && Accepted(b) && a.labelIndex != b.labelIndex
    requires a.labelIndex !in background && b.labelIndex !in background
    ensures Events(Run(Initial, Repeat(a, 3) + Repeat(b, 3)).confirms, background) == [a.labelIndex, b.labelIndex]
  {
    RunAppend(Initial, Repeat(a, 3), Repeat(b, 3));
    RepeatConfirmsOnce(Initial, a, 3);
    var ra := Run(Initial, Repeat(a, 3));
    RunPreservesInv(Initial, Repeat(a, 3));
    RepeatConfirmsOnce(ra.final, b, 3);
    assert [a.labelIndex] + [b.labelIndex] == [a.labelIndex, b.labelIndex];
    EventsWithoutBackground([a.labelIndex, b.labelIndex], background);
  }

  /** The confirmations of [A x 5, B x 3, A x 3] from the initial state. */
  lemma ReArmConfirms(a: Observation, b: Observation)
    requires Accepted(a) && Accepted(b) && a.labelIndex != b.labelIndex
    ensures Run(Initial, Repeat(a, 5) + Repeat(b, 3) + Repeat(a, 3)).confirms
            == [a.labelIndex, b.labelIndex, a.labelIndex]
  {
    InitialInv();
    var r1 := Run(Initial, Repeat(a, 5));
    RepeatConfirmsOnce(Initial, a, 5);
    RunPreservesInv(Initial, Repeat(a, 5));
    var r2 := Run(r1.final, Repeat(b, 3));
    RepeatConfirmsOnce(r1.final, b, 3);
    RunPreservesInv(r1.final, Repeat(b, 3));
    RepeatConfirmsOnce(r2.final, a, 3);
    RunAppend(Initial, Repeat(a, 5), Repeat(b, 3));
    RunAppend(Initial, Repeat(a, 5) + Repeat(b, 3), Repeat(a, 3));
    assert [a.labelIndex] + [b.labelIndex] + [a.labelIndex] == [a.labelIndex, b.labelIndex, a.labelIndex];
  }

  /** [A, A, A, A, A, B, B, B, A, A, A] publishes A, B, A: the confirmation
      of B re-arms A. */
  lemma ReArmedByOtherLabel(a: Observation, b: Observation, background: set<int>)
    requires Accepted(a) && Accepted(b) && a.labelIndex != b.labelIndex
    requires a.labelIndex !in background && b.labelIndex !in background
    ensures Events(Run(Initial, Repeat(a, 5) + Repeat(b, 3) + Repeat(a, 3)).confirms, background)
            == [a.labelIndex, b.labelIndex, a.labelIndex]
  {
    ReArmConfirms(a, b);
    EventsWithoutBackground([a.labelIndex, b.labelIndex, a.labelIndex], background);
  }

  /** A background label held for three frames is confirmed internally but
      publishes nothing. */
  lemma BackgroundConfirmedSilently(a: Observation, background: set<int>)
    requires Accepted(a) && a.labelIndex in background
    ensures Run(Initial, Repeat(a, 3)).final.confirmed == a.labelIndex
    ensures Events(Run(Initial, Repeat(a, 3)).confirms, background) == []
  {
    RepeatConfirmsOnce(Initial, a, 3);
    EventsSnoc([], a.labelIndex, background);
  }
}
