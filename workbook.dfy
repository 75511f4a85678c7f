// The "after originality" workbook: a row of steps shown one at a time, four answers
// chosen with buttons, a progress bar and a summary of the answers. The page's DOM
// becomes fields: the `is-active` flag of each step, the progress bar's visibility and
// width, and the text of the four summary spans. Scrolling to the top is left out.
module Workbook {
  import opened Wrappers

  /** The keys of the answer object, in the order of the summary fields. */
  const SummaryKeys: seq<string> := ["make", "refuse", "protect", "sacrifice"]

  /** What an empty answer shows in the summary. */
  const Dash: string := "—"

  /** The answer object the page starts from, and returns to on reset. */
  const EmptyAnswers: map<string, string> := map["make" := "", "refuse" := "", "protect" := "", "sacrifice" := ""]

  /** `clampStep`: the index limited to the steps that exist; 0 when there are none. */
  function ClampStep(index: int, stepCount: nat): (r: int)
    ensures stepCount == 0 ==> r == 0
    ensures stepCount > 0 ==> 0 <= r < stepCount
    ensures 0 <= index < stepCount ==> r == index
    ensures stepCount > 0 && index >= stepCount ==> r == stepCount - 1
    ensures index < 0 ==> r == 0
  {
    var m := if index < stepCount - 1 then index else stepCount - 1;
    if 0 < m then m else 0
  }

  /** Clamping twice is clamping once. */
  lemma ClampIdempotent(index: int, stepCount: nat)
    ensures ClampStep(ClampStep(index, stepCount), stepCount) == ClampStep(index, stepCount)
  {
  }

  /** The progress bar's width in percent for a step: `(index + 1) / steps.length * 100`; none is a number when there are no steps. */
  function ProgressPercent(safe: int, stepCount: nat): (p: Option<real>)
    ensures stepCount == 0 <==> p.None?
    ensures stepCount > 0 && 0 <= safe < stepCount ==> 0.0 < p.value <= 100.0
    ensures stepCount > 0 ==> (p.value == 100.0 <==> safe == stepCount - 1)
  {
    if stepCount == 0 then None
    else
      var p := (safe + 1) as real / stepCount as real * 100.0;
      assert p == 100.0 <==> (safe + 1) as real == stepCount as real;
      Some(p)
  }

  /** What a summary span shows for an answer: the answer, or a dash when it is empty. */
  function SummaryText(value: string): (t: string)
    ensures value == "" ==> t == Dash
    ensures value != "" ==> t == value
  {
    if value == "" then Dash else value
  }

  /** The index reached from `step` by `k` advances. */
  function Advanced(step: int, stepCount: nat, k: nat): int {
    if k == 0 then step else ClampStep(Advanced(step, stepCount, k - 1) + 1, stepCount)
  }

  /** Advancing `k` times from a shown step reaches `min(step + k, last)`: advancing on the last step changes nothing. */
  lemma {:induction false} AdvanceReachesLast(step: int, stepCount: nat, k: nat)
    requires 0 <= step < stepCount
    ensures Advanced(step, stepCount, k) == if step + k < stepCount then step + k else stepCount - 1
  {
    if k > 0 {
      AdvanceReachesLast(step, stepCount, k - 1);
    }
  }

  /** The workbook page: its steps, the answers, the current step and what is shown. */
  class Workbook {
    const active: array<bool>
    var answers: map<string, string>
    var currentStep: int
    var progressHidden: bool
    var progressPercent: Option<real>
    var summary: map<string, string>

    /** The four answer keys always exist, the current step is the clamped one, and the step flags and the progress bar show it. */
    ghost predicate Valid()
      reads this, active
    {
      && (forall k :: k in SummaryKeys ==> k in answers)
      && currentStep == ClampStep(currentStep, active.Length)
      && Shows(currentStep)
    }

    /** Exactly the step `safe` carries `is-active`, and the progress bar reflects it. */
    ghost predicate Shows(safe: int)
      reads this, active
    {
      && (forall i :: 0 <= i < active.Length ==> active[i] == (i == safe))
      && progressHidden == (safe == 0)
      && progressPercent == ProgressPercent(safe, active.Length)
    }

    /** Every summary span shows its answer, or the dash for an empty one. */
    ghost predicate SummaryShown()
      reads this
    {
      forall k :: k in SummaryKeys ==> k in answers && k in summary && summary[k] == SummaryText(answers[k])
    }

    /** The effect's setup: empty answers, step 0 rendered, the summary rendered. */
    constructor (stepCount: nat)
      ensures Valid() && SummaryShown() && fresh(active) && active.Length == stepCount
      ensures answers == EmptyAnswers && currentStep == 0
    {
      active := new bool[stepCount](_ => false);
      answers := EmptyAnswers;
      summary := map[];
      currentStep := 0;
      progressHidden := true;
      progressPercent := None;
      new;
      currentStep := RenderStep(0);
      RenderSummary();
    }

    /** `renderStep`: mark exactly the clamped step active, hide the progress bar on step 0, and size it to the step. */
    method RenderStep(index: int) returns (safe: int)
      modifies active, this`progressHidden, this`progressPercent
      ensures safe == ClampStep(index, active.Length)
      ensures Shows(safe)
    {
      safe := ClampStep(index, active.Length);
      var i := 0;
      while i < active.Length
        invariant 0 <= i <= active.Length
        invariant forall j :: 0 <= j < i ==> active[j] == (j == safe)
      {
        active[i] := i == safe;
        i := i + 1;
      }
      progressHidden := safe == 0;
      progressPercent := ProgressPercent(safe, active.Length);
    }

    /** `renderSummary`: each summary span shows its answer or the dash. */
    method RenderSummary()
      requires forall k :: k in SummaryKeys ==> k in answers
      modifies this`summary
      ensures SummaryShown()
    {
      var i := 0;
      while i < |SummaryKeys|
        invariant 0 <= i <= |SummaryKeys|
        invariant forall j :: 0 <= j < i ==> SummaryKeys[j] in summary && summary[SummaryKeys[j]] == SummaryText(answers[SummaryKeys[j]])
      {
        var key := SummaryKeys[i];
        summary := summary[key := SummaryText(answers[key])];
        i := i + 1;
      }
    }

    /** `handleChoice`: a button without a key or a value does nothing; otherwise its answer is stored under its key, the summary redrawn and the workbook advanced one step. */
    method HandleChoice(key: Option<string>, value: Option<string>)
      requires Valid()
      modifies this, active
      ensures Valid()
      ensures (key.None? || key.value == "" || value.None? || value.value == "") ==>
        answers == old(answers) && currentStep == old(currentStep) && unchanged(active)
      ensures key.Some? && key.value != "" && value.Some? && value.value != "" ==>
        && answers == old(answers)[key.value := value.value]
        && currentStep == ClampStep(old(currentStep) + 1, active.Length)
        && SummaryShown()
    {
      if key.None? || key.value == "" || value.None? || value.value == "" {
        return;
      }
      answers := answers[key.value := value.value];
      RenderSummary();
      currentStep := RenderStep(currentStep + 1);
    }

    /** `handleAdvance`: one step on, never past the last. */
    method HandleAdvance()
      requires Valid()
      modifies active, this`currentStep, this`progressHidden, this`progressPercent
      ensures Valid()
      ensures currentStep == ClampStep(old(currentStep) + 1, active.Length)
    {
      currentStep := RenderStep(currentStep + 1);
    }

    /** `handleReset`: every answer key, including any a button added, is set to the empty string; the summary is redrawn and the workbook returns to step 0. */
    method HandleReset()
      requires Valid()
      modifies this, active
      ensures Valid() && SummaryShown()
      ensures answers.Keys == old(answers).Keys && forall k :: k in answers ==> answers[k] == ""
      ensures currentStep == 0
      ensures forall k :: k in SummaryKeys ==> summary[k] == Dash
    {
      var remaining := answers.Keys;
      while remaining != {}
        invariant remaining <= answers.Keys && answers.Keys == old(answers).Keys
        invariant forall k :: k in answers && k !in remaining ==> answers[k] == ""
        decreases remaining
      {
        var k :| k in remaining;
        answers := answers[k := ""];
        remaining := remaining - {k};
      }
      RenderSummary();
      currentStep := RenderStep(0);
    }
  }
}
