/**
 * The learning roadmaps (src/pages/Roadmap.tsx): the difficulty badge colour,
 * each card's progress and expand button, the styling of a step, and the sums
 * of the overview card.
 */
module Roadmap {
  import opened Text
  import opened Percent
  import opened Icons

  /** A step; `current` is absent, hence false, on all but one step per roadmap. */
  datatype Step = Step(id: int, title: string, completed: bool, resources: nat, current: bool)

  datatype Roadmap = Roadmap(
    id: int,
    title: string,
    totalSteps: nat,
    completedSteps: nat,
    difficulty: string,
    estimatedTime: string,
    steps: seq<Step>)

  /** The first entry of `roadmaps` (descriptions are omitted throughout). */
  const Frontend: Roadmap :=
    Roadmap(1, "Frontend Development", 12, 7, "Intermediate", "8 weeks", [
      Step(1, "HTML & CSS Fundamentals", true, 3, false),
      Step(2, "JavaScript Basics", true, 5, false),
      Step(3, "DOM Manipulation", true, 4, false),
      Step(4, "ES6+ Features", true, 3, false),
      Step(5, "React Fundamentals", true, 6, false),
      Step(6, "React Hooks", true, 4, false),
      Step(7, "State Management", true, 5, false),
      Step(8, "React Router", false, 3, true),
      Step(9, "Testing with Jest", false, 4, false),
      Step(10, "Performance Optimization", false, 3, false),
      Step(11, "TypeScript Integration", false, 5, false),
      Step(12, "Deployment & CI/CD", false, 4, false)])

  /** The second entry of `roadmaps`. */
  const Backend: Roadmap :=
    Roadmap(2, "Backend Development", 10, 3, "Advanced", "10 weeks", [
      Step(1, "Node.js Basics", true, 4, false),
      Step(2, "Express Framework", true, 5, false),
      Step(3, "Database Design", true, 6, false),
      Step(4, "Authentication & Security", false, 7, true),
      Step(5, "RESTful APIs", false, 5, false),
      Step(6, "GraphQL", false, 4, false),
      Step(7, "Testing & Documentation", false, 3, false),
      Step(8, "Caching & Performance", false, 4, false),
      Step(9, "Microservices", false, 6, false),
      Step(10, "DevOps & Deployment", false, 5, false)])

  /** The third entry of `roadmaps`. */
  const FullStack: Roadmap :=
    Roadmap(3, "Full Stack Integration", 8, 0, "Advanced", "6 weeks", [
      Step(1, "Project Architecture", false, 4, true),
      Step(2, "API Integration", false, 5, false),
      Step(3, "Real-time Features", false, 3, false),
      Step(4, "File Upload & Processing", false, 4, false),
      Step(5, "Payment Integration", false, 5, false),
      Step(6, "Email & Notifications", false, 3, false),
      Step(7, "Performance Monitoring", false, 4, false),
      Step(8, "Production Deployment", false, 6, false)])

  /** `roadmaps`. */
  const Roadmaps: seq<Roadmap> := [Frontend, Backend, FullStack]

  /**
   * `getDifficultyColor`: the lower-cased difficulty picks the success, warning
   * or destructive colour; any other difficulty gets the primary colour.
   */
  function DifficultyColor(difficulty: string): (c: string)
    ensures c == "bg-success" <==> ToLower(difficulty) == "beginner"
    ensures c == "bg-warning" <==> ToLower(difficulty) == "intermediate"
    ensures c == "bg-destructive" <==> ToLower(difficulty) == "advanced"
    ensures c == "bg-primary" <==> ToLower(difficulty) !in {"beginner", "intermediate", "advanced"}
  {
    match ToLower(difficulty)
    case "beginner" => "bg-success"
    case "intermediate" => "bg-warning"
    case "advanced" => "bg-destructive"
    case _ => "bg-primary"
  }

  /** The colour does not depend on the case of the difficulty. */
  lemma DifficultyColorCaseInsensitive(a: string, b: string)
    requires ToLower(a) == ToLower(b)
    ensures DifficultyColor(a) == DifficultyColor(b)
  {
  }

  /** The fixture's "Intermediate" and "Advanced" get the warning and destructive colours. */
  lemma FixtureDifficultyColors()
    ensures DifficultyColor("Intermediate") == "bg-warning"
    ensures DifficultyColor("Advanced") == "bg-destructive"
  {
    assert ToLower("Intermediate") == "intermediate";
    assert ToLower("Advanced") == "advanced";
  }

  /** `progress`: the rounded percentage of completed steps. */
  function Progress(r: Roadmap): (p: nat)
    requires r.totalSteps > 0
    ensures r.completedSteps <= r.totalSteps ==> p <= 100
    ensures r.completedSteps == r.totalSteps ==> p == 100
    ensures r.completedSteps == 0 ==> p == 0
  {
    RoundedPercent(r.completedSteps, r.totalSteps)
  }

  /** The border and title colour of a step. */
  datatype Tone = CurrentTone | CompletedTone | PlainTone

  /** Row styling tests `current` before `completed`. */
  function StepTone(s: Step): (t: Tone)
    ensures t == CurrentTone <==> s.current
    ensures t == CompletedTone <==> s.completed && !s.current
    ensures t == PlainTone <==> !s.completed && !s.current
  {
    if s.current then CurrentTone else if s.completed then CompletedTone else PlainTone
  }

  /** The step icon tests `completed` before `current`. */
  function StepIcon(s: Step): (i: Icon)
    ensures i == CheckCircle <==> s.completed
    ensures i == Clock <==> s.current && !s.completed
    ensures i == Circle <==> !s.completed && !s.current
  {
    if s.completed then CheckCircle else if s.current then Clock else Circle
  }

  /**
   * The two priorities disagree only on a step that is both current and
   * completed: it is styled as current but shows the completed icon.
   */
  lemma ToneAndIconDisagreeOnlyWhenBoth(s: Step)
    ensures (StepTone(s) == CurrentTone) != (StepIcon(s) == Clock) <==> s.current && s.completed
    ensures (StepTone(s) == CompletedTone) != (StepIcon(s) == CheckCircle) <==> s.current && s.completed
  {
  }

  /** Number of steps marked completed. */
  function CompletedCount(steps: seq<Step>): (n: nat)
    ensures n <= |steps|
  {
    if steps == [] then 0 else (if steps[0].completed then 1 else 0) + CompletedCount(steps[1..])
  }

  /** Number of steps marked current. */
  function CurrentCount(steps: seq<Step>): (n: nat)
    ensures n <= |steps|
  {
    if steps == [] then 0 else (if steps[0].current then 1 else 0) + CurrentCount(steps[1..])
  }

  /** The step counters of a roadmap agree with its steps. */
  predicate CountersAgree(r: Roadmap)
  {
    r.completedSteps == CompletedCount(r.steps) && r.totalSteps == |r.steps|
  }

  /** Exactly the first `n` steps are completed. */
  predicate CompletedPrefix(steps: seq<Step>, n: nat)
  {
    n <= |steps| && forall j :: 0 <= j < |steps| ==> (steps[j].completed <==> j < n)
  }

  /** Step `i` is the only current step and the first one not completed. */
  predicate CurrentIsFirstUncompleted(steps: seq<Step>, i: nat)
  {
    && i < |steps|
    && steps[i].current && !steps[i].completed
    && (forall j :: 0 <= j < i ==> steps[j].completed)
    && (forall j :: 0 <= j < |steps| && j != i ==> !steps[j].current)
  }

  /** When the completed steps are a prefix, the completed count is its length. */
  lemma {:induction false} CompletedPrefixCount(steps: seq<Step>, n: nat)
    requires CompletedPrefix(steps, n)
    ensures CompletedCount(steps) == n
  {
    if steps != [] {
      var m := if n > 0 then n - 1 else 0;
      assert CompletedPrefix(steps[1..], m) by {
        forall j | 0 <= j < |steps[1..]| ensures steps[1..][j].completed <==> j < m {
          assert steps[1..][j] == steps[j + 1];
        }
      }
      CompletedPrefixCount(steps[1..], m);
    }
  }

  /** Steps none of which is current count zero current steps. */
  lemma {:induction false} NoCurrentCount(steps: seq<Step>)
    requires forall j :: 0 <= j < |steps| ==> !steps[j].current
    ensures CurrentCount(steps) == 0
  {
    if steps != [] {
      assert forall j :: 0 <= j < |steps[1..]| ==> steps[1..][j] == steps[j + 1];
      NoCurrentCount(steps[1..]);
    }
  }

  /** A single current step makes the current count one. */
  lemma {:induction false} SingleCurrentCount(steps: seq<Step>, i: nat)
    requires i < |steps| && steps[i].current
    requires forall j :: 0 <= j < |steps| && j != i ==> !steps[j].current
    ensures CurrentCount(steps) == 1
  {
    assert forall j :: 0 <= j < |steps[1..]| ==> steps[1..][j] == steps[j + 1];
    if i == 0 {
      NoCurrentCount(steps[1..]);
    } else {
      SingleCurrentCount(steps[1..], i - 1);
    }
  }

  /**
   * A roadmap is laid out as the fixtures are: its counters agree with its steps,
   * the completed steps come first, and the step right after them is the only current one.
   */
  predicate WellFormed(r: Roadmap)
  {
    && r.totalSteps == |r.steps|
    && CompletedPrefix(r.steps, r.completedSteps)
    && CurrentIsFirstUncompleted(r.steps, r.completedSteps)
  }

  /** A well-formed roadmap's counters agree with its steps, and it has exactly one current step. */
  lemma WellFormedCounts(r: Roadmap)
    requires WellFormed(r)
    ensures CountersAgree(r) && r.completedSteps < r.totalSteps
    ensures CurrentCount(r.steps) == 1
  {
    CompletedPrefixCount(r.steps, r.completedSteps);
    SingleCurrentCount(r.steps, r.completedSteps);
  }

  /** The first fixture roadmap: steps 1 to 7 done, step 8 current. */
  lemma FrontendWellFormed()
    ensures WellFormed(Frontend)
  {
  }

  /** The second fixture roadmap: steps 1 to 3 done, step 4 current. */
  lemma BackendWellFormed()
    ensures WellFormed(Backend)
  {
  }

  /** The third fixture roadmap: nothing done, step 1 current. */
  lemma FullStackWellFormed()
    ensures WellFormed(FullStack)
  {
  }

  /**
   * In every fixture roadmap the counters agree with the steps, there is exactly
   * one current step, and it is the first uncompleted one.
   */
  lemma FixtureRoadmapsWellFormed(r: Roadmap)
    requires r in Roadmaps
    ensures WellFormed(r) && CountersAgree(r) && CurrentCount(r.steps) == 1
  {
    if r == Frontend {
      FrontendWellFormed();
    } else if r == Backend {
      BackendWellFormed();
    } else {
      FullStackWellFormed();
    }
    WellFormedCounts(r);
  }

  /** The "Steps Completed" sum of the overview card. */
  function SumCompleted(rs: seq<Roadmap>): nat
  {
    if rs == [] then 0 else rs[0].completedSteps + SumCompleted(rs[1..])
  }

  /** The "Total Steps" sum of the overview card. */
  function SumTotal(rs: seq<Roadmap>): nat
  {
    if rs == [] then 0 else rs[0].totalSteps + SumTotal(rs[1..])
  }

  /** When no roadmap claims more completed steps than it has, neither does the sum. */
  lemma {:induction false} SumCompletedAtMostTotal(rs: seq<Roadmap>)
    requires forall k :: 0 <= k < |rs| ==> rs[k].completedSteps <= rs[k].totalSteps
    ensures SumCompleted(rs) <= SumTotal(rs)
  {
    if rs != [] {
      SumCompletedAtMostTotal(rs[1..]);
    }
  }

  /** The overview card shows 10 of 30 steps completed, and never more completed than total. */
  lemma FixtureSums()
    ensures SumCompleted(Roadmaps) == 10 && SumTotal(Roadmaps) == 30
    ensures SumCompleted(Roadmaps) <= SumTotal(Roadmaps)
  {
    assert Roadmaps[1..] == [Backend, FullStack] && Roadmaps[1..][1..] == [FullStack];
    assert [FullStack][1..] == [];
    assert SumCompleted([]) == 0 && SumTotal([]) == 0;
    assert Frontend.totalSteps == 12 && Backend.totalSteps == 10 && FullStack.totalSteps == 8;
    assert SumCompleted([FullStack]) == 0 && SumTotal([FullStack]) == 8;
    assert SumCompleted([Backend, FullStack]) == 3 && SumTotal([Backend, FullStack]) == 18;
    SumCompletedAtMostTotal(Roadmaps);
  }

  /** One `RoadmapCard` with its `expanded` flag. */
  class RoadmapCard {
    const roadmap: Roadmap
    var expanded: bool

    /** A card starts collapsed. */
    constructor (r: Roadmap)
      ensures roadmap == r && !expanded
    {
      roadmap := r;
      expanded := false;
    }

    /** The expand button: `setExpanded(!expanded)`. */
    method ToggleExpanded()
      modifies this
      ensures expanded == !old(expanded)
    {
      expanded := !expanded;
    }

    /** The steps listed: all of them when expanded, none when collapsed. */
    function VisibleSteps(): (s: seq<Step>)
      reads this
      ensures expanded ==> s == roadmap.steps
      ensures !expanded ==> s == []
    {
      if expanded then roadmap.steps else []
    }

    /** The button's caption. */
    function ButtonLabel(): (l: string)
      reads this
      ensures l == "Hide Steps" <==> expanded
    {
      if expanded then "Hide Steps" else "View Learning Path"
    }
  }

  /** Pressing the button twice on a new card leaves it collapsed again. */
  method PressTwice(r: Roadmap) returns (card: RoadmapCard)
    ensures fresh(card) && !card.expanded && card.VisibleSteps() == []
  {
    card := new RoadmapCard(r);
    card.ToggleExpanded();
    assert card.expanded;
    card.ToggleExpanded();
  }
}
