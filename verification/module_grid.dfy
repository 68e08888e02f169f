/** The grid of dashboard cards: the homework checklist of the study card,
    the weekly goal and the activity bars of the sports card, and the daily
    plan with its completion count. */
module ModuleGrid {
  import opened Seqs

  // ------------------------------------------------------------ study card

  datatype Homework = Homework(id: int, subject: string, task: string, done: bool)

  function FlipHomework(h: Homework): Homework { h.(done := !h.done) }

  function HomeworkId(id: int): Homework -> bool { (h: Homework) => h.id == id }

  /** `toggleHomework`: the items with the given id change their `done`
      flag; everything else, the order and the length stay. */
  function ToggleHomework(hs: seq<Homework>, id: int): (r: seq<Homework>)
    ensures |r| == |hs|
    ensures forall i :: 0 <= i < |hs| ==>
      r[i].id == hs[i].id && r[i].subject == hs[i].subject && r[i].task == hs[i].task &&
      r[i].done == (if hs[i].id == id then !hs[i].done else hs[i].done)
  {
    MapWhere(hs, HomeworkId(id), FlipHomework)
  }

  /** Ticking the same item twice gives back the checklist. */
  lemma ToggleHomeworkTwice(hs: seq<Homework>, id: int)
    ensures ToggleHomework(ToggleHomework(hs, id), id) == hs
  {
    MapWhereTwice(hs, HomeworkId(id), FlipHomework);
  }

  // ----------------------------------------------------------- sports card

  /** The weekly goal row: box i of `goal` is filled when i < done. */
  function WeeklyBoxes(goal: nat, done: int): (boxes: seq<bool>)
    ensures |boxes| == goal
    ensures forall i :: 0 <= i < goal ==> (boxes[i] <==> i < done)
  {
    seq(goal, i requires 0 <= i < goal => i < done)
  }

  /** The filled boxes are exactly the first `done` ones (all of them once
      the goal is met), so as many are filled as days were done, capped at
      the goal. */
  lemma {:induction false} WeeklyFilled(goal: nat, done: nat)
    ensures |Filter(WeeklyBoxes(goal, done), Id)| == if done < goal then done else goal
  {
    if goal > 0 {
      var boxes := WeeklyBoxes(goal, done);
      assert boxes == WeeklyBoxes(goal - 1, done) + [goal - 1 < done];
      FilterSnoc(WeeklyBoxes(goal - 1, done), goal - 1 < done, Id);
      WeeklyFilled(goal - 1, done);
    }
  }

  datatype Activity = Activity(name: string, target: int, current: int, unit: string, icon: string)

  /** An activity is shown as complete once its target is reached. */
  predicate Complete(a: Activity) { a.current >= a.target }

  /** The width of an activity's bar, in percent: its progress, capped at 100. */
  function BarWidth(a: Activity): (w: real)
    requires 0 < a.target
    ensures 0 <= a.current ==> 0.0 <= w <= 100.0
  {
    var ratio := (a.current as real / a.target as real) * 100.0;
    if ratio < 100.0 then ratio else 100.0
  }

  /** The bar is full exactly when the activity is shown as complete. */
  lemma BarFullIffComplete(a: Activity)
    requires 0 < a.target
    ensures BarWidth(a) == 100.0 <==> Complete(a)
  {
    var t := a.target as real;
    var q := a.current as real / t;
    assert q * t == a.current as real;
    if Complete(a) {
      assert q >= 1.0;
    } else {
      assert q < 1.0;
    }
  }

  // ------------------------------------------------------------- plan card

  datatype Plan = Plan(id: int, time: string, activity: string, done: bool)

  function FlipPlan(p: Plan): Plan { p.(done := !p.done) }

  function PlanId(id: int): Plan -> bool { (p: Plan) => p.id == id }

  function IsDone(p: Plan): bool { p.done }

  function IsOpen(p: Plan): bool { !p.done }

  /** `togglePlan`: the plans with the given id change their `done` flag;
      everything else, the order and the length stay. */
  function TogglePlan(ps: seq<Plan>, id: int): (r: seq<Plan>)
    ensures |r| == |ps|
    ensures forall i :: 0 <= i < |ps| ==>
      r[i].id == ps[i].id && r[i].time == ps[i].time && r[i].activity == ps[i].activity &&
      r[i].done == (if ps[i].id == id then !ps[i].done else ps[i].done)
  {
    MapWhere(ps, PlanId(id), FlipPlan)
  }

  /** Toggling the same plan twice gives back the list. */
  lemma TogglePlanTwice(ps: seq<Plan>, id: int)
    ensures TogglePlan(TogglePlan(ps, id), id) == ps
  {
    MapWhereTwice(ps, PlanId(id), FlipPlan);
  }

  /** `completedCount`: the number of plans done. */
  function CompletedCount(ps: seq<Plan>): (n: nat)
    ensures n <= |ps|
  {
    |Filter(ps, IsDone)|
  }

  /** The plans done and the plans open add up to the list; the count is the
      whole list exactly when every plan is done, and 0 exactly when none is. */
  lemma CompletedCountSplits(ps: seq<Plan>)
    ensures CompletedCount(ps) + |Filter(ps, IsOpen)| == |ps|
    ensures CompletedCount(ps) == |ps| <==> forall p :: p in ps ==> p.done
    ensures CompletedCount(ps) == 0 <==> forall p :: p in ps ==> !p.done
  {
    FilterSplit(ps, IsDone, IsOpen);
    FilterAll(ps, IsDone);
    FilterNone(ps, IsDone);
    if CompletedCount(ps) == |ps| {
      FilterFull(ps, IsDone);
    }
  }

  /** Toggling one plan that is open, with an id no other plan carries,
      completes one more plan. */
  lemma {:induction false} ToggleOpenCounts(ps: seq<Plan>, k: nat)
    requires k < |ps| && !ps[k].done
    requires forall i :: 0 <= i < |ps| && i != k ==> ps[i].id != ps[k].id
    ensures CompletedCount(TogglePlan(ps, ps[k].id)) == CompletedCount(ps) + 1
  {
    var id := ps[k].id;
    var qs := TogglePlan(ps, id);
    assert ps == ps[..k] + [ps[k]] + ps[k + 1..];
    assert qs == ps[..k] + [FlipPlan(ps[k])] + ps[k + 1..];
    FilterConcat(ps[..k] + [ps[k]], ps[k + 1..], IsDone);
    FilterConcat(ps[..k] + [FlipPlan(ps[k])], ps[k + 1..], IsDone);
    FilterSnoc(ps[..k], ps[k], IsDone);
    FilterSnoc(ps[..k], FlipPlan(ps[k]), IsDone);
  }

  /** The width of the plan card's progress bar, in percent; an empty plan
      list has no number to show (the division is 0 / 0). */
  function PlanWidth(ps: seq<Plan>): (w: Option<real>)
    ensures w.Some? <==> |ps| > 0
    ensures w.Some? ==> 0.0 <= w.value <= 100.0
  {
    if |ps| == 0 then None
    else Some((CompletedCount(ps) as real / |ps| as real) * 100.0)
  }
}
