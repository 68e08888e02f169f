/** The butler card: a greeting and a weather icon chosen by the hour of the
    clock, a quote picked at random on mount, and a three-item task list with
    its progress bar. The hour and the random value are inputs. */
module LegoButler {
  import opened Seqs

  /** The greeting for an hour of the day (`getHours()`). */
  function Greeting(hour: int): (g: string)
    ensures g == "早上好" <==> hour < 12
    ensures g == "下午好" <==> 12 <= hour < 18
    ensures g == "晚上好" <==> 18 <= hour
  {
    if hour < 12 then "早上好"
    else if hour < 18 then "下午好"
    else "晚上好"
  }

  datatype Icon = Sun | Cloud

  /** The weather icon: the sun from 6 to 18 o'clock, a cloud otherwise. */
  function WeatherIcon(hour: int): (i: Icon)
    ensures i == Sun <==> 6 <= hour < 18
  {
    if hour >= 6 && hour < 18 then Sun else Cloud
  }

  /** Every afternoon hour shows the sun; every evening hour and every hour
      before 6 shows the cloud. */
  lemma AfternoonIsSunny(hour: int)
    ensures Greeting(hour) == "下午好" ==> WeatherIcon(hour) == Sun
    ensures Greeting(hour) == "晚上好" || hour < 6 ==> WeatherIcon(hour) == Cloud
  {
  }

  /** A value `Math.random()` can return. */
  type Unit = r: real | 0.0 <= r < 1.0

  const Quotes: seq<string> := [
    "今天也是充满创造力的一天！",
    "像乐高积木一样，一块一块搭建你的梦想！",
    "每一次尝试都是成长的机会！",
    "相信自己，你可以创造出奇迹！",
    "保持好奇心，探索无限可能！",
    "失败是成功的一部分，继续加油！"]

  /** `Math.floor(Math.random() * n)`: an index into a list of n > 0 items. */
  function PickIndex(roll: Unit, n: nat): (i: int)
    ensures 0 < n ==> 0 <= i < n
  {
    var m := n as real;
    var x := roll * m;
    assert 0.0 <= x && m - x == (1.0 - roll) * m;
    assert 0 < n ==> 0.0 < (1.0 - roll) * m;
    x.Floor
  }

  /** The quote shown after mounting. */
  function Quote(roll: Unit): (q: string)
    ensures q in Quotes
  {
    Quotes[PickIndex(roll, |Quotes|)]
  }

  datatype Task = Task(id: int, text: string, completed: bool)

  function Flip(t: Task): Task { t.(completed := !t.completed) }

  function HasId(id: int): Task -> bool { (t: Task) => t.id == id }

  function IsCompleted(t: Task): bool { t.completed }

  /** `toggleTask`: every task with the given id flips its `completed`
      flag; everything else, the order and the length stay. */
  function ToggleTask(tasks: seq<Task>, id: int): (r: seq<Task>)
    ensures |r| == |tasks|
    ensures forall i :: 0 <= i < |tasks| ==>
      r[i].id == tasks[i].id && r[i].text == tasks[i].text &&
      r[i].completed == (if tasks[i].id == id then !tasks[i].completed else tasks[i].completed)
  {
    MapWhere(tasks, HasId(id), Flip)
  }

  /** Toggling the same id twice gives back the list. */
  lemma ToggleTaskTwice(tasks: seq<Task>, id: int)
    ensures ToggleTask(ToggleTask(tasks, id), id) == tasks
  {
    MapWhereTwice(tasks, HasId(id), Flip);
  }

  /** `completedCount`. */
  function CompletedCount(tasks: seq<Task>): (n: nat)
    ensures n <= |tasks|
  {
    |Filter(tasks, IsCompleted)|
  }

  /** The progress in percent; an empty list has none (the division is 0 / 0). */
  function Progress(tasks: seq<Task>): (p: Option<real>)
    ensures p.Some? <==> |tasks| > 0
    ensures p.Some? ==> 0.0 <= p.value <= 100.0
  {
    if |tasks| == 0 then None
    else Some((CompletedCount(tasks) as real / |tasks| as real) * 100.0)
  }

  /** A share of n out of len, in percent, is 100 only for n == len and 0
      only for n == 0. */
  lemma PercentEnds(n: nat, len: nat)
    requires 0 < len && n <= len
    ensures (n as real / len as real) * 100.0 == 100.0 <==> n == len
    ensures (n as real / len as real) * 100.0 == 0.0 <==> n == 0
  {
    var q := n as real / len as real;
    assert q * len as real == n as real;
  }

  /** The bar is full exactly when every task is completed, and empty exactly
      when none is. */
  lemma ProgressEnds(tasks: seq<Task>)
    requires |tasks| > 0
    ensures Progress(tasks) == Some(100.0) <==> forall t :: t in tasks ==> t.completed
    ensures Progress(tasks) == Some(0.0) <==> forall t :: t in tasks ==> !t.completed
  {
    FilterAll(tasks, IsCompleted);
    FilterNone(tasks, IsCompleted);
    if CompletedCount(tasks) == |tasks| {
      FilterFull(tasks, IsCompleted);
    }
    PercentEnds(CompletedCount(tasks), |tasks|);
  }

  /** The list the card starts with: three open tasks. */
  const StartTasks: seq<Task> := [Task(1, "完成数学作业", false), Task(2, "阅读30分钟", false), Task(3, "运动30分钟", false)]

  /** The card starts at zero progress. */
  lemma StartsEmpty()
    ensures Progress(StartTasks) == Some(0.0)
  {
    FilterNone(StartTasks, IsCompleted);
  }
}
