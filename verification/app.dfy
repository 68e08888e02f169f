/** The dashboard shell: the daily task list, the high score kept across
    Star Ace games, and the content of the learning page per subject. */
module App {
  import opened Seqs

  datatype Task = Task(id: string, text: string, completed: bool, time: string)

  function Flip(t: Task): Task { t.(completed := !t.completed) }

  function HasId(id: string): Task -> bool { (t: Task) => t.id == id }

  /** `toggleTask`: every task with the given id flips its `completed`
      flag; everything else, the order and the length stay. */
  function ToggleTask(tasks: seq<Task>, id: string): (r: seq<Task>)
    ensures |r| == |tasks|
    ensures forall i :: 0 <= i < |tasks| ==>
      r[i].id == tasks[i].id && r[i].text == tasks[i].text && r[i].time == tasks[i].time &&
      r[i].completed == (if tasks[i].id == id then !tasks[i].completed else tasks[i].completed)
  {
    MapWhere(tasks, HasId(id), Flip)
  }

  /** Toggling the same id twice gives back the list. */
  lemma ToggleTaskTwice(tasks: seq<Task>, id: string)
    ensures ToggleTask(ToggleTask(tasks, id), id) == tasks
  {
    MapWhereTwice(tasks, HasId(id), Flip);
  }

  /** A toggle of an id no task carries changes nothing. */
  lemma ToggleUnknown(tasks: seq<Task>, id: string)
    requires forall t :: t in tasks ==> t.id != id
    ensures ToggleTask(tasks, id) == tasks
  {
    assert forall i :: 0 <= i < |tasks| ==> tasks[i] in tasks;
  }

  /** The high score after a game that ended with `score`. */
  function NextHighScore(high: int, score: int): (r: int)
    ensures high <= r && score <= r && (r == high || r == score)
  {
    if score > high then score else high
  }

  /** A repeated report of the same or a lower score changes nothing. */
  lemma NextHighScoreSettles(high: int, score: int, again: int)
    requires again <= score
    ensures NextHighScore(NextHighScore(high, score), again) == NextHighScore(high, score)
  {
  }

  /** The four tasks of the day the dashboard starts with. */
  const DailyTasks: seq<Task> :=
    [Task("1", "早起阅读 20分钟", false, "08:00"),
     Task("2", "完成数学口算练习", true, "09:30"),
     Task("3", "科学小实验：浮力大挑战", false, "14:00"),
     Task("4", "户外踢足球 ⚽", false, "16:30")]

  /** The dashboard's own state: its list of tasks and the high score. */
  class Dashboard {
    var tasks: seq<Task>
    var highScore: int
    var saved: seq<int>    // the values written to the high-score storage key, oldest first

    /** Mounting: the stored high score, parsed (0 when nothing is stored),
        and the four tasks of the day, each with its own id, only the second
        one done. */
    constructor (stored: int)
      ensures highScore == stored && saved == [] && tasks == DailyTasks
      ensures |tasks| == 4 && forall t :: t in tasks ==> t.text != "" && (t.completed <==> t.id == "2")
      ensures forall i, j :: 0 <= i < j < |tasks| ==> tasks[i].id != tasks[j].id
    {
      highScore := stored;
      saved := [];
      tasks := DailyTasks;
    }

    method Toggle(id: string)
      modifies this`tasks
      ensures tasks == ToggleTask(old(tasks), id)
    {
      tasks := ToggleTask(tasks, id);
    }

    /** `handleGameOver`: only a strictly higher score replaces the high
        score and is written to storage. */
    method HandleGameOver(score: int)
      modifies this`highScore, this`saved
      ensures highScore == NextHighScore(old(highScore), score)
      ensures saved == old(saved) + (if score > old(highScore) then [score] else [])
    {
      if score > highScore {
        highScore := score;
        saved := saved + [score];
      }
    }
  }

  datatype Subject = Chinese | English | Math | Science

  /** What the learning page shows for a subject. */
  datatype Course = Course(title: string, list: seq<string>, color: string)

  /** The content table of the learning page, looked up by the active subject. */
  function Content(s: Subject): (c: Course)
    ensures c.title != "" && |c.list| == 3
    ensures forall item :: item in c.list ==> item != ""
  {
    match s
    case Chinese => Course("语文天地", ["《西游记》精读", "古诗词背诵挑战", "趣味汉字接龙"], "red")
    case English => Course("English Fun", ["Phonics Practice", "Watching Pixar", "Daily Dialogue"], "blue")
    case Math => Course("数学实验室", ["乐高几何拼搭", "逻辑思维闯关", "九九乘法口诀"], "yellow")
    case Science => Course("科学大探索", ["自制火山爆发", "太阳系模型", "电路小能手"], "green")
  }

  /** Every subject has a page of its own: no two subjects share a title. */
  lemma ContentDistinct(a: Subject, b: Subject)
    requires a != b
    ensures Content(a).title != Content(b).title
  {
  }
}
