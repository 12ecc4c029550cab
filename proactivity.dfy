/** `checkProactivity`: the unsolicited advice the engine derives from the
    task list. The rules are tried in order and the first that applies
    decides: overdue tasks, then a backlog of pending tasks, then a fully
    cleared list. The due date is given already converted to a time in
    milliseconds; a task with no due date, or one that does not parse as a
    date, has `None`. */
module Proactivity {
  import opened Wrappers
  import opened Text
  import Seqs

  /** A task as the task store returns it; `status` is the stored text. */
  datatype Task = Task(title: string, status: string, due: Option<int>)

  predicate IsPending(t: Task)
  {
    t.status == "pending"
  }

  predicate IsCompleted(t: Task)
  {
    t.status == "completed"
  }

  /** Pending, with a due date strictly before `now`. */
  predicate IsOverdue(t: Task, now: int)
  {
    IsPending(t) && t.due.Some? && t.due.value < now
  }

  function OverdueTest(now: int): (test: Task -> bool)
  {
    t => IsOverdue(t, now)
  }

  function Overdue(tasks: seq<Task>, now: int): (overdue: seq<Task>)
  {
    Seqs.Filter(tasks, OverdueTest(now))
  }

  function Pending(tasks: seq<Task>): (pending: seq<Task>)
  {
    Seqs.Filter(tasks, IsPending)
  }

  function Completed(tasks: seq<Task>): (completed: seq<Task>)
  {
    Seqs.Filter(tasks, IsCompleted)
  }

  // ---------------------------------------------------------------------
  // The messages

  /** The alert naming `n` overdue tasks and the first one's title. */
  function OverdueAlert(n: nat, title: string): (alert: string)
  {
    "ALERTA DE SISTEMA: Detetei " + (NatToString(n)
    + " tarefa(s) com o prazo expirado, " + "incluindo \"" + title
    + "\". Recomendo reavaliação imediata " + "de prioridades para evitar falhas em "
    + "cascata.")
  }

  /** The suggestion naming `n` pending tasks and the first one's title. */
  function BacklogAdvice(n: nat, title: string): (advice: string)
  {
    "Senhor, a " + ("minha análise de produtividade " + "indica um acúmulo de " + NatToString(n)
    + " tarefas pendentes. Sugiro que " + "priorizemos a tarefa: \"" + title
    + "\". Deseja que eu inicie o protocolo " + "de foco?")
  }

  /** The congratulation for a cleared list. */
  const RestAdvice := "Senhor, notei " + ("que concluiu todas as suas " + "tarefas recentes com excelente "
    + "eficiência. Recomendo uma pausa para " + "otimização de recursos biológicos.")

  /** The advice for `tasks` at time `now`, if any. */
  function CheckProactivity(tasks: seq<Task>, now: int): (advice: Option<string>)
  {
    var overdue := Overdue(tasks, now);
    if |overdue| > 0 then Some(OverdueAlert(|overdue|, overdue[0].title))
    else
      var pending := Pending(tasks);
      if |pending| > 3 then Some(BacklogAdvice(|pending|, pending[0].title))
      else
        var completed := Completed(tasks);
        if |completed| > 5 && |pending| == 0 then Some(RestAdvice)
        else None
  }

  // ---------------------------------------------------------------------
  // Properties

  /** The three messages are told apart by their opening characters. */
  lemma MessagesDiffer(n: nat, m: nat, t: string, u: string)
    ensures OverdueAlert(n, t)[0] == 'A'
    ensures BacklogAdvice(m, u)[0] == 'S' && BacklogAdvice(m, u)[8] == 'a'
    ensures RestAdvice[0] == 'S' && RestAdvice[8] == 'n'
  {
  }

  /** A task overdue anywhere in the list wins: the alert counts every
      overdue task and names the first of them. */
  lemma OverdueFirst(tasks: seq<Task>, now: int, k: int)
    requires Seqs.IsFirst(tasks, OverdueTest(now), k)
    ensures CheckProactivity(tasks, now) == Some(OverdueAlert(|Overdue(tasks, now)|, tasks[k].title))
  {
    Seqs.FilterFirst(tasks, OverdueTest(now), k);
  }

  /** With nothing overdue and more than three pending tasks, the backlog
      suggestion counts the pending tasks and names the first of them. */
  lemma BacklogSecond(tasks: seq<Task>, now: int, k: int)
    requires forall i | 0 <= i < |tasks| :: !IsOverdue(tasks[i], now)
    requires |Pending(tasks)| > 3 && Seqs.IsFirst(tasks, IsPending, k)
    ensures CheckProactivity(tasks, now) == Some(BacklogAdvice(|Pending(tasks)|, tasks[k].title))
  {
    Seqs.FilterEmpty(tasks, OverdueTest(now));
    Seqs.FilterFirst(tasks, IsPending, k);
  }

  /** The congratulation comes only when nothing is pending (so nothing is
      overdue either) and more than five tasks are completed. */
  lemma RestThird(tasks: seq<Task>, now: int)
    requires forall i | 0 <= i < |tasks| :: !IsPending(tasks[i])
    requires |Completed(tasks)| > 5
    ensures CheckProactivity(tasks, now) == Some(RestAdvice)
  {
    Seqs.FilterEmpty(tasks, OverdueTest(now));
    Seqs.FilterEmpty(tasks, IsPending);
  }

  /** No advice exactly when no rule applies. */
  lemma NoAdviceIff(tasks: seq<Task>, now: int)
    ensures CheckProactivity(tasks, now) == None <==>
      && (forall i | 0 <= i < |tasks| :: !IsOverdue(tasks[i], now))
      && |Pending(tasks)| <= 3
      && !(|Completed(tasks)| > 5 && |Pending(tasks)| == 0)
  {
    Seqs.FilterEmpty(tasks, OverdueTest(now));
  }

  /** Which message comes back is decided by the rules, in order, in both
      directions. */
  lemma AdviceKind(tasks: seq<Task>, now: int)
    ensures var r := CheckProactivity(tasks, now);
      && (r.Some? && r.value[0] == 'A' <==> |Overdue(tasks, now)| > 0)
      && (r == Some(RestAdvice) <==>
            |Overdue(tasks, now)| == 0 && |Completed(tasks)| > 5 && |Pending(tasks)| == 0)
  {
    var overdue := Overdue(tasks, now);
    var pending := Pending(tasks);
    if |overdue| > 0 {
      MessagesDiffer(|overdue|, 0, overdue[0].title, "");
    } else if |pending| > 3 {
      MessagesDiffer(0, |pending|, "", pending[0].title);
    } else {
      MessagesDiffer(0, 0, "", "");
    }
  }

  // ---------------------------------------------------------------------
  // Four task lists, one for each branch of checkProactivity

  /** One pending task due a day ago: the overdue alert. */
  lemma OneOverdueExample(title: string, now: int)
    ensures CheckProactivity([Task(title, "pending", Some(now - 86400000))], now)
      == Some(OverdueAlert(1, title))
  {
    var tasks := [Task(title, "pending", Some(now - 86400000))];
    assert Seqs.IsFirst(tasks, OverdueTest(now), 0);
    OverdueFirst(tasks, now, 0);
    assert Overdue(tasks, now) == [tasks[0]];
  }

  /** Four pending tasks without due dates: the backlog suggestion naming the
      first. */
  lemma FourPendingExample(a: string, b: string, c: string, d: string, now: int)
    ensures var tasks := [Task(a, "pending", None), Task(b, "pending", None),
                          Task(c, "pending", None), Task(d, "pending", None)];
      CheckProactivity(tasks, now) == Some(BacklogAdvice(4, a))
  {
    var tasks := [Task(a, "pending", None), Task(b, "pending", None),
                  Task(c, "pending", None), Task(d, "pending", None)];
    Seqs.FilterAll(tasks, IsPending);
    assert Seqs.IsFirst(tasks, IsPending, 0);
    BacklogSecond(tasks, now, 0);
  }

  /** Six completed tasks and nothing pending: the congratulation. */
  lemma SixCompletedExample(now: int)
    ensures var t := Task("", "completed", None);
      CheckProactivity([t, t, t, t, t, t], now) == Some(RestAdvice)
  {
    var t := Task("", "completed", None);
    var tasks := [t, t, t, t, t, t];
    Seqs.FilterAll(tasks, IsCompleted);
    RestThird(tasks, now);
  }

  /** Two pending tasks without due dates and two completed ones: no advice. */
  lemma TwoAndTwoExample(now: int)
    ensures var p := Task("", "pending", None); var c := Task("", "completed", None);
      CheckProactivity([p, p, c, c], now) == None
  {
    var p := Task("", "pending", None);
    var c := Task("", "completed", None);
    var tasks := [p, p, c, c];
    assert Pending(tasks) == [p, p] by {
      assert tasks == [p, p] + [c, c];
      Seqs.FilterAppend([p, p], [c, c], IsPending);
      Seqs.FilterAll([p, p], IsPending);
      Seqs.FilterEmpty([c, c], IsPending);
    }
    assert forall i | 0 <= i < |tasks| :: !IsOverdue(tasks[i], now);
    NoAdviceIff(tasks, now);
  }
}
