/** `getOfflineResponse`: the canned reply given instead of a call to the
    language model when the browser reports that it is offline. The local
    time text comes from the clock and is a parameter here. */
module OfflineFallback {
  import opened Text

  /** Every canned reply starts with this tag. */
  const OfflineTag := "[MODO OFFLINE] "

  /** The hint for questions about tasks. */
  const TaskHint := OfflineTag + "Verifique o painel de tarefas no menu " + "lateral para gerir a sua produtividade."

  /** What precedes the local time in the time echo. */
  const TimePrefix := OfflineTag + "A hora local do sistema é "

  /** The time echo for the local time text `time`. */
  function TimeEcho(time: string): (echo: string)
  {
    TimePrefix + time + "."
  }

  /** The reply when no keyword matches. */
  const GenericReply := OfflineTag + "Conexão com o servidor principal "
    + "perdida. Capacidades cognitivas " + "limitadas. Por favor, restabeleça a "
    + "conexão à internet para acesso total " + "ao motor neural."

  predicate AsksAboutTasks(lower: string)
  {
    Contains(lower, "tarefa")
  }

  predicate AsksAboutTime(lower: string)
  {
    Contains(lower, "horas") || Contains(lower, "tempo")
  }

  /** The reply to `input` when the local time reads `time`. */
  function OfflineResponse(input: string, time: string): (r: string)
    ensures StartsWith(r, OfflineTag)
  {
    var lower := Lower(input);
    if AsksAboutTasks(lower) then TaskHint
    else if AsksAboutTime(lower) then TimeEcho(time)
    else GenericReply
  }

  /** The three kinds of reply differ at the first character after the tag. */
  lemma KindsDiffer(time: string)
    ensures TaskHint[15] == 'V' && TimeEcho(time)[15] == 'A' && GenericReply[15] == 'C'
  {
    assert TimeEcho(time) == OfflineTag + ("A hora local do sistema é " + time + ".");
  }

  /** The keywords are tried in order and the first match decides: a task
      question gets the task hint even when it also asks for the time; a
      time question gets the time echo; anything else the generic reply.
      Each kind of reply is given exactly when its condition holds. */
  lemma OfflinePrecedence(input: string, time: string)
    ensures var lower := Lower(input); var r := OfflineResponse(input, time);
      && (r == TaskHint <==> AsksAboutTasks(lower))
      && (r == TimeEcho(time) <==> !AsksAboutTasks(lower) && AsksAboutTime(lower))
      && (r == GenericReply <==> !AsksAboutTasks(lower) && !AsksAboutTime(lower))
  {
    KindsDiffer(time);
  }

  /** The time echo carries the clock text unchanged: it can be read back
      from between the prefix and the final full stop. */
  lemma TimeEchoCarriesTime(time: string)
    ensures var r := TimeEcho(time); r[|TimePrefix|..|r| - 1] == time
  {
    var r := TimeEcho(time);
    assert r == TimePrefix + time + ".";
  }

  /** "que horas são" asked offline is answered with the local time. */
  lemma WhatTimeIsItExample(time: string)
    ensures OfflineResponse("que horas são", time) == TimeEcho(time)
  {
    var lower := Lower("que horas são");
    assert lower == "que " + "horas" + " são";
    assert lower[4..9] == "horas";
    assert OccursAt(lower, "horas", 4);
    NotContainsByChar(lower, "tarefa", 'f');
  }
}
