/**
  The two terminal front-ends. The main.py chat runs the tier-1 agent, its keyword check,
  the knowledge agent and, last, the operator, over a role-tagged history. The agents_c1do1
  interactive mode runs the agent ladder once per query over a history of turns and asks the
  operator whenever the trace hands off to the human-support agent.
 */
module Console {
  import opened Wrappers
  import opened Text
  import opened Context
  import opened Detectors
  import opened RunLog
  import Coordinator

  // ---------------------------------------------------------------------------
  // main.py: the three-tier chat
  // ---------------------------------------------------------------------------

  /** What one chat step does that can be seen, in order. */
  datatype Event =
    | AskKnowledge(input: string)                   // the knowledge agent is run on `input`
    | AskOperator(query: string)                    // the operator is asked for an answer
    | StoreAnswer(question: string, answer: string) // the operator's answer goes to the knowledge store
    | Say(text: string)                             // a line shown to the user

  /** The chat either ends, or goes on with a new history. */
  datatype ChatStep = Exit | Next(history: seq<Msg>, events: seq<Event>)

  const HoldOn := "Agente Simple: Un momento por favor, estoy procesando tu consulta."
  const KnowledgeDown :=
    "Agente Simple: Lo siento, estoy teniendo problemas para conectar con nuestro equipo especializado. "
    + "Por favor, inténtalo de nuevo más tarde."
  const SystemError := "Sistema: Lo siento, he encontrado un error. Por favor, inténtalo de nuevo."

  predicate IsChatExit(message: string) {
    Lower(message) == "salir" || Lower(message) == "exit"
  }

  function UserMsg(text: string): Msg { Msg("user", text) }
  function AssistantMsg(text: string): Msg { Msg("assistant", text) }

  /**
    One turn of the chat loop. `simple` is the tier-1 agent's final output (or the exception
    of its run), `knowledge` the knowledge agent's, `operatorReply` what the operator types (`None` when
    reading it raised, which the knowledge agent's error handler catches). The user message
    enters the history first; an answer is added only when one is shown, so every error path
    leaves the user message unanswered.
   */
  function Chat(history: seq<Msg>, message: string, simple: Result<string>, knowledge: Result<string>,
                operatorReply: Option<string>): (r: ChatStep)
    ensures r.Exit? <==> IsChatExit(message)
    ensures r.Next? ==>
      && (|r.history| == |history| + 1 || |r.history| == |history| + 2)
      && r.history[..|history| + 1] == history + [UserMsg(message)]
      && (|r.history| == |history| + 2 ==> r.history[|history| + 1].role == "assistant")
    ensures r.Next? && simple.Err? ==> r.history == history + [UserMsg(message)] && r.events == [Say(SystemError)]
    ensures r.Next? && simple.Ok? && !SimpleVerdict(simple.value).escalate ==>
      r.history == history + [UserMsg(message), AssistantMsg(simple.value)]
    ensures r.Next? && simple.Ok? && SimpleVerdict(simple.value).escalate ==>
      && |r.events| >= 2
      && r.events[1] == AskKnowledge(ComposeRoleInput(history + [UserMsg(message)], message))
      && (knowledge.Err? ==> r.history == history + [UserMsg(message)] && r.events[2..] == [Say(KnowledgeDown)])
    // answered by the knowledge agent: its reply, unchanged, is shown and recorded
    ensures r.Next? && simple.Ok? && SimpleVerdict(simple.value).escalate && knowledge.Ok?
            && !ComplexVerdict(knowledge.value).escalate ==>
      && r.history == history + [UserMsg(message), AssistantMsg(knowledge.value)]
      && r.events[2..] == [Say("Agente de Conocimiento: " + knowledge.value)]
    // the operator's prompt raised: the knowledge agent's apology, and the message stays unanswered
    ensures r.Next? && simple.Ok? && SimpleVerdict(simple.value).escalate && knowledge.Ok?
            && ComplexVerdict(knowledge.value).escalate && operatorReply.None? ==>
      && r.history == history + [UserMsg(message)]
      && r.events[2..] == [AskOperator(message), Say(KnowledgeDown)]
  {
    if IsChatExit(message) then Exit
    else
      var withUser := history + [UserMsg(message)];
      match simple
      case Err(_) => Next(withUser, [Say(SystemError)])
      case Ok(answer) =>
        if !SimpleVerdict(answer).escalate then
          Next(withUser + [AssistantMsg(answer)], [Say("Agente Simple: " + answer)])
        else
          var asked := [Say(HoldOn), AskKnowledge(ComposeRoleInput(withUser, message))];
          match knowledge
          case Err(_) => Next(withUser, asked + [Say(KnowledgeDown)])
          case Ok(reply) =>
            var verdict := ComplexVerdict(reply);
            if verdict.escalate then
              match operatorReply
              case None => Next(withUser, asked + [AskOperator(message), Say(KnowledgeDown)])
              case Some(human) =>
                Next(withUser + [AssistantMsg(human)],
                     asked + [AskOperator(message), StoreAnswer(message, human), Say("Agente Humano: " + human)])
            else
              Next(withUser + [AssistantMsg(verdict.response)], asked + [Say("Agente de Conocimiento: " + verdict.response)])
  }

  /**
    The knowledge agent is asked with the current message already in its history: its input
    shows the message as the last "Usuario" line and again as the current query.
   */
  lemma KnowledgeSeesMessageTwice(history: seq<Msg>, message: string)
    ensures EndsWith(ComposeRoleInput(history + [UserMsg(message)], message),
                     "Usuario: " + message + "\n" + RoleQueryMarker + message)
  {
    ComposeRoleNewestLast(history, UserMsg(message), message);
    assert RoleLine(UserMsg(message)) == "Usuario: " + message + "\n";
  }

  /**
    When the knowledge agent needs a human, the operator's answer is what the user gets and
    what the history and the knowledge store record, against the original message.
   */
  lemma OperatorAnswerRecorded(history: seq<Msg>, message: string, simple: string, reply: string, operatorReply: string)
    requires !IsChatExit(message) && SimpleVerdict(simple).escalate && ComplexVerdict(reply).escalate
    ensures var r := Chat(history, message, Ok(simple), Ok(reply), Some(operatorReply));
            && r.history == history + [UserMsg(message), AssistantMsg(operatorReply)]
            && StoreAnswer(message, operatorReply) in r.events
  {
    var r := Chat(history, message, Ok(simple), Ok(reply), Some(operatorReply));
    assert r.events[3] == StoreAnswer(message, operatorReply);
  }

  /** Every assistant entry answers the user entry right before it. */
  predicate Answered(h: seq<Msg>) {
    forall i :: 0 <= i < |h| && h[i].role != "user" ==> 0 < i && h[i - 1].role == "user"
  }

  function UserCount(h: seq<Msg>): nat {
    if |h| == 0 then 0 else (if h[0].role == "user" then 1 else 0) + UserCount(h[1..])
  }

  lemma {:induction false} UserCountAppend(a: seq<Msg>, b: seq<Msg>)
    ensures UserCount(a + b) == UserCount(a) + UserCount(b)
  {
    if |a| == 0 {
      assert a + b == b;
    } else {
      assert (a + b)[1..] == a[1..] + b;
      UserCountAppend(a[1..], b);
    }
  }

  /** Appending a user entry, answered or not, keeps every answer after its question and adds one user entry. */
  lemma AppendExchange(history: seq<Msg>, added: seq<Msg>)
    requires Answered(history)
    requires |added| == 1 || |added| == 2
    requires added[0].role == "user" && (|added| == 2 ==> added[1].role == "assistant")
    ensures Answered(history + added) && UserCount(history + added) == UserCount(history) + 1
  {
    var h := history + added;
    forall i | 0 <= i < |h| && h[i].role != "user"
      ensures 0 < i && h[i - 1].role == "user"
    {
      if i >= |history| {
        assert i == |history| + 1 && h[i - 1] == added[0];
      }
    }
    UserCountAppend(history, added);
    assert UserCount(added) == 1 + UserCount(added[1..]);
    if |added| == 2 {
      assert added[1..][1..] == [];
      assert UserCount(added[1..]) == 0;
    } else {
      assert added[1..] == [];
    }
  }

  /** One chat step adds exactly one user entry and keeps every answer after its question. */
  lemma ChatStepShape(history: seq<Msg>, message: string, simple: Result<string>, knowledge: Result<string>,
                      operatorReply: Option<string>)
    requires Answered(history)
    requires Chat(history, message, simple, knowledge, operatorReply).Next?
    ensures var h := Chat(history, message, simple, knowledge, operatorReply).history;
            Answered(h) && UserCount(h) == UserCount(history) + 1
  {
    var h := Chat(history, message, simple, knowledge, operatorReply).history;
    var added := h[|history|..];
    assert h == history + added;
    assert added[0] == h[..|history| + 1][|history|];
    AppendExchange(history, added);
  }

  /** One line the operator-user types, with what the agents and the operator answer to it. */
  datatype ChatInput = ChatInput(message: string, simple: Result<string>, knowledge: Result<string>,
                             operatorReply: Option<string>)

  /** The chat loop over the lines typed: the final history and how many lines were handled before an exit. */
  function ChatLoop(history: seq<Msg>, inputs: seq<ChatInput>): (r: (seq<Msg>, nat))
    decreases |inputs|
  {
    if |inputs| == 0 then (history, 0)
    else
      var i := inputs[0];
      match Chat(history, i.message, i.simple, i.knowledge, i.operatorReply)
      case Exit => (history, 0)
      case Next(h, _) =>
        var rest := ChatLoop(h, inputs[1..]);
        (rest.0, rest.1 + 1)
  }

  /** Over a whole session the history holds one user entry per line handled, each answered at most once. */
  lemma {:induction false} ChatLoopCounts(history: seq<Msg>, inputs: seq<ChatInput>)
    requires Answered(history)
    ensures var r := ChatLoop(history, inputs);
            r.1 <= |inputs| && Answered(r.0) && UserCount(r.0) == UserCount(history) + r.1
    decreases |inputs|
  {
    if |inputs| > 0 {
      var i := inputs[0];
      var step := Chat(history, i.message, i.simple, i.knowledge, i.operatorReply);
      if step.Next? {
        ChatStepShape(history, i.message, i.simple, i.knowledge, i.operatorReply);
        ChatLoopCounts(step.history, inputs[1..]);
      }
    }
  }

  // ---------------------------------------------------------------------------
  // agents_c1do1/main.py: the interactive mode
  // ---------------------------------------------------------------------------

  const InitialAgent := "Asistente Inicial C1DO1"
  const HumanAgent := "Keisy - Especialista Humano"

  /** What `process_query` did: the agent input, the answer returned and the tracker it filled. */
  datatype Query = Query(input: string, response: string, tracker: Tracker)

  /**
    `process_query`: the ladder is run on the turn context; the operator is asked when any
    handoff in the trace goes to the human-support agent, and the operator's answer replaces
    the final output.
   */
  function ProcessQuery(query: string, history: seq<Turn>, run: RunResult, operatorReply: string): (r: Query)
    ensures r.input == ComposeTurnsInput(history, query)
    ensures (exists i :: 0 <= i < |run.items| && run.items[i].HandoffItem? && NameOf(run.items[i].toAgent) == HumanAgent)
            ==> r.response == operatorReply
    ensures !(exists i :: 0 <= i < |run.items| && run.items[i].HandoffItem? && NameOf(run.items[i].toAgent) == HumanAgent)
            ==> r.response == run.finalOutput
    ensures |r.tracker.contexts| > 0 <==> |history| > 0
    ensures |r.tracker.agentNames| == |r.tracker.handoffs| + 1 && r.tracker.agentNames[0] == InitialAgent
    ensures r.tracker.agentNames
         == [InitialAgent] + seq(|Edges(run.items)|, k requires 0 <= k < |Edges(run.items)| => Edges(run.items)[k].to)
    ensures r.tracker.vectorResults == HitLines(SearchHits(run.items))
  {
    var response := if HandsOffTo(run.items, HumanAgent) then operatorReply else run.finalOutput;
    Query(ComposeTurnsInput(history, query), response, TrackRun(InitialAgent, |history| > 0, run.items))
  }

  /**
    The two deployments decide escalation differently: the terminal asks the operator after
    a handoff to the human agent even when the run ends elsewhere, and the WhatsApp server
    escalates on the last agent even with no handoff recorded.
   */
  lemma EscalationRulesDiffer(answer: string, operatorReply: string)
    requires answer != operatorReply
    ensures var handedBack := RunResult(answer, Some("Especialista en Conocimiento C1DO1"),
                                        [HandoffItem(AgentRef(Some(InitialAgent)), AgentRef(Some(HumanAgent)))]);
            && ProcessQuery("q", [], handedBack, operatorReply).response == operatorReply
            && !Coordinator.Escalated(handedBack, HumanAgent)
    ensures var endedAtHuman := RunResult(answer, Some(HumanAgent), []);
            && ProcessQuery("q", [], endedAtHuman, operatorReply).response == answer
            && Coordinator.Escalated(endedAtHuman, HumanAgent)
  {
    var handedBack := RunResult(answer, Some("Especialista en Conocimiento C1DO1"),
                                [HandoffItem(AgentRef(Some(InitialAgent)), AgentRef(Some(HumanAgent)))]);
    assert handedBack.items[0].HandoffItem? && NameOf(handedBack.items[0].toAgent) == HumanAgent;
  }

  predicate IsInteractiveExit(input: string) {
    Lower(input) == "salir" || Lower(input) == "exit" || Lower(input) == "quit"
  }

  datatype Interactive = Quit | Continue(history: seq<Turn>)

  /**
    One turn of `interactive_mode`: exit words end the loop; a run that raises leaves the
    history as it was; otherwise the input and the response become one more turn.
   */
  function InteractiveStep(history: seq<Turn>, input: string, run: Result<RunResult>, operatorReply: string)
    : (r: Interactive)
    ensures r.Quit? <==> IsInteractiveExit(input)
    ensures r.Continue? && run.Err? ==> r.history == history
    ensures r.Continue? && run.Ok? ==>
      r.history == history + [Turn(input, ProcessQuery(input, history, run.value, operatorReply).response)]
  {
    if IsInteractiveExit(input) then Quit
    else
      match run
      case Err(_) => Continue(history)
      case Ok(result) => Continue(history + [Turn(input, ProcessQuery(input, history, result, operatorReply).response)])
  }

  /** Exit words are recognised in any letter case. */
  lemma ExitIgnoresCase(input: string)
    ensures IsInteractiveExit(Lower(input)) <==> IsInteractiveExit(input)
    ensures IsChatExit(Lower(input)) <==> IsChatExit(input)
  {
    LowerIdempotent(input);
  }

  /** "quit" ends the interactive mode but is an ordinary message in the three-tier chat. */
  lemma QuitOnlyInteractive(input: string)
    requires Lower(input) == "quit"
    ensures IsInteractiveExit(input) && !IsChatExit(input)
  {
  }
}
