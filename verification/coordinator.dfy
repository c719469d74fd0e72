/**
  The WhatsApp escalation coordinator: per-phone conversation state, the handling of each
  queued inbound message, the operator's inline reply at escalation time, and the two later
  reconciliation paths (a manual answer, and the operator's pick from the pending list).

  A phone number is IDLE when it has no pending query and AWAITING_HUMAN when it has one.
  Agent runs, terminal input and clocks are parameters; sends, knowledge-store writes and
  agent runs are emitted as output events, in the order the source performs them.
 */
module Coordinator {
  import opened Wrappers
  import opened Text
  import opened Context
  import opened RunLog

  type Phone = string

  /** An open escalation: the question the user asked and when it was escalated. */
  datatype PendingQuery = PendingQuery(question: string, timestamp: string)

  /** The three dictionaries keyed by phone number. */
  datatype State = State(
    histories: map<Phone, seq<Turn>>,
    pending: map<Phone, PendingQuery>,
    originals: map<Phone, string>)

  /** The observable effects of one operation. */
  datatype Output =
    | RunLadder(input: string)                                  // the entry agent is run on `input`
    | Send(to: Phone, text: string)                             // a WhatsApp message is sent
    | Store(question: string, answer: string, source: string)   // a QA pair goes to the knowledge store

  /** What running the agent ladder gave: a result, or an exception. */
  datatype LadderOutcome = Finished(result: RunResult) | Raised(error: string)

  datatype Step = Step(state: State, outputs: seq<Output>)

  const AwaitingNotice :=
    "Tu consulta ha sido transferida a un especialista humano. "
    + "En breve recibirás una respuesta. Gracias por tu paciencia."
  const ProcessingNotice :=
    "Estamos procesando tu consulta. Un especialista humano te responderá en breve. Gracias por tu paciencia."
  const ErrorNotice :=
    "Lo siento, ha ocurrido un error al procesar tu mensaje. Por favor, intenta nuevamente más tarde."
  const TerminalSource := "Soporte Humano - Terminal"
  const ManualSource := "Soporte Humano - Manual"

  function Empty(): State {
    State(map[], map[], map[])
  }

  /**
    The coordinator's invariant: a phone has an original question iff it has a pending query,
    and the two record the same question.
   */
  predicate Inv(s: State) {
    && s.originals.Keys == s.pending.Keys
    && forall p :: p in s.pending ==> s.originals[p] == s.pending[p].question
  }

  datatype Phase = Idle | AwaitingHuman

  function PhaseOf(s: State, p: Phone): Phase {
    if p in s.pending then AwaitingHuman else Idle
  }

  /** `conversation_histories.get(p, [])`. */
  function HistoryOf(s: State, p: Phone): seq<Turn> {
    if p in s.histories then s.histories[p] else []
  }

  /** `conversation_histories.setdefault(p, []).append(t)`. */
  function AppendTurn(h: map<Phone, seq<Turn>>, p: Phone, t: Turn): (r: map<Phone, seq<Turn>>)
    ensures r.Keys == h.Keys + {p}
    ensures r[p] == (if p in h then h[p] else []) + [t]
    ensures r - {p} == h - {p}
  {
    h[p := (if p in h then h[p] else []) + [t]]
  }

  /** Number of agent runs among the outputs. */
  function LadderRuns(outs: seq<Output>): nat {
    if |outs| == 0 then 0 else (if outs[0].RunLadder? then 1 else 0) + LadderRuns(outs[1..])
  }

  /** Outputs with no agent run among them count none. */
  lemma {:induction false} NoLadderRuns(outs: seq<Output>)
    requires forall i :: 0 <= i < |outs| ==> !outs[i].RunLadder?
    ensures LadderRuns(outs) == 0
  {
    if |outs| > 0 {
      NoLadderRuns(outs[1..]);
    }
  }

  /** The run ended at the human-support agent: its last agent has a name, and it is that agent's. */
  predicate Escalated(run: RunResult, humanAgent: string) {
    run.lastAgent == Some(humanAgent)
  }

  /** The query `text` of `from` is recorded as pending since `now`, and no history changed. */
  predicate LeftPending(s: State, s2: State, from: Phone, text: string, now: string) {
    && from in s2.pending && s2.pending[from] == PendingQuery(text, now)
    && from in s2.originals && s2.originals[from] == text
    && s2.histories == s.histories
  }

  /**
    One queued message `text` from `from`, handled at time `now`. `outcome` is what the agent
    ladder returned for the composed input; `operatorReply` is what the operator typed at the
    escalation prompt (read only when the run escalated), `None` when reading it raised.
   */
  function HandleMessage(s: State, from: Phone, text: string, now: string, humanAgent: string,
                         outcome: LadderOutcome, operatorReply: Option<string>): (r: Step)
    // awaiting a human: one acknowledgement, no agent run, nothing changes
    ensures from in s.pending ==> r == Step(s, [Send(from, AwaitingNotice)])
    // idle: exactly one agent run, on the composed context, before anything else
    ensures LadderRuns(r.outputs) == (if from in s.pending then 0 else 1)
    ensures from !in s.pending ==>
      |r.outputs| >= 2 && r.outputs[0] == RunLadder(ComposeTurnsInput(HistoryOf(s, from), text))
    // the run raised: an apology, nothing changes
    ensures from !in s.pending && outcome.Raised? ==> r.state == s && r.outputs[1..] == [Send(from, ErrorNotice)]
    // answered by an agent: the answer is sent and becomes one more turn
    ensures from !in s.pending && outcome.Finished? && !Escalated(outcome.result, humanAgent) ==>
      && r.outputs[1..] == [Send(from, outcome.result.finalOutput)]
      && HistoryOf(r.state, from) == HistoryOf(s, from) + [Turn(text, outcome.result.finalOutput)]
      && r.state.pending == s.pending && r.state.originals == s.originals
    // escalated and answered on the spot: stored, sent, one more turn, nothing left pending
    ensures from !in s.pending && outcome.Finished? && Escalated(outcome.result, humanAgent)
            && operatorReply.Some? && !IsBlank(operatorReply.value) ==>
      && r.outputs[1..] == [Store(text, operatorReply.value, TerminalSource), Send(from, operatorReply.value)]
      && HistoryOf(r.state, from) == HistoryOf(s, from) + [Turn(text, operatorReply.value)]
      && from !in r.state.pending && from !in r.state.originals
    // escalated and left for later: the question is recorded twice, history is untouched
    ensures from !in s.pending && outcome.Finished? && Escalated(outcome.result, humanAgent)
            && operatorReply.Some? && IsBlank(operatorReply.value) ==>
      r.outputs[1..] == [Send(from, ProcessingNotice)] && LeftPending(s, r.state, from, text, now)
    // escalated and the prompt raised: an apology, and the question stays recorded as pending
    ensures from !in s.pending && outcome.Finished? && Escalated(outcome.result, humanAgent)
            && operatorReply.None? ==>
      r.outputs[1..] == [Send(from, ErrorNotice)] && LeftPending(s, r.state, from, text, now)
    // no other phone is affected
    ensures r.state.histories - {from} == s.histories - {from}
    ensures r.state.pending - {from} == s.pending - {from}
    ensures r.state.originals - {from} == s.originals - {from}
    ensures Inv(s) ==> Inv(r.state)
  {
    if from in s.pending then
      Step(s, [Send(from, AwaitingNotice)])
    else
      var input := ComposeTurnsInput(HistoryOf(s, from), text);
      match outcome
      case Raised(_) =>
        var outs := [RunLadder(input), Send(from, ErrorNotice)];
        NoLadderRuns(outs[1..]);
        Step(s, outs)
      case Finished(run) =>
        if Escalated(run, humanAgent) then Escalate(s, from, text, now, input, operatorReply)
        else Answer(s, from, text, input, run.finalOutput)
  }

  /** An agent answered: the answer is sent and recorded as one more turn. */
  function Answer(s: State, from: Phone, text: string, input: string, answer: string): (r: Step)
    ensures r.outputs == [RunLadder(input), Send(from, answer)] && LadderRuns(r.outputs) == 1
    ensures HistoryOf(r.state, from) == HistoryOf(s, from) + [Turn(text, answer)]
    ensures r.state.histories - {from} == s.histories - {from}
    ensures r.state.pending == s.pending && r.state.originals == s.originals
  {
    var outs := [RunLadder(input), Send(from, answer)];
    NoLadderRuns(outs[1..]);
    Step(State(AppendTurn(s.histories, from, Turn(text, answer)), s.pending, s.originals), outs)
  }

  /**
    The run escalated: the query is recorded as pending, then either answered on the spot by
    the operator's non-blank reply (stored, sent, recorded, released) or left pending with a
    notice to the user; when the prompt itself raised, the user gets the error notice and the
    query stays pending.
   */
  function Escalate(s: State, from: Phone, text: string, now: string, input: string,
                    operatorReply: Option<string>): (r: Step)
    requires from !in s.pending
    ensures |r.outputs| >= 2 && r.outputs[0] == RunLadder(input) && LadderRuns(r.outputs) == 1
    ensures operatorReply.Some? && !IsBlank(operatorReply.value) ==>
      && r.outputs[1..] == [Store(text, operatorReply.value, TerminalSource), Send(from, operatorReply.value)]
      && HistoryOf(r.state, from) == HistoryOf(s, from) + [Turn(text, operatorReply.value)]
      && from !in r.state.pending && from !in r.state.originals
    ensures operatorReply.Some? && IsBlank(operatorReply.value) ==>
      r.outputs[1..] == [Send(from, ProcessingNotice)] && LeftPending(s, r.state, from, text, now)
    ensures operatorReply.None? ==>
      r.outputs[1..] == [Send(from, ErrorNotice)] && LeftPending(s, r.state, from, text, now)
    ensures r.state.histories - {from} == s.histories - {from}
    ensures r.state.pending - {from} == s.pending - {from}
    ensures r.state.originals - {from} == s.originals - {from}
    ensures Inv(s) ==> Inv(r.state)
  {
    match operatorReply
    case None => KeepPending(s, from, text, now, input, ErrorNotice)
    case Some(reply) =>
      if !IsBlank(reply) then
        var pending := s.pending[from := PendingQuery(text, now)];
        var originals := s.originals[from := text];
        var outs := [RunLadder(input), Store(text, reply, TerminalSource), Send(from, reply)];
        NoLadderRuns(outs[1..]);
        Step(State(AppendTurn(s.histories, from, Turn(text, reply)), pending - {from}, originals - {from}), outs)
      else KeepPending(s, from, text, now, input, ProcessingNotice)
  }

  /** The escalated query stays pending and the user is sent `notice`. */
  function KeepPending(s: State, from: Phone, text: string, now: string, input: string, notice: string): (r: Step)
    requires from !in s.pending
    ensures r.outputs == [RunLadder(input), Send(from, notice)] && LadderRuns(r.outputs) == 1
    ensures LeftPending(s, r.state, from, text, now)
    ensures r.state.pending - {from} == s.pending - {from}
    ensures r.state.originals - {from} == s.originals - {from}
    ensures Inv(s) ==> Inv(r.state)
  {
    var outs := [RunLadder(input), Send(from, notice)];
    NoLadderRuns(outs[1..]);
    Step(State(s.histories, s.pending[from := PendingQuery(text, now)], s.originals[from := text]), outs)
  }

  /** The result of a manual answer: the step, and whether a pending query was answered. */
  datatype Reconciled = Reconciled(step: Step, handled: bool)

  /**
    A support agent's manual answer `text` to `to`. It is handled iff `to` is awaiting a human.
    The question stored is the pending record's; the turn is added only to an existing history.
   */
  function ManualResponse(s: State, to: Phone, text: string): (r: Reconciled)
    ensures r.handled <==> to in s.pending
    ensures !r.handled ==> r.step == Step(s, [])
    ensures r.handled ==>
      && r.step.outputs == [Store(s.pending[to].question, text, ManualSource)]
      && to !in r.step.state.pending && to !in r.step.state.originals
      && (to in s.histories ==> to in r.step.state.histories && r.step.state.histories[to] == s.histories[to] + [Turn(s.pending[to].question, text)])
      && (to !in s.histories ==> r.step.state.histories == s.histories)
    ensures r.step.state.histories - {to} == s.histories - {to}
    ensures r.step.state.pending == s.pending - {to}
    ensures r.step.state.originals - {to} == s.originals - {to}
    ensures LadderRuns(r.step.outputs) == 0
    ensures Inv(s) ==> Inv(r.step.state)
  {
    if to !in s.pending then Reconciled(Step(s, []), false)
    else
      var question := s.pending[to].question;
      var histories := if to in s.histories then s.histories[to := s.histories[to] + [Turn(question, text)]]
                       else s.histories;
      Reconciled(Step(State(histories, s.pending - {to}, s.originals - {to}),
                      [Store(question, text, ManualSource)]), true)
  }

  /** A repeated manual answer is a no-op: the second call finds nothing pending. */
  lemma ManualResponseIdempotent(s: State, to: Phone, first: string, second: string)
    ensures var r1 := ManualResponse(s, to, first);
            var r2 := ManualResponse(r1.step.state, to, second);
            !r2.handled && r2.step == Step(r1.step.state, [])
  {
  }

  /** The stored question is the one recorded at escalation, never one supplied by the caller. */
  lemma ManualResponseStoresOriginal(s: State, to: Phone, text: string)
    requires Inv(s) && to in s.originals
    ensures ManualResponse(s, to, text).step.outputs == [Store(s.originals[to], text, ManualSource)]
  {
  }

  /**
    `int(choice) - 1` when the operator typed a number that lists an entry of a list of `n`;
    nothing otherwise.
   */
  function SelectIndex(choice: string, n: nat): (r: Option<nat>)
    ensures r.Some? ==> r.value < n && AllDigits(choice) && ParseDigits(choice) == r.value + 1
    ensures |choice| > 0 && AllDigits(choice) && 1 <= ParseDigits(choice) <= n ==> r.Some?
  {
    if |choice| > 0 && AllDigits(choice) then
      var v := ParseDigits(choice);
      if 1 <= v <= n then Some(v - 1) else None
    else None
  }

  /** Typing the number shown next to an entry selects that entry. */
  lemma SelectShownNumber(k: nat, n: nat)
    requires k < n
    ensures SelectIndex(Decimal(k + 1), n) == Some(k)
  {
    ParseDecimal(k + 1);
  }

  /**
    The operator's answer from the periodic pending list. `listing` is the list of pending
    phones as displayed, `choice` the selection typed, `reply` the answer typed. A selected
    phone that is no longer pending models the KeyError the source catches.
   */
  function PendingPick(s: State, listing: seq<Phone>, choice: string, reply: string): (r: Step)
    ensures LadderRuns(r.outputs) == 0
    ensures r.state == s <==> r.outputs == []
    ensures r.outputs != [] ==>
      exists k :: 0 <= k < |listing| && SelectIndex(choice, |listing|) == Some(k) && listing[k] in s.pending
        && !IsBlank(reply)
        && r.outputs == [Store(s.pending[listing[k]].question, reply, TerminalSource), Send(listing[k], reply)]
        && HistoryOf(r.state, listing[k]) == HistoryOf(s, listing[k]) + [Turn(s.pending[listing[k]].question, reply)]
        && r.state.pending == s.pending - {listing[k]}
        && r.state.originals == s.originals - {listing[k]}
        && r.state.histories - {listing[k]} == s.histories - {listing[k]}
    // and conversely: a valid pick of a still-pending phone with a non-blank reply is delivered
    ensures (SelectIndex(choice, |listing|).Some? && listing[SelectIndex(choice, |listing|).value] in s.pending
             && !IsBlank(reply)) ==> r.outputs != []
    ensures Inv(s) ==> Inv(r.state)
  {
    if |s.pending| == 0 then Step(s, [])
    else
      match SelectIndex(choice, |listing|)
      case None => Step(s, [])
      case Some(idx) =>
        var p := listing[idx];
        if p !in s.pending || IsBlank(reply) then Step(s, [])
        else
          var question := s.pending[p].question;
          var outs := [Store(question, reply, TerminalSource), Send(p, reply)];
          NoLadderRuns(outs);
          Step(State(AppendTurn(s.histories, p, Turn(question, reply)), s.pending - {p}, s.originals - {p}), outs)
  }

  // ---------------------------------------------------------------------------
  // The worker: a sequential fold over everything that reaches the coordinator
  // ---------------------------------------------------------------------------

  datatype Event =
    | Inbound(from: Phone, text: string, now: string, outcome: LadderOutcome, operatorReply: Option<string>)
    | ManualAnswer(to: Phone, answer: string)
    | OperatorPick(listing: seq<Phone>, choice: string, reply: string)

  function Apply(s: State, e: Event, humanAgent: string): (r: Step)
    ensures Inv(s) ==> Inv(r.state)
    // an inbound message changes only its sender's phase, and never releases a pending query
    ensures e.Inbound? ==> forall p :: p != e.from ==> PhaseOf(r.state, p) == PhaseOf(s, p)
    ensures e.Inbound? && PhaseOf(s, e.from) == AwaitingHuman ==> PhaseOf(r.state, e.from) == AwaitingHuman
    // a human answer never opens a pending query and never runs an agent
    ensures !e.Inbound? ==> forall p :: PhaseOf(s, p) == Idle ==> PhaseOf(r.state, p) == Idle
    ensures !e.Inbound? ==> LadderRuns(r.outputs) == 0
  {
    match e
    case Inbound(from, text, now, outcome, reply) =>
      var r := HandleMessage(s, from, text, now, humanAgent, outcome, reply);
      assert forall p :: p != from ==> (p in r.state.pending <==> p in (r.state.pending - {from}));
      r
    case ManualAnswer(to, answer) => ManualResponse(s, to, answer).step
    case OperatorPick(listing, choice, reply) => PendingPick(s, listing, choice, reply)
  }

  /** The coordinator after a sequence of events, with every output in order. */
  function Run(s: State, events: seq<Event>, humanAgent: string): Step
    decreases |events|
  {
    if |events| == 0 then Step(s, [])
    else
      var first := Apply(s, events[0], humanAgent);
      var rest := Run(first.state, events[1..], humanAgent);
      Step(rest.state, first.outputs + rest.outputs)
  }

  /** Every run of the worker keeps the invariant. */
  lemma {:induction false} RunKeepsInv(s: State, events: seq<Event>, humanAgent: string)
    requires Inv(s)
    ensures Inv(Run(s, events, humanAgent).state)
    decreases |events|
  {
    if |events| > 0 {
      RunKeepsInv(Apply(s, events[0], humanAgent).state, events[1..], humanAgent);
    }
  }

  lemma {:induction false} LadderRunsAppend(a: seq<Output>, b: seq<Output>)
    ensures LadderRuns(a + b) == LadderRuns(a) + LadderRuns(b)
  {
    if |a| > 0 {
      assert (a + b)[1..] == a[1..] + b;
      LadderRunsAppend(a[1..], b);
    } else {
      assert a + b == b;
    }
  }

  /** Number of inbound messages among the events. */
  function InboundCount(events: seq<Event>): nat {
    if |events| == 0 then 0 else (if events[0].Inbound? then 1 else 0) + InboundCount(events[1..])
  }

  /**
    Agent runs are never more than inbound messages: the human-answer paths and messages from
    users awaiting a human run no agent.
   */
  lemma {:induction false} RunLadderBound(s: State, events: seq<Event>, humanAgent: string)
    ensures LadderRuns(Run(s, events, humanAgent).outputs) <= InboundCount(events)
    decreases |events|
  {
    if |events| > 0 {
      var first := Apply(s, events[0], humanAgent);
      RunLadderBound(first.state, events[1..], humanAgent);
      LadderRunsAppend(first.outputs, Run(first.state, events[1..], humanAgent).outputs);
    }
  }

  // ---------------------------------------------------------------------------
  // Scenarios
  // ---------------------------------------------------------------------------

  /** A first greeting answered by an agent: no pending query, a history of one turn. */
  lemma GreetingAnswered(from: Phone, text: string, now: string, humanAgent: string, run: RunResult,
                         reply: Option<string>)
    requires !Escalated(run, humanAgent)
    ensures var r := HandleMessage(Empty(), from, text, now, humanAgent, Finished(run), reply);
            |HistoryOf(r.state, from)| == 1 && PhaseOf(r.state, from) == Idle
  {
  }

  /**
    A user escalated on a first message and answered later through the manual path ends up
    idle with the answer stored, but with no history: that path only extends an existing one.
   */
  lemma LateManualAnswerLeavesNoHistory(from: Phone, text: string, now: string, humanAgent: string,
                                        run: RunResult, answer: string)
    requires Escalated(run, humanAgent)
    ensures var r1 := HandleMessage(Empty(), from, text, now, humanAgent, Finished(run), Some(""));
            var r2 := ManualResponse(r1.state, from, answer);
            && r2.handled
            && r2.step.outputs == [Store(text, answer, ManualSource)]
            && PhaseOf(r2.step.state, from) == Idle
            && HistoryOf(r2.step.state, from) == []
  {
  }

  /**
    The same user answered through the operator's pick instead does get the turn, whether the
    escalation prompt was left blank or raised.
   */
  lemma LatePickAnswerRecordsTurn(from: Phone, text: string, now: string, humanAgent: string,
                                  run: RunResult, prompt: Option<string>, answer: string)
    requires Escalated(run, humanAgent) && !IsBlank(answer)
    requires prompt.None? || IsBlank(prompt.value)
    ensures var r1 := HandleMessage(Empty(), from, text, now, humanAgent, Finished(run), prompt);
            var r2 := PendingPick(r1.state, [from], "1", answer);
            && r2.outputs == [Store(text, answer, TerminalSource), Send(from, answer)]
            && PhaseOf(r2.state, from) == Idle
            && HistoryOf(r2.state, from) == [Turn(text, answer)]
  {
    var r1 := HandleMessage(Empty(), from, text, now, humanAgent, Finished(run), prompt);
    SelectShownNumber(0, 1);
    assert Decimal(1) == "1";
  }
}
