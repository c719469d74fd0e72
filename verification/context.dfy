/**
  The context blocks handed to the agents and the one-line context summaries printed for
  operators. Two history shapes exist in the system: (question, answer) turns, used by the
  WhatsApp coordinator and the agents_c1do1 terminal, and role-tagged messages, used by the
  main.py terminal and the knowledge agent.
 */
module Context {
  import opened Wrappers
  import opened Text

  /** One exchange: what the user asked and the answer the user was given. */
  datatype Turn = Turn(question: string, answer: string)

  /** One entry of a role-tagged history: role "user" or "assistant", and the text. */
  datatype Msg = Msg(role: string, content: string)

  /** The last `n` elements of `s` (all of `s` when it is shorter). */
  function LastN<T>(s: seq<T>, n: nat): (r: seq<T>)
    ensures |r| == Min(n, |s|)
  {
    s[|s| - Min(n, |s|)..]
  }

  // ---------------------------------------------------------------------------
  // Turn histories: the last three exchanges
  // ---------------------------------------------------------------------------

  const HistoryHeader := "\n\nHistorial de conversación anterior:\n"
  const TurnQueryMarker := "\nConsulta actual: "
  const TurnWindow: nat := 3

  function TurnLines(t: Turn): string {
    "Usuario: " + t.question + "\nAsistente: " + t.answer + "\n"
  }

  /** The turns rendered one after another, oldest first. */
  function RenderTurns(ts: seq<Turn>): string {
    if |ts| == 0 then "" else TurnLines(ts[0]) + RenderTurns(ts[1..])
  }

  lemma {:induction false} RenderTurnsAppend(a: seq<Turn>, b: seq<Turn>)
    ensures RenderTurns(a + b) == RenderTurns(a) + RenderTurns(b)
  {
    if |a| == 0 {
      assert a + b == b;
    } else {
      assert (a + b)[1..] == a[1..] + b;
      RenderTurnsAppend(a[1..], b);
    }
  }

  /**
    The agent input for `query`: the raw query when there is no history; otherwise the
    header, the last three turns in order, and the query under the current-query marker.
   */
  function ComposeTurnsInput(history: seq<Turn>, query: string): (r: string)
    ensures |history| == 0 ==> r == query
    ensures |history| > 0 ==>
      r == HistoryHeader + RenderTurns(LastN(history, TurnWindow)) + TurnQueryMarker + query
    ensures EndsWith(r, query)
  {
    if |history| == 0 then query
    else HistoryHeader + RenderTurns(PyTail(history, -3)) + TurnQueryMarker + query
  }

  /** Turns older than the last three never reach the agent. */
  lemma ComposeTurnsIgnoresOlder(older: seq<Turn>, recent: seq<Turn>, query: string)
    requires |recent| >= TurnWindow
    ensures ComposeTurnsInput(older + recent, query) == ComposeTurnsInput(recent, query)
  {
    var h := older + recent;
    assert LastN(h, TurnWindow) == LastN(recent, TurnWindow);
  }

  /** The most recent turn is always the last one rendered, right before the current query. */
  lemma {:induction false} ComposeTurnsNewestLast(history: seq<Turn>, t: Turn, query: string)
    ensures EndsWith(ComposeTurnsInput(history + [t], query), TurnLines(t) + TurnQueryMarker + query)
  {
    var h := history + [t];
    var w := LastN(h, TurnWindow);
    var front := w[..|w| - 1];
    assert w == front + [t];
    RenderTurnsAppend(front, [t]);
    assert RenderTurns([t]) == TurnLines(t);
    var tail := TurnLines(t) + TurnQueryMarker + query;
    var head := HistoryHeader + RenderTurns(front);
    assert ComposeTurnsInput(h, query) == head + tail;
    SuffixOfConcat(head, tail);
  }

  // ---------------------------------------------------------------------------
  // Role-tagged histories: the last four messages
  // ---------------------------------------------------------------------------

  const RoleHeader := "Conversación previa:\n"
  const RoleQueryMarker := "\n\nConsulta actual: "
  const RoleWindow: nat := 4

  /** "Usuario" for the role "user", "Agente" for any other role. */
  function RoleLabel(role: string): string {
    if role == "user" then "Usuario" else "Agente"
  }

  function RoleLine(m: Msg): string {
    RoleLabel(m.role) + ": " + m.content + "\n"
  }

  function RenderRoles(ms: seq<Msg>): string {
    if |ms| == 0 then "" else RoleLine(ms[0]) + RenderRoles(ms[1..])
  }

  lemma {:induction false} RenderRolesAppend(a: seq<Msg>, b: seq<Msg>)
    ensures RenderRoles(a + b) == RenderRoles(a) + RenderRoles(b)
  {
    if |a| == 0 {
      assert a + b == b;
    } else {
      assert (a + b)[1..] == a[1..] + b;
      RenderRolesAppend(a[1..], b);
    }
  }

  /**
    The knowledge agent's input: the raw query without history; otherwise the header, the
    last four messages in order with their role labels, and the query under its marker.
   */
  function ComposeRoleInput(history: seq<Msg>, query: string): (r: string)
    ensures |history| == 0 ==> r == query
    ensures |history| > 0 ==>
      r == RoleHeader + RenderRoles(LastN(history, RoleWindow)) + RoleQueryMarker + query
    ensures EndsWith(r, query)
  {
    if |history| == 0 then query
    else RoleHeader + RenderRoles(PyTail(history, -4)) + RoleQueryMarker + query
  }

  /** The most recent message is always the last one rendered, right before the query. */
  lemma {:induction false} ComposeRoleNewestLast(history: seq<Msg>, m: Msg, query: string)
    ensures EndsWith(ComposeRoleInput(history + [m], query), RoleLine(m) + RoleQueryMarker + query)
  {
    var h := history + [m];
    var w := LastN(h, RoleWindow);
    var front := w[..|w| - 1];
    assert w == front + [m];
    RenderRolesAppend(front, [m]);
    assert RenderRoles([m]) == RoleLine(m);
    var line := RoleLine(m);
    var tail := line + RoleQueryMarker + query;
    var head := RoleHeader + RenderRoles(front);
    assert RenderRoles(w) == RenderRoles(front) + line;
    calc {
      ComposeRoleInput(h, query);
      RoleHeader + RenderRoles(w) + RoleQueryMarker + query;
      RoleHeader + (RenderRoles(front) + line) + RoleQueryMarker + query;
      head + tail;
    }
    SuffixOfConcat(head, tail);
  }

  // ---------------------------------------------------------------------------
  // Summaries printed for operators
  // ---------------------------------------------------------------------------

  /** Sum of the content lengths of the messages. */
  function TotalChars(ms: seq<Msg>): nat {
    if |ms| == 0 then 0 else |ms[0].content| + TotalChars(ms[1..])
  }

  lemma {:induction false} TotalCharsAppend(a: seq<Msg>, b: seq<Msg>)
    ensures TotalChars(a + b) == TotalChars(a) + TotalChars(b)
  {
    if |a| == 0 {
      assert a + b == b;
    } else {
      assert (a + b)[1..] == a[1..] + b;
      TotalCharsAppend(a[1..], b);
    }
  }

  const NoContext := "Sin contexto previo"
  const DefaultMaxMessages := 4
  const PreviewLength: nat := 30

  /** The counting half of a summary: how many messages, and how many characters in all. */
  function CountsLine(count: nat, chars: nat): string {
    Decimal(count) + " mensajes de contexto | " + Decimal(chars) + " caracteres totales | "
  }

  /** The preview half of a summary: the first thirty characters of the last message. */
  function PreviewLine(content: string): string {
    "Último mensaje: '" + Truncate(content, PreviewLength) + "'"
  }

  /**
    The operator's one-line view of the context passed to the knowledge agent. `None` stands
    for the IndexError the source raises when a negative `maxMessages` empties the window.
   */
  function ContextSummary(history: seq<Msg>, maxMessages: int): (r: Option<string>)
    ensures |history| == 0 ==> r == Some(NoContext)
    ensures r == None <==> |history| > 0 && maxMessages < 0 && -maxMessages >= |history|
  {
    if |history| == 0 then Some(NoContext)
    else
      var recent := if |history| > maxMessages then PyTail(history, -maxMessages) else history;
      if |recent| == 0 then None
      else Some(CountsLine(|recent|, TotalChars(recent)) + PreviewLine(recent[|recent| - 1].content))
  }

  /**
    For a positive window, the summary counts min(len, maxMessages) messages, sums the
    characters of exactly those, and previews the last message of the whole history.
   */
  lemma ContextSummaryReports(history: seq<Msg>, maxMessages: int)
    requires |history| > 0 && maxMessages >= 1
    ensures ContextSummary(history, maxMessages).Some?
    ensures StartsWith(ContextSummary(history, maxMessages).value,
                       CountsLine(Min(|history|, maxMessages), TotalChars(LastN(history, maxMessages))))
    ensures EndsWith(ContextSummary(history, maxMessages).value, PreviewLine(history[|history| - 1].content))
    ensures ContextSummary(history, maxMessages).value
         == CountsLine(Min(|history|, maxMessages), TotalChars(LastN(history, maxMessages)))
            + PreviewLine(history[|history| - 1].content)
  {
    var recent := if |history| > maxMessages then PyTail(history, -maxMessages) else history;
    assert recent == LastN(history, maxMessages);
    assert recent[|recent| - 1] == history[|history| - 1];
    var counts := CountsLine(|recent|, TotalChars(recent));
    var preview := PreviewLine(recent[|recent| - 1].content);
    assert ContextSummary(history, maxMessages) == Some(counts + preview);
    PrefixOfConcat(counts, preview);
    SuffixOfConcat(counts, preview);
  }

  /** With the default window of four, a long history is summarised as exactly four messages. */
  lemma DefaultSummaryCountsFour(history: seq<Msg>)
    requires |history| >= DefaultMaxMessages
    ensures StartsWith(ContextSummary(history, DefaultMaxMessages).value,
                       CountsLine(4, TotalChars(history[|history| - 4..])))
  {
    ContextSummaryReports(history, DefaultMaxMessages);
  }

  const NoHistoryInfo := "Contexto: Solo pregunta actual"

  /** The knowledge agent's context line: message count and total characters of the whole history. */
  function ContextInfo(inputMessage: string, history: seq<Msg>): (r: string)
    ensures |history| == 0 ==> r == NoHistoryInfo
    ensures |history| > 0 ==>
      StartsWith(r, "Contexto: " + Decimal(|history|) + " mensajes | "
                    + Decimal(TotalChars(history)) + " caracteres históricos | ")
    // and after that prefix only the length of the query, ending the line
    ensures |history| > 0 ==>
      && EndsWith(r, Decimal(|inputMessage|) + " caracteres en consulta final")
      && |r| == |"Contexto: " + Decimal(|history|) + " mensajes | "
                 + Decimal(TotalChars(history)) + " caracteres históricos | "|
              + |Decimal(|inputMessage|) + " caracteres en consulta final"|
  {
    if |history| == 0 then NoHistoryInfo
    else
      "Contexto: " + Decimal(|history|) + " mensajes | "
      + Decimal(TotalChars(history)) + " caracteres históricos | "
      + Decimal(|inputMessage|) + " caracteres en consulta final"
  }
}
