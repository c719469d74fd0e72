/**
  What an agent run reports and how it is logged: the trace of a run (hand-offs between
  agents, file-search hits), the run tracker that is cleared before every query and filled
  from the trace, and the tracker's rendering as operator log lines.
 */
module RunLog {
  import opened Wrappers
  import opened Text

  /** An agent as seen in a run result; a missing name reads as "Unknown". */
  datatype AgentRef = AgentRef(name: Option<string>)

  function NameOf(a: AgentRef): string {
    a.name.GetOr("Unknown")
  }

  /**
    One hit of a file-search tool call. Text and file name may be missing; the relevance
    score is kept as the two-decimal text the log shows.
   */
  datatype SearchHit = SearchHit(text: Option<string>, filename: Option<string>, scoreText: string)

  /** One item of a run's trace. */
  datatype TraceItem =
    | HandoffItem(fromAgent: AgentRef, toAgent: AgentRef)
    | FileSearchItem(results: seq<SearchHit>)
    | OtherItem

  /** What an agent run returns: final text, the name of the last agent (if it has one), the trace. */
  datatype RunResult = RunResult(finalOutput: string, lastAgent: Option<string>, items: seq<TraceItem>)

  /** A hand-off edge, with both names resolved. */
  datatype Edge = Edge(from: string, to: string)

  /** The hand-off edges of a trace, in trace order. */
  function Edges(items: seq<TraceItem>): (r: seq<Edge>)
    ensures |r| <= |items|
  {
    if |items| == 0 then []
    else
      match items[0]
      case HandoffItem(f, t) => [Edge(NameOf(f), NameOf(t))] + Edges(items[1..])
      case _ => Edges(items[1..])
  }

  /** Whether some hand-off item of the trace goes to the agent called `name`. */
  function HandsOffTo(items: seq<TraceItem>, name: string): (r: bool)
    ensures r <==> exists i :: 0 <= i < |items| && items[i].HandoffItem? && NameOf(items[i].toAgent) == name
  {
    if |items| == 0 then false
    else (items[0].HandoffItem? && NameOf(items[0].toAgent) == name) || HandsOffTo(items[1..], name)
  }

  /** Some edge of the list ends at `name`. */
  predicate EdgeTo(edges: seq<Edge>, name: string) {
    exists k :: 0 <= k < |edges| && edges[k].to == name
  }

  /** An edge list with one edge in front reaches `name` iff that edge or the rest does. */
  lemma EdgeToCons(e: Edge, rest: seq<Edge>, name: string)
    ensures EdgeTo([e] + rest, name) <==> e.to == name || EdgeTo(rest, name)
  {
    var all := [e] + rest;
    if EdgeTo(rest, name) {
      var k :| 0 <= k < |rest| && rest[k].to == name;
      assert all[k + 1] == rest[k];
    }
    if EdgeTo(all, name) {
      var k :| 0 <= k < |all| && all[k].to == name;
      if k > 0 {
        assert rest[k - 1] == all[k];
      }
    }
    assert all[0] == e;
  }

  /** The hand-off flag agrees with the edge list: some edge ends at `name`. */
  lemma {:induction false} HandsOffToEdges(items: seq<TraceItem>, name: string)
    ensures HandsOffTo(items, name) <==> exists k :: 0 <= k < |Edges(items)| && Edges(items)[k].to == name
  {
    if |items| > 0 {
      HandsOffToEdges(items[1..], name);
      assert HandsOffTo(items, name) == ((items[0].HandoffItem? && NameOf(items[0].toAgent) == name)
                                          || HandsOffTo(items[1..], name));
      match items[0]
      case HandoffItem(f, t) =>
        assert Edges(items) == [Edge(NameOf(f), NameOf(t))] + Edges(items[1..]);
        EdgeToCons(Edge(NameOf(f), NameOf(t)), Edges(items[1..]), name);
        assert EdgeTo(Edges(items), name) <==> exists k :: 0 <= k < |Edges(items)| && Edges(items)[k].to == name;
      case _ =>
        assert Edges(items) == Edges(items[1..]);
    }
  }

  const SnippetLength: nat := 100

  /** The log line of one search hit with non-empty text. */
  function HitLine(text: string, filename: Option<string>, scoreText: string): string {
    "Archivo: " + filename.GetOr("unknown") + ", Relevancia: " + scoreText
    + ", Extracto: " + Truncate(text, SnippetLength)
  }

  /** One log line per hit whose text is present and non-empty, in order. */
  function HitLines(hits: seq<SearchHit>): (r: seq<string>)
    ensures |r| <= |hits|
    ensures |hits| == 1 ==>
      r == (if hits[0].text.Some? && hits[0].text.value != ""
            then [HitLine(hits[0].text.value, hits[0].filename, hits[0].scoreText)] else [])
  {
    if |hits| == 0 then []
    else
      var h := hits[0];
      if h.text.Some? && h.text.value != "" then
        [HitLine(h.text.value, h.filename, h.scoreText)] + HitLines(hits[1..])
      else HitLines(hits[1..])
  }

  /** The hit lines of two hit lists put together are those of the first, then those of the second. */
  lemma {:induction false} HitLinesAppend(a: seq<SearchHit>, b: seq<SearchHit>)
    ensures HitLines(a + b) == HitLines(a) + HitLines(b)
  {
    if |a| == 0 {
      assert a + b == b;
    } else {
      assert (a + b)[1..] == a[1..] + b;
      HitLinesAppend(a[1..], b);
    }
  }

  /** Every search hit of the trace, file-search item by file-search item, in trace order. */
  function SearchHits(items: seq<TraceItem>): (r: seq<SearchHit>)
    ensures |items| == 1 ==> r == (if items[0].FileSearchItem? then items[0].results else [])
  {
    if |items| == 0 then []
    else (if items[0].FileSearchItem? then items[0].results else []) + SearchHits(items[1..])
  }

  lemma {:induction false} SearchHitsAppend(a: seq<TraceItem>, b: seq<TraceItem>)
    ensures SearchHits(a + b) == SearchHits(a) + SearchHits(b)
  {
    if |a| == 0 {
      assert a + b == b;
    } else {
      assert (a + b)[1..] == a[1..] + b;
      SearchHitsAppend(a[1..], b);
    }
  }

  /** What one pass over the trace collects: hand-off lines, hand-off targets, hit lines. */
  datatype Collected = Collected(handoffs: seq<string>, targets: seq<string>, hits: seq<string>)

  const Arrow := " → "

  /**
    The single pass over the trace: every hand-off adds a "from → to" line and its target,
    every file-search item adds its hit lines, all in trace order.
   */
  function Collect(items: seq<TraceItem>): (r: Collected)
    ensures |r.handoffs| == |r.targets|
    ensures forall k :: 0 <= k < |r.targets| ==> EndsWith(r.handoffs[k], Arrow + r.targets[k])
  {
    if |items| == 0 then Collected([], [], [])
    else
      var rest := Collect(items[1..]);
      match items[0]
      case HandoffItem(f, t) =>
        SuffixOfConcat(NameOf(f), Arrow + NameOf(t));
        assert NameOf(f) + Arrow + NameOf(t) == NameOf(f) + (Arrow + NameOf(t));
        Collected([NameOf(f) + Arrow + NameOf(t)] + rest.handoffs, [NameOf(t)] + rest.targets, rest.hits)
      case FileSearchItem(hits) => Collected(rest.handoffs, rest.targets, HitLines(hits) + rest.hits)
      case OtherItem => rest
  }

  /** The collected lines are exactly the trace's edges, rendered in the same order. */
  lemma {:induction false} CollectIsEdges(items: seq<TraceItem>)
    ensures Collect(items).targets == seq(|Edges(items)|, k requires 0 <= k < |Edges(items)| => Edges(items)[k].to)
    ensures Collect(items).handoffs
         == seq(|Edges(items)|, k requires 0 <= k < |Edges(items)| => Edges(items)[k].from + Arrow + Edges(items)[k].to)
  {
    if |items| > 0 {
      CollectIsEdges(items[1..]);
    }
  }

  /** The collected hit lines are those of all the trace's search hits, in order. */
  lemma {:induction false} CollectHits(items: seq<TraceItem>)
    ensures Collect(items).hits == HitLines(SearchHits(items))
  {
    if |items| > 0 {
      CollectHits(items[1..]);
      var own := if items[0].FileSearchItem? then items[0].results else [];
      HitLinesAppend(own, SearchHits(items[1..]));
      if !items[0].FileSearchItem? {
        assert own == [];
      }
    }
  }

  /** The run tracker: context notes, hand-off lines, agents used, search-hit lines. */
  datatype Tracker = Tracker(contexts: seq<string>, handoffs: seq<string>, agentNames: seq<string>, vectorResults: seq<string>)

  predicate IsEmpty(t: Tracker) {
    |t.contexts| == 0 && |t.handoffs| == 0 && |t.agentNames| == 0 && |t.vectorResults| == 0
  }

  /** `reset()`: every list emptied. */
  function Reset(): (t: Tracker)
    ensures IsEmpty(t)
  {
    Tracker([], [], [], [])
  }

  const ContextNote := "Conversación previa incluida"

  /**
    The tracker after `reset()` and one run of the entry agent `entry`: a context note iff
    history was passed, the entry agent followed by every hand-off target, the hand-off lines
    aligned with those targets, and the hit lines.
   */
  function TrackRun(entry: string, withContext: bool, items: seq<TraceItem>): (t: Tracker)
    ensures |t.contexts| > 0 <==> withContext
    ensures |t.agentNames| == |t.handoffs| + 1 && t.agentNames[0] == entry
    ensures forall k :: 0 <= k < |t.handoffs| ==> EndsWith(t.handoffs[k], Arrow + t.agentNames[k + 1])
    // the trace, in order: the edges' targets after the entry agent, their lines, every hit line
    ensures t.agentNames == [entry] + seq(|Edges(items)|, k requires 0 <= k < |Edges(items)| => Edges(items)[k].to)
    ensures t.handoffs
         == seq(|Edges(items)|, k requires 0 <= k < |Edges(items)| => Edges(items)[k].from + Arrow + Edges(items)[k].to)
    ensures t.vectorResults == HitLines(SearchHits(items))
  {
    CollectIsEdges(items);
    CollectHits(items);
    var c := Collect(items);
    var names := [entry] + c.targets;
    assert forall k :: 0 <= k < |c.targets| ==> names[k + 1] == c.targets[k];
    Tracker(if withContext then [ContextNote] else [], c.handoffs, names, c.hits)
  }

  const ContextHeader := "Contexto: "
  const HandoffHeader := "Handoffs: "
  const AgentsHeader := "Agentes utilizados: "
  const VectorHeader := "Resultados de búsqueda en vectores: "

  /** The non-empty sections of the log, in the fixed order context, hand-offs, agents, hits. */
  function Sections(t: Tracker): (r: seq<string>)
    ensures forall i :: 0 <= i < |r| ==> |r[i]| > 0
    ensures |r| == 0 <==> IsEmpty(t)
  {
    Section(|t.contexts| > 0, ContextHeader + Join(t.contexts, "\n"))
    + Section(|t.handoffs| > 0, HandoffHeader + Join(t.handoffs, " -> "))
    + Section(|t.agentNames| > 0, AgentsHeader + Join(t.agentNames, ", "))
    + VectorSection(t.vectorResults)
  }

  /** A one-line section, present only when its list is non-empty. */
  function Section(present: bool, line: string): (r: seq<string>)
    ensures |r| == One(present) && (present ==> r[0] == line)
  {
    if present then [line] else []
  }

  /** The hit header and one line per hit, or nothing when there were no hits. */
  function VectorSection(vr: seq<string>): (r: seq<string>)
    ensures |r| == (if |vr| > 0 then 1 + |vr| else 0)
    ensures |vr| > 0 ==> r[0] == VectorHeader && r[1..] == VectorLines(vr)
  {
    if |vr| > 0 then [VectorHeader] + VectorLines(vr) else []
  }

  /** One `- ` line per recorded search hit. */
  function VectorLines(vr: seq<string>): (r: seq<string>)
    ensures |r| == |vr| && forall i :: 0 <= i < |r| ==> r[i] == "- " + vr[i]
  {
    seq(|vr|, i requires 0 <= i < |vr| => "- " + vr[i])
  }

  function One(b: bool): nat {
    if b then 1 else 0
  }

  /**
    Where each section sits: the context line first, then the hand-off line, then the agents
    line, each present iff its list is non-empty, and last the hit header followed by one line
    per hit.
   */
  lemma SectionsLayout(t: Tracker)
    ensures var c := One(|t.contexts| > 0);
            var h := One(|t.handoffs| > 0);
            var a := One(|t.agentNames| > 0);
            var s := Sections(t);
            && |s| == c + h + a + (if |t.vectorResults| > 0 then 1 + |t.vectorResults| else 0)
            && (c == 1 ==> s[0] == ContextHeader + Join(t.contexts, "\n"))
            && (h == 1 ==> s[c] == HandoffHeader + Join(t.handoffs, " -> "))
            && (a == 1 ==> s[c + h] == AgentsHeader + Join(t.agentNames, ", "))
            && (|t.vectorResults| > 0 ==> s[c + h + a] == VectorHeader && s[c + h + a + 1..] == VectorLines(t.vectorResults))
  {
    var cs := Section(|t.contexts| > 0, ContextHeader + Join(t.contexts, "\n"));
    var hs := Section(|t.handoffs| > 0, HandoffHeader + Join(t.handoffs, " -> "));
    var ns := Section(|t.agentNames| > 0, AgentsHeader + Join(t.agentNames, ", "));
    var vs := VectorSection(t.vectorResults);
    var s := Sections(t);
    var front := cs + hs + ns;
    assert s == front + vs;
    if |t.vectorResults| > 0 {
      assert s[|front|..] == vs;
      assert s[|front| + 1..] == vs[1..];
    }
  }

  /** The section kind at position `i`, named by the first character of its header. */
  function Kind(t: Tracker, i: int): char {
    var c := One(|t.contexts| > 0);
    var h := One(|t.handoffs| > 0);
    var a := One(|t.agentNames| > 0);
    if i < c then 'C' else if i < c + h then 'H' else if i < c + h + a then 'A' else if i == c + h + a then 'R' else '-'
  }

  lemma SectionKind(t: Tracker, i: int)
    requires 0 <= i < |Sections(t)|
    ensures |Sections(t)[i]| > 0 && Sections(t)[i][0] == Kind(t, i)
  {
    SectionsLayout(t);
    var s := Sections(t);
    var c := One(|t.contexts| > 0);
    var h := One(|t.handoffs| > 0);
    var a := One(|t.agentNames| > 0);
    if i < c {
      assert s[i] == ContextHeader + Join(t.contexts, "\n");
    } else if i < c + h {
      assert s[i] == HandoffHeader + Join(t.handoffs, " -> ");
    } else if i < c + h + a {
      assert s[i] == AgentsHeader + Join(t.agentNames, ", ");
    } else if i > c + h + a {
      assert s[i] == s[c + h + a + 1..][i - (c + h + a + 1)];
    }
  }

  /** Section `i` of `s` opens with `header`. */
  predicate HeaderAt(s: seq<string>, i: int, header: string) {
    0 <= i < |s| && StartsWith(s[i], header)
  }

  lemma HeaderKind(t: Tracker, i: int, header: string)
    requires |header| > 0 && HeaderAt(Sections(t), i, header)
    ensures Kind(t, i) == header[0]
  {
    SectionKind(t, i);
    StartsWithHead(Sections(t)[i], header);
  }

  /** Where a header can sit: only at the position its list is given, and only when that list is non-empty. */
  lemma HeaderPosition(t: Tracker, i: int, header: string)
    requires header in Headers() && HeaderAt(Sections(t), i, header)
    ensures header == ContextHeader ==> i == 0 && |t.contexts| > 0
    ensures header == HandoffHeader ==> i == One(|t.contexts| > 0) && |t.handoffs| > 0
    ensures header == AgentsHeader ==>
      i == One(|t.contexts| > 0) + One(|t.handoffs| > 0) && |t.agentNames| > 0
    ensures header == VectorHeader ==>
      i == One(|t.contexts| > 0) + One(|t.handoffs| > 0) + One(|t.agentNames| > 0) && |t.vectorResults| > 0
  {
    HeaderKind(t, i, header);
    SectionsLayout(t);
  }

  /** Each header appears iff its list is non-empty. */
  lemma SectionsPresence(t: Tracker)
    ensures |t.contexts| > 0 <==> exists i :: HeaderAt(Sections(t), i, ContextHeader)
    ensures |t.handoffs| > 0 <==> exists i :: HeaderAt(Sections(t), i, HandoffHeader)
    ensures |t.agentNames| > 0 <==> exists i :: HeaderAt(Sections(t), i, AgentsHeader)
    ensures |t.vectorResults| > 0 <==> exists i :: HeaderAt(Sections(t), i, VectorHeader)
  {
    var s := Sections(t);
    var c := One(|t.contexts| > 0);
    var h := One(|t.handoffs| > 0);
    var a := One(|t.agentNames| > 0);
    SectionsLayout(t);
    if |t.contexts| > 0 {
      PrefixOfConcat(ContextHeader, Join(t.contexts, "\n"));
      assert HeaderAt(s, 0, ContextHeader);
    }
    if |t.handoffs| > 0 {
      PrefixOfConcat(HandoffHeader, Join(t.handoffs, " -> "));
      assert HeaderAt(s, c, HandoffHeader);
    }
    if |t.agentNames| > 0 {
      PrefixOfConcat(AgentsHeader, Join(t.agentNames, ", "));
      assert HeaderAt(s, c + h, AgentsHeader);
    }
    if |t.vectorResults| > 0 {
      assert HeaderAt(s, c + h + a, VectorHeader);
    }
    forall header, i | header in Headers() && HeaderAt(s, i, header)
      ensures header == ContextHeader ==> |t.contexts| > 0
      ensures header == HandoffHeader ==> |t.handoffs| > 0
      ensures header == AgentsHeader ==> |t.agentNames| > 0
      ensures header == VectorHeader ==> |t.vectorResults| > 0
    {
      HeaderPosition(t, i, header);
    }
  }

  /** Each header appears at most once, in the order context, hand-offs, agents, search hits. */
  lemma SectionsOrder(t: Tracker)
    ensures forall header, i, j :: header in Headers() && HeaderAt(Sections(t), i, header) && HeaderAt(Sections(t), j, header)
              ==> i == j
    ensures forall i, j :: HeaderAt(Sections(t), i, ContextHeader) && HeaderAt(Sections(t), j, HandoffHeader) ==> i < j
    ensures forall i, j :: HeaderAt(Sections(t), i, HandoffHeader) && HeaderAt(Sections(t), j, AgentsHeader) ==> i < j
    ensures forall i, j :: HeaderAt(Sections(t), i, AgentsHeader) && HeaderAt(Sections(t), j, VectorHeader) ==> i < j
  {
    var s := Sections(t);
    forall header, i | header in Headers() && HeaderAt(s, i, header)
      ensures header == ContextHeader ==> i == 0
      ensures header == HandoffHeader ==> i == One(|t.contexts| > 0) && |t.handoffs| > 0
      ensures header == AgentsHeader ==>
        i == One(|t.contexts| > 0) + One(|t.handoffs| > 0) && |t.agentNames| > 0
      ensures header == VectorHeader ==>
        i == One(|t.contexts| > 0) + One(|t.handoffs| > 0) + One(|t.agentNames| > 0)
    {
      HeaderPosition(t, i, header);
    }
  }

  /** The four section headers. */
  function Headers(): seq<string> {
    [ContextHeader, HandoffHeader, AgentsHeader, VectorHeader]
  }

  /** The first section is the first non-empty one, in the fixed order. */
  lemma SectionsHead(t: Tracker)
    requires !IsEmpty(t)
    ensures |t.contexts| > 0 ==> StartsWith(Sections(t)[0], ContextHeader)
    ensures |t.contexts| == 0 && |t.handoffs| > 0 ==> StartsWith(Sections(t)[0], HandoffHeader)
    ensures |t.contexts| == 0 && |t.handoffs| == 0 && |t.agentNames| > 0 ==>
      StartsWith(Sections(t)[0], AgentsHeader)
    ensures |t.contexts| == 0 && |t.handoffs| == 0 && |t.agentNames| == 0 ==>
      Sections(t)[0] == VectorHeader
  {
    if |t.contexts| > 0 {
      PrefixOfConcat(ContextHeader, Join(t.contexts, "\n"));
    } else if |t.handoffs| > 0 {
      PrefixOfConcat(HandoffHeader, Join(t.handoffs, " -> "));
    } else if |t.agentNames| > 0 {
      PrefixOfConcat(AgentsHeader, Join(t.agentNames, ", "));
    }
  }

  /**
    The operator log of a run. It is empty iff the tracker is, and it opens with the first
    non-empty section in the order context, hand-offs, agents, search hits.
   */
  function FormatLogs(t: Tracker): (r: string)
    ensures r == "" <==> IsEmpty(t)
    ensures |t.contexts| > 0 ==> StartsWith(r, ContextHeader)
    ensures |t.contexts| == 0 && |t.handoffs| > 0 ==> StartsWith(r, HandoffHeader)
    ensures |t.contexts| == 0 && |t.handoffs| == 0 && |t.agentNames| > 0 ==> StartsWith(r, AgentsHeader)
    ensures |t.contexts| == 0 && |t.handoffs| == 0 && |t.agentNames| == 0 && |t.vectorResults| > 0 ==>
      StartsWith(r, VectorHeader)
  {
    var sections := Sections(t);
    if |sections| == 0 then ""
    else
      SectionsHead(t);
      StartsWithChain(Join(sections, "\n"), sections[0]);
      Join(sections, "\n")
  }

  /** What follows a section in the log: nothing, or a newline and the log of the sections after it. */
  function Continued(t: Tracker): string {
    if IsEmpty(t) then "" else "\n" + FormatLogs(t)
  }

  /** Sections `[first]` followed by the sections of `rest` join to `first`, then the rest's log. */
  lemma JoinFirstSection(first: string, rest: Tracker)
    ensures Join([first] + Sections(rest), "\n") == first + Continued(rest)
  {
    if !IsEmpty(rest) {
      JoinAppend([first], Sections(rest), "\n");
    } else {
      assert [first] + Sections(rest) == [first];
    }
  }

  /**
    The log is its first non-empty section, then, if anything is left, a newline and the log of
    what remains; the hit header is followed by one `- ` line per hit, one per line.
   */
  lemma FormatLogsPeel(t: Tracker)
    ensures |t.contexts| > 0 ==>
      FormatLogs(t) == ContextHeader + Join(t.contexts, "\n") + Continued(t.(contexts := []))
    ensures |t.contexts| == 0 && |t.handoffs| > 0 ==>
      FormatLogs(t) == HandoffHeader + Join(t.handoffs, " -> ") + Continued(t.(handoffs := []))
    ensures |t.contexts| == 0 && |t.handoffs| == 0 && |t.agentNames| > 0 ==>
      FormatLogs(t) == AgentsHeader + Join(t.agentNames, ", ") + Continued(t.(agentNames := []))
    ensures |t.contexts| == 0 && |t.handoffs| == 0 && |t.agentNames| == 0 && |t.vectorResults| > 0 ==>
      FormatLogs(t) == VectorHeader + Concat(Separated(VectorLines(t.vectorResults), "\n"))
  {
    if |t.contexts| > 0 {
      PeelContext(t);
    } else if |t.handoffs| > 0 {
      PeelHandoffs(t);
    } else if |t.agentNames| > 0 {
      PeelAgents(t);
    } else if |t.vectorResults| > 0 {
      PeelHits(t);
    }
  }

  lemma PeelContext(t: Tracker)
    requires |t.contexts| > 0
    ensures FormatLogs(t) == ContextHeader + Join(t.contexts, "\n") + Continued(t.(contexts := []))
  {
    var first := ContextHeader + Join(t.contexts, "\n");
    assert Sections(t) == [first] + Sections(t.(contexts := []));
    JoinFirstSection(first, t.(contexts := []));
  }

  lemma PeelHandoffs(t: Tracker)
    requires |t.contexts| == 0 && |t.handoffs| > 0
    ensures FormatLogs(t) == HandoffHeader + Join(t.handoffs, " -> ") + Continued(t.(handoffs := []))
  {
    var first := HandoffHeader + Join(t.handoffs, " -> ");
    assert Sections(t) == [first] + Sections(t.(handoffs := []));
    JoinFirstSection(first, t.(handoffs := []));
  }

  lemma PeelAgents(t: Tracker)
    requires |t.contexts| == 0 && |t.handoffs| == 0 && |t.agentNames| > 0
    ensures FormatLogs(t) == AgentsHeader + Join(t.agentNames, ", ") + Continued(t.(agentNames := []))
  {
    var first := AgentsHeader + Join(t.agentNames, ", ");
    assert Sections(t) == [first] + Sections(t.(agentNames := []));
    JoinFirstSection(first, t.(agentNames := []));
  }

  lemma PeelHits(t: Tracker)
    requires |t.contexts| == 0 && |t.handoffs| == 0 && |t.agentNames| == 0 && |t.vectorResults| > 0
    ensures FormatLogs(t) == VectorHeader + Concat(Separated(VectorLines(t.vectorResults), "\n"))
  {
    var lines := [VectorHeader] + VectorLines(t.vectorResults);
    assert Sections(t) == lines;
    JoinIsConcat(lines, "\n");
    assert lines[1..] == VectorLines(t.vectorResults);
  }

  /** The log of any run is non-empty, since the entry agent is always recorded. */
  lemma RunLogNeverEmpty(entry: string, withContext: bool, items: seq<TraceItem>)
    ensures FormatLogs(TrackRun(entry, withContext, items)) != ""
    ensures withContext <==> StartsWith(FormatLogs(TrackRun(entry, withContext, items)), ContextHeader)
  {
    var t := TrackRun(entry, withContext, items);
    if !withContext {
      var r := FormatLogs(t);
      if |t.handoffs| > 0 {
        assert r[..|HandoffHeader|][0] == r[0];
      } else {
        assert r[..|AgentsHeader|][0] == r[0];
      }
      assert r[0] != ContextHeader[0];
    }
  }
}
