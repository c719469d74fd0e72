/**
  The `.env` rewrite run after a vector store is created: the first line that assigns
  VECTOR_STORE_ID is replaced, or an assignment is appended. Lines are those of Python's
  `readlines()`: each keeps its "\n", and only the last one may lack it.
 */
module EnvFile {
  import opened Wrappers
  import opened Text

  const Key := "VECTOR_STORE_ID="

  /** The line written for `id`. */
  function Assignment(id: string): (r: string)
    ensures StartsWith(r, Key) && EndsWith(r, "\n") && |r| == |Key| + |id| + 1
  {
    var r := Key + id + "\n";
    PrefixOfConcat(Key, id + "\n");
    assert Key + id + "\n" == Key + (id + "\n");
    SuffixOfConcat(Key + id, "\n");
    r
  }

  /** The index of the first line that starts with the key, if there is one. */
  function FirstKeyLine(lines: seq<string>): (r: Option<nat>)
    ensures r.Some? ==>
      && r.value < |lines| && StartsWith(lines[r.value], Key)
      && forall k :: 0 <= k < r.value ==> !StartsWith(lines[k], Key)
    ensures r.None? ==> forall k :: 0 <= k < |lines| ==> !StartsWith(lines[k], Key)
  {
    if |lines| == 0 then None
    else if StartsWith(lines[0], Key) then Some(0)
    else match FirstKeyLine(lines[1..])
      case Some(i) => Some(i + 1)
      case None => None
  }

  /** The first matching line is the only candidate for `FirstKeyLine`. */
  lemma FirstKeyLineIs(lines: seq<string>, i: nat)
    requires i < |lines| && StartsWith(lines[i], Key)
    requires forall k :: 0 <= k < i ==> !StartsWith(lines[k], Key)
    ensures FirstKeyLine(lines) == Some(i)
  {
  }

  /**
    `update_env_with_vector_store_id` on the lines of the file: replace the first assigning
    line, or append one assignment when there is none.
   */
  function UpdateLines(lines: seq<string>, id: string): (r: seq<string>)
    ensures FirstKeyLine(lines).Some? ==>
      var i := FirstKeyLine(lines).value;
      |r| == |lines| && r[i] == Assignment(id) && forall k :: 0 <= k < |lines| && k != i ==> r[k] == lines[k]
    ensures FirstKeyLine(lines).None? ==> r == lines + [Assignment(id)]
  {
    match FirstKeyLine(lines)
    case Some(i) => lines[i := Assignment(id)]
    case None => lines + [Assignment(id)]
  }

  /** The rewrite grows the file by at most one line and always leaves the assignment in it. */
  lemma UpdateLinesAssigns(lines: seq<string>, id: string)
    ensures |UpdateLines(lines, id)| == |lines| || |UpdateLines(lines, id)| == |lines| + 1
    ensures exists k :: 0 <= k < |UpdateLines(lines, id)| && UpdateLines(lines, id)[k] == Assignment(id)
  {
    var r := UpdateLines(lines, id);
    match FirstKeyLine(lines)
    case Some(i) => assert r[i] == Assignment(id);
    case None => assert r[|lines|] == Assignment(id);
  }

  /** Later duplicate assignments are kept as they are: only the first one is rewritten. */
  lemma UpdateLinesKeepsDuplicates(lines: seq<string>, id: string, k: nat)
    requires FirstKeyLine(lines).Some? && FirstKeyLine(lines).value < k < |lines|
    ensures UpdateLines(lines, id)[k] == lines[k]
  {
  }

  /** Rewriting twice with the same id is rewriting once. */
  lemma UpdateLinesIdempotent(lines: seq<string>, id: string)
    ensures UpdateLines(UpdateLines(lines, id), id) == UpdateLines(lines, id)
  {
    var r := UpdateLines(lines, id);
    match FirstKeyLine(lines)
    case Some(i) =>
      FirstKeyLineIs(r, i);
    case None =>
      FirstKeyLineIs(r, |lines|);
      assert r[|lines| := Assignment(id)] == r;
  }

  // ---------------------------------------------------------------------------
  // The file as written back
  // ---------------------------------------------------------------------------

  /** The shape `readlines()` gives: every line but the last ends with a newline. */
  predicate ReadLinesShape(lines: seq<string>) {
    forall k :: 0 <= k < |lines| - 1 ==> EndsWith(lines[k], "\n")
  }

  /** The file holds the assignment for `id` at the start of one of its lines. */
  predicate AssignedAtLineStart(content: string, id: string) {
    exists i :: 0 <= i <= |content| && OccursAt(content, Assignment(id), i) && (i == 0 || content[i - 1] == '\n')
  }

  /** `Concat` of a one-line file is that line. */
  lemma ConcatSingle(x: string)
    ensures Concat([x]) == x
  {
    assert [x][1..] == [];
  }

  /**
    A file whose last line has no newline: the appended assignment is glued onto that line,
    and no line of the written file starts with it.
   */
  lemma GluedAssignment()
    ensures ReadLinesShape(["A=1"])
    ensures Concat(UpdateLines(["A=1"], "vs")) == "A=1" + Assignment("vs")
    ensures !AssignedAtLineStart(Concat(UpdateLines(["A=1"], "vs")), "vs")
  {
    var lines := ["A=1"];
    var a := Assignment("vs");
    assert lines[0][0] == 'A' && Key[0] == 'V';
    assert !StartsWith(lines[0], Key);
    assert FirstKeyLine(lines) == None;
    assert UpdateLines(lines, "vs") == ["A=1", a];
    assert ["A=1", a][1..] == [a];
    ConcatSingle(a);
    var c := Concat(UpdateLines(lines, "vs"));
    assert c == "A=1" + a;
    assert a[..|Key|] == Key;
    assert a[0] == a[..|Key|][0];
    forall i | 0 <= i <= |c|
      ensures !OccursAt(c, a, i) || (i != 0 && c[i - 1] != '\n')
    {
      if i + |a| <= |c| {
        assert c[i..i + |a|][0] == c[i];
        assert i <= 3;
        if i > 0 {
          assert c[i - 1] == "A=1"[i - 1];
        }
      }
    }
  }

  /** A line ended with a newline: kept when it has one, completed otherwise. */
  function Terminated(line: string): (r: string)
    ensures EndsWith(r, "\n")
    ensures r == line || r == line + "\n"
  {
    if EndsWith(line, "\n") then line else SuffixOfConcat(line, "\n"); line + "\n"
  }

  /** Ends the last line with a newline when it lacks one. */
  function TerminateLast(lines: seq<string>): (r: seq<string>)
    ensures |r| == |lines|
    ensures forall k :: 0 <= k < |lines| - 1 ==> r[k] == lines[k]
    ensures |lines| > 0 ==> r[|lines| - 1] == Terminated(lines[|lines| - 1])
  {
    if |lines| == 0 then [] else lines[..|lines| - 1] + [Terminated(lines[|lines| - 1])]
  }

  /**
    The rewrite with the missing newline supplied: an appended assignment starts a line of
    its own. A replaced line already does.
   */
  function UpdateLinesFixed(lines: seq<string>, id: string): (r: seq<string>)
    ensures FirstKeyLine(lines).Some? ==> r == UpdateLines(lines, id)
    ensures FirstKeyLine(lines).None? ==> r == TerminateLast(lines) + [Assignment(id)]
  {
    match FirstKeyLine(lines)
    case Some(i) => lines[i := Assignment(id)]
    case None => TerminateLast(lines) + [Assignment(id)]
  }

  /** Every line but the first of a shaped file begins right after a newline. */
  lemma {:induction false} ConcatLineStart(lines: seq<string>, i: nat)
    requires 0 < i <= |lines|
    requires EndsWith(lines[i - 1], "\n")
    ensures |Concat(lines[..i])| > 0 && Concat(lines[..i])[|Concat(lines[..i])| - 1] == '\n'
  {
    assert lines[..i] == lines[..i - 1] + [lines[i - 1]];
    ConcatAppend(lines[..i - 1], [lines[i - 1]]);
    assert Concat([lines[i - 1]]) == lines[i - 1];
    var line := lines[i - 1];
    assert line[|line| - 1..] == "\n";
    assert line[|line| - 1] == '\n';
  }

  /** `k` placed after `a` occurs right at the end of `a`. */
  lemma PlacedAfter(a: string, k: string, b: string)
    ensures OccursAt(a + (k + b), k, |a|)
    ensures |a| > 0 ==> (a + (k + b))[|a| - 1] == a[|a| - 1]
  {
    assert (a + (k + b))[|a|..|a| + |k|] == k;
  }

  /** A file is the lines before line `i`, line `i`, and the lines after it. */
  lemma ConcatAround(lines: seq<string>, i: nat)
    requires i < |lines|
    ensures Concat(lines) == Concat(lines[..i]) + (lines[i] + Concat(lines[i + 1..]))
  {
    var tail := lines[i..];
    assert lines == lines[..i] + tail;
    ConcatAppend(lines[..i], tail);
    assert tail[0] == lines[i] && tail[1..] == lines[i + 1..];
  }

  /** The assignment sits at a line start when it is line `i` of a shaped file. */
  lemma AssignmentLineStarts(lines: seq<string>, i: nat, id: string)
    requires i < |lines| && lines[i] == Assignment(id)
    requires forall k :: 0 <= k < i ==> EndsWith(lines[k], "\n")
    ensures AssignedAtLineStart(Concat(lines), id)
  {
    ConcatAround(lines, i);
    var before := Concat(lines[..i]);
    PlacedAfter(before, Assignment(id), Concat(lines[i + 1..]));
    if i > 0 {
      ConcatLineStart(lines, i);
    }
    assert OccursAt(Concat(lines), Assignment(id), |before|);
  }

  /** Whatever the file looked like, the corrected rewrite leaves the assignment on a line of its own. */
  lemma FixedAssignedAtLineStart(lines: seq<string>, id: string)
    requires ReadLinesShape(lines)
    ensures AssignedAtLineStart(Concat(UpdateLinesFixed(lines, id)), id)
  {
    var r := UpdateLinesFixed(lines, id);
    match FirstKeyLine(lines)
    case Some(i) =>
      assert forall k :: 0 <= k < i ==> r[k] == lines[k];
      AssignmentLineStarts(r, i, id);
    case None =>
      AssignmentLineStarts(r, |lines|, id);
  }

  /** Completing a line with a newline never makes it start with the key. */
  lemma TerminatedKeepsKey(line: string)
    ensures StartsWith(Terminated(line), Key) <==> StartsWith(line, Key)
  {
    var t := Terminated(line);
    if |line| >= |Key| {
      assert t[..|Key|] == line[..|Key|];
    } else if t != line && |t| == |Key| {
      assert t[|line|] == '\n' && Key[|line|] == '=';
      assert t[..|Key|][|line|] == t[|line|];
    }
  }

  /** The corrected rewrite is idempotent too. */
  lemma FixedIdempotent(lines: seq<string>, id: string)
    ensures UpdateLinesFixed(UpdateLinesFixed(lines, id), id) == UpdateLinesFixed(lines, id)
  {
    var r := UpdateLinesFixed(lines, id);
    match FirstKeyLine(lines)
    case Some(i) =>
      FirstKeyLineIs(r, i);
    case None =>
      if |lines| > 0 {
        TerminatedKeepsKey(lines[|lines| - 1]);
      }
      FirstKeyLineIs(r, |lines|);
      assert r[|lines| := Assignment(id)] == r;
  }
}
