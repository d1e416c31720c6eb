/** What the quality check decides, what a refused run reports, and what todos show, in the program's terms. */
module WorkflowLaws {
  import TaskTypes
  import opened Workflow

  // ---- the verdict ------------------------------------------------------------------------------------

  /** After the quality check a valid result ends the run as it is; an invalid one goes back to the generator
      as long as retries are left, for one retry if it is granted, and ends the run with a report otherwise. */
  lemma VerdictDecides(c: Context, granted: bool)
    ensures var after := Handled(c, Unset, granted);
      if c.quality.valid then
        after.Some? && after.value == c.(nextNode := End, plan := after.value.plan)
      else if c.retries < c.maxRetries then
        && (after.Some? <==> granted)
        && (granted ==>
              after.value == c.(nextNode := CodeGenerator, retries := c.retries + 1, plan := after.value.plan))
      else
        && after.Some?
        && after.value == c.(nextNode := End, description := after.value.description, plan := after.value.plan)
  {
    hide QualityIssues, AllProgressed;
  }

  /** Every other node leads to its successor and changes nothing else but the plan's todos. */
  lemma OtherNodesLeadOn(c: Context, next: Node, granted: bool)
    requires next != Unset
    ensures var after := Handled(c, next, granted);
      after.Some? && after.value == c.(nextNode := next, plan := after.value.plan)
  {
    hide QualityIssues, AllProgressed;
  }

  /** The verdicts of the quality checks of a run left alone, in order. */
  ghost function Verdicts(f: Nodes, node: Node, c: Context, files: Files): seq<bool>
    requires Filled(c)
    decreases RetriesLeft(c), Rank(node)
  {
    if !InGraph(node) || Done(f, node, c, files).None? then []
    else
      DoneFacts(f, node, c, files);
      var (next, files') := Done(f, node, c, files).value;
      (if node == QualityCheck then [next.quality.valid] else []) + Verdicts(f, next.nextNode, next, files')
  }

  /** One check for every retry made, and the last; all but the last were invalid; the last is the result's,
      and it is valid unless the retries are used up. */
  ghost predicate Judged(verdicts: seq<bool>, c: Context, result: Snapshot) {
    && verdicts != []
    && |verdicts| == 1 + result.retries - c.retries
    && (forall i :: 0 <= i < |verdicts| - 1 ==> !verdicts[i])
    && verdicts[|verdicts| - 1] == result.quality.valid
    && (result.quality.valid || result.retries >= result.maxRetries)
  }

  lemma CheckedIs(f: Nodes, c: Context, files: Files)
    requires Filled(c) && Done(f, QualityCheck, c, files).Some?
    ensures var next := Done(f, QualityCheck, c, files).value.0;
      && next.maxRetries == c.maxRetries
      && (if !next.quality.valid && c.retries < c.maxRetries
          then next.nextNode == CodeGenerator && next.retries == c.retries + 1
          else next.nextNode == End && next.retries == c.retries)
  {
    hide QualityIssues, AllProgressed;
  }

  /** One node further: the run left alone goes on from what the node leaves, and only the quality check adds a
      verdict. */
  lemma GoesOn(f: Nodes, node: Node, c: Context, files: Files, trace: seq<Node>)
    requires Filled(c) && InGraph(node) && Uninterrupted(f, node, c, files, trace).Finished?
    ensures Done(f, node, c, files).Some?
    ensures var (next, files') := Done(f, node, c, files).value;
      && Filled(next)
      && Uninterrupted(f, node, c, files, trace) == Uninterrupted(f, next.nextNode, next, files', trace + [node])
      && Verdicts(f, node, c, files)
         == (if node == QualityCheck then [next.quality.valid] else []) + Verdicts(f, next.nextNode, next, files')
  {
    DoneFacts(f, node, c, files);
    hide Done, Handled, Rank, Asks, RetriesLeft;
  }

  /** Where it goes: back to the generator for a retry, on to the next node, or to the end. */
  lemma GoesTo(f: Nodes, node: Node, c: Context, files: Files)
    requires Filled(c) && InGraph(node) && Done(f, node, c, files).Some?
    ensures var next := Done(f, node, c, files).value.0;
      if node != QualityCheck then
        && InGraph(next.nextNode) && next.retries == c.retries
        && RetriesLeft(next) == RetriesLeft(c) && Rank(next.nextNode) < Rank(node)
      else if next.nextNode == End then
        && next.retries == c.retries
        && (next.quality.valid || next.retries >= next.maxRetries)
      else
        && InGraph(next.nextNode) && next.retries == c.retries + 1 && !next.quality.valid
        && RetriesLeft(next) < RetriesLeft(c)
  {
    DoneFacts(f, node, c, files);
    if node == QualityCheck { CheckedIs(f, c, files); }
    hide Done, Handled, Asks;
  }

  lemma Ends(f: Nodes, c: Context, files: Files, trace: seq<Node>)
    requires Filled(c)
    ensures Uninterrupted(f, End, c, files, trace) == Finished(Save(c), files, trace)
    ensures Verdicts(f, End, c, files) == []
  {
  }

  /** The last verdict is the result's own. */
  lemma JudgedLast(c: Context, next: Context)
    requires next.retries == c.retries && (next.quality.valid || next.retries >= next.maxRetries)
    ensures Judged([next.quality.valid] + [], c, Save(next))
  {
  }

  /** An invalid verdict in front takes one more retry; without one nothing changes. */
  lemma JudgedAdds(later: seq<bool>, c: Context, next: Context, result: Snapshot)
    requires Judged(later, next, result)
    ensures next.retries == c.retries + 1 ==> Judged([false] + later, c, result)
    ensures next.retries == c.retries ==> Judged([] + later, c, result)
  {
    assert [] + later == later;
  }

  /** A finished run was checked once more than it was sent back, and sent back exactly for invalid results. */
  lemma {:induction false} FinishedRunWasJudged(f: Nodes, node: Node, c: Context, files: Files, trace: seq<Node>)
    requires Filled(c) && InGraph(node) && Uninterrupted(f, node, c, files, trace).Finished?
    ensures Judged(Verdicts(f, node, c, files), c, Uninterrupted(f, node, c, files, trace).result)
    decreases RetriesLeft(c), Rank(node)
  {
    hide *;
    GoesOn(f, node, c, files, trace);
    GoesTo(f, node, c, files);
    var (next, files') := Done(f, node, c, files).value;
    if node == QualityCheck && next.nextNode == End {
      Ends(f, next, files', trace + [node]);
      JudgedLast(c, next);
    } else {
      FinishedRunWasJudged(f, next.nextNode, next, files', trace + [node]);
      var result := Uninterrupted(f, node, c, files, trace).result;
      JudgedAdds(Verdicts(f, next.nextNode, next, files'), c, next, result);
    }
  }

  // ---- the report -------------------------------------------------------------------------------------

  /** The text has the line, at its beginning or after another one. */
  ghost predicate HasLine(text: string, line: string) {
    exists before: string, after: string ::
      text == before + line + "\n" + after && (before == "" || before[|before| - 1] == '\n')
  }

  lemma LineStays(text: string, line: string, front: string, back: string)
    requires HasLine(text, line) && (front == "" || front[|front| - 1] == '\n')
    ensures HasLine(front + text + back, line)
  {
    var before: string, after: string :|
      text == before + line + "\n" + after && (before == "" || before[|before| - 1] == '\n');
    assert front + text + back == (front + before) + line + "\n" + (after + back);
  }

  lemma {:induction false} BulletsHaveLines(lines: seq<string>, i: nat)
    requires i < |lines|
    ensures HasLine(Bullets(lines), "- " + lines[i])
    decreases |lines|
  {
    var n := |lines| - 1;
    var front, last := Bullets(lines[..n]), "- " + lines[n] + "\n";
    assert Bullets(lines) == front + last;
    if i == n {
      BulletsEnd(lines[..n]);
      assert front + last == front + ("- " + lines[n]) + "\n" + "";
    } else {
      BulletsHaveLines(lines[..n], i);
      LineStays(front, "- " + lines[i], "", last);
      assert "" + front + last == front + last;
    }
  }

  lemma BulletsEnd(lines: seq<string>)
    ensures Bullets(lines) == "" || Bullets(lines)[|Bullets(lines)| - 1] == '\n'
  {
  }

  /** The report keeps the description it follows, and every error and every suggestion of the check is a line
      of it. */
  lemma ReportSaysAll(description: string, q: Quality)
    ensures var report := QualityIssues(description, q);
      && description <= report
      && (forall i :: 0 <= i < |q.errors| ==> HasLine(report, "- " + q.errors[i]))
      && (forall i :: 0 <= i < |q.suggestions| ==> HasLine(report, "- " + q.suggestions[i]))
  {
    var head := description + (if description == "" then "" else "\n\n") + "## Code quality issues\n";
    var errors := Bullets(q.errors);
    var tail := if q.suggestions == [] then "" else "\n## Suggestions\n" + Bullets(q.suggestions);
    var report := QualityIssues(description, q);
    assert report == head + errors + tail;
    assert head[|head| - 1] == '\n';
    BulletsEnd(q.errors);
    hide QualityIssues, Bullets, HasLine;
    forall i | 0 <= i < |q.errors| ensures HasLine(report, "- " + q.errors[i]) {
      BulletsHaveLines(q.errors, i);
      LineStays(errors, "- " + q.errors[i], head, tail);
    }
    forall i | 0 <= i < |q.suggestions| ensures HasLine(report, "- " + q.suggestions[i]) {
      BulletsHaveLines(q.suggestions, i);
      var front := head + errors + "\n## Suggestions\n";
      assert report == front + Bullets(q.suggestions) + "";
      LineStays(Bullets(q.suggestions), "- " + q.suggestions[i], front, "");
    }
  }

  /** A run that ends without a valid result reports every error and suggestion of its last check. */
  lemma RefusedRunReports(c: Context, granted: bool)
    requires !c.quality.valid && c.retries >= c.maxRetries
    ensures var after := Handled(c, Unset, granted).value;
      && c.description <= after.description
      && (forall i :: 0 <= i < |c.quality.errors| ==> HasLine(after.description, "- " + c.quality.errors[i]))
      && (forall i :: 0 <= i < |c.quality.suggestions| ==> HasLine(after.description, "- " + c.quality.suggestions[i]))
  {
    ReportSaysAll(c.description, c.quality);
    hide QualityIssues, AllProgressed, HasLine;
  }

  // ---- todos ------------------------------------------------------------------------------------------

  /** Only the status of one todo may change, and only to this one. */
  predicate Marks(before: seq<TaskTypes.Todo>, after: seq<TaskTypes.Todo>, id: string, status: string) {
    && |after| == |before|
    && forall i :: 0 <= i < |before| ==>
         after[i] == if before[i].id == id then TaskTypes.Todo(before[i].id, before[i].title, status) else before[i]
  }

  /** Generation is marked completed after the generator, and pending again when its result is sent back; the
      check is marked completed when it finds the result valid. Nothing else of a plan changes. */
  lemma TodosFollow(c: Context, next: Node, granted: bool)
    requires Handled(c, next, granted).Some?
    ensures var plan := Handled(c, next, granted).value.plan;
      var before, after := c.plan.todos, plan.todos;
      && plan == c.plan.(todos := after)
      && (if next == QualityCheck then Marks(before, after, "generate", "completed")
          else if next != Unset then after == before
          else if c.quality.valid then Marks(before, after, "quality", "completed")
          else if c.retries < c.maxRetries then Marks(before, after, "generate", "pending")
          else after == before)
  {
    var after := Handled(c, next, granted).value;
    assert after.plan.todos == AllProgressed(c.plan.todos, next, c.quality.valid, after.nextNode);
    hide QualityIssues, Bullets;
    assert "generate"[0] != "quality"[0];
  }
}
