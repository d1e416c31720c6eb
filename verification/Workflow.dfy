/** The checkpointed workflow: four nodes, a bounded retry loop decided after the quality check, and
    a safe point after every node where the run may be stopped and resumed from its snapshot. */
module Workflow {
  import opened TaskTypes

  /** The graph's nodes; `Unset` is the empty name, `Unknown` any other. */
  datatype Node = Router | PromptEnhancer | CodeGenerator | QualityCheck | End | Unset | Unknown(name: string)

  datatype Quality = Quality(valid: bool, errors: seq<string>, suggestions: seq<string>)

  /** The durable fields no handler looks at, the fields no checkpoint stores (directories, the error
      message, the image plan and lists, the callbacks), and the files of a workspace. */
  type Data(!new)
  type Runtime(!new)
  type Files(!new)

  /** The runtime context. */
  datatype Context = Context(
    data: Data, runtime: Runtime, step: string, quality: Quality, description: string,
    retries: int, maxRetries: int, plan: Plan, nextNode: Node)

  /** What a checkpoint stores; the next node travels on the checkpoint itself. */
  datatype Snapshot = Snapshot(
    data: Data, step: string, quality: Quality, description: string, retries: int, maxRetries: int, plan: Plan)

  function Save(c: Context): Snapshot {
    Snapshot(c.data, c.step, c.quality, c.description, c.retries, c.maxRetries, c.plan)
  }

  /** `blank` is what runtime fields start as. */
  function Restore(s: Snapshot, blank: Runtime): Context {
    Context(s.data, blank, s.step, s.quality, s.description, s.retries, s.maxRetries, s.plan, Unset)
  }

  /** Entering the workflow with a restored context fills in missing values. */
  function Normalised(c: Context): Context {
    c.(step := if c.step == "" then "初始化" else c.step,
       maxRetries := if c.maxRetries <= 0 then 3 else c.maxRetries)
  }

  function Resumed(c: Context, next: Node, blank: Runtime): Context {
    Normalised(Restore(Save(c), blank).(nextNode := next))
  }

  /** Stopping and resuming keeps the durable part exactly when nothing needs filling in, and the whole
      context exactly when its runtime fields are blank besides. */
  lemma ResumingIsIdentity(c: Context, next: Node, blank: Runtime)
    ensures Save(Resumed(c, next, blank)) == Save(c) <==> c.maxRetries > 0 && c.step != ""
    ensures Resumed(c, next, blank) == c.(nextNode := next) <==>
              c.maxRetries > 0 && c.step != "" && c.runtime == blank
  {
    var resumed := Resumed(c, next, blank);
    assert resumed.maxRetries > 0 && resumed.step != "";
    assert c.runtime == blank ==> c.(nextNode := next).runtime == resumed.runtime;
  }

  // ---- the post-handler of every node ---------------------------------------------------------

  function Bullets(lines: seq<string>): string {
    if lines == [] then "" else Bullets(lines[..|lines| - 1]) + "- " + lines[|lines| - 1] + "\n"
  }

  function QualityIssues(description: string, q: Quality): string {
    description + (if description == "" then "" else "\n\n")
    + "## Code quality issues\n" + Bullets(q.errors)
    + (if q.suggestions == [] then "" else "\n## Suggestions\n" + Bullets(q.suggestions))
  }

  function Progressed(t: Todo, next: Node, valid: bool, nextNode: Node): Todo {
    if t.id == "generate" && next == QualityCheck then t.(status := "completed")
    else if t.id == "quality" && next == Unset && valid then t.(status := "completed")
    else if t.id == "generate" && next == Unset && nextNode == CodeGenerator then t.(status := "pending")
    else t
  }

  function AllProgressed(todos: seq<Todo>, next: Node, valid: bool, nextNode: Node): seq<Todo> {
    seq(|todos|, i requires 0 <= i < |todos| => Progressed(todos[i], next, valid, nextNode))
  }

  /** Whether the quality check sends the run back to the generator. */
  predicate Retries(c: Context, next: Node) {
    next == Unset && !c.quality.valid && c.retries < c.maxRetries
  }

  /** `next` is the node's fixed successor, empty after the quality check; None when the budget
      refuses the retry. */
  function Handled(c: Context, next: Node, granted: bool): Option<Context> {
    if Retries(c, next) && !granted then None
    else
      var nextNode := if next != Unset then next else if Retries(c, next) then CodeGenerator else End;
      Some(c.(nextNode := nextNode,
              retries := if Retries(c, next) then c.retries + 1 else c.retries,
              description := if next != Unset || c.quality.valid || Retries(c, next) then c.description
                             else QualityIssues(c.description, c.quality),
              plan := c.plan.(todos := AllProgressed(c.plan.todos, next, c.quality.valid, nextNode))))
  }

  /** The context object the nodes share. */
  class WorkFlowContext {
    var data: Data
    var runtime: Runtime
    var step: string
    var quality: Quality
    var description: string
    var retries: int
    var maxRetries: int
    var plan: Plan
    var nextNode: Node

    constructor (c: Context)
      ensures Value() == c
    {
      data, runtime, step, quality, description := c.data, c.runtime, c.step, c.quality, c.description;
      retries, maxRetries, plan, nextNode := c.retries, c.maxRetries, c.plan, c.nextNode;
    }

    function Value(): Context
      reads this
    {
      Context(data, runtime, step, quality, description, retries, maxRetries, plan, nextNode)
    }

    method AppendBullets(text: string, lines: seq<string>) returns (more: string)
      ensures more == text + Bullets(lines)
    {
      more := text;
      for i := 0 to |lines|
        invariant more == text + Bullets(lines[..i])
      {
        assert lines[..i + 1][..i] == lines[..i];
        more := more + "- " + lines[i] + "\n";
      }
      assert lines[..|lines|] == lines;
    }

    method AppendQualityIssues(text: string, q: Quality) returns (report: string)
      ensures report == QualityIssues(text, q)
    {
      hide Bullets;
      report := text;
      if |report| > 0 {
        report := report + "\n\n";
      }
      report := report + "## Code quality issues\n";
      report := AppendBullets(report, q.errors);
      if |q.suggestions| > 0 {
        report := report + "\n## Suggestions\n";
        report := AppendBullets(report, q.suggestions);
      }
    }

    method MarkTodos(next: Node)
      modifies this`plan
      ensures plan == old(plan).(todos := AllProgressed(old(plan).todos, next, quality.valid, nextNode))
    {
      for i := 0 to |plan.todos|
        invariant plan == old(plan).(todos := plan.todos) && |plan.todos| == |old(plan).todos|
        invariant forall j :: 0 <= j < |plan.todos| ==>
          plan.todos[j] == if j >= i then old(plan).todos[j]
                           else Progressed(old(plan).todos[j], next, quality.valid, nextNode)
      {
        var todo := plan.todos[i];
        if todo.id == "generate" && next == QualityCheck {
          todo := todo.(status := "completed");
        }
        if todo.id == "quality" && next == Unset && quality.valid {
          todo := todo.(status := "completed");
        }
        if todo.id == "generate" && next == Unset && nextNode == CodeGenerator {
          todo := todo.(status := "pending");
        }
        plan := plan.(todos := plan.todos[i := todo]);
      }
      assert plan.todos == AllProgressed(old(plan).todos, next, quality.valid, nextNode);
    }

    /** False when consuming a retry fails; then nothing changed. */
    method PostHandler(next: Node, granted: bool) returns (ok: bool)
      modifies this
      ensures ok <==> Handled(old(Value()), next, granted).Some?
      ensures Value() == if ok then Handled(old(Value()), next, granted).value else old(Value())
    {
      hide QualityIssues, AllProgressed;
      if next == Unset {
        var following := End;
        if !quality.valid {
          if retries < maxRetries {
            if !granted { return false; }
            retries := retries + 1;
            following := CodeGenerator;
          } else {
            description := AppendQualityIssues(description, quality);
          }
        }
        nextNode := following;
      } else {
        nextNode := next;
      }
      MarkTodos(next);
      return true;
    }
  }

  // ---- the graph ------------------------------------------------------------------------------

  function Successor(node: Node): Node {
    if node == Router then PromptEnhancer
    else if node == PromptEnhancer then CodeGenerator
    else if node == CodeGenerator then QualityCheck
    else Unset
  }

  predicate InGraph(node: Node) {
    node == Router || node == PromptEnhancer || node == CodeGenerator || node == QualityCheck
  }

  function Rank(node: Node): nat {
    if node == Router then 4
    else if node == PromptEnhancer then 3
    else if node == CodeGenerator then 2
    else if node == QualityCheck then 1
    else 0
  }

  type NodeFunction = (Node, Context, Files) -> Option<(Context, Files)>

  /** Nodes name the step they did and leave the retry bookkeeping to the handlers. */
  ghost predicate Stable(f: NodeFunction) {
    forall node: Node, c: Context, files: Files :: f(node, c, files).Some? ==>
      var after := f(node, c, files).value.0;
      after.retries == c.retries && after.maxRetries == c.maxRetries && after.step != ""
  }

  ghost predicate SameResult(a: Option<(Context, Files)>, b: Option<(Context, Files)>) {
    if a.None? then b.None? else b.Some? && Save(a.value.0) == Save(b.value.0) && a.value.1 == b.value.1
  }

  /** Nodes look at nothing a checkpoint does not store, so what they leave for a checkpoint is the same
      wherever they run. */
  ghost predicate Portable(f: NodeFunction) {
    forall node: Node, c: Context, d: Context, files: Files ::
      Save(c) == Save(d) ==> SameResult(f(node, c, files), f(node, d, files))
  }

  /** The four nodes compute from the context and the workspace files, and may fail. */
  type Nodes = f: NodeFunction | Stable(f) && Portable(f)
    ghost witness (node: Node, c: Context, files: Files) => None

  /** The context has the values that entering the workflow fills in. */
  predicate Filled(c: Context) {
    c.maxRetries > 0 && c.step != ""
  }

  /** `trace` lists the nodes completed up to the end or the failure. */
  datatype Outcome =
    | Finished(result: Snapshot, files: Files, trace: seq<Node>)
    | NodeFailed(node: Node, trace: seq<Node>)
    | RetryRefused(trace: seq<Node>)
    | InvalidNode(trace: seq<Node>)

  function RetriesLeft(c: Context): nat {
    if c.retries < c.maxRetries then c.maxRetries - c.retries else 0
  }

  // ---- attempts that crash ---------------------------------------------------------------------

  /** An attempt that ends before the node's safe point is saved: within the node, with anything in the
      live context and files, or after its handler has run. A requested stop is a crash within. */
  datatype Crash =
    | Within(context: Context, files: Files)
    | BeforeSave

  /** A running attempt. `used` is the durable count of retries; it survives crashes. */
  datatype Live = Live(context: Context, files: Files, used: nat)

  /** The live state at the crash; None when the attempt was refused a retry before it. */
  ghost function Crashed(
      f: Nodes, node: Node, live: Live, limit: nat, crash: Crash): Option<Live>
  {
    match crash
    case Within(context, files) => Some(Live(context, files, live.used))
    case BeforeSave =>
      var out := f(node, live.context, live.files);
      if out.None? then Some(live)
      else
        var handled := Handled(out.value.0, Successor(node), live.used < limit);
        if handled.None? then None
        else
          var counted := if Retries(out.value.0, Successor(node)) then 1 else 0;
          Some(Live(handled.value, out.value.1, live.used + counted))
  }

  /** The last checkpoint, put in place of whatever a crash left; only the count stays. */
  function Restarted(saved: Snapshot, node: Node, files: Files, blank: Runtime, used: nat): Live {
    Live(Normalised(Restore(saved, blank).(nextNode := node)), files, used)
  }

  /** The attempts of one node that crash, one after the other, each restarted from the checkpoint. */
  ghost function Survived(
      f: Nodes, blank: Runtime, node: Node, saved: Snapshot, files: Files,
      live: Live, limit: nat, crashes: seq<Crash>): Option<Live>
    decreases |crashes|
  {
    if crashes == [] then Some(live)
    else
      var hit := Crashed(f, node, live, limit, crashes[0]);
      if hit.None? then None
      else
        var again := Restarted(saved, node, files, blank, hit.value.used);
        Survived(f, blank, node, saved, files, again, limit, crashes[1..])
  }

  /** How many of the crashes come after the handler. */
  function Late(crashes: seq<Crash>): nat {
    if crashes == [] then 0 else (if crashes[0].BeforeSave? then 1 else 0) + Late(crashes[1..])
  }

  /** Whether the node's result asks for a retry. */
  ghost predicate Asks(f: Nodes, node: Node, c: Context, files: Files) {
    f(node, c, files).Some? && Retries(f(node, c, files).value.0, Successor(node))
  }

  /** Crashes leave the checkpoint's context and files; each late one of a node that asks for a retry has
      counted it, and they are survived if and only if the limit leaves room for that. */
  lemma {:induction false} CrashesOnlyCount(
      f: Nodes, blank: Runtime, node: Node, saved: Snapshot, files: Files,
      live: Live, limit: nat, crashes: seq<Crash>)
    requires Save(live.context) == saved && live.files == files
    requires saved.maxRetries > 0 && saved.step != "" && live.used <= limit
    ensures var counted := if Asks(f, node, live.context, files) then Late(crashes) else 0;
      var end := Survived(f, blank, node, saved, files, live, limit, crashes);
      && (end.Some? <==> live.used + counted <= limit)
      && (end.Some? ==>
            Save(end.value.context) == saved && end.value.files == files && end.value.used == live.used + counted)
    decreases |crashes|
  {
    if crashes != [] {
      var hit := Crashed(f, node, live, limit, crashes[0]);
      if hit.Some? {
        var again := Restarted(saved, node, files, blank, hit.value.used);
        assert SameResult(f(node, live.context, files), f(node, again.context, files));
        CrashesOnlyCount(f, blank, node, saved, files, again, limit, crashes[1..]);
      }
    }
  }

  // ---- running the graph ----------------------------------------------------------------------

  lemma HandledFacts(c: Context, node: Node, granted: bool)
    requires Handled(c, Successor(node), granted).Some? && InGraph(node)
    ensures var after := Handled(c, Successor(node), granted).value;
      && after.maxRetries == c.maxRetries && after.step == c.step
      && after.retries == c.retries + (if Retries(c, Successor(node)) then 1 else 0)
      && after.nextNode == (if node != QualityCheck then Successor(node)
                            else if Retries(c, Successor(node)) then CodeGenerator else End)
      && (Retries(c, Successor(node)) ==> node == QualityCheck && c.retries < c.maxRetries)
  {
  }

  lemma HandledAlike(c: Context, d: Context, next: Node, granted: bool)
    requires Save(c) == Save(d)
    ensures Retries(c, next) <==> Retries(d, next)
    ensures Handled(c, next, granted).Some? <==> !Retries(c, next) || granted
    ensures Handled(c, next, granted).Some? ==>
              var after, alone := Handled(c, next, granted).value, Handled(d, next, true).value;
              Save(after) == Save(alone) && after.nextNode == alone.nextNode
  {
  }

  /** One node left alone, its retry granted: what its safe point saves, or None when the node fails. */
  ghost function Done(f: Nodes, node: Node, c: Context, files: Files): Option<(Context, Files)> {
    var out := f(node, c, files);
    if out.None? then None else Some((Handled(out.value.0, Successor(node), true).value, out.value.1))
  }

  lemma DoneFacts(f: Nodes, node: Node, c: Context, files: Files)
    requires Filled(c) && InGraph(node) && Done(f, node, c, files).Some?
    ensures var next, asks := Done(f, node, c, files).value.0, Asks(f, node, c, files);
      && Filled(next) && next.maxRetries == c.maxRetries
      && next.retries == c.retries + (if asks then 1 else 0)
      && next.nextNode == (if node != QualityCheck then Successor(node) else if asks then CodeGenerator else End)
      && (asks ==> node == QualityCheck && RetriesLeft(next) < RetriesLeft(c))
      && (!asks ==> RetriesLeft(next) == RetriesLeft(c) && Rank(next.nextNode) < Rank(node))
  {
    HandledFacts(f(node, c, files).value.0, node, true);
    hide Handled, Retries;
  }

  datatype Attempted = Refused | Failed | Passed(context: Context, files: Files, used: nat)

  /** The attempts at one node: some crash, then one passes the safe point, fails or is refused a retry. */
  ghost function Attempt(
      f: Nodes, blank: Runtime, node: Node, c: Context, files: Files,
      used: nat, limit: nat, crashes: seq<Crash>): Attempted
  {
    var live := Survived(f, blank, node, Save(c), files, Live(c, files, used), limit, crashes);
    if live.None? then Attempted.Refused
    else
      var out := f(node, live.value.context, live.value.files);
      if out.None? then Attempted.Failed
      else
        var handled := Handled(out.value.0, Successor(node), live.value.used < limit);
        if handled.None? then Attempted.Refused
        else
          var counted := if Retries(out.value.0, Successor(node)) then 1 else 0;
          Passed(handled.value, out.value.1, live.value.used + counted)
  }

  /** What a node left alone has counted in the end: its retry, and that again for every late crash. */
  ghost function CountedAt(f: Nodes, node: Node, c: Context, files: Files, crashes: seq<Crash>): nat {
    if Asks(f, node, c, files) then 1 + Late(crashes) else 0
  }

  /** The attempts at a node, seen from the node left alone: they save the same, or the node fails in both,
      unless what they count passes the limit. */
  lemma AttemptAlike(
      f: Nodes, blank: Runtime, node: Node, c: Context, alone: Context, files: Files,
      used: nat, limit: nat, crashes: seq<Crash>)
    requires Filled(c) && used <= limit && Save(c) == Save(alone)
    ensures var done, tried := Done(f, node, alone, files), Attempt(f, blank, node, c, files, used, limit, crashes);
      var counted := used + CountedAt(f, node, alone, files, crashes);
      && (done.None? ==> tried.Failed?)
      && (done.Some? && counted > limit ==> tried.Refused?)
      && (done.Some? && counted <= limit ==>
            && tried.Passed? && Save(tried.context) == Save(done.value.0)
            && tried.context.nextNode == done.value.0.nextNode
            && tried.files == done.value.1 && tried.used == counted)
  {
    CrashesOnlyCount(f, blank, node, Save(c), files, Live(c, files, used), limit, crashes);
    var live := Survived(f, blank, node, Save(c), files, Live(c, files, used), limit, crashes);
    assert SameResult(f(node, c, files), f(node, alone, files));
    if live.Some? {
      var context := live.value.context;
      assert SameResult(f(node, context, files), f(node, alone, files));
      if f(node, context, files).Some? {
        var after, undisturbed := f(node, context, files).value.0, f(node, alone, files).value.0;
        HandledAlike(after, undisturbed, Successor(node), live.value.used < limit);
      }
    }
    if f(node, c, files).Some? {
      HandledAlike(f(node, c, files).value.0, f(node, alone, files).value.0, Successor(node), true);
    }
    hide Survived, Late, Successor, Handled, Retries;
  }

  lemma AttemptDescends(
      f: Nodes, blank: Runtime, node: Node, c: Context, files: Files, used: nat, limit: nat, crashes: seq<Crash>)
    requires Filled(c) && used <= limit && InGraph(node)
    ensures var tried := Attempt(f, blank, node, c, files, used, limit, crashes);
      tried.Passed? ==>
        && Filled(tried.context) && tried.used <= limit
        && RetriesLeft(tried.context) <= RetriesLeft(c)
        && (RetriesLeft(tried.context) < RetriesLeft(c) || Rank(tried.context.nextNode) < Rank(node))
  {
    AttemptAlike(f, blank, node, c, c, files, used, limit, crashes);
    if Done(f, node, c, files).Some? { DoneFacts(f, node, c, files); }
    hide Attempt, Done, Rank;
  }

  /** The graph entered at `node` from a checkpoint. The attempts at the k-th node crash as `crashes(k)`
      says. Retries are counted durably in `used`, up to `limit`. */
  ghost function Execute(
      f: Nodes, blank: Runtime, node: Node, c: Context, files: Files, used: nat, limit: nat,
      k: nat, crashes: nat -> seq<Crash>, trace: seq<Node>): Outcome
    requires Filled(c) && used <= limit
    decreases RetriesLeft(c), Rank(node)
  {
    if node == End then Finished(Save(c), files, trace)
    else if !InGraph(node) then InvalidNode(trace)
    else
      AttemptDescends(f, blank, node, c, files, used, limit, crashes(k));
      match Attempt(f, blank, node, c, files, used, limit, crashes(k))
      case Refused => RetryRefused(trace + [node])
      case Failed => NodeFailed(node, trace)
      case Passed(next, files', used') =>
        Execute(f, blank, next.nextNode, next, files', used', limit, k + 1, crashes, trace + [node])
  }

  /** The same graph left alone, every retry granted. */
  ghost function Uninterrupted(f: Nodes, node: Node, c: Context, files: Files, trace: seq<Node>): Outcome
    requires Filled(c)
    decreases RetriesLeft(c), Rank(node)
  {
    if node == End then Finished(Save(c), files, trace)
    else if !InGraph(node) then InvalidNode(trace)
    else
      match Done(f, node, c, files)
      case None => NodeFailed(node, trace)
      case Some((next, files')) =>
        DoneFacts(f, node, c, files);
        Uninterrupted(f, next.nextNode, next, files', trace + [node])
  }

  /** The retries the run left alone makes, and at each one a further count for every late crash. */
  ghost function Counted(f: Nodes, node: Node, c: Context, files: Files, k: nat, crashes: nat -> seq<Crash>): nat
    requires Filled(c)
    decreases RetriesLeft(c), Rank(node)
  {
    if !InGraph(node) then 0
    else
      match Done(f, node, c, files)
      case None => 0
      case Some((next, files')) =>
        DoneFacts(f, node, c, files);
        CountedAt(f, node, c, files, crashes(k)) + Counted(f, next.nextNode, next, files', k + 1, crashes)
  }

  lemma {:induction false} DisturbedAlike(
      f: Nodes, blank: Runtime, node: Node, c: Context, alone: Context, files: Files,
      used: nat, limit: nat, k: nat, crashes: nat -> seq<Crash>, trace: seq<Node>)
    requires Filled(c) && used <= limit && Save(c) == Save(alone)
    ensures var end := Execute(f, blank, node, c, files, used, limit, k, crashes, trace);
      if used + Counted(f, node, alone, files, k, crashes) <= limit
      then end == Uninterrupted(f, node, alone, files, trace) else end.RetryRefused?
    decreases RetriesLeft(c), Rank(node)
  {
    hide Attempt, Done, CountedAt, RetriesLeft, Rank;
    if InGraph(node) {
      AttemptAlike(f, blank, node, c, alone, files, used, limit, crashes(k));
      AttemptDescends(f, blank, node, c, files, used, limit, crashes(k));
      var done := Done(f, node, alone, files);
      if done.Some? {
        DoneFacts(f, node, alone, files);
        var tried := Attempt(f, blank, node, c, files, used, limit, crashes(k));
        if tried.Passed? {
          DisturbedAlike(f, blank, tried.context.nextNode, tried.context, done.value.0, tried.files,
                         tried.used, limit, k + 1, crashes, trace + [node]);
        }
      }
    }
  }

  lemma {:induction false} NeverRefused(f: Nodes, node: Node, c: Context, files: Files, trace: seq<Node>)
    requires Filled(c)
    ensures !Uninterrupted(f, node, c, files, trace).RetryRefused?
    decreases RetriesLeft(c), Rank(node)
  {
    hide Done;
    if InGraph(node) && Done(f, node, c, files).Some? {
      DoneFacts(f, node, c, files);
      var (next, files') := Done(f, node, c, files).value;
      NeverRefused(f, next.nextNode, next, files', trace + [node]);
    }
  }

  /** Suspension preserves meaning: wherever the run is stopped and however its attempts crash, it ends
      with the same durable context and files, after the same completed nodes, as when left alone, if and
      only if its retries and those counted again fit what the limit leaves; otherwise it is refused. */
  lemma SuspensionPreservesMeaning(
      f: Nodes, blank: Runtime, node: Node, c: Context, files: Files,
      used: nat, limit: nat, k: nat, crashes: nat -> seq<Crash>, trace: seq<Node>)
    requires Filled(c) && used <= limit
    ensures var end := Execute(f, blank, node, c, files, used, limit, k, crashes, trace);
      var undisturbed := Uninterrupted(f, node, c, files, trace);
      && (end == undisturbed <==> used + Counted(f, node, c, files, k, crashes) <= limit)
      && (end != undisturbed ==> end.RetryRefused?)
  {
    DisturbedAlike(f, blank, node, c, c, files, used, limit, k, crashes, trace);
    NeverRefused(f, node, c, files, trace);
  }

  /** A workflow whose quality check never passes. */
  ghost function Doomed(): Nodes {
    (node: Node, c: Context, files: Files) =>
      Some((c.(step := "done", quality := Quality(false, [], [])), files))
  }

  lemma {:induction false} DoomedCounts(
      node: Node, c: Context, files: Files, k: nat, crashes: nat -> seq<Crash>)
    requires Filled(c) && InGraph(node)
    ensures Counted(Doomed(), node, c, files, k, crashes) >= RetriesLeft(c)
    ensures forall trace :: Uninterrupted(Doomed(), node, c, files, trace).Finished?
    decreases RetriesLeft(c), Rank(node)
  {
    DoneFacts(Doomed(), node, c, files);
    var next := Done(Doomed(), node, c, files).value.0;
    assert Done(Doomed(), node, c, files).value == (next, files);
    if next.nextNode != End {
      assert InGraph(next.nextNode);
      DoomedCounts(next.nextNode, next, files, k + 1, crashes);
    }
  }

  /** With the default limit of three retries and three retries per workflow, a single crash between the
      counting of a retry and the saving of its safe point turns a run that would finish into a refused one. */
  lemma OneLateCrashTooMany(c: Context, files: Files, blank: Runtime)
    requires c.retries == 0 && c.maxRetries == 3 && Filled(c)
    ensures var crashes := (k: nat) => if k == 3 then [BeforeSave] else [];
      && Uninterrupted(Doomed(), Router, c, files, []).Finished?
      && Execute(Doomed(), blank, Router, c, files, 0, 3, 0, crashes, []).RetryRefused?
  {
    var crashes: nat -> seq<Crash> := (k: nat) => if k == 3 then [BeforeSave] else [];
    DoomedCounts(Router, c, files, 0, crashes);
    ThreeNodes(c, files, crashes);
    SuspensionPreservesMeaning(Doomed(), blank, Router, c, files, 0, 3, 0, crashes, []);
  }

  /** From the router to the quality check, and the retry it asks for. */
  lemma ThreeNodes(c: Context, files: Files, crashes: nat -> seq<Crash>)
    requires Filled(c) && c.retries < c.maxRetries && crashes(3) == [BeforeSave]
    ensures Counted(Doomed(), Router, c, files, 0, crashes) > RetriesLeft(c)
  {
    hide Counted, Uninterrupted, AllProgressed, Bullets;
    var enhance, generate, check, again;
    enhance := DoomedNode(Router, c, files, 0, crashes);
    generate := DoomedNode(PromptEnhancer, enhance, files, 1, crashes);
    check := DoomedNode(CodeGenerator, generate, files, 2, crashes);
    again := DoomedNode(QualityCheck, check, files, 3, crashes);
    DoomedCounts(CodeGenerator, again, files, 4, crashes);
  }

  lemma DoomedNode(node: Node, c: Context, files: Files, k: nat, crashes: nat -> seq<Crash>)
    returns (next: Context)
    requires Filled(c) && c.retries < c.maxRetries && InGraph(node)
    ensures Filled(next) && next.maxRetries == c.maxRetries
    ensures next.retries == c.retries + if node == QualityCheck then 1 else 0
    ensures next.nextNode == if node == QualityCheck then CodeGenerator else Successor(node)
    ensures Counted(Doomed(), node, c, files, k, crashes)
         == (if node == QualityCheck then 1 + Late(crashes(k)) else 0)
            + Counted(Doomed(), next.nextNode, next, files, k + 1, crashes)
  {
    DoneFacts(Doomed(), node, c, files);
    next := Done(Doomed(), node, c, files).value.0;
    assert Done(Doomed(), node, c, files).value == (next, files);
  }

  // ---- the loop is bounded, and its end is judged -----------------------------------------------

  function Completions(trace: seq<Node>, node: Node): nat {
    if trace == [] then 0
    else Completions(trace[..|trace| - 1], node) + if trace[|trace| - 1] == node then 1 else 0
  }

  lemma CompletionsAdds(trace: seq<Node>, last: Node, node: Node)
    ensures Completions(trace + [last], node) == Completions(trace, node) + if last == node then 1 else 0
  {
    assert (trace + [last])[..|trace|] == trace;
  }

  function GenerationsLeft(node: Node, c: Context): nat {
    RetriesLeft(c) + if Rank(node) >= 2 then 1 else 0
  }

  /** The loop is bounded: started at the router, the generator completes at most once more than the
      retries left, through any crashes. */
  lemma {:induction false} GeneratorIsBounded(
      f: Nodes, blank: Runtime, node: Node, c: Context, files: Files,
      used: nat, limit: nat, k: nat, crashes: nat -> seq<Crash>, trace: seq<Node>)
    requires Filled(c) && used <= limit
    ensures var end := Execute(f, blank, node, c, files, used, limit, k, crashes, trace);
      Completions(end.trace, CodeGenerator) <= Completions(trace, CodeGenerator) + GenerationsLeft(node, c)
    decreases RetriesLeft(c), Rank(node)
  {
    hide Attempt, Done, CountedAt, Completions;
    if InGraph(node) {
      CompletionsAdds(trace, node, CodeGenerator);
      AttemptAlike(f, blank, node, c, c, files, used, limit, crashes(k));
      AttemptDescends(f, blank, node, c, files, used, limit, crashes(k));
      if Done(f, node, c, files).Some? {
        DoneFacts(f, node, c, files);
        var tried := Attempt(f, blank, node, c, files, used, limit, crashes(k));
        if tried.Passed? {
          assert RetriesLeft(tried.context) == RetriesLeft(Done(f, node, c, files).value.0);
          GeneratorIsBounded(f, blank, tried.context.nextNode, tried.context, tried.files,
                             tried.used, limit, k + 1, crashes, trace + [node]);
        }
      }
    }
  }

  ghost predicate EndsReported(s: Snapshot) {
    s.quality.valid || (s.retries >= s.maxRetries && exists text :: s.description == QualityIssues(text, s.quality))
  }

  lemma DoneIsJudged(f: Nodes, node: Node, c: Context, files: Files)
    requires Filled(c) && InGraph(node) && Done(f, node, c, files).Some?
    ensures var next := Done(f, node, c, files).value.0;
      if next.nextNode == End then EndsReported(Save(next)) else InGraph(next.nextNode)
  {
    var after := f(node, c, files).value.0;
    var next := Handled(after, Successor(node), true).value;
    assert next.nextNode == End && !next.quality.valid ==>
             next.description == QualityIssues(after.description, next.quality);
  }

  lemma {:induction false} UndisturbedIsJudged(f: Nodes, node: Node, c: Context, files: Files, trace: seq<Node>)
    requires Filled(c) && InGraph(node)
    ensures var end := Uninterrupted(f, node, c, files, trace);
      end.Finished? ==> EndsReported(end.result)
    decreases RetriesLeft(c), Rank(node)
  {
    hide Done, EndsReported;
    if Done(f, node, c, files).Some? {
      DoneFacts(f, node, c, files);
      DoneIsJudged(f, node, c, files);
      var (next, files') := Done(f, node, c, files).value;
      if next.nextNode != End { UndisturbedIsJudged(f, next.nextNode, next, files', trace + [node]); }
    }
  }

  /** A finished run is valid or has used up its retries and reports the issues, through any crashes. */
  lemma FinishedRunIsJudged(
      f: Nodes, blank: Runtime, node: Node, c: Context, files: Files,
      used: nat, limit: nat, k: nat, crashes: nat -> seq<Crash>, trace: seq<Node>)
    requires Filled(c) && used <= limit && InGraph(node)
    ensures var end := Execute(f, blank, node, c, files, used, limit, k, crashes, trace);
      end.Finished? ==> EndsReported(end.result)
  {
    SuspensionPreservesMeaning(f, blank, node, c, files, used, limit, k, crashes, trace);
    UndisturbedIsJudged(f, node, c, files, trace);
  }
}
