/** A project's files under their size budget: writes are checked one at a time, copies and hashes
    walk the whole tree. A tree is the list of its files, in whatever order a walk visits them. */
module Workspace {
  import opened TaskTypes

  type Bytes = seq<bv8>
  type Path = seq<string>

  const MaxFileBytes := 0x10_0000
  const MaxProjectBytes := 20 * 0x10_0000
  const MaxProjectFiles := 500

  datatype Kind = Regular | Symlink | Other
  datatype File = File(path: Path, kind: Kind, data: Bytes)
  type Tree = seq<File>

  predicate SkippedName(name: string) {
    name == "node_modules" || name == ".git" || name == "dist"
  }

  /** Walks do not enter dependency, repository and build directories. */
  predicate Skipped(f: File) {
    exists i :: 0 <= i < |f.path| - 1 && SkippedName(f.path[i])
  }

  ghost predicate Distinct(t: Tree) {
    forall i, j :: 0 <= i < j < |t| ==> t[i].path != t[j].path
  }

  /** Whether a file counts against the budget while `name` is being replaced. */
  predicate Counts(f: File, name: Option<Path>) {
    !Skipped(f) && name != Some(f.path)
  }

  function Number(t: Tree, name: Option<Path>): nat {
    if t == [] then 0 else Number(t[..|t| - 1], name) + if Counts(t[|t| - 1], name) then 1 else 0
  }

  function Total(t: Tree, name: Option<Path>): nat {
    if t == [] then 0 else Total(t[..|t| - 1], name) + if Counts(t[|t| - 1], name) then |t[|t| - 1].data| else 0
  }

  /** The budget every prepared workspace starts within. */
  ghost predicate Within(t: Tree) {
    && Distinct(t)
    && (forall i :: 0 <= i < |t| && !Skipped(t[i]) ==> t[i].kind.Regular? && |t[i].data| <= MaxFileBytes)
    && Number(t, None) <= MaxProjectFiles && Total(t, None) <= MaxProjectBytes
  }

  // ---- checking a write -----------------------------------------------------------------------

  /** What the check admits: every visited file must be ordinary, links nowhere, the file itself
      small enough, and the rest of the project must leave room for it. */
  ghost predicate Admits(t: Tree, name: Path, size: nat) {
    && size <= MaxFileBytes
    && (forall i :: 0 <= i < |t| && !Skipped(t[i]) ==> !t[i].kind.Symlink? && (t[i].path == name || t[i].kind.Regular?))
    && Number(t, Some(name)) < MaxProjectFiles
    && (Number(t, Some(name)) > 0 ==> Total(t, Some(name)) + size <= MaxProjectBytes)
  }

  lemma {:induction false} PrefixIsSmaller(t: Tree, n: nat, name: Option<Path>)
    requires n <= |t|
    ensures Number(t[..n], name) <= Number(t, name) && Total(t[..n], name) <= Total(t, name)
    decreases |t|
  {
    if n < |t| {
      assert t[..|t| - 1][..n] == t[..n];
      PrefixIsSmaller(t[..|t| - 1], n, name);
    } else {
      assert t[..n] == t;
    }
  }

  lemma {:induction false} NoneCountedNothing(t: Tree, name: Option<Path>)
    requires Number(t, name) == 0
    ensures Total(t, name) == 0
    decreases |t|
  {
    if t != [] { NoneCountedNothing(t[..|t| - 1], name); }
  }

  lemma NextCounted(t: Tree, i: nat, name: Option<Path>)
    requires i < |t|
    ensures Number(t[..i + 1], name) == Number(t[..i], name) + if Counts(t[i], name) then 1 else 0
    ensures Total(t[..i + 1], name) == Total(t[..i], name) + if Counts(t[i], name) then |t[i].data| else 0
    ensures Number(t[..i + 1], name) <= Number(t, name) && Total(t[..i + 1], name) <= Total(t, name)
    ensures Number(t[..0], name) == 0 && Total(t[..0], name) == 0 && t[..|t|] == t
  {
    assert t[..i + 1][..i] == t[..i];
    PrefixIsSmaller(t, i + 1, name);
    hide Counts;
  }

  method CheckWrite(t: Tree, name: Path, size: nat) returns (ok: bool)
    ensures ok <==> Admits(t, name, size)
  {
    hide Skipped;
    if size > MaxFileBytes { return false; }
    var count, total := 0, 0;
    assert t[..0] == [] && t[..|t|] == t;
    for i := 0 to |t|
      invariant forall j :: 0 <= j < i && !Skipped(t[j]) ==>
          !t[j].kind.Symlink? && (t[j].path == name || t[j].kind.Regular?)
      invariant count == Number(t[..i], Some(name)) < MaxProjectFiles && total == Total(t[..i], Some(name))
      invariant count > 0 ==> total + size <= MaxProjectBytes
    {
      NextCounted(t, i, Some(name));
      hide Number, Total;
      var f := t[i];
      if Skipped(f) { continue; }
      if f.kind == Symlink { return false; }
      if f.path == name { continue; }
      if f.kind != Regular { return false; }
      count := count + 1;
      total := total + |f.data|;
      if count >= MaxProjectFiles || total + size > MaxProjectBytes { return false; }
    }
    return true;
  }

  /** The tree after a write: the named file replaced, or a new one. */
  function Written(t: Tree, name: Path, data: Bytes): Tree {
    if t == [] then [File(name, Regular, data)]
    else if t[0].path == name then [File(name, Regular, data)] + t[1..]
    else [t[0]] + Written(t[1..], name, data)
  }

  function Deleted(t: Tree, name: Path): Tree {
    if t == [] then []
    else if t[0].path == name then t[1..]
    else [t[0]] + Deleted(t[1..], name)
  }

  lemma {:induction false} NumberConcat(a: Tree, b: Tree, name: Option<Path>)
    ensures Number(a + b, name) == Number(a, name) + Number(b, name)
    ensures Total(a + b, name) == Total(a, name) + Total(b, name)
    decreases |b|
  {
    if b == [] {
      assert a + b == a;
    } else {
      NumberConcat(a, b[..|b| - 1], name);
      assert (a + b)[..|a + b| - 1] == a + b[..|b| - 1];
    }
  }

  lemma {:induction false} NotCounted(t: Tree, name: Path)
    requires forall i :: 0 <= i < |t| ==> t[i].path != name
    ensures Number(t, Some(name)) == Number(t, None) && Total(t, Some(name)) == Total(t, None)
    decreases |t|
  {
    if t != [] { NotCounted(t[..|t| - 1], name); }
  }

  lemma One(f: File, name: Option<Path>)
    ensures Number([f], name) == (if Counts(f, name) then 1 else 0) && Total([f], name) == if Counts(f, name)
        then |f.data| else 0
  {
    assert [f][..0] == [];
  }

  lemma {:induction false} WrittenFiles(t: Tree, name: Path, data: Bytes)
    requires Distinct(t)
    ensures var w, f := Written(t, name, data), File(name, Regular, data);
      (forall g :: g in w <==> g == f || (g in t && g.path != name)) && Distinct(w)
    decreases |t|
  {
    if t != [] && t[0].path != name {
      var rest := t[1..];
      WrittenFiles(rest, name, data);
      var w := Written(rest, name, data);
      assert forall j :: 0 <= j < |w| ==> w[j] in w && w[j].path != t[0].path;
      assert forall g :: g in t <==> g == t[0] || g in rest;
    }
  }

  /** A write takes the file's old size out of the budget and puts its new size in. */
  lemma {:induction false} WrittenSizes(t: Tree, name: Path, data: Bytes)
    requires Distinct(t)
    ensures var w, f := Written(t, name, data), File(name, Regular, data);
      && Number(w, None) == Number(t, Some(name)) + (if Skipped(f) then 0 else 1)
      && Total(w, None) == Total(t, Some(name)) + (if Skipped(f) then 0 else |data|)
    decreases |t|
  {
    hide Skipped;
    var f := File(name, Regular, data);
    One(f, None);
    if t != [] {
      var rest := t[1..];
      assert t == [t[0]] + rest;
      NumberConcat([t[0]], rest, Some(name));
      One(t[0], Some(name));
      if t[0].path == name {
        NotCounted(rest, name);
        NumberConcat([f], rest, None);
        hide Number, Total;
      } else {
        assert Distinct(rest);
        WrittenSizes(rest, name, data);
        One(t[0], None);
        NumberConcat([t[0]], Written(rest, name, data), None);
        hide Number, Total;
      }
    }
  }

  lemma {:induction false} DeletedFiles(t: Tree, name: Path)
    requires Distinct(t)
    ensures (forall g :: g in Deleted(t, name) <==> g in t && g.path != name) && Distinct(Deleted(t, name))
    decreases |t|
  {
    if t != [] {
      var rest := t[1..];
      assert forall g :: g in t <==> g == t[0] || g in rest;
      if t[0].path == name {
        assert forall j :: 0 <= j < |rest| ==> rest[j].path != name;
      } else {
        DeletedFiles(rest, name);
        var d := Deleted(rest, name);
        assert forall j :: 0 <= j < |d| ==> d[j] in d && d[j].path != t[0].path;
      }
    }
  }

  lemma {:induction false} DeletedSizes(t: Tree, name: Path)
    requires Distinct(t)
    ensures Number(Deleted(t, name), None) == Number(t, Some(name))
    ensures Total(Deleted(t, name), None) == Total(t, Some(name))
    decreases |t|
  {
    hide Skipped;
    if t != [] {
      var rest := t[1..];
      assert t == [t[0]] + rest;
      NumberConcat([t[0]], rest, Some(name));
      One(t[0], Some(name));
      if t[0].path == name {
        NotCounted(rest, name);
        hide Number, Total;
      } else {
        assert Distinct(rest);
        DeletedSizes(rest, name);
        One(t[0], None);
        NumberConcat([t[0]], Deleted(rest, name), None);
        hide Number, Total;
      }
    }
  }

  lemma {:induction false} OthersAreFewer(t: Tree, name: Path)
    ensures Number(t, Some(name)) <= Number(t, None) && Total(t, Some(name)) <= Total(t, None)
    decreases |t|
  {
    if t != [] { OthersAreFewer(t[..|t| - 1], name); }
  }

  /** The budget is inductive: a checked write of any size and a delete keep it. */
  lemma BudgetIsInductive(t: Tree, name: Path, data: Bytes)
    requires Within(t)
    ensures Admits(t, name, |data|) ==> Within(Written(t, name, data))
    ensures Within(Deleted(t, name))
  {
    hide Skipped, Number, Total;
    WrittenFiles(t, name, data);
    WrittenSizes(t, name, data);
    DeletedFiles(t, name);
    DeletedSizes(t, name);
    OthersAreFewer(t, name);
    if Number(t, Some(name)) == 0 { NoneCountedNothing(t, Some(name)); }
    var w, d := Written(t, name, data), Deleted(t, name);
    hide Written, Deleted;
    assert forall i :: 0 <= i < |w| ==> w[i] in w;
    assert forall i :: 0 <= i < |d| ==> d[i] in d;
  }

  // ---- replacing text -------------------------------------------------------------------------

  /** The first occurrence of `part` at or after i. */
  function Find(s: Bytes, part: Bytes, i: nat): (p: Option<nat>)
    ensures p.Some? ==> i <= p.value && p.value + |part| <= |s| && s[p.value..p.value + |part|] == part
    decreases |s| - i
  {
    if i + |part| > |s| then None else if s[i..i + |part|] == part then Some(i) else Find(s, part, i + 1)
  }

  /** Occurrences are counted and replaced from the left, without overlap. */
  function Occurrences(s: Bytes, part: Bytes): nat
    requires part != []
    decreases |s|
  {
    var p := Find(s, part, 0);
    if p.None? then 0 else 1 + Occurrences(s[p.value + |part|..], part)
  }

  function ReplaceAll(s: Bytes, part: Bytes, with: Bytes): Bytes
    requires part != []
    decreases |s|
  {
    var p := Find(s, part, 0);
    if p.None? then s else s[..p.value] + with + ReplaceAll(s[p.value + |part|..], part, with)
  }

  function Times(n: nat, d: int): int { n * d }

  lemma TimesNext(n: nat, d: int)
    ensures Times(n + 1, d) == Times(n, d) + d && Times(0, d) == 0
  {
  }

  lemma {:induction false} ReplacedGrows(s: Bytes, part: Bytes, with: Bytes)
    requires part != []
    ensures |ReplaceAll(s, part, with)| == |s| + Times(Occurrences(s, part), |with| - |part|)
    decreases |s|
  {
    hide Times;
    var p, d := Find(s, part, 0), |with| - |part|;
    if p.Some? {
      var rest := s[p.value + |part|..];
      assert Occurrences(s, part) == Occurrences(rest, part) + 1;
      assert |ReplaceAll(s, part, with)| == p.value + |with| + |ReplaceAll(rest, part, with)|;
      ReplacedGrows(rest, part, with);
      hide Find, Occurrences, ReplaceAll;
      TimesNext(Occurrences(rest, part), d);
    } else {
      TimesNext(0, d);
    }
  }

  /** The size computed before replacing is the size after it. */
  lemma ReplacedSize(s: Bytes, part: Bytes, with: Bytes)
    requires part != []
    ensures |ReplaceAll(s, part, with)| == |s| + Occurrences(s, part) * (|with| - |part|)
  {
    hide ReplaceAll, Occurrences;
    ReplacedGrows(s, part, with);
  }

  /** Reading refuses what is missing, not ordinary or too large. */
  function Read(t: Tree, name: Path): Option<Bytes> {
    if t == [] then None
    else if t[0].path == name then (if t[0].kind.Regular? && |t[0].data| <= MaxFileBytes then Some(t[0].data) else None)
    else Read(t[1..], name)
  }

  /** The modify tool: read, size check, replace, budget check, write; the tree changes only at the end. */
  method ModifyFile(t: Tree, name: Path, part: Bytes, with: Bytes) returns (after: Tree, ok: bool)
    ensures ok <==>
      && part != [] && Read(t, name).Some? && Find(Read(t, name).value, part, 0).Some?
      && Admits(t, name, |ReplaceAll(Read(t, name).value, part, with)|)
    ensures after == if ok then Written(t, name, ReplaceAll(Read(t, name).value, part, with)) else t
    ensures Within(t) ==> Within(after)
  {
    if part == [] { return t, false; }
    var content := Read(t, name);
    if content.None? { return t, false; }
    if Find(content.value, part, 0).None? { return t, false; }
    ReplacedSize(content.value, part, with);
    var resultSize := |content.value| + Occurrences(content.value, part) * (|with| - |part|);
    if resultSize > MaxFileBytes { return t, false; }
    var updated := ReplaceAll(content.value, part, with);
    hide Admits, Within, ReplaceAll, Find, Occurrences, Read;
    var allowed := CheckWrite(t, name, |updated|);
    if !allowed { return t, false; }
    if Within(t) { BudgetIsInductive(t, name, updated); }
    return Written(t, name, updated), true;
  }

  // ---- sequences of tool calls ------------------------------------------------------------------

  datatype Call = Write(name: Path, data: Bytes) | Modify(name: Path, part: Bytes, with: Bytes) | Delete(name: Path)

  ghost function Called(t: Tree, c: Call): Tree {
    match c
    case Write(name, data) => if Admits(t, name, |data|) then Written(t, name, data) else t
    case Modify(name, part, with) =>
      if part != [] && Read(t, name).Some? && Find(Read(t, name).value, part, 0).Some?
          && Admits(t, name, |ReplaceAll(Read(t, name).value, part, with)|)
      then Written(t, name, ReplaceAll(Read(t, name).value, part, with)) else t
    case Delete(name) => Deleted(t, name)
  }

  ghost function CalledAll(t: Tree, calls: seq<Call>): Tree {
    if calls == [] then t else Called(CalledAll(t, calls[..|calls| - 1]), calls[|calls| - 1])
  }

  /** No sequence of tool calls leaves the budget. */
  lemma {:induction false} ToolsStayWithinBudget(t: Tree, calls: seq<Call>)
    requires Within(t)
    ensures Within(CalledAll(t, calls))
    decreases |calls|
  {
    if calls != [] {
      var before, c := CalledAll(t, calls[..|calls| - 1]), calls[|calls| - 1];
      hide Within, Admits, Read, Find, ReplaceAll;
      ToolsStayWithinBudget(t, calls[..|calls| - 1]);
      match c {
        case Write(name, data) => BudgetIsInductive(before, name, data);
        case Modify(name, part, with) =>
          if part != [] && Read(before, name).Some? {
            BudgetIsInductive(before, name, ReplaceAll(Read(before, name).value, part, with));
          }
        case Delete(name) => BudgetIsInductive(before, name, []);
      }
    }
  }
}
