/** Copying a source tree and hashing it. Digests are injective, so the hash of a tree is the sorted
    list of entries it is computed from. */
module SourceHash {
  import opened TaskTypes
  import opened Workspace

  datatype Entry = Entry(path: Path, data: Bytes)

  function Visible(t: Tree): Tree {
    if t == [] then [] else Visible(t[..|t| - 1]) + if Skipped(t[|t| - 1]) then [] else [t[|t| - 1]]
  }

  /** A tree that copying and hashing accept. */
  ghost predicate Copyable(t: Tree) {
    && (forall i :: 0 <= i < |t| && !Skipped(t[i]) ==> t[i].kind.Regular? && |t[i].data| <= MaxFileBytes)
    && Number(t, None) <= MaxProjectFiles && Total(t, None) <= MaxProjectBytes
  }

  lemma {:induction false} VisibleMembers(t: Tree)
    ensures forall f :: f in Visible(t) <==> f in t && !Skipped(f)
    decreases |t|
  {
    if t != [] {
      hide Skipped;
      VisibleMembers(t[..|t| - 1]);
      assert forall f :: f in t <==> f in t[..|t| - 1] || f == t[|t| - 1];
    }
  }

  lemma {:induction false} VisibleSizes(t: Tree)
    ensures Number(Visible(t), None) == Number(t, None) && Total(Visible(t), None) == Total(t, None)
    decreases |t|
  {
    if t != [] {
      hide Skipped;
      var front, last := t[..|t| - 1], t[|t| - 1];
      VisibleSizes(front);
      assert t == front + [last];
      var v := Visible(front);
      assert Visible(t) == if Skipped(last) then v else v + [last];
      hide Visible, Number, Total;
      NumberConcat(front, [last], None);
      NumberConcat(v, [last], None);
      One(last, None);
    }
  }

  lemma {:induction false} VisibleDistinct(t: Tree)
    requires Distinct(t)
    ensures Distinct(Visible(t))
    decreases |t|
  {
    if t != [] {
      hide Skipped;
      var front := t[..|t| - 1];
      VisibleDistinct(front);
      VisibleMembers(front);
      var v := Visible(front);
      assert forall j :: 0 <= j < |v| ==> v[j] in front;
      hide Visible;
    }
  }

  lemma VisibleFiles(t: Tree)
    ensures forall f :: f in Visible(t) <==> f in t && !Skipped(f)
    ensures Distinct(t) ==> Distinct(Visible(t))
    ensures Number(Visible(t), None) == Number(t, None) && Total(Visible(t), None) == Total(t, None)
  {
    hide *;
    VisibleMembers(t);
    VisibleSizes(t);
    if Distinct(t) { VisibleDistinct(t); }
  }

  /** Copying is refused, or yields exactly the visible files; once the limits are passed on the
      way, the walk stops. */
  method PrepareWorkspace(t: Tree) returns (copy: Tree, ok: bool)
    ensures ok <==> Copyable(t)
    ensures ok ==> copy == Visible(t)
  {
    copy := [];
    var count, total := 0, 0;
    for i := 0 to |t|
      invariant forall j :: 0 <= j < i && !Skipped(t[j]) ==> t[j].kind.Regular? && |t[j].data| <= MaxFileBytes
      invariant count == Number(t[..i], None) <= MaxProjectFiles && total == Total(t[..i], None) <= MaxProjectBytes
      invariant copy == Visible(t[..i])
    {
      assert t[..i + 1][..i] == t[..i];
      PrefixIsSmaller(t, i + 1, None);
      var f := t[i];
      if f.kind == Symlink && !Skipped(f) { return [], false; }
      if Skipped(f) { continue; }
      if f.kind != Regular { return [], false; }
      count := count + 1;
      total := total + |f.data|;
      if count > MaxProjectFiles || total > MaxProjectBytes { return [], false; }
      if |f.data| > MaxFileBytes { return [], false; }
      copy := copy + [File(f.path, Regular, f.data)];
    }
    assert t[..|t|] == t;
    return copy, true;
  }

  // ---- the hash -------------------------------------------------------------------------------

  ghost predicate StrictOrder(less: (Path, Path) -> bool) {
    && (forall a, b :: less(a, b) ==> !less(b, a))
    && (forall a, b, c :: less(a, b) && less(b, c) ==> less(a, c))
    && (forall a, b :: a == b || less(a, b) || less(b, a))
  }

  ghost predicate Sorted(es: seq<Entry>, less: (Path, Path) -> bool) {
    forall i, j :: 0 <= i < j < |es| ==> less(es[i].path, es[j].path)
  }

  /** The entries are those of the visible files. */
  ghost predicate Lists(es: seq<Entry>, t: Tree) {
    && (forall i :: 0 <= i < |es| ==> File(es[i].path, Regular, es[i].data) in Visible(t))
    && (forall f :: f in Visible(t) ==> Entry(f.path, f.data) in es)
  }

  /** What is hashed: sorted by path, whatever order the walk took. */
  ghost predicate IsHashOf(es: seq<Entry>, t: Tree, less: (Path, Path) -> bool) {
    Sorted(es, less) && Lists(es, t)
  }

  /** Sorted lists with the same members are the same list: the hash does not depend on the order of
      the walk or of the sort. */
  lemma {:induction false} SortedIsCanonical(a: seq<Entry>, b: seq<Entry>, less: (Path, Path) -> bool)
    requires StrictOrder(less) && Sorted(a, less) && Sorted(b, less) && forall e :: e in a <==> e in b
    ensures a == b
    decreases |a|
  {
    assert (a != [] ==> a[0] in a) && (b != [] ==> b[0] in b);
    if a != [] {
      FirstIsLeast(a, b, less);
      RestHasSameMembers(a, b, less);
      SortedIsCanonical(a[1..], b[1..], less);
      assert a == [a[0]] + a[1..] && b == [b[0]] + b[1..];
    }
  }

  lemma FirstIsLeast(a: seq<Entry>, b: seq<Entry>, less: (Path, Path) -> bool)
    requires StrictOrder(less) && Sorted(a, less) && Sorted(b, less) && a != [] && b != []
    requires forall e :: e in a <==> e in b
    ensures a[0] == b[0]
  {
    assert a[0] in b && b[0] in a;
    var i :| 0 <= i < |b| && b[i] == a[0];
    var j :| 0 <= j < |a| && a[j] == b[0];
    assert i > 0 ==> less(b[0].path, a[0].path);
    assert j > 0 ==> less(a[0].path, b[0].path);
  }

  lemma RestHasSameMembers(a: seq<Entry>, b: seq<Entry>, less: (Path, Path) -> bool)
    requires StrictOrder(less) && Sorted(a, less) && Sorted(b, less) && a != [] && b != [] && a[0] == b[0]
    requires forall e :: e in a <==> e in b
    ensures forall e :: e in a[1..] <==> e in b[1..]
  {
    forall e ensures e in a[1..] <==> e in b[1..] {
      assert e in a[1..] ==> e in a && e != a[0];
      assert e in b[1..] ==> e in b && e != b[0];
      assert e in a ==> e == a[0] || e in a[1..];
      assert e in b ==> e == b[0] || e in b[1..];
    }
  }

  /** Collects the entries and sorts them by insertion. */
  method SourceEntries(t: Tree, less: (Path, Path) -> bool) returns (es: seq<Entry>, ok: bool)
    requires StrictOrder(less) && Distinct(t)
    ensures ok <==> Copyable(t)
    ensures ok ==> IsHashOf(es, t, less)
  {
    var files;
    files, ok := PrepareWorkspace(t);
    es := [];
    if !ok { return; }
    VisibleFiles(t);
    hide Copyable, Visible, Skipped, Number, Total, StrictOrder;
    assert forall i :: 0 <= i < |files| ==> files[i] in files;
    for i := 0 to |files|
      invariant Sorted(es, less)
      invariant forall e :: e in es <==> exists j :: 0 <= j < i && e == Entry(files[j].path, files[j].data)
    {
      assert forall x :: 0 <= x < |es| ==> es[x] in es && es[x].path != files[i].path;
      es := Insert(es, Entry(files[i].path, files[i].data), less);
    }
    EntriesList(es, files, t);
  }

  lemma EntriesList(es: seq<Entry>, files: Tree, t: Tree)
    requires files == Visible(t) && Copyable(t)
    requires forall e :: e in es <==> exists j :: 0 <= j < |files| && e == Entry(files[j].path, files[j].data)
    ensures Lists(es, t)
  {
    VisibleFiles(t);
    forall i | 0 <= i < |es| ensures File(es[i].path, Regular, es[i].data) in files {
      assert es[i] in es;
      var j :| 0 <= j < |files| && es[i] == Entry(files[j].path, files[j].data);
      assert files[j] in files && files[j] in t;
    }
  }

  /** Keeps a list sorted while a new path is added. */
  method Insert(es: seq<Entry>, e: Entry, less: (Path, Path) -> bool) returns (more: seq<Entry>)
    requires StrictOrder(less) && Sorted(es, less) && forall i :: 0 <= i < |es| ==> es[i].path != e.path
    ensures Sorted(more, less) && forall x :: x in more <==> x == e || x in es
  {
    var p := 0;
    while p < |es| && less(es[p].path, e.path)
      invariant p <= |es| && forall i :: 0 <= i < p ==> less(es[i].path, e.path)
    {
      p := p + 1;
    }
    more := es[..p] + [e] + es[p..];
    assert es == es[..p] + es[p..];
    assert p < |es| ==> less(e.path, es[p].path);
    assert forall i :: p <= i < |es| ==> less(e.path, es[i].path);
  }

  // ---- copy and hash agree ----------------------------------------------------------------------

  /** Equal hashes mean the same files with the same bytes, and conversely. */
  lemma HashesAgreeIffFilesDo(a: seq<Entry>, t: Tree, b: seq<Entry>, u: Tree, less: (Path, Path) -> bool)
    requires StrictOrder(less) && IsHashOf(a, t, less) && IsHashOf(b, u, less) && Copyable(t) && Copyable(u)
    ensures a == b <==> forall f :: f in Visible(t) <==> f in Visible(u)
  {
    VisibleFiles(t);
    VisibleFiles(u);
    RegularOnly(t);
    RegularOnly(u);
    hide Visible, Skipped, Copyable, StrictOrder;
    ListedFiles(a, t);
    ListedFiles(b, u);
    if forall f :: f in Visible(t) <==> f in Visible(u) {
      forall e ensures e in a <==> e in b {
        assert File(e.path, Regular, e.data) in Visible(t) <==> File(e.path, Regular, e.data) in Visible(u);
      }
      SortedIsCanonical(a, b, less);
    }
    if a == b {
      forall f ensures f in Visible(t) <==> f in Visible(u) {
        assert f in Visible(t) ==> f == File(f.path, Regular, f.data);
        assert f in Visible(u) ==> f == File(f.path, Regular, f.data);
        assert Entry(f.path, f.data) in a <==> Entry(f.path, f.data) in b;
      }
    }
  }

  lemma RegularOnly(t: Tree)
    requires Copyable(t)
    ensures forall f :: f in Visible(t) ==> f.kind.Regular?
  {
    VisibleFiles(t);
    hide Visible;
  }

  lemma ListedFiles(es: seq<Entry>, t: Tree)
    requires Lists(es, t)
    ensures forall e :: e in es <==> File(e.path, Regular, e.data) in Visible(t)
  {
    hide Visible;
  }

  lemma VisibleOrdinary(t: Tree, i: nat)
    requires Copyable(t) && i < |Visible(t)|
    ensures Visible(t)[i].kind.Regular? && |Visible(t)[i].data| <= MaxFileBytes
  {
    VisibleMembers(t);
    hide Skipped, Visible, Number, Total;
    assert Visible(t)[i] in Visible(t);
    var j :| 0 <= j < |t| && t[j] == Visible(t)[i];
  }

  lemma CopyIsWithin(t: Tree)
    requires Copyable(t) && Distinct(t)
    ensures Within(Visible(t)) && Copyable(Visible(t)) && Visible(Visible(t)) == Visible(t)
  {
    VisibleFiles(t);
    var copy := Visible(t);
    NothingSkipped(copy);
    forall i | 0 <= i < |copy| ensures copy[i].kind.Regular? && |copy[i].data| <= MaxFileBytes {
      VisibleOrdinary(t, i);
    }
    hide Skipped, Number, Total, Visible, Distinct;
  }

  /** A copy has exactly the visible files, is within the budget, hashes like its source, and copying
      it again changes nothing. */
  lemma CopyAgrees(t: Tree, es: seq<Entry>, less: (Path, Path) -> bool)
    requires Copyable(t) && Distinct(t)
    ensures var copy := Visible(t);
      && Within(copy) && Copyable(copy) && Visible(copy) == copy
      && (IsHashOf(es, copy, less) <==> IsHashOf(es, t, less))
  {
    CopyIsWithin(t);
    hide Within, Copyable, Visible, Sorted;
  }

  lemma {:induction false} NothingSkipped(t: Tree)
    requires forall f :: f in t ==> !Skipped(f)
    ensures Visible(t) == t
    decreases |t|
  {
    if t != [] {
      hide Skipped;
      assert t[|t| - 1] in t;
      NothingSkipped(t[..|t| - 1]);
    }
  }

  /** Freezing and hashing a workspace never fail on the budget, after any tool calls. */
  lemma FreezingNeverFails(t: Tree, calls: seq<Call>)
    requires Within(t)
    ensures Copyable(CalledAll(t, calls)) && Distinct(CalledAll(t, calls))
  {
    ToolsStayWithinBudget(t, calls);
  }
}
