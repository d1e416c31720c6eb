/** What a file tool leaves in the workspace: its own file with the content it says, every other file untouched. */
module WorkspaceLaws {
  import opened TaskTypes
  import opened Workspace

  // ---- replacing --------------------------------------------------------------------------------------

  function Joined(pieces: seq<Bytes>, glue: Bytes): Bytes {
    if |pieces| == 0 then []
    else if |pieces| == 1 then pieces[0]
    else pieces[0] + glue + Joined(pieces[1..], glue)
  }

  /** The part begins at i. */
  predicate Begins(s: Bytes, part: Bytes, i: int) {
    0 <= i && i + |part| <= |s| && s[i..i + |part|] == part
  }

  /** The part does not begin before n. */
  ghost predicate FreeOf(s: Bytes, part: Bytes, n: nat) {
    forall i :: 0 <= i < n ==> !Begins(s, part, i)
  }

  /** The text cut at the occurrences of a part, from the left and without overlap: before the end of each
      piece and its part the part does not begin. */
  ghost predicate CutAt(pieces: seq<Bytes>, part: Bytes) {
    && pieces != []
    && FreeOf(pieces[|pieces| - 1], part, |pieces[|pieces| - 1]|)
    && forall i :: 0 <= i < |pieces| - 1 ==> FreeOf(pieces[i] + part, part, |pieces[i]|)
  }

  lemma {:induction false} FindIs(s: Bytes, part: Bytes, i: nat)
    requires part != []
    ensures var p := Find(s, part, i);
      if p.Some? then Begins(s, part, p.value) && forall j :: i <= j < p.value ==> !Begins(s, part, j)
      else forall j :: i <= j ==> !Begins(s, part, j)
    decreases |s| - i
  {
    if i + |part| <= |s| && s[i..i + |part|] != part { FindIs(s, part, i + 1); }
  }

  lemma BeginsEarlier(s: Bytes, part: Bytes, n: nat, i: nat)
    requires n <= |s| && Begins(s[..n], part, i)
    ensures Begins(s, part, i)
  {
    assert s[..n][i..i + |part|] == s[i..i + |part|];
  }

  lemma Glued(s: Bytes, part: Bytes, p: nat)
    requires p + |part| <= |s| && s[p..p + |part|] == part
    ensures s[..p] + part == s[..p + |part|] && s == s[..p] + part + s[p + |part|..]
  {
  }

  lemma FirstPiece(s: Bytes, part: Bytes, p: nat)
    requires part != [] && Find(s, part, 0) == Some(p)
    ensures FreeOf(s[..p] + part, part, p) && s == s[..p] + part + s[p + |part|..]
  {
    FindIs(s, part, 0);
    hide Find, Begins;
    var n := p + |part|;
    Glued(s, part, p);
    forall i | 0 <= i < p ensures !Begins(s[..n], part, i) {
      if Begins(s[..n], part, i) { BeginsEarlier(s, part, n, i); }
    }
  }

  /** Replacing puts the new text exactly where the old one was. */
  lemma {:induction false} ReplacedIs(s: Bytes, part: Bytes, with: Bytes) returns (pieces: seq<Bytes>)
    requires part != []
    ensures CutAt(pieces, part) && Joined(pieces, part) == s && Joined(pieces, with) == ReplaceAll(s, part, with)
    ensures |pieces| == Occurrences(s, part) + 1
    decreases |s|
  {
    var p := Find(s, part, 0);
    if p.None? {
      FindIs(s, part, 0);
      pieces := [s];
    } else {
      var rest := s[p.value + |part|..];
      FirstPiece(s, part, p.value);
      var more := ReplacedIs(rest, part, with);
      pieces := [s[..p.value]] + more;
      JoinsOn(s[..p.value], more, part);
      JoinsOn(s[..p.value], more, with);
      CutsOn(s[..p.value], more, part);
    }
    hide Find, FreeOf, CutAt, Joined;
  }

  lemma JoinsOn(piece: Bytes, more: seq<Bytes>, glue: Bytes)
    requires more != []
    ensures Joined([piece] + more, glue) == piece + glue + Joined(more, glue)
  {
    assert ([piece] + more)[1..] == more;
  }

  lemma CutsOn(piece: Bytes, more: seq<Bytes>, part: Bytes)
    requires CutAt(more, part) && FreeOf(piece + part, part, |piece|)
    ensures CutAt([piece] + more, part)
  {
    hide FreeOf;
    var pieces := [piece] + more;
    forall i | 0 <= i < |pieces| - 1 ensures FreeOf(pieces[i] + part, part, |pieces[i]|) {
      if i > 0 { assert pieces[i] == more[i - 1]; }
    }
  }

  // ---- what the tools leave ---------------------------------------------------------------------------

  /** The file a walk finds under the path. */
  function FileAt(t: Tree, name: Path): Option<File> {
    if t == [] then None else if t[0].path == name then Some(t[0]) else FileAt(t[1..], name)
  }

  lemma {:induction false} WrittenAt(t: Tree, name: Path, data: Bytes, q: Path)
    ensures FileAt(Written(t, name, data), q) == if q == name then Some(File(name, Regular, data)) else FileAt(t, q)
    decreases |t|
  {
    if t != [] && t[0].path != name {
      WrittenAt(t[1..], name, data, q);
      assert Written(t, name, data)[1..] == Written(t[1..], name, data);
    } else if t != [] {
      assert Written(t, name, data)[1..] == t[1..];
    }
  }

  lemma {:induction false} AbsentAt(t: Tree, name: Path)
    requires forall i :: 0 <= i < |t| ==> t[i].path != name
    ensures FileAt(t, name) == None
    decreases |t|
  {
    if t != [] { AbsentAt(t[1..], name); }
  }

  lemma {:induction false} DeletedAt(t: Tree, name: Path, q: Path)
    requires Distinct(t)
    ensures FileAt(Deleted(t, name), q) == if q == name then None else FileAt(t, q)
    decreases |t|
  {
    if t != [] {
      if t[0].path == name {
        AbsentAt(t[1..], name);
      } else {
        DeletedAt(t[1..], name, q);
        assert Deleted(t, name)[1..] == Deleted(t[1..], name);
      }
    }
  }

  /** What can be read is an ordinary file of at most a megabyte. */
  lemma {:induction false} ReadIs(t: Tree, name: Path)
    ensures var f := FileAt(t, name);
      Read(t, name) == if f.Some? && f.value.kind.Regular? && |f.value.data| <= 0x10_0000 then Some(f.value.data)
          else None
    decreases |t|
  {
    if t != [] && t[0].path != name { ReadIs(t[1..], name); }
  }

  /** A tool touches the file it names and no other. A refused one changes nothing. */
  lemma OtherFilesStay(t: Tree, c: Call, q: Path)
    requires Distinct(t) && q != c.name
    ensures FileAt(Called(t, c), q) == FileAt(t, q)
  {
    match c
    case Write(name, data) => WrittenAt(t, name, data, q); hide Admits;
    case Modify(name, part, with) =>
      if part != [] && Read(t, name).Some? { WrittenAt(t, name, ReplaceAll(Read(t, name).value, part, with), q); }
      hide Admits, Read, Find, ReplaceAll;
    case Delete(name) => DeletedAt(t, name, q);
  }

  /** A write that the budget admits leaves exactly its data, a refused one everything as it was; what is
      deleted is gone. */
  lemma WrittenAndDeleted(t: Tree, name: Path, data: Bytes)
    requires Distinct(t)
    ensures if Admits(t, name, |data|)
        then FileAt(Called(t, Write(name, data)), name) == Some(File(name, Regular, data))
        else Called(t, Write(name, data)) == t
    ensures FileAt(Called(t, Delete(name)), name) == None
  {
    WrittenAt(t, name, data, name);
    DeletedAt(t, name, name);
    hide Admits;
  }

  /** A modification that goes through puts the new text in place of every occurrence of the old one, of which
      there is at least one; one that does not changes nothing. */
  lemma ModifiedIs(t: Tree, name: Path, part: Bytes, with: Bytes) returns (pieces: seq<Bytes>)
    ensures var after := Called(t, Modify(name, part, with));
      if after == t then true
      else
        var before := FileAt(t, name);
        && part != [] && before.Some? && before.value.kind.Regular?
        && |pieces| > 1 && CutAt(pieces, part) && Joined(pieces, part) == before.value.data
        && FileAt(after, name) == Some(File(name, Regular, Joined(pieces, with)))
  {
    pieces := [];
    if Called(t, Modify(name, part, with)) != t {
      var content := Read(t, name).value;
      ReadIs(t, name);
      pieces := ReplacedIs(content, part, with);
      WrittenAt(t, name, ReplaceAll(content, part, with), name);
      assert Occurrences(content, part) > 0;
    }
    hide Admits, Read, Find, ReplaceAll, Occurrences, CutAt, Joined, Written;
  }

  /** It is refused exactly when there is no text to look for, the file cannot be read, does not hold the text,
      or the budget does not admit the result. */
  lemma ModifiesExactlyWhen(t: Tree, name: Path, part: Bytes, with: Bytes)
    ensures var f := FileAt(t, name);
      var readable := f.Some? && f.value.kind.Regular? && |f.value.data| <= 0x10_0000;
      if part != [] && readable && (exists i :: Begins(f.value.data, part, i))
         && Admits(t, name, |ReplaceAll(f.value.data, part, with)|)
      then Called(t, Modify(name, part, with)) == Written(t, name, ReplaceAll(f.value.data, part, with))
      else Called(t, Modify(name, part, with)) == t
  {
    ReadIs(t, name);
    if part != [] && Read(t, name).Some? {
      var content := Read(t, name).value;
      FindIs(content, part, 0);
      assert Find(content, part, 0).Some? ==> Begins(content, part, Find(content, part, 0).value);
      assert forall i :: Begins(content, part, i) ==> 0 <= i;
    }
    hide Admits, Read, Find, ReplaceAll, Begins, Written;
  }
}
