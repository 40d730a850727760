/** A round of the synchroniser: where a local scan starts, what it plans, and which paths it
    can decide about. */
module Rounds {
  import opened Model
  import opened Plan
  import Apply

  /** Task, local tree, index, and the directory where the scan begins. */
  datatype Start = Start(t: Apply.Task, fs: Tree, idx: Index, root: Path) {
    ghost function Plan(): seq<Op> {
      PlanDir(t.setup, fs, idx, root)
    }

    ghost predicate Scope(p: Path) {
      InScope(t.setup, fs, root, p)
    }
  }

  /** A directory on the way to a path in scope is itself a listed directory in scope. */
  lemma AncestorInScope(b: Start, q: Path, p: Path)
    requires b.Scope(p) && b.root < q && q < p
    ensures b.Scope(q) && Listed(b.t.setup, b.fs, q) && b.fs[q].Dir?
  {
    hide PlanDir;
    var d := Parent(p);
    assert d[..|q|] == q;
    forall i | |b.root| < i <= |Parent(q)|
      ensures Listed(b.t.setup, b.fs, Parent(q)[..i]) && b.fs[Parent(q)[..i]].Dir?
    {
      assert Parent(q)[..i] == d[..i];
    }
    if |q| == |b.root| + 1 {
      assert Parent(q) == b.root;
    } else {
      assert Parent(q) == d[..|q| - 1];
    }
  }
}
