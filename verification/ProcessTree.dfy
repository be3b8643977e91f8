/** The memory of a process and all its descendants, from one listing of all processes. */
module ProcessTree {
  import opened Basics

  // One line of the listing.
  datatype Line = Line(pid: int, parent: int, rss: int)

  // Rows by process id: the last line of a process counts.
  function RowsOf(lines: seq<Line>): map<int, Line> {
    if lines == [] then map[]
    else
      var last := lines[|lines| - 1];
      RowsOf(lines[..|lines| - 1])[last.pid := last]
  }

  ghost predicate ListsKeys(order: seq<int>, rows: map<int, Line>) {
    && (forall i, j | 0 <= i < j < |order| :: order[i] != order[j])
    && (forall i | 0 <= i < |order| :: order[i] in rows)
    && forall pid | pid in rows :: pid in order
  }

  // The dictionary of rows together with the order in which it is iterated.
  method ReadRows(lines: seq<Line>) returns (rows: map<int, Line>, order: seq<int>)
    ensures rows == RowsOf(lines) && ListsKeys(order, rows)
  {
    rows, order := map[], [];
    var i := 0;
    while i < |lines|
      invariant 0 <= i <= |lines|
      invariant rows == RowsOf(lines[..i]) && ListsKeys(order, rows)
    {
      var line := lines[i];
      if line.pid !in rows {
        order := order + [line.pid];
      }
      rows := rows[line.pid := line];
      assert lines[..i + 1][..i] == lines[..i];
      i := i + 1;
    }
    assert lines[..i] == lines;
  }

  // From pid, n steps to the parent lead to the root.
  ghost predicate LeadsTo(rows: map<int, Line>, pid: int, root: int, n: nat)
    decreases n
  {
    if n == 0 then pid == root else pid in rows && LeadsTo(rows, rows[pid].parent, root, n - 1)
  }

  ghost predicate InTree(rows: map<int, Line>, root: int, pid: int) {
    exists n: nat :: LeadsTo(rows, pid, root, n)
  }

  ghost predicate IsTree(rows: map<int, Line>, root: int, tree: set<int>) {
    forall pid :: pid in tree <==> InTree(rows, root, pid)
  }

  // No row lies outside a set that holds its parent.
  ghost predicate Closed(rows: map<int, Line>, tree: set<int>) {
    forall pid | pid in rows && rows[pid].parent in tree :: pid in tree
  }

  lemma ChildIsInTree(rows: map<int, Line>, root: int, pid: int)
    requires pid in rows && InTree(rows, root, rows[pid].parent)
    ensures InTree(rows, root, pid)
  {
    var n: nat :| LeadsTo(rows, rows[pid].parent, root, n);
    assert LeadsTo(rows, pid, root, n + 1);
  }

  lemma {:induction false} ClosedHoldsTree(rows: map<int, Line>, tree: set<int>, root: int, pid: int, n: nat)
    requires root in tree && Closed(rows, tree) && LeadsTo(rows, pid, root, n)
    ensures pid in tree
    decreases n
  {
    if n > 0 { ClosedHoldsTree(rows, tree, root, rows[pid].parent, n - 1); }
  }

  /** The loop ends, on cyclic parents too, with exactly the processes from which the root is reached
      by going from parent to parent. */
  method Descendants(rows: map<int, Line>, order: seq<int>, root: int) returns (descendants: set<int>)
    requires ListsKeys(order, rows)
    ensures IsTree(rows, root, descendants)
  {
    descendants := {root};
    assert LeadsTo(rows, root, root, 0);
    var changed := true;
    while changed
      invariant root in descendants && descendants <= rows.Keys + {root}
      invariant forall pid | pid in descendants :: InTree(rows, root, pid)
      invariant !changed ==> Closed(rows, descendants)
      decreases rows.Keys + {root} - descendants, changed
    {
      ghost var before := descendants;
      changed := false;
      var i := 0;
      while i < |order|
        invariant 0 <= i <= |order|
        invariant before <= descendants <= rows.Keys + {root}
        invariant forall pid | pid in descendants :: InTree(rows, root, pid)
        invariant changed ==> before < descendants
        invariant !changed ==> before == descendants
        invariant !changed ==> forall k | 0 <= k < i :: rows[order[k]].parent in descendants ==> order[k] in descendants
      {
        var pid := order[i];
        if rows[pid].parent in descendants && pid !in descendants {
          ChildIsInTree(rows, root, pid);
          descendants := descendants + {pid};
          changed := true;
        }
        i := i + 1;
      }
    }
    forall pid | InTree(rows, root, pid) ensures pid in descendants {
      var n: nat :| LeadsTo(rows, pid, root, n);
      ClosedHoldsTree(rows, descendants, root, pid, n);
    }
  }

  // The memory of the listed processes that are in a set, each counted once.
  function Total(order: seq<int>, rows: map<int, Line>, chosen: set<int>): int {
    if order == [] then 0
    else (if order[0] in chosen && order[0] in rows then rows[order[0]].rss else 0) + Total(order[1..], rows, chosen)
  }

  lemma {:induction false} TotalWithout(order: seq<int>, rows: map<int, Line>, chosen: set<int>, pid: int)
    requires pid in chosen && forall i, j | 0 <= i < j < |order| :: order[i] != order[j]
    ensures Total(order, rows, chosen)
            == Total(order, rows, chosen - {pid}) + if pid in order && pid in rows then rows[pid].rss else 0
  {
    if order != [] {
      TotalWithout(order[1..], rows, chosen, pid);
      assert pid in order <==> pid == order[0] || pid in order[1..];
    }
  }

  lemma {:induction false} TotalOfNone(order: seq<int>, rows: map<int, Line>)
    ensures Total(order, rows, {}) == 0
  {
    if order != [] { TotalOfNone(order[1..], rows); }
  }

  lemma MemberOf<T>(chosen: set<T>) returns (x: T)
    requires |chosen| > 0
    ensures x in chosen
  {
    x :| x in chosen;
  }

  // Whatever the order in which the set is read, each of its rows is added once.
  method SumOf(rows: map<int, Line>, chosen: set<int>, ghost order: seq<int>) returns (sum: int)
    requires ListsKeys(order, rows)
    ensures sum == Total(order, rows, chosen)
  {
    sum := 0;
    var todo := chosen;
    while |todo| > 0
      invariant sum + Total(order, rows, todo) == Total(order, rows, chosen)
      decreases todo
    {
      ghost var member := MemberOf(todo);
      var pid :| pid in todo;
      TotalWithout(order, rows, todo, pid);
      if pid in rows {
        sum := sum + rows[pid].rss;
      }
      todo := todo - {pid};
    }
    TotalOfNone(order, rows);
  }

  ghost predicate AddsUp(rows: map<int, Line>, root: int, total: int, order: seq<int>, tree: set<int>) {
    ListsKeys(order, rows) && IsTree(rows, root, tree) && total == Total(order, rows, tree)
  }

  // The total over a tree, given by what being in the tree means.
  ghost predicate IsTreeTotal(rows: map<int, Line>, root: int, total: int) {
    exists order, tree :: AddsUp(rows, root, total, order, tree)
  }

  lemma {:induction false} TotalInAnyOrder(a: seq<int>, b: seq<int>, rows: map<int, Line>, chosen: set<int>)
    requires ListsKeys(a, rows) && ListsKeys(b, rows)
    ensures Total(a, rows, chosen) == Total(b, rows, chosen)
    decreases chosen
  {
    if |chosen| > 0 {
      var pid := MemberOf(chosen);
      TotalWithout(a, rows, chosen, pid);
      TotalWithout(b, rows, chosen, pid);
      TotalInAnyOrder(a, b, rows, chosen - {pid});
    } else {
      TotalOfNone(a, rows);
      TotalOfNone(b, rows);
    }
  }

  lemma SameTree(rows: map<int, Line>, root: int, s: set<int>, t: set<int>)
    requires IsTree(rows, root, s) && IsTree(rows, root, t)
    ensures s == t
  {
    forall pid: int ensures pid in s <==> pid in t {
      assert pid in s <==> InTree(rows, root, pid);
    }
  }

  /** There is one such total, so it does not matter how the set is iterated. */
  lemma TreeTotalIsUnique(rows: map<int, Line>, root: int, x: int, y: int)
    requires IsTreeTotal(rows, root, x) && IsTreeTotal(rows, root, y)
    ensures x == y
  {
    var a, s :| AddsUp(rows, root, x, a, s);
    var b, t :| AddsUp(rows, root, y, b, t);
    SameTree(rows, root, s, t);
    TotalInAnyOrder(a, b, rows, s);
  }

  method ProcessTreeRss(root: Option<int>, lines: seq<Line>) returns (total: Option<int>)
    ensures total.None? <==> root.None?
    ensures root.Some? ==> IsTreeTotal(RowsOf(lines), root.value, total.value)
  {
    if root.None? {
      return None;
    }
    var rows, order := ReadRows(lines);
    var descendants := Descendants(rows, order, root.value);
    var sum := SumOf(rows, descendants, order);
    assert AddsUp(rows, root.value, sum, order, descendants);
    return Some(sum);
  }
}
