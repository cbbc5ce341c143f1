/**
 * The masonry gallery (src/components/MasonryGrid.tsx): the breakpoint table
 * from viewport width to column count, the round-robin partition of the items
 * into columns, and the one-slot "selected project" state that drives the
 * lightbox.
 */
module Layout {
  import opened Types

  /** The column count before the first resize evaluation. */
  const DefaultColumns := 5

  /** The breakpoint table of `handleResize`. */
  function ColumnsForWidth(width: int): (c: int)
    ensures 1 <= c <= 5
    ensures c == 1 <==> width < 640
    ensures c == 2 <==> 640 <= width < 768
    ensures c == 3 <==> 768 <= width < 1024
    ensures c == 4 <==> 1024 <= width < 1280
    ensures c == 5 <==> 1280 <= width
  {
    if width < 640 then 1
    else if width < 768 then 2
    else if width < 1024 then 3
    else if width < 1280 then 4
    else 5
  }

  /** A wider viewport never gets fewer columns. */
  lemma ColumnsMonotone(w1: int, w2: int)
    requires w1 <= w2
    ensures ColumnsForWidth(w1) <= ColumnsForWidth(w2)
  {
  }

  /** `c` empty lists. */
  function NoColumns<T>(c: nat): (p: seq<seq<T>>)
    ensures |p| == c && forall k :: 0 <= k < c ==> p[k] == []
  {
    seq(c, _ => [])
  }

  /**
   * The columns the partition produces: one list per column, and item `i`
   * pushed onto the end of list `i % c`, one item after the other.
   */
  function Partition<T>(s: seq<T>, c: nat): (p: seq<seq<T>>)
    requires 1 <= c
    ensures |p| == c
    decreases |s|
  {
    if |s| == 0 then NoColumns(c)
    else
      var p := Partition(s[..|s| - 1], c);
      var k := (|s| - 1) % c;
      p[k := p[k] + [s[|s| - 1]]]
  }

  /** The sum of the lengths of the columns. */
  function TotalLength<T>(p: seq<seq<T>>): nat
  {
    if |p| == 0 then 0 else |p[0]| + TotalLength(p[1..])
  }

  /** The columns laid end to end. */
  function Flatten<T>(p: seq<seq<T>>): seq<T>
  {
    if |p| == 0 then [] else p[0] + Flatten(p[1..])
  }

  lemma {:induction false} MulAtLeast(d: int, c: int)
    requires 1 <= c && 1 <= d
    ensures d * c >= c
    decreases d
  {
    if d > 1 {
      MulAtLeast(d - 1, c);
      assert d * c == (d - 1) * c + c;
    }
  }

  /** `k + j * c` with `0 <= k < c` has remainder `k` and quotient `j`. */
  lemma ModUnique(n: int, c: int, k: int, j: int)
    requires 1 <= c && 0 <= k < c && 0 <= j && n == k + j * c
    ensures n % c == k && n / c == j
  {
    var q, r := n / c, n % c;
    assert n == q * c + r;
    assert (q - j) * c == k - r;
    if q > j {
      MulAtLeast(q - j, c);
    } else if q < j {
      MulAtLeast(j - q, c);
    }
  }

  /** Multiplying by a positive count keeps the order of the factors. */
  lemma MulMonotone(j: int, q: int, c: int)
    requires 1 <= c && 0 <= j && 0 <= q
    ensures j <= q <==> j * c <= q * c
    ensures j < q <==> j * c < q * c
  {
    if j > q {
      MulAtLeast(j - q, c);
      assert j * c == (j - q) * c + q * c;
    } else if j < q {
      MulAtLeast(q - j, c);
      assert q * c == (q - j) * c + j * c;
    }
  }

  /** The column that receives item `m` had exactly `m / c` items before it. */
  lemma ColumnLengthBeforePush(len: nat, c: nat, r: nat, q: nat, m: nat)
    requires 1 <= c && r < c && m == r + q * c
    requires q < len <==> r + q * c < m
    requires 1 <= q ==> (q - 1 < len <==> r + (q - 1) * c < m)
    ensures len == q
  {
    if 1 <= q {
      assert r + (q - 1) * c == m - c;
    }
  }

  /**
   * The placement invariant of the partition: slot `j` of column `k` exists
   * exactly when index `k + j * c` exists, and then holds that item. Hence
   * each column keeps the items' relative order, and each item has one slot.
   */
  lemma {:induction false} PartitionSlot<T>(s: seq<T>, c: nat, k: nat, j: nat)
    requires 1 <= c && k < c
    ensures (j < |Partition(s, c)[k]| <==> k + j * c < |s|)
    ensures j < |Partition(s, c)[k]| ==> Partition(s, c)[k][j] == s[k + j * c]
    decreases |s|, 1
  {
    if |s| > 0 {
      if k == (|s| - 1) % c {
        SlotInPushedColumn(s, c, k, j);
      } else {
        SlotInOtherColumn(s, c, k, j);
      }
    }
  }

  /** Induction step for a column that did not receive the last item. */
  lemma {:induction false} SlotInOtherColumn<T>(s: seq<T>, c: nat, k: nat, j: nat)
    requires 1 <= c && k < c && 0 < |s| && k != (|s| - 1) % c
    ensures (j < |Partition(s, c)[k]| <==> k + j * c < |s|)
    ensures j < |Partition(s, c)[k]| ==> Partition(s, c)[k][j] == s[k + j * c]
    decreases |s|, 0
  {
    var m := |s| - 1;
    assert Partition(s, c)[k] == Partition(s[..m], c)[k];
    PartitionSlot(s[..m], c, k, j);
    if k + j * c == m {
      ModUnique(m, c, k, j);
    }
  }

  /** Induction step for the column that received the last item. */
  lemma {:induction false} SlotInPushedColumn<T>(s: seq<T>, c: nat, k: nat, j: nat)
    requires 1 <= c && k < c && 0 < |s| && k == (|s| - 1) % c
    ensures (j < |Partition(s, c)[k]| <==> k + j * c < |s|)
    ensures j < |Partition(s, c)[k]| ==> Partition(s, c)[k][j] == s[k + j * c]
    decreases |s|, 0
  {
    var m := |s| - 1;
    var q := m / c;
    var before := Partition(s[..m], c)[k];
    assert m == k + q * c by {
      DivMod(m, c);
    }
    assert Partition(s, c)[k] == before + [s[m]];
    assert |before| == q by {
      PartitionSlot(s[..m], c, k, q);
      if 1 <= q {
        PartitionSlot(s[..m], c, k, q - 1);
      }
      ColumnLengthBeforePush(|before|, c, k, q, m);
    }
    if j < q {
      PartitionSlot(s[..m], c, k, j);
    }
    AppendedSlot(before, s, c, k, q, j);
  }

  /** Slot `j` of a column of `q` items to which item `k + q * c`, the last of `s`, is appended. */
  lemma AppendedSlot<T>(before: seq<T>, s: seq<T>, c: nat, k: nat, q: nat, j: nat)
    requires 1 <= c && k < c && 0 < |s| && |s| - 1 == k + q * c && |before| == q
    requires j < q ==> k + j * c < |s| - 1 && before[j] == s[k + j * c]
    ensures (j < |before + [s[|s| - 1]]| <==> k + j * c < |s|)
    ensures j < |before + [s[|s| - 1]]| ==> (before + [s[|s| - 1]])[j] == s[k + j * c]
  {
    MulMonotone(j, q, c);
  }

  lemma DivMod(i: nat, c: nat)
    requires 1 <= c
    ensures 0 <= i / c && 0 <= i % c < c && i == i % c + (i / c) * c
  {
  }

  /** Item `i` lands in column `i % c`, at position `i / c`. */
  lemma PartitionPlacement<T>(s: seq<T>, c: nat, i: nat)
    requires 1 <= c && i < |s|
    ensures 0 <= i % c < c && 0 <= i / c
    ensures i / c < |Partition(s, c)[i % c]|
    ensures Partition(s, c)[i % c][i / c] == s[i]
  {
    DivMod(i, c);
    var k, j := i % c, i / c;
    PartitionSlot(s, c, k, j);
  }

  lemma {:induction false} TotalLengthPush<T>(p: seq<seq<T>>, k: nat, x: T)
    requires k < |p|
    ensures TotalLength(p[k := p[k] + [x]]) == TotalLength(p) + 1
    decreases |p|
  {
    if k > 0 {
      TotalLengthPush(p[1..], k - 1, x);
      assert p[k := p[k] + [x]][1..] == p[1..][k - 1 := p[k] + [x]];
    }
  }

  lemma {:induction false} FlattenPush<T>(p: seq<seq<T>>, k: nat, x: T)
    requires k < |p|
    ensures multiset(Flatten(p[k := p[k] + [x]])) == multiset(Flatten(p)) + multiset{x}
    decreases |p|
  {
    var p' := p[k := p[k] + [x]];
    if k == 0 {
      assert p'[1..] == p[1..];
    } else {
      FlattenPush(p[1..], k - 1, x);
      assert p'[1..] == p[1..][k - 1 := p[k] + [x]];
    }
  }

  lemma {:induction false} EmptyColumns<T>(c: nat)
    ensures TotalLength(NoColumns<T>(c)) == 0
    ensures Flatten(NoColumns<T>(c)) == []
  {
    if c > 0 {
      EmptyColumns<T>(c - 1);
      assert NoColumns<T>(c)[1..] == NoColumns<T>(c - 1);
    }
  }

  /**
   * Conservation: the column lengths sum to the number of items, and the
   * columns hold exactly the items, each as often as in the input.
   */
  lemma {:induction false} PartitionConserves<T>(s: seq<T>, c: nat)
    requires 1 <= c
    ensures TotalLength(Partition(s, c)) == |s|
    ensures multiset(Flatten(Partition(s, c))) == multiset(s)
    decreases |s|
  {
    if |s| == 0 {
      EmptyColumns<T>(c);
    } else {
      var m := |s| - 1;
      PartitionConserves(s[..m], c);
      TotalLengthPush(Partition(s[..m], c), m % c, s[m]);
      FlattenPush(Partition(s[..m], c), m % c, s[m]);
      assert s == s[..m] + [s[m]];
    }
  }

  /** With no items, the partition still has `c` lists, all empty. */
  lemma EmptyPartition<T>(s: seq<T>, c: nat)
    requires 1 <= c && s == []
    ensures |Partition(s, c)| == c
    ensures forall k :: 0 <= k < c ==> Partition(s, c)[k] == []
  {
  }

  /** Item `i` of `s` sits in column `i % c` at row `i / c`. */
  ghost predicate PlacesAll<T>(cols: seq<seq<T>>, s: seq<T>, c: nat)
    requires 1 <= c && |cols| == c
  {
    forall i :: 0 <= i < |s| ==> i / c < |cols[i % c]| && cols[i % c][i / c] == s[i]
  }

  /** Slot `(k, j)` holds item `k + j * c` of `s`. */
  ghost predicate SlotHolds<T>(cols: seq<seq<T>>, s: seq<T>, c: nat, k: nat, j: nat)
    requires k < |cols| && j < |cols[k]|
  {
    k + j * c < |s| && cols[k][j] == s[k + j * c]
  }

  /** Every slot holds its item of `s`, so each column keeps input order. */
  ghost predicate FillsAll<T>(cols: seq<seq<T>>, s: seq<T>, c: nat)
    requires 1 <= c && |cols| == c
  {
    forall k: nat, j: nat :: k < c && j < |cols[k]| ==> SlotHolds(cols, s, c, k, j)
  }

  /** `cols` is the round-robin layout of `s` over `c` columns. */
  ghost predicate RoundRobin<T>(cols: seq<seq<T>>, s: seq<T>, c: nat)
    requires 1 <= c
  {
    |cols| == c && PlacesAll(cols, s, c) && FillsAll(cols, s, c)
  }

  lemma PartitionPlacesAll<T>(s: seq<T>, c: nat)
    requires 1 <= c
    ensures PlacesAll(Partition(s, c), s, c)
  {
    forall i | 0 <= i < |s|
      ensures i / c < |Partition(s, c)[i % c]| && Partition(s, c)[i % c][i / c] == s[i]
    {
      PartitionPlacement(s, c, i);
    }
  }

  /** Slot `(k, j)` of the partition holds item `k + j * c`. */
  lemma FillsSlot<T>(s: seq<T>, c: nat, k: nat, j: nat)
    requires 1 <= c && k < c && j < |Partition(s, c)[k]|
    ensures SlotHolds(Partition(s, c), s, c, k, j)
  {
    PartitionSlot(s, c, k, j);
  }

  lemma PartitionFillsAll<T>(s: seq<T>, c: nat)
    requires 1 <= c
    ensures FillsAll(Partition(s, c), s, c)
  {
    var cols := Partition(s, c);
    forall k: nat, j: nat | k < c && j < |cols[k]|
      ensures SlotHolds(cols, s, c, k, j)
    {
      FillsSlot(s, c, k, j);
    }
  }

  /** The partition places every item in its slot and every slot holds its item. */
  lemma PartitionIsRoundRobin<T>(s: seq<T>, c: nat)
    requires 1 <= c
    ensures RoundRobin(Partition(s, c), s, c)
  {
    PartitionPlacesAll(s, c);
    PartitionFillsAll(s, c);
  }

  /** The state of one mounted gallery: the column count and the selected project. */
  class MasonryGrid {
    var columns: int
    var selectedProject: Option<Project>

    predicate Valid()
      reads this
    {
      1 <= columns <= 5
    }

    /** The state before the first resize evaluation: five columns, nothing selected. */
    constructor ()
      ensures Valid()
      ensures columns == DefaultColumns && selectedProject == None
    {
      columns := DefaultColumns;
      selectedProject := None;
    }

    /** `handleResize`, run once at mount and on every resize, with the viewport width as input. */
    method HandleResize(width: int)
      modifies this
      ensures Valid()
      ensures columns == ColumnsForWidth(width)
      ensures selectedProject == old(selectedProject)
    {
      columns := ColumnsForWidth(width);
    }

    /** `getColumnProjects`: a fresh list per column, each item pushed onto list `index % columns`. */
    method GetColumnProjects(projects: seq<Project>) returns (columnProjects: array<seq<Project>>)
      requires Valid()
      ensures columnProjects.Length == columns
      ensures columnProjects[..] == Partition(projects, columns)
      ensures RoundRobin(columnProjects[..], projects, columns)
      ensures TotalLength(columnProjects[..]) == |projects|
      ensures multiset(Flatten(columnProjects[..])) == multiset(projects)
    {
      columnProjects := new seq<Project>[columns](_ => []);
      for i := 0 to |projects|
        invariant columnProjects.Length == columns
        invariant columnProjects[..] == Partition(projects[..i], columns)
      {
        var columnIndex := i % columns;
        assert projects[..i + 1][..i] == projects[..i];
        columnProjects[columnIndex] := columnProjects[columnIndex] + [projects[i]];
      }
      assert projects[..|projects|] == projects;
      PartitionIsRoundRobin(projects, columns);
      PartitionConserves(projects, columns);
    }

    /** `handleProjectClick`: the clicked project becomes the selected one. */
    method HandleProjectClick(project: Project)
      modifies this
      ensures selectedProject == Some(project)
      ensures columns == old(columns)
    {
      selectedProject := Some(project);
    }

    /** `handleCloseLightbox`: the selection is cleared and nothing else changes. */
    method HandleCloseLightbox()
      modifies this
      ensures selectedProject == None
      ensures columns == old(columns)
    {
      selectedProject := None;
    }
  }
}
