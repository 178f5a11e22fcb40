/**
 * The Metatron graph of QRADIANCE (QRADIANCE-main/src/core/metatron.rs):
 * 13 nodes (node 0 the centre, 1..6 the hexagon ring, 7..12 the cube
 * corners), an adjacency matrix built edge group by edge group, the degree
 * matrix and the Laplacian L = D - A, and the queries on them.
 *
 * The matrices are `seq<seq<bool>>` and `seq<seq<real>>` of 13 rows of 13
 * entries; the graph never changes after construction, so its fields are
 * constants.
 */
module Metatron {
  import opened Numerics

  const NUM_NODES: nat := 13

  /** The edge total the source states for the construction (6 + 6 + 6 + 12 + 12 + 4). */
  const DOCUMENTED_NUM_EDGES: nat := 46

  /** The number of distinct edges the construction actually yields. */
  const NUM_EDGES: nat := 45

  datatype NodeType = Center | Hexagon | Cube

  /** A node index. */
  type Node = n: nat | n < NUM_NODES

  /** The three literal edge lists of the construction, in source order. */
  const HEX_CUBE_CONNECTIONS: seq<(Node, Node)> :=
    [(1, 7), (1, 8), (2, 8), (2, 9), (3, 9), (3, 10), (4, 10), (4, 11), (5, 11), (5, 12), (6, 12), (6, 7)]

  const CUBE_EDGES: seq<(Node, Node)> :=
    [(7, 8), (8, 9), (9, 10), (10, 11), (11, 12), (12, 7), (7, 9), (8, 10), (9, 11), (10, 12), (11, 7), (12, 8)]

  const SPACE_DIAGONALS: seq<(Node, Node)> := [(7, 10), (8, 11), (9, 12), (7, 11)]

  /** A 13 x 13 matrix. */
  predicate IsMatrix<T>(m: seq<seq<T>>)
  {
    |m| == NUM_NODES && forall i :: 0 <= i < NUM_NODES ==> |m[i]| == NUM_NODES
  }

  /** The successor of a hexagon node on the closed ring 1-2-3-4-5-6-1. */
  function RingNext(i: nat): nat
  {
    if i == 6 then 1 else i + 1
  }

  // The edge relation, group by group, written out pair by pair.  This is
  // the reference the constructed matrix is proved against.

  predicate CenterEdge(a: nat, b: nat)
  {
    a == 0 && 1 <= b <= 12
  }

  predicate RingEdge(a: nat, b: nat)
  {
    1 <= a <= 6 && b == RingNext(a)
  }

  predicate HexCubeEdge(a: nat, b: nat)
  {
    (a == 1 && b == 7) || (a == 1 && b == 8) || (a == 2 && b == 8) || (a == 2 && b == 9)
    || (a == 3 && b == 9) || (a == 3 && b == 10) || (a == 4 && b == 10) || (a == 4 && b == 11)
    || (a == 5 && b == 11) || (a == 5 && b == 12) || (a == 6 && b == 12) || (a == 6 && b == 7)
  }

  predicate CubeEdge(a: nat, b: nat)
  {
    (a == 7 && b == 8) || (a == 8 && b == 9) || (a == 9 && b == 10) || (a == 10 && b == 11)
    || (a == 11 && b == 12) || (a == 12 && b == 7) || (a == 7 && b == 9) || (a == 8 && b == 10)
    || (a == 9 && b == 11) || (a == 10 && b == 12) || (a == 11 && b == 7) || (a == 12 && b == 8)
  }

  predicate SpaceDiagonal(a: nat, b: nat)
  {
    (a == 7 && b == 10) || (a == 8 && b == 11) || (a == 9 && b == 12) || (a == 7 && b == 11)
  }

  /** A pair some group of the construction lists, in the direction listed. */
  predicate Listed(a: nat, b: nat)
  {
    CenterEdge(a, b) || RingEdge(a, b) || HexCubeEdge(a, b) || CubeEdge(a, b) || SpaceDiagonal(a, b)
  }

  /** Adjacency: listed in either direction. */
  predicate Adjacent(a: nat, b: nat)
  {
    Listed(a, b) || Listed(b, a)
  }

  /** The literal lists hold exactly the pairs of the reference relation. */
  lemma ListsMatch(a: nat, b: nat)
    ensures (a, b) in HEX_CUBE_CONNECTIONS <==> HexCubeEdge(a, b)
    ensures (a, b) in CUBE_EDGES <==> CubeEdge(a, b)
    ensures (a, b) in SPACE_DIAGONALS <==> SpaceDiagonal(a, b)
  {
  }

  /** Every listed pair joins two distinct nodes below 13. */
  lemma ListedIsIrreflexive(a: nat, b: nat)
    requires Listed(a, b)
    ensures a != b && a < NUM_NODES && b < NUM_NODES
  {
  }

  /** Number of `true` entries. */
  function CountTrue(s: seq<bool>): (n: nat)
    ensures n <= |s|
  {
    if |s| == 0 then 0 else (if s[0] then 1 else 0) + CountTrue(s[1..])
  }

  lemma {:induction false} CountTrueAppend(s: seq<bool>, x: bool)
    ensures CountTrue(s + [x]) == CountTrue(s) + (if x then 1 else 0)
  {
    if |s| > 0 {
      assert (s + [x])[1..] == s[1..] + [x];
      CountTrueAppend(s[1..], x);
    }
  }

  /** Peeling off the first entry of a suffix. */
  lemma CountTrueStep(s: seq<bool>, j: nat)
    requires j < |s|
    ensures CountTrue(s[j..]) == (if s[j] then 1 else 0) + CountTrue(s[j + 1..])
  {
    assert s[j..][1..] == s[j + 1..];
  }

  /** The all-false matrix the construction starts from. */
  function EmptyAdjacency(): (m: seq<seq<bool>>)
    ensures IsMatrix(m)
    ensures forall a, b | 0 <= a < NUM_NODES && 0 <= b < NUM_NODES :: !m[a][b]
  {
    seq(NUM_NODES, _ => seq(NUM_NODES, _ => false))
  }

  /** Setting `adjacency[(i, j)]` and `adjacency[(j, i)]`: exactly those two entries become true. */
  function Link(m: seq<seq<bool>>, i: nat, j: nat): (r: seq<seq<bool>>)
    requires IsMatrix(m) && i < NUM_NODES && j < NUM_NODES
    ensures IsMatrix(r)
    ensures forall a, b | 0 <= a < NUM_NODES && 0 <= b < NUM_NODES ::
              r[a][b] == (m[a][b] || (a == i && b == j) || (a == j && b == i))
  {
    var m1 := m[i := m[i][j := true]];
    m1[j := m1[j][i := true]]
  }

  /** One `for &(i, j) in &list` loop of the construction: every listed pair is linked both ways. */
  method LinkAll(m: seq<seq<bool>>, pairs: seq<(Node, Node)>) returns (r: seq<seq<bool>>)
    requires IsMatrix(m)
    ensures IsMatrix(r)
    ensures forall a: nat, b: nat | a < NUM_NODES && b < NUM_NODES ::
              r[a][b] == (m[a][b] || (a, b) in pairs || (b, a) in pairs)
  {
    r := m;
    for k := 0 to |pairs|
      invariant IsMatrix(r)
      invariant forall a: nat, b: nat | a < NUM_NODES && b < NUM_NODES ::
                  r[a][b] == (m[a][b] || (a, b) in pairs[..k] || (b, a) in pairs[..k])
    {
      assert pairs[..k + 1] == pairs[..k] + [pairs[k]];
      r := Link(r, pairs[k].0, pairs[k].1);
    }
    assert pairs[..|pairs|] == pairs;
  }

  /** The degree matrix: row i's count of neighbours on the diagonal, zero elsewhere. */
  function DegreeMatrix(adj: seq<seq<bool>>): (d: seq<seq<real>>)
    requires IsMatrix(adj)
    ensures IsMatrix(d)
    ensures forall i, j | 0 <= i < NUM_NODES && 0 <= j < NUM_NODES ::
              d[i][j] == if i == j then CountTrue(adj[i]) as real else 0.0
  {
    seq(NUM_NODES, i requires 0 <= i < NUM_NODES =>
      seq(NUM_NODES, j => if i == j then CountTrue(adj[i]) as real else 0.0))
  }

  /** The Laplacian L = D - A, with A read as 1.0 / 0.0. */
  function Laplacian(adj: seq<seq<bool>>): (l: seq<seq<real>>)
    requires IsMatrix(adj)
    ensures IsMatrix(l)
    ensures forall i, j | 0 <= i < NUM_NODES && 0 <= j < NUM_NODES ::
              l[i][j] == DegreeMatrix(adj)[i][j] - (if adj[i][j] then 1.0 else 0.0)
  {
    var d := DegreeMatrix(adj);
    seq(NUM_NODES, i requires 0 <= i < NUM_NODES =>
      seq(NUM_NODES, j requires 0 <= j < NUM_NODES => d[i][j] - (if adj[i][j] then 1.0 else 0.0)))
  }

  lemma {:induction false} LaplacianPrefixSum(adj: seq<seq<bool>>, i: nat, n: nat)
    requires IsMatrix(adj) && i < NUM_NODES && n <= NUM_NODES && !adj[i][i]
    ensures Sum(Laplacian(adj)[i][..n])
            == (if i < n then CountTrue(adj[i]) as real else 0.0) - CountTrue(adj[i][..n]) as real
  {
    var row := Laplacian(adj)[i];
    if n > 0 {
      LaplacianPrefixSum(adj, i, n - 1);
      assert row[..n][..n - 1] == row[..n - 1];
      assert adj[i][..n] == adj[i][..n - 1] + [adj[i][n - 1]];
      CountTrueAppend(adj[i][..n - 1], adj[i][n - 1]);
    }
  }

  /** In a graph without self-loops every Laplacian row sums to zero. */
  lemma LaplacianRowSumsToZero(adj: seq<seq<bool>>, i: nat)
    requires IsMatrix(adj) && i < NUM_NODES && !adj[i][i]
    ensures Sum(Laplacian(adj)[i]) == 0.0
  {
    LaplacianPrefixSum(adj, i, NUM_NODES);
    assert Laplacian(adj)[i][..NUM_NODES] == Laplacian(adj)[i];
    assert adj[i][..NUM_NODES] == adj[i];
  }

  /** `(0..NUM_NODES).filter(|&j| row[j])` from index j on: the true positions, ascending. */
  function NeighborsFrom(row: seq<bool>, j: nat): (r: seq<nat>)
    requires j <= |row|
    decreases |row| - j
    ensures |r| == CountTrue(row[j..])
    ensures forall k :: 0 <= k < |r| ==> j <= r[k] < |row| && row[r[k]]
    ensures forall k, l :: 0 <= k < l < |r| ==> r[k] < r[l]
  {
    if j == |row| then []
    else
      CountTrueStep(row, j);
      var rest := NeighborsFrom(row, j + 1);
      if row[j] then [j] + rest else rest
  }

  /** No true position from j on is missed. */
  lemma {:induction false} NeighborsFromComplete(row: seq<bool>, j: nat)
    requires j <= |row|
    ensures forall x :: j <= x < |row| && row[x] ==> x in NeighborsFrom(row, j)
    decreases |row| - j
  {
    if j < |row| {
      NeighborsFromComplete(row, j + 1);
    }
  }

  /** Number of pairs i < j < 13 with `adj[i][j]`, from row i on. */
  function UpperFrom(adj: seq<seq<bool>>, i: nat): nat
    requires IsMatrix(adj) && i <= NUM_NODES
    decreases NUM_NODES - i
  {
    if i == NUM_NODES then 0 else CountTrue(adj[i][i + 1..]) + UpperFrom(adj, i + 1)
  }

  /** The number of neighbours of node i among j..12, read off the reference relation. */
  function AdjacentFrom(i: nat, j: nat): nat
    decreases NUM_NODES - j
  {
    if j >= NUM_NODES then 0 else (if Adjacent(i, j) then 1 else 0) + AdjacentFrom(i, j + 1)
  }

  /** A matrix that is exactly the reference relation. */
  predicate IsMetatron(adj: seq<seq<bool>>)
  {
    IsMatrix(adj) && forall a, b | 0 <= a < NUM_NODES && 0 <= b < NUM_NODES :: adj[a][b] == Adjacent(a, b)
  }

  lemma {:induction false} RowCountMatches(adj: seq<seq<bool>>, i: nat, j: nat)
    requires IsMetatron(adj) && i < NUM_NODES && j <= NUM_NODES
    decreases NUM_NODES - j
    ensures CountTrue(adj[i][j..]) == AdjacentFrom(i, j)
  {
    if j < NUM_NODES {
      CountTrueStep(adj[i], j);
      RowCountMatches(adj, i, j + 1);
    }
  }

  // The neighbour counts of each node.  Each lemma evaluates one row of the
  // reference relation.

  lemma Row0() ensures AdjacentFrom(0, 0) == 12 && AdjacentFrom(0, 1) == 12 { assert AdjacentFrom(0, 6) == 7; }
  lemma Row1() ensures AdjacentFrom(1, 0) == 5 && AdjacentFrom(1, 2) == 4 { }
  lemma Row2() ensures AdjacentFrom(2, 0) == 5 && AdjacentFrom(2, 3) == 3 { }
  lemma Row3() ensures AdjacentFrom(3, 0) == 5 && AdjacentFrom(3, 4) == 3 { }
  lemma Row4() ensures AdjacentFrom(4, 0) == 5 && AdjacentFrom(4, 5) == 3 { }
  lemma Row5() ensures AdjacentFrom(5, 0) == 5 && AdjacentFrom(5, 6) == 3 { }
  lemma Row6() ensures AdjacentFrom(6, 0) == 5 && AdjacentFrom(6, 7) == 2 { }
  lemma Row7() ensures AdjacentFrom(7, 0) == 8 && AdjacentFrom(7, 8) == 5 { }
  lemma Row8() ensures AdjacentFrom(8, 0) == 8 && AdjacentFrom(8, 9) == 4 { }
  lemma Row9() ensures AdjacentFrom(9, 0) == 8 && AdjacentFrom(9, 10) == 3 { }
  lemma Row10() ensures AdjacentFrom(10, 0) == 8 && AdjacentFrom(10, 11) == 2 { }
  lemma Row11() ensures AdjacentFrom(11, 0) == 8 && AdjacentFrom(11, 12) == 1 { }
  lemma Row12() ensures AdjacentFrom(12, 0) == 8 && AdjacentFrom(12, 13) == 0 { assert AdjacentFrom(12, 6) == 6; assert AdjacentFrom(12, 3) == 7; }

  /** The degree of every node: 12 for the centre, 5 on the hexagon, 8 on the cube. */
  lemma {:induction false} DegreeOfEachNode(adj: seq<seq<bool>>, i: nat)
    requires IsMetatron(adj) && i < NUM_NODES
    ensures CountTrue(adj[i]) == if i == 0 then 12 else if i <= 6 then 5 else 8
  {
    RowCountMatches(adj, i, 0);
    assert adj[i][0..] == adj[i];
    if i == 0 { Row0(); } else if i == 1 { Row1(); } else if i == 2 { Row2(); }
    else if i == 3 { Row3(); } else if i == 4 { Row4(); } else if i == 5 { Row5(); }
    else if i == 6 { Row6(); } else if i == 7 { Row7(); } else if i == 8 { Row8(); }
    else if i == 9 { Row9(); } else if i == 10 { Row10(); } else if i == 11 { Row11(); }
    else { Row12(); }
  }

  /** Number of pairs i < j < 13 of the reference relation, from row i on. */
  function AdjacentUpperFrom(i: nat): nat
    decreases NUM_NODES - i
  {
    if i >= NUM_NODES then 0 else AdjacentFrom(i, i + 1) + AdjacentUpperFrom(i + 1)
  }

  lemma {:induction false} UpperCountMatches(adj: seq<seq<bool>>, i: nat)
    requires IsMetatron(adj) && i <= NUM_NODES
    decreases NUM_NODES - i
    ensures UpperFrom(adj, i) == AdjacentUpperFrom(i)
  {
    if i < NUM_NODES {
      RowCountMatches(adj, i, i + 1);
      UpperCountMatches(adj, i + 1);
    }
  }

  /** The constructed relation has 45 unordered edges. */
  lemma UpperCount(adj: seq<seq<bool>>)
    requires IsMetatron(adj)
    ensures UpperFrom(adj, 0) == NUM_EDGES
  {
    UpperCountMatches(adj, 0);
    Row0(); Row1(); Row2(); Row3(); Row4(); Row5(); Row6(); Row7(); Row8(); Row9(); Row10(); Row11(); Row12();
  }

  /** One entry after the three list loops, given its value after the range loops. */
  lemma GroupsMakeAdjacent(a: nat, b: nat, ranges: bool, all: bool)
    requires ranges == (CenterEdge(a, b) || CenterEdge(b, a) || RingEdge(a, b) || RingEdge(b, a))
    requires all == (ranges || (a, b) in HEX_CUBE_CONNECTIONS || (b, a) in HEX_CUBE_CONNECTIONS
                     || (a, b) in CUBE_EDGES || (b, a) in CUBE_EDGES
                     || (a, b) in SPACE_DIAGONALS || (b, a) in SPACE_DIAGONALS)
    ensures all == Adjacent(a, b)
  {
    ListsMatch(a, b);
    ListsMatch(b, a);
  }

  /** The three range loops of the construction: centre to hexagon, centre to cube, the hexagon ring. */
  method LinkCenterAndRing() returns (adj: seq<seq<bool>>)
    ensures IsMatrix(adj)
    ensures forall a, b | 0 <= a < NUM_NODES && 0 <= b < NUM_NODES ::
              adj[a][b] == (CenterEdge(a, b) || CenterEdge(b, a) || RingEdge(a, b) || RingEdge(b, a))
  {
    adj := EmptyAdjacency();
    for i := 1 to 7
      invariant IsMatrix(adj)
      invariant forall a, b | 0 <= a < NUM_NODES && 0 <= b < NUM_NODES ::
                  adj[a][b] == ((a == 0 && 1 <= b < i) || (b == 0 && 1 <= a < i))
    {
      adj := Link(adj, 0, i);
    }
    for i := 7 to 13
      invariant IsMatrix(adj)
      invariant forall a, b | 0 <= a < NUM_NODES && 0 <= b < NUM_NODES ::
                  adj[a][b] == ((a == 0 && 1 <= b < i) || (b == 0 && 1 <= a < i))
    {
      adj := Link(adj, 0, i);
    }
    for i := 1 to 7
      invariant IsMatrix(adj)
      invariant forall a, b | 0 <= a < NUM_NODES && 0 <= b < NUM_NODES ::
                  adj[a][b] == (CenterEdge(a, b) || CenterEdge(b, a)
                                || (1 <= a < i && b == RingNext(a)) || (1 <= b < i && a == RingNext(b)))
    {
      adj := Link(adj, i, RingNext(i));
    }
  }

  /** The three list loops of the construction, one after the other. */
  method LinkLists(m: seq<seq<bool>>) returns (r: seq<seq<bool>>)
    requires IsMatrix(m)
    ensures IsMatrix(r)
    ensures forall a: nat, b: nat | a < NUM_NODES && b < NUM_NODES ::
              r[a][b] == (m[a][b] || (a, b) in HEX_CUBE_CONNECTIONS || (b, a) in HEX_CUBE_CONNECTIONS
                          || (a, b) in CUBE_EDGES || (b, a) in CUBE_EDGES
                          || (a, b) in SPACE_DIAGONALS || (b, a) in SPACE_DIAGONALS)
  {
    var withHexCube := LinkAll(m, HEX_CUBE_CONNECTIONS);
    var withCube := LinkAll(withHexCube, CUBE_EDGES);
    r := LinkAll(withCube, SPACE_DIAGONALS);
  }

  /**
   * The adjacency of `MetatronGraph::new`: the range loops, then the
   * hexagon-cube list, the cube edges and the space diagonals, each pair
   * set in both directions.
   */
  method BuildAdjacency() returns (adj: seq<seq<bool>>)
    ensures IsMetatron(adj)
  {
    var ranges := LinkCenterAndRing();
    adj := LinkLists(ranges);
    forall a: nat, b: nat | a < NUM_NODES && b < NUM_NODES
      ensures adj[a][b] == Adjacent(a, b)
    {
      GroupsMakeAdjacent(a, b, ranges[a][b], adj[a][b]);
    }
  }

  /** The double loop of `count_edges`: the true entries above the diagonal. */
  method CountUpperPairs(adj: seq<seq<bool>>) returns (count: nat)
    requires IsMatrix(adj)
    ensures count == UpperFrom(adj, 0)
  {
    count := 0;
    for i := 0 to NUM_NODES
      invariant count + UpperFrom(adj, i) == UpperFrom(adj, 0)
    {
      for j := i + 1 to NUM_NODES
        invariant count + CountTrue(adj[i][j..]) + UpperFrom(adj, i + 1) == UpperFrom(adj, 0)
      {
        CountTrueStep(adj[i], j);
        if adj[i][j] {
          count := count + 1;
        }
      }
    }
  }

  /** `x as usize` for a non-negative count: negative values saturate to 0, fractions are cut off. */
  function AsUsize(x: real): (n: nat)
    ensures x >= 0.0 ==> n == x.Floor
    ensures x < 0.0 ==> n == 0
  {
    if x < 0.0 then 0 else x.Floor
  }

  class MetatronGraph {
    const adjacency: seq<seq<bool>>
    const degreeMatrix: seq<seq<real>>
    const laplacian: seq<seq<real>>

    /** The adjacency is the Metatron relation, and D and L are derived from it. */
    predicate Valid()
    {
      IsMetatron(adjacency) && degreeMatrix == DegreeMatrix(adjacency) && laplacian == Laplacian(adjacency)
    }

    /** `new`: the Metatron relation, with D and L derived from it. */
    constructor ()
      ensures Valid()
    {
      var adj := BuildAdjacency();
      adjacency := adj;
      degreeMatrix := DegreeMatrix(adj);
      laplacian := Laplacian(adj);
    }

    /** `has_edge`: the adjacency entry, which is the Metatron relation. */
    function HasEdge(from: nat, to: nat): (r: bool)
      requires Valid() && from < NUM_NODES && to < NUM_NODES
      ensures r == Adjacent(from, to)
      ensures r == adjacency[to][from]
      ensures from == to ==> !r
    {
      adjacency[from][to]
    }

    /** `degree`: `degree_matrix[(node, node)] as usize`, the number of true entries of the row. */
    function Degree(node: nat): (d: nat)
      requires Valid() && node < NUM_NODES
      ensures d == CountTrue(adjacency[node])
      ensures d == if node == 0 then 12 else if node <= 6 then 5 else 8
    {
      DegreeOfEachNode(adjacency, node);
      AsUsize(degreeMatrix[node][node])
    }

    /** `neighbors`: the adjacent nodes in ascending order, as many as the degree. */
    function Neighbors(node: nat): (r: seq<nat>)
      requires Valid() && node < NUM_NODES
      ensures |r| == Degree(node)
      ensures forall j :: 0 <= j < NUM_NODES ==> (j in r <==> adjacency[node][j])
      ensures forall k :: 0 <= k < |r| ==> r[k] < NUM_NODES
      ensures forall k, l :: 0 <= k < l < |r| ==> r[k] < r[l]
    {
      assert adjacency[node][0..] == adjacency[node];
      NeighborsFromComplete(adjacency[node], 0);
      NeighborsFrom(adjacency[node], 0)
    }

    /** `count_edges`: the adjacent pairs i < j, counted by a double loop; 45 of them. */
    method CountEdges() returns (count: nat)
      requires Valid()
      ensures count == UpperFrom(adjacency, 0)
      ensures count == NUM_EDGES
    {
      count := CountUpperPairs(adjacency);
      UpperCount(adjacency);
    }

    /** `node_type`: 0 is the centre, 1..6 the hexagon, 7..12 the cube; larger nodes panic. */
    function NodeKind(node: nat): (t: NodeType)
      requires node < NUM_NODES
      ensures t == Center <==> node == 0
      ensures t == Hexagon <==> 1 <= node <= 6
      ensures t == Cube <==> 7 <= node
    {
      if node == 0 then Center else if node <= 6 then Hexagon else Cube
    }

    /** The adjacency is symmetric and has no self-loops. */
    lemma Symmetric()
      requires Valid()
      ensures forall a, b | 0 <= a < NUM_NODES && 0 <= b < NUM_NODES :: adjacency[a][b] == adjacency[b][a]
      ensures forall a | 0 <= a < NUM_NODES :: !adjacency[a][a]
    {
      forall a | 0 <= a < NUM_NODES
        ensures !adjacency[a][a]
      {
        if adjacency[a][a] {
          ListedIsIrreflexive(a, a);
        }
      }
    }

    /** The centre is adjacent to every other node: degree 12, neighbours 1..12, so the graph is connected. */
    lemma CenterReachesAll()
      requires Valid()
      ensures Degree(0) == 12
      ensures forall j :: 1 <= j < NUM_NODES ==> adjacency[0][j] && j in Neighbors(0)
      ensures 0 !in Neighbors(0)
    {
      Symmetric();
    }

    /** The hexagon ring 1-2-3-4-5-6-1 is closed. */
    lemma HexagonRingClosed()
      requires Valid()
      ensures forall i :: 1 <= i <= 6 ==> HasEdge(i, RingNext(i))
    {
    }

    /** Each row of the degree matrix holds its node's degree on the diagonal, and every Laplacian row sums to 0. */
    lemma DegreeAndLaplacianRows(i: nat)
      requires Valid() && i < NUM_NODES
      ensures degreeMatrix[i][i] == Degree(i) as real
      ensures Sum(laplacian[i]) == 0.0
    {
      Symmetric();
      LaplacianRowSumsToZero(adjacency, i);
    }

    /** The node types are told apart by the degrees: 12 at the centre, 5 on the hexagon, 8 on the cube. */
    lemma NodeKindByDegree(node: nat)
      requires Valid() && node < NUM_NODES
      ensures NodeKind(node) == Center <==> Degree(node) == 12
      ensures NodeKind(node) == Hexagon <==> Degree(node) == 5
      ensures NodeKind(node) == Cube <==> Degree(node) == 8
    {
    }

    /**
     * The edge total as written: the pair (11, 7) of the cube list and
     * (7, 11) of the diagonal list are one edge, so the six groups list 46
     * pairs while `count_edges` finds 45 and the creation test's equality
     * with the documented constant fails.
     */
    lemma DocumentedEdgeCountDisagrees()
      requires Valid()
      ensures 6 + 6 + 6 + |HEX_CUBE_CONNECTIONS| + |CUBE_EDGES| + |SPACE_DIAGONALS| == DOCUMENTED_NUM_EDGES
      ensures (11, 7) in CUBE_EDGES && (7, 11) in SPACE_DIAGONALS
      ensures UpperFrom(adjacency, 0) != DOCUMENTED_NUM_EDGES
    {
      UpperCount(adjacency);
    }
  }
}
