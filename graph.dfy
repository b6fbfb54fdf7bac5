/**
 * The part of a JGraphT `SimpleWeightedGraph<Spot, DefaultWeightedEdge>` that
 * the segment tracker uses: its spots, and its undirected weighted edges with
 * `addEdge` and `setEdgeWeight`.
 */
module Graphs {
  import opened Values

  /** A spot, known by its identity. */
  type Spot = nat

  /** An edge, named by the source and target it was added with; the graph is undirected. */
  datatype Edge = Edge(source: Spot, target: Spot)

  /** The weight JGraphT gives a new edge (`WeightedGraph.DEFAULT_EDGE_WEIGHT`). */
  const DEFAULT_EDGE_WEIGHT: Double := Double("1.0")

  class WeightedGraph {
    var vertices: set<Spot>
    /** Every edge of the graph with its weight. */
    var weights: map<Edge, Double>

    /** A simple graph: edges join two distinct spots of the graph, and at most one edge joins two spots. */
    ghost predicate Valid()
      reads this
    {
      && (forall e :: e in weights ==> e.source in vertices && e.target in vertices && e.source != e.target)
      && (forall e, f :: e in weights && f in weights ==> !(f.source == e.target && f.target == e.source))
    }

    /** `containsEdge(s, t)`, in either direction. */
    predicate ContainsEdge(s: Spot, t: Spot)
      reads this
    {
      Edge(s, t) in weights || Edge(t, s) in weights
    }

    constructor (vertices: set<Spot>)
      ensures Valid() && this.vertices == vertices && weights == map[]
    {
      this.vertices := vertices;
      weights := map[];
    }

    /**
     * `addEdge(s, t)`: a new edge with the default weight, or `null` when the
     * two spots are already joined. JGraphT throws for a loop or a spot not in
     * the graph, which callers here never pass.
     */
    method AddEdge(s: Spot, t: Spot) returns (e: Option<Edge>)
      requires Valid()
      requires s in vertices && t in vertices && s != t
      modifies this
      ensures Valid() && vertices == old(vertices)
      ensures old(ContainsEdge(s, t)) ==> e == None && weights == old(weights)
      ensures !old(ContainsEdge(s, t)) ==>
                e == Some(Edge(s, t)) && weights == old(weights)[Edge(s, t) := DEFAULT_EDGE_WEIGHT]
    {
      if ContainsEdge(s, t) {
        return None;
      }
      weights := weights[Edge(s, t) := DEFAULT_EDGE_WEIGHT];
      return Some(Edge(s, t));
    }

    /** `setEdgeWeight(e, w)` for an edge of the graph. */
    method SetEdgeWeight(e: Edge, w: Double)
      requires Valid()
      requires e in weights
      modifies this
      ensures Valid() && vertices == old(vertices)
      ensures weights == old(weights)[e := w]
    {
      weights := weights[e := w];
    }
  }
}
