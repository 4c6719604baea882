/**
 * The audio routing that `connectAudioGraph` sets up, with the Web Audio nodes
 * replaced by symbolic ids and the `connect` calls by the list of edges they add.
 */
module AudioGraph {

  datatype Node = Source | Filter(band: nat) | Master | Destination

  /** `from.connect(to)`. */
  datatype Edge = Edge(from: Node, to: Node)

  /** The nodes an equalized signal passes through: source, each filter in band order, master gain, output. */
  function Route(filterCount: nat): (route: seq<Node>)
    ensures |route| == filterCount + 3
  {
    [Source] + seq(filterCount, i requires 0 <= i => Filter(i)) + [Master, Destination]
  }

  /** The route in bypass mode: straight from the source to the output. */
  const BYPASS_ROUTE: seq<Node> := [Source, Destination]

  /** The edges joining each node of a route to the next one. */
  function PathEdges(route: seq<Node>): (edges: seq<Edge>)
    ensures |edges| == if route == [] then 0 else |route| - 1
    ensures forall j :: 0 <= j < |edges| ==> edges[j] == Edge(route[j], route[j + 1])
  {
    if |route| < 2 then [] else seq(|route| - 1, j requires 0 <= j < |route| - 1 => Edge(route[j], route[j + 1]))
  }

  lemma PathEdgesExtend(route: seq<Node>, next: Node)
    requires route != []
    ensures PathEdges(route + [next]) == PathEdges(route) + [Edge(route[|route| - 1], next)]
  {
    var longer := route + [next];
    forall j | 0 <= j < |route| - 1
      ensures PathEdges(longer)[j] == PathEdges(route)[j]
    {
      assert longer[j] == route[j] && longer[j + 1] == route[j + 1];
    }
  }

  /** No node occurs twice on a route. */
  lemma RouteIsSimple(filterCount: nat)
    ensures var route := Route(filterCount);
      forall j, k :: 0 <= j < k < |route| ==> route[j] != route[k]
  {
    var route := Route(filterCount);
    forall j, k | 0 <= j < k < |route| ensures route[j] != route[k] {
      if 1 <= j && k <= filterCount {
        assert route[j] == Filter(j - 1) && route[k] == Filter(k - 1);
      }
    }
  }

  /**
   * The equalized graph is a single chain: source into filter 0, each filter into
   * the next band's filter, the last filter into the master gain, the master gain
   * into the output.  No node feeds two nodes, and the source is not wired to the
   * output directly.
   */
  lemma ActiveGraphShape(filterCount: nat)
    ensures var edges := PathEdges(Route(filterCount));
      && |edges| == filterCount + 2
      && edges[0].from == Source
      && edges[filterCount + 1] == Edge(Master, Destination)
      && edges[filterCount].to == Master
      && (forall i :: 0 <= i < filterCount ==> edges[i].to == Filter(i) && edges[i + 1].from == Filter(i))
      && (forall j :: 0 <= j < |edges| - 1 ==> edges[j].to == edges[j + 1].from)
      && (forall j, k :: 0 <= j < k < |edges| ==> edges[j].from != edges[k].from)
      && Edge(Source, Destination) !in edges
  {
    var route := Route(filterCount);
    var edges := PathEdges(route);
    RouteIsSimple(filterCount);
    forall j, k | 0 <= j < k < |edges| ensures edges[j].from != edges[k].from {
      assert edges[j].from == route[j] && edges[k].from == route[k];
    }
    forall j | 0 <= j < |edges| ensures edges[j] != Edge(Source, Destination) {
      assert edges[j] == Edge(route[j], route[j + 1]);
    }
  }

  /** In bypass mode the graph is the one edge source → output. */
  lemma BypassGraphShape()
    ensures PathEdges(BYPASS_ROUTE) == [Edge(Source, Destination)]
  {
  }
}
