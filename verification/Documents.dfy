/**
  Documents as graphs of nodes.

  Nodes are numbered from 1 in the order of the document's node stack; node 1 is the root. A
  node may be referred to from many places, and from inside itself.
 */
module Documents {
  import opened Options

  const SCALAR_TAG := "tag:yaml.org,2002:str"
  const SEQUENCE_TAG := "tag:yaml.org,2002:seq"
  const MAPPING_TAG := "tag:yaml.org,2002:map"

  datatype Node =
    | ScalarNode(tag: string, value: string, style: nat)
    | SequenceNode(tag: string, items: seq<nat>, style: nat)
    | MappingNode(tag: string, pairs: seq<(nat, nat)>, style: nat)

  type Document = seq<Node>

  /** Keys and values in the order in which they are visited. */
  function Flatten(pairs: seq<(nat, nat)>): (r: seq<nat>) {
    if pairs == [] then [] else [pairs[0].0, pairs[0].1] + Flatten(pairs[1..])
  }

  function Children(node: Node): seq<nat> {
    match node
    case ScalarNode(_, _, _) => []
    case SequenceNode(_, items, _) => items
    case MappingNode(_, pairs, _) => Flatten(pairs)
  }

  predicate IsIndex(doc: Document, i: nat) {
    1 <= i <= |doc|
  }

  predicate AllIndices(doc: Document, items: seq<nat>) {
    forall k :: 0 <= k < |items| ==> IsIndex(doc, items[k])
  }

  /** Every reference is to a node of the document. */
  predicate WellFormed(doc: Document) {
    forall k :: 0 <= k < |doc| ==> AllIndices(doc, Children(doc[k]))
  }

  ghost predicate EdgeAt(doc: Document, path: seq<nat>, k: nat)
    requires WellFormed(doc) && AllIndices(doc, path) && k + 1 < |path|
  {
    path[k + 1] in Children(doc[path[k] - 1])
  }

  /** A path from one node to another along references. */
  ghost predicate IsPath(doc: Document, path: seq<nat>, from: nat, to: nat)
    requires WellFormed(doc)
  {
    && path != [] && path[0] == from && path[|path| - 1] == to
    && AllIndices(doc, path)
    && forall k :: 0 <= k < |path| - 1 ==> EdgeAt(doc, path, k)
  }

  ghost predicate Reachable(doc: Document, to: nat)
    requires WellFormed(doc)
  {
    exists path :: IsPath(doc, path, 1, to)
  }
}
