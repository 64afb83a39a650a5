/**
 * The host document as the two mixins see it: nodes that carry their own
 * attributes, classes and style; frozen node lists whose identity matters;
 * slots whose assigned nodes the host changes; and the value shapes that
 * the item-calculation and item-update chains pass around.
 *
 * content.js and updates.js are not part of this model: which nodes are
 * substantive, and the update helpers `current`/`apply`, enter as function
 * values.
 */
module Dom {

  datatype Option<+T> = None | Some(value: T)

  /** A field value in an item's calculations record. */
  datatype Value = Number(n: int) | Flag(b: bool) | Text(s: string)

  /** An extensible record of facts about an item (a plain object in the source). */
  type Calcs = map<string, Value>

  /** The attributes, classes and inline style of an element. */
  datatype Props = Props(attributes: map<string, string>, classes: set<string>, style: map<string, string>)

  /**
   * A description of desired changes to an element: an attribute or style
   * property mapped to None, or a class mapped to false, is removed.
   */
  datatype Updates = Updates(
    attributes: map<string, Option<string>>,
    classes: map<string, bool>,
    style: map<string, Option<string>>)

  /** The empty update description `{}`. */
  const NoUpdates: Updates := Updates(map[], map[], map[])

  /**
   * A DOM node. `original` is the per-item snapshot the item projection
   * pass stores on the node itself (absent until first captured).
   */
  class Node {
    var props: Props
    var original: Option<Props>

    constructor (props: Props)
      ensures this.props == props && original == None
    {
      this.props := props;
      original := None;
    }
  }

  /** A frozen array of nodes: its contents never change, its identity is its reference. */
  class NodeList {
    const nodes: seq<Node>

    constructor (nodes: seq<Node>)
      ensures this.nodes == nodes
    {
      this.nodes := nodes;
    }
  }

  /** A content-projection slot; `assignedNodes` is what the host currently projects into it (flattened). */
  class Slot {
    var assignedNodes: seq<Node>

    constructor (assignedNodes: seq<Node>)
      ensures this.assignedNodes == assignedNodes
    {
      this.assignedNodes := assignedNodes;
    }
  }

  /** A component's shadow tree, reduced to its default (unnamed) slot, if any. */
  class ShadowRoot {
    var defaultSlot: Slot?

    constructor (defaultSlot: Slot?)
      ensures this.defaultSlot == defaultSlot
    {
      this.defaultSlot := defaultSlot;
    }
  }

  /** The two update helpers: read an element's present state, and patch it. */
  datatype Updater = Updater(current: Props -> Props, apply: (Props, Updates) -> Props)
}
