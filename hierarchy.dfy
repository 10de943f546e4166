/**
 * The category and family trees. Each node names its parent and stores its
 * ancestor chain, root first; the save hook recomputes the chain from the
 * stored parent whenever the parent reference was changed.
 */
module Hierarchy {
  import opened Common
  import opened Values

  /**
   * A category or family document. `owner` is the family's `category`; for
   * a category it is the `itemType` reference the item checks read, which the
   * category schema does not declare.
   */
  datatype Node = Node(
    name: string,
    code: string,
    parent: Option<Id>,
    ancestors: seq<Id>,
    attributeGroups: seq<Id>,
    attributes: map<string, Value>,
    owner: Option<Id>)

  const CategoryParentMissing := "Parent category not found"
  const FamilyParentMissing := "Parent family not found"

  /**
   * The document the save hook lets through, or its error: an unchanged parent
   * keeps the ancestors as they are, no parent clears them, and a parent found
   * in `nodes` gives its own ancestors followed by itself.
   */
  function WithAncestors(nodes: map<Id, Node>, doc: Node, parentModified: bool, missingParent: string): Result<Node, string> {
    if !parentModified then Ok(doc)
    else if doc.parent.None? then Ok(doc.(ancestors := []))
    else if doc.parent.value !in nodes then Err(missingParent)
    else
      var p := doc.parent.value;
      Ok(doc.(ancestors := nodes[p].ancestors + [p]))
  }

  /** Every node's ancestors are its parent's ancestors followed by the parent, or empty at a root. */
  ghost predicate Consistent(nodes: map<Id, Node>) {
    forall id :: id in nodes ==> ChainedToParent(nodes, nodes[id])
  }

  /** The ancestors of `n` are derived from its parent as stored in `nodes`. */
  ghost predicate ChainedToParent(nodes: map<Id, Node>, n: Node) {
    match n.parent
    case None => n.ancestors == []
    case Some(p) => p in nodes && n.ancestors == nodes[p].ancestors + [p]
  }

  /** One collection of tree nodes: the categories or the families. */
  class Tree {
    var nodes: map<Id, Node>
    const missingParent: string

    /** An empty collection whose save hook fails with `missingParent`. */
    constructor (missingParent: string)
      ensures this.nodes == map[] && this.missingParent == missingParent
    {
      this.nodes := map[];
      this.missingParent := missingParent;
    }

    /**
     * `save()` of `doc` under `id`, with the `pre('save')` hook: when the parent
     * reference was changed, the ancestors are recomputed from the stored
     * parent; a parent that is not stored fails the save and nothing is written.
     */
    method Save(id: Id, doc: Node, parentModified: bool) returns (r: Result<Node, string>)
      modifies this
      ensures r == WithAncestors(old(nodes), doc, parentModified, missingParent)
      ensures nodes == if r.Ok? then old(nodes)[id := r.value] else old(nodes)
    {
      if !parentModified {
        r := Ok(doc);
      } else if doc.parent.None? {
        r := Ok(doc.(ancestors := []));
      } else {
        var p := doc.parent.value;
        if p !in nodes {
          return Err(missingParent);
        }
        var parent := nodes[p];
        r := Ok(doc.(ancestors := parent.ancestors + [p]));
      }
      nodes := nodes[id := r.value];
    }
  }

  // ---------------------------------------------------------------------------
  // Properties of the ancestor chains

  /**
   * An unmodified parent leaves the document as it is. Otherwise the hook
   * either fails for a missing parent, or yields the document with
   * only its ancestors replaced: by nothing at a root, and otherwise by a chain
   * one longer than the parent's that ends in the parent.
   */
  lemma WithAncestorsMeaning(nodes: map<Id, Node>, doc: Node, parentModified: bool, missingParent: string)
    ensures var r := WithAncestors(nodes, doc, parentModified, missingParent);
      && (!parentModified ==> r == Ok(doc))
      && (r.Err? <==> parentModified && doc.parent.Some? && doc.parent.value !in nodes)
      && (r.Err? ==> r.error == missingParent)
      && (r.Ok? ==> r.value.(ancestors := doc.ancestors) == doc)
      && (r.Ok? && parentModified ==> ChainedToParent(nodes, r.value))
      && (r.Ok? && parentModified && doc.parent.Some? ==>
            |r.value.ancestors| == |nodes[doc.parent.value].ancestors| + 1 && r.value.ancestors[|r.value.ancestors| - 1] == doc.parent.value)
  {
  }

  /**
   * Saving a node with a recomputed chain keeps the trees consistent, provided
   * the node is not its own parent and no stored node names it as parent.
   */
  lemma SavePreservesConsistency(nodes: map<Id, Node>, id: Id, doc: Node, missingParent: string)
    requires Consistent(nodes)
    requires doc.parent != Some(id)
    requires forall other :: other in nodes && other != id ==> nodes[other].parent != Some(id)
    requires WithAncestors(nodes, doc, true, missingParent).Ok?
    ensures Consistent(nodes[id := WithAncestors(nodes, doc, true, missingParent).value])
  {
    var n := WithAncestors(nodes, doc, true, missingParent).value;
    var nodes' := nodes[id := n];
    forall k | k in nodes'
      ensures ChainedToParent(nodes', nodes'[k])
    {
      if k != id {
        assert ChainedToParent(nodes, nodes[k]);
      }
    }
  }

  /**
   * In consistent trees every ancestor is stored, and the chain of the
   * ancestor at position `i` is the first `i` entries of the chain: chains run
   * root first, and they hold no cycle.
   */
  lemma {:induction false} AncestorsArePrefixes(nodes: map<Id, Node>, id: Id)
    requires Consistent(nodes) && id in nodes
    ensures forall i :: 0 <= i < |nodes[id].ancestors| ==>
      nodes[id].ancestors[i] in nodes && nodes[nodes[id].ancestors[i]].ancestors == nodes[id].ancestors[..i]
    decreases |nodes[id].ancestors|
  {
    assert ChainedToParent(nodes, nodes[id]);
    if nodes[id].parent.Some? {
      var p := nodes[id].parent.value;
      var chain := nodes[id].ancestors;
      AncestorsArePrefixes(nodes, p);
      forall i | 0 <= i < |chain|
        ensures chain[i] in nodes && nodes[chain[i]].ancestors == chain[..i]
      {
        if i < |chain| - 1 {
          assert chain[..i] == nodes[p].ancestors[..i];
        } else {
          assert chain[..i] == nodes[p].ancestors;
        }
      }
    }
  }

  /** In consistent trees no node is among its own ancestors, and the first ancestor is a root. */
  lemma NoNodeIsItsOwnAncestor(nodes: map<Id, Node>, id: Id)
    requires Consistent(nodes) && id in nodes
    ensures id !in nodes[id].ancestors
    ensures |nodes[id].ancestors| > 0 ==> nodes[id].ancestors[0] in nodes && nodes[nodes[id].ancestors[0]].parent.None?
  {
    var chain := nodes[id].ancestors;
    AncestorsArePrefixes(nodes, id);
    if |chain| > 0 {
      var root := chain[0];
      assert nodes[root].ancestors == [];
      assert ChainedToParent(nodes, nodes[root]);
    }
  }

  /** A root, its child and its grandchild saved in turn: the grandchild's chain is the root then the child. */
  lemma ChainExample(a: Node, b: Node, c: Node, msg: string)
    requires a.parent == None && b.parent == Some("A") && c.parent == Some("B")
    ensures var ra := WithAncestors(map[], a, true, msg).value;
      var rb := WithAncestors(map["A" := ra], b, true, msg).value;
      var rc := WithAncestors(map["A" := ra, "B" := rb], c, true, msg);
      rc.Ok? && rc.value.ancestors == ["A", "B"]
  {
    var ra := WithAncestors(map[], a, true, msg).value;
    assert ra.ancestors == [];
    var rb := WithAncestors(map["A" := ra], b, true, msg).value;
    assert rb.ancestors == ["A"];
    assert map["A" := ra, "B" := rb]["B"] == rb;
  }

  /**
   * Re-parenting a node rewrites its own chain only: its stored children keep
   * the chain they had, and the trees are no longer consistent. Here `b` moves
   * from root `a` to root `d` while `c` is its child.
   */
  lemma ReparentLeavesDescendantsStale(a: Node, b: Node, c: Node, d: Node, msg: string)
    requires a.parent == None && a.ancestors == []
    requires d.parent == None && d.ancestors == []
    requires b.parent == Some("A") && b.ancestors == ["A"]
    requires c.parent == Some("B") && c.ancestors == ["A", "B"]
    ensures var nodes := map["A" := a, "B" := b, "C" := c, "D" := d];
      var moved := WithAncestors(nodes, b.(parent := Some("D")), true, msg).value;
      && Consistent(nodes)
      && moved.ancestors == ["D"]
      && !Consistent(nodes["B" := moved])
  {
    assert "A"[0] != "B"[0] && "A"[0] != "C"[0] && "A"[0] != "D"[0];
    assert "B"[0] != "C"[0] && "B"[0] != "D"[0] && "C"[0] != "D"[0];
    var nodes := map["A" := a, "B" := b, "C" := c, "D" := d];
    assert nodes["A"] == a && nodes["B"] == b && nodes["C"] == c && nodes["D"] == d;
    forall k | k in nodes
      ensures ChainedToParent(nodes, nodes[k])
    {
      assert k == "A" || k == "B" || k == "C" || k == "D";
    }
    var moved := WithAncestors(nodes, b.(parent := Some("D")), true, msg).value;
    var nodes' := nodes["B" := moved];
    assert moved.ancestors == ["D"];
    assert nodes'["C"] == c;
    assert c.ancestors != nodes'["B"].ancestors + ["B"] by {
      assert c.ancestors[0] == "A" && (nodes'["B"].ancestors + ["B"])[0] == "D";
    }
    assert !ChainedToParent(nodes', nodes'["C"]);
  }
}
