/**
 * The item endpoints: an item's (item type, category, family) triple is
 * checked for existence and containment, the attribute groups the triple
 * brings in are collected from the item type, the category and its ancestors,
 * and the family and its ancestors, and the item's attribute values are
 * normalized against the definitions of those groups.
 */
module ItemController {
  import opened Common
  import opened Seqs
  import opened Values
  import opened AttributeModel
  import opened ValueValidation
  import opened EntityAttributes
  import opened Hierarchy

  /** An item type: its root category and the attribute groups it attaches. */
  datatype ItemType = ItemType(name: string, code: string, category: Id, attributeGroups: seq<Id>)

  /** The collections the endpoints read. */
  datatype Store = Store(
    itemTypes: map<Id, ItemType>,
    categories: map<Id, Node>,
    families: map<Id, Node>,
    groups: map<Id, AttributeGroup>,
    attributes: map<Id, AttributeDef>)

  /** A stored item. */
  datatype Item = Item(name: string, code: string, itemType: Id, category: Id, family: Option<Id>, attributes: ValueMap)

  /** Why an item request is refused. */
  datatype ItemError =
    | ItemTypeRequired
    | CategoryRequired
    | ItemTypeNotFound
    | CategoryNotFound
    | CategoryNotAllowed
    | FamilyNotFound
    | FamilyCategoryMismatch
    | ItemNotFound
    | Invalid(reason: NormError)

  // ---------------------------------------------------------------------------
  // Resolving the attribute groups of a triple

  /**
   * The existence and containment checks, in order: the item type and the
   * category exist, the category names the item type, and a family, when
   * given, exists and names the category.
   */
  function Gate(store: Store, itemTypeId: Id, categoryId: Id, familyId: Option<Id>): Option<ItemError> {
    if itemTypeId !in store.itemTypes then Some(ItemTypeNotFound)
    else if categoryId !in store.categories then Some(CategoryNotFound)
    else if store.categories[categoryId].owner != Some(itemTypeId) then Some(CategoryNotAllowed)
    else if familyId.Some? && familyId.value !in store.families then Some(FamilyNotFound)
    else if familyId.Some? && store.families[familyId.value].owner != Some(categoryId) then Some(FamilyCategoryMismatch)
    else None
  }

  /** The triple passes the checks: the item type, category and family are stored and contain each other. */
  predicate Contained(store: Store, itemTypeId: Id, categoryId: Id, familyId: Option<Id>) {
    && itemTypeId in store.itemTypes
    && categoryId in store.categories
    && store.categories[categoryId].owner == Some(itemTypeId)
    && (familyId.Some? ==> familyId.value in store.families && store.families[familyId.value].owner == Some(categoryId))
  }

  /**
   * The checks run in order: a missing item type is reported before anything
   * else, then a missing category, and a family is looked at only once the
   * category is known to belong to the item type.
   */
  lemma GateOrder(store: Store, itemTypeId: Id, categoryId: Id, familyId: Option<Id>)
    ensures itemTypeId !in store.itemTypes ==>
      LoadGroupsFor(store, itemTypeId, categoryId, familyId) == Err(ItemTypeNotFound)
    ensures itemTypeId in store.itemTypes && categoryId !in store.categories ==>
      LoadGroupsFor(store, itemTypeId, categoryId, familyId) == Err(CategoryNotFound)
    ensures itemTypeId in store.itemTypes && categoryId in store.categories && store.categories[categoryId].owner != Some(itemTypeId) ==>
      LoadGroupsFor(store, itemTypeId, categoryId, familyId) == Err(CategoryNotAllowed)
    ensures Contained(store, itemTypeId, categoryId, None) && familyId.Some? && familyId.value !in store.families ==>
      LoadGroupsFor(store, itemTypeId, categoryId, familyId) == Err(FamilyNotFound)
    ensures (Contained(store, itemTypeId, categoryId, None) && familyId.Some? && familyId.value in store.families
             && store.families[familyId.value].owner != Some(categoryId)) ==>
      LoadGroupsFor(store, itemTypeId, categoryId, familyId) == Err(FamilyCategoryMismatch)
  {
  }

  /** The checks pass exactly for contained triples. */
  lemma GateMeaning(store: Store, itemTypeId: Id, categoryId: Id, familyId: Option<Id>)
    ensures Gate(store, itemTypeId, categoryId, familyId).None? <==> Contained(store, itemTypeId, categoryId, familyId)
  {
  }

  /** The nodes of `id`'s chain (itself, then its ancestors) that are stored, each once. */
  function Chain(nodes: map<Id, Node>, id: Id): seq<Id>
    requires id in nodes
  {
    Found(nodes, [id] + nodes[id].ancestors)
  }

  /** `docs.flatMap(d => d.attributeGroups)` over the stored nodes `docs`, in order. */
  function GroupsOf(nodes: map<Id, Node>, docs: seq<Id>): (r: seq<Id>)
    requires forall d :: d in docs ==> d in nodes
    ensures forall g :: g in r <==> exists d :: d in docs && g in nodes[d].attributeGroups
  {
    if docs == [] then []
    else
      var init, d := docs[..|docs| - 1], docs[|docs| - 1];
      assert docs == init + [d];
      GroupsOf(nodes, init) + nodes[d].attributeGroups
  }

  /** The groups attached to the nodes of `id`'s chain, node by node. */
  function ChainGroups(nodes: map<Id, Node>, id: Id): seq<Id>
    requires id in nodes
  {
    GroupsOf(nodes, Chain(nodes, id))
  }

  /** A group comes from a chain exactly when it is attached to the node or to one of its stored ancestors. */
  lemma ChainGroupsMembers(nodes: map<Id, Node>, id: Id, g: Id)
    requires id in nodes
    ensures g in ChainGroups(nodes, id) <==>
      g in nodes[id].attributeGroups || exists a :: a in nodes[id].ancestors && a in nodes && g in nodes[a].attributeGroups
  {
    var chain := Chain(nodes, id);
    if g in ChainGroups(nodes, id) {
      var d :| d in chain && g in nodes[d].attributeGroups;
      if d != id {
        assert d in nodes[id].ancestors;
      }
    }
    assert id in chain;
  }

  /** The concatenation the group ids are deduplicated from: item type, category chain, family chain. */
  function GroupSources(store: Store, itemTypeId: Id, categoryId: Id, familyId: Option<Id>): seq<Id>
    requires Contained(store, itemTypeId, categoryId, familyId)
  {
    store.itemTypes[itemTypeId].attributeGroups
      + (ChainGroups(store.categories, categoryId)
         + (if familyId.Some? then ChainGroups(store.families, familyId.value) else []))
  }

  /**
   * `loadGroupsFor`: the checks, then the distinct group ids of the item type,
   * the category chain and the family chain, in order of first occurrence.
   */
  function LoadGroupsFor(store: Store, itemTypeId: Id, categoryId: Id, familyId: Option<Id>): Result<seq<Id>, ItemError> {
    match Gate(store, itemTypeId, categoryId, familyId)
    case Some(e) => Err(e)
    case None => Ok(Distinct(GroupSources(store, itemTypeId, categoryId, familyId)))
  }

  /**
   * The resolved group ids are, as a set, the item type's groups, the groups
   * of the category and its ancestors, and those of the family and its
   * ancestors when a family is given; each occurs once.
   */
  lemma LoadGroupsForMembers(store: Store, itemTypeId: Id, categoryId: Id, familyId: Option<Id>, g: Id)
    requires Contained(store, itemTypeId, categoryId, familyId)
    ensures NoDup(LoadGroupsFor(store, itemTypeId, categoryId, familyId).value)
    ensures g in LoadGroupsFor(store, itemTypeId, categoryId, familyId).value <==>
      || g in store.itemTypes[itemTypeId].attributeGroups
      || g in ChainGroups(store.categories, categoryId)
      || (familyId.Some? && g in ChainGroups(store.families, familyId.value))
  {
    var s := GroupSources(store, itemTypeId, categoryId, familyId);
    assert g in s <==>
      || g in store.itemTypes[itemTypeId].attributeGroups
      || g in ChainGroups(store.categories, categoryId)
      || (familyId.Some? && g in ChainGroups(store.families, familyId.value));
  }

  /** Without a family, the family contributes no groups. */
  lemma NoFamilyNoFamilyGroups(store: Store, itemTypeId: Id, categoryId: Id)
    requires Contained(store, itemTypeId, categoryId, None)
    ensures LoadGroupsFor(store, itemTypeId, categoryId, None).value ==
      Distinct(store.itemTypes[itemTypeId].attributeGroups + ChainGroups(store.categories, categoryId))
  {
    var it := store.itemTypes[itemTypeId].attributeGroups;
    var cats := ChainGroups(store.categories, categoryId);
    assert GroupSources(store, itemTypeId, categoryId, None) == it + (cats + []);
    assert cats + [] == cats;
  }

  /** The item type's own groups come before every group that only the category or family chains bring. */
  lemma ItemTypeGroupsFirst(store: Store, itemTypeId: Id, categoryId: Id, familyId: Option<Id>, i: nat, j: nat)
    requires Contained(store, itemTypeId, categoryId, familyId)
    requires var r := LoadGroupsFor(store, itemTypeId, categoryId, familyId).value;
      i < |r| && j < |r| && r[i] in store.itemTypes[itemTypeId].attributeGroups && r[j] !in store.itemTypes[itemTypeId].attributeGroups
    ensures i < j
  {
    var it := store.itemTypes[itemTypeId].attributeGroups;
    var rest := ChainGroups(store.categories, categoryId)
      + (if familyId.Some? then ChainGroups(store.families, familyId.value) else []);
    assert LoadGroupsFor(store, itemTypeId, categoryId, familyId).value == Distinct(it + rest);
    DistinctPrefixFirst(it, rest, i, j);
  }

  /**
   * The category schema declares no item type, so as deployed every category
   * lacks one, and every triple is refused as not allowed, or earlier as not
   * found.
   */
  lemma SchemaCategoriesRejectAll(store: Store, itemTypeId: Id, categoryId: Id, familyId: Option<Id>)
    requires forall c :: c in store.categories ==> store.categories[c].owner.None?
    ensures LoadGroupsFor(store, itemTypeId, categoryId, familyId).Err?
    ensures itemTypeId in store.itemTypes && categoryId in store.categories ==>
      LoadGroupsFor(store, itemTypeId, categoryId, familyId) == Err(CategoryNotAllowed)
  {
  }

  /** With the category's item type stored, every contained triple resolves. */
  lemma ContainedTripleResolves(store: Store, itemTypeId: Id, categoryId: Id, familyId: Option<Id>)
    requires Contained(store, itemTypeId, categoryId, familyId)
    ensures LoadGroupsFor(store, itemTypeId, categoryId, familyId).Ok?
  {
  }

  // ---------------------------------------------------------------------------
  // Creating and updating items

  /** The body of a create request; `None` stands for a field that is absent or empty. */
  datatype CreateRequest = CreateRequest(
    name: string,
    code: string,
    itemTypeId: Option<Id>,
    categoryId: Option<Id>,
    familyId: Option<Id>,
    attributes: Option<ValueMap>)

  /** The `familyId` of an update body: absent, null, or an id. */
  datatype FamilyArg = Unset | Cleared | SetTo(id: Id)

  /**
   * The body of an update request. `itemType`, `category` and `family` are
   * body fields named after the item's own fields, which the patch copies.
   */
  datatype UpdateRequest = UpdateRequest(
    name: Option<string>,
    code: Option<string>,
    itemTypeId: Option<Id>,
    categoryId: Option<Id>,
    familyId: FamilyArg,
    attributes: Option<ValueMap>,
    itemType: Option<Id>,
    category: Option<Id>,
    family: Option<Option<Id>>)

  /** The outcome of `createItem`: the id checks, the triple checks, then a normalization as a create. */
  ghost predicate Created(host: Host, store: Store, req: CreateRequest, r: Result<Item, ItemError>) {
    if req.itemTypeId.None? then r == Err(ItemTypeRequired)
    else if req.categoryId.None? then r == Err(CategoryRequired)
    else
      var itemTypeId, categoryId := req.itemTypeId.value, req.categoryId.value;
      match LoadGroupsFor(store, itemTypeId, categoryId, req.familyId)
      case Err(e) => r == Err(e)
      case Ok(groupIds) =>
        var am := DefinitionsFor(store.groups, store.attributes, groupIds);
        if r.Ok? then
          && r.value == Item(req.name, req.code, itemTypeId, categoryId, req.familyId, r.value.attributes)
          && Normalized(host, am, OrEmpty(req.attributes), map[], false, Ok(r.value.attributes))
        else r.error.Invalid? && Normalized(host, am, OrEmpty(req.attributes), map[], false, Err(r.error.reason))
  }

  /** The item type, category and family an update checks: the body's ids, else the stored ones. */
  function NextTriple(existing: Item, req: UpdateRequest): (Id, Id, Option<Id>) {
    (if req.itemTypeId.Some? then req.itemTypeId.value else existing.itemType,
     if req.categoryId.Some? then req.categoryId.value else existing.category,
     if req.familyId.SetTo? then Some(req.familyId.id) else existing.family)
  }

  /** The stored item after an update: the checked ids, a cleared family, and the new name, code and attributes. */
  function Patch(existing: Item, req: UpdateRequest, attributes: ValueMap): Item {
    var (itemTypeId, categoryId, _) := NextTriple(existing, req);
    Item(
      if req.name.Some? then req.name.value else existing.name,
      if req.code.Some? then req.code.value else existing.code,
      itemTypeId,
      categoryId,
      match req.familyId
      case SetTo(f) => Some(f)
      case Cleared => None
      case Unset => existing.family,
      attributes)
  }

  /**
   * The patch as the update endpoint builds it: a copy of the whole body, in
   * which an `itemType`, `category` or `family` field stays when the
   * corresponding id field is absent.
   */
  function PatchAsWritten(existing: Item, req: UpdateRequest, attributes: ValueMap): Item {
    Item(
      if req.name.Some? then req.name.value else existing.name,
      if req.code.Some? then req.code.value else existing.code,
      if req.itemTypeId.Some? then req.itemTypeId.value
      else if req.itemType.Some? then req.itemType.value else existing.itemType,
      if req.categoryId.Some? then req.categoryId.value
      else if req.category.Some? then req.category.value else existing.category,
      match req.familyId
      case SetTo(f) => Some(f)
      case Cleared => None
      case Unset => if req.family.Some? then req.family.value else existing.family,
      attributes)
  }

  /**
   * The outcome of `updateItem` on `items`: the item is looked up, the next
   * triple is checked, and only when the body carries attributes are they
   * normalized, as an update over the stored ones.
   */
  ghost predicate Updated(host: Host, store: Store, items: map<Id, Item>, id: Id, req: UpdateRequest, r: Result<Item, ItemError>) {
    if id !in items then r == Err(ItemNotFound)
    else
      var existing := items[id];
      var (itemTypeId, categoryId, familyId) := NextTriple(existing, req);
      match LoadGroupsFor(store, itemTypeId, categoryId, familyId)
      case Err(e) => r == Err(e)
      case Ok(groupIds) =>
        if req.attributes.None? then r == Ok(Patch(existing, req, existing.attributes))
        else
          var am := DefinitionsFor(store.groups, store.attributes, groupIds);
          if r.Ok? then
            && r.value == Patch(existing, req, r.value.attributes)
            && Normalized(host, am, req.attributes.value, existing.attributes, true, Ok(r.value.attributes))
          else r.error.Invalid? && Normalized(host, am, req.attributes.value, existing.attributes, true, Err(r.error.reason))
  }

  /** The stored items. */
  class ItemTable {
    var items: map<Id, Item>

    constructor ()
      ensures items == map[]
    {
      items := map[];
    }

    /**
     * `createItem`: refuses a missing item type or category id, then a triple
     * that is not contained, then attribute values the normalizer refuses;
     * otherwise stores the new item under the fresh id `newId`.
     */
    method CreateItem(host: Host, store: Store, newId: Id, req: CreateRequest) returns (r: Result<Item, ItemError>)
      requires newId !in items
      modifies this
      ensures Created(host, store, req, r)
      ensures items == if r.Ok? then old(items)[newId := r.value] else old(items)
    {
      if req.itemTypeId.None? {
        return Err(ItemTypeRequired);
      }
      if req.categoryId.None? {
        return Err(CategoryRequired);
      }
      var itemTypeId, categoryId := req.itemTypeId.value, req.categoryId.value;
      var gate := Gate(store, itemTypeId, categoryId, req.familyId);
      if gate.Some? {
        return Err(gate.value);
      }
      var groupIds := LoadGroupsFor(store, itemTypeId, categoryId, req.familyId).value;
      var normalized := ValidateEntityAttributes(host, store.groups, store.attributes, groupIds, req.attributes, None, false);
      if normalized.Err? {
        return Err(Invalid(normalized.error));
      }
      var item := Item(req.name, req.code, itemTypeId, categoryId, req.familyId, normalized.value);
      items := items[newId := item];
      r := Ok(item);
    }

    /**
     * `updateItem`: refuses an unknown id, then a next triple that is not
     * contained, then attribute values the normalizer refuses; otherwise
     * replaces the item by the patched one.
     */
    method UpdateItem(host: Host, store: Store, id: Id, req: UpdateRequest) returns (r: Result<Item, ItemError>)
      modifies this
      ensures Updated(host, store, old(items), id, req, r)
      ensures items == if r.Ok? then old(items)[id := r.value] else old(items)
    {
      if id !in items {
        return Err(ItemNotFound);
      }
      var existing := items[id];
      var (itemTypeId, categoryId, familyId) := NextTriple(existing, req);
      var gate := Gate(store, itemTypeId, categoryId, familyId);
      if gate.Some? {
        return Err(gate.value);
      }
      var normalizedAttributes := existing.attributes;
      if req.attributes.Some? {
        var groupIds := LoadGroupsFor(store, itemTypeId, categoryId, familyId).value;
        var normalized := ValidateEntityAttributes(host, store.groups, store.attributes, groupIds, req.attributes, Some(existing.attributes), true);
        if normalized.Err? {
          return Err(Invalid(normalized.error));
        }
        normalizedAttributes := normalized.value;
      }
      var updated := Patch(existing, req, normalizedAttributes);
      items := items[id := updated];
      r := Ok(updated);
    }
  }

  // ---------------------------------------------------------------------------
  // Properties of the item endpoints

  /** A stored item's triple is contained. */
  predicate ItemContained(store: Store, item: Item) {
    Contained(store, item.itemType, item.category, item.family)
  }

  /** A created item's triple is contained, and its attributes hold every required attribute of its groups. */
  lemma CreatedItemValid(host: Host, store: Store, req: CreateRequest, item: Item)
    requires Created(host, store, req, Ok(item))
    ensures ItemContained(store, item)
    ensures var am := DefinitionsFor(store.groups, store.attributes, LoadGroupsFor(store, item.itemType, item.category, item.family).value);
      forall c :: c in am.defs && am.defs[c].required ==> c in item.attributes
  {
    var groupIds := LoadGroupsFor(store, item.itemType, item.category, item.family).value;
    var am := DefinitionsFor(store.groups, store.attributes, groupIds);
    CreateFillsRequired(host, am, OrEmpty(req.attributes), map[], item.attributes);
  }

  /** Containment is checked before the attributes: a triple that is not contained is refused whatever the attributes. */
  lemma ContainmentBeforeAttributes(host: Host, store: Store, req: CreateRequest, r: Result<Item, ItemError>)
    requires req.itemTypeId.Some? && req.categoryId.Some?
    requires !Contained(store, req.itemTypeId.value, req.categoryId.value, req.familyId)
    requires Created(host, store, req, r)
    ensures r.Err? && !r.error.Invalid?
  {
  }

  /** The patch stores a contained triple whenever the triple it was checked against is contained. */
  lemma PatchContained(store: Store, existing: Item, req: UpdateRequest, attributes: ValueMap)
    requires var (t, c, f) := NextTriple(existing, req); Contained(store, t, c, f)
    ensures ItemContained(store, Patch(existing, req, attributes))
  {
  }

  /** Every successful update yields a contained item. */
  lemma UpdatedItemContained(host: Host, store: Store, items: map<Id, Item>, id: Id, req: UpdateRequest, item: Item)
    requires Updated(host, store, items, id, req, Ok(item))
    ensures ItemContained(store, item)
  {
    var existing := items[id];
    PatchContained(store, existing, req, item.attributes);
  }

  /**
   * An update without attributes keeps the stored attributes; an update that
   * names no ids keeps the item type and category, and the family unless the
   * body clears it.
   */
  lemma UpdateFallsBack(host: Host, store: Store, items: map<Id, Item>, id: Id, req: UpdateRequest, item: Item)
    requires Updated(host, store, items, id, req, Ok(item))
    ensures id in items
    ensures req.attributes.None? ==> item.attributes == items[id].attributes
    ensures req.itemTypeId.None? ==> item.itemType == items[id].itemType
    ensures req.categoryId.None? ==> item.category == items[id].category
    ensures req.familyId.Unset? ==> item.family == items[id].family
  {
  }

  /**
   * As written, a body with a `category` field and no `categoryId` passes the
   * checks against the stored category and then stores the unchecked one: the
   * item is no longer contained.
   */
  lemma PatchAsWrittenEscapes()
    ensures var store := Store(
        map["T" := ItemType("t", "t", "C", [])],
        map["C" := Node("c", "c", None, [], [], map[], Some("T")), "X" := Node("x", "x", None, [], [], map[], None)],
        map[], map[], map[]);
      var existing := Item("i", "i", "T", "C", None, map[]);
      var req := UpdateRequest(None, None, None, None, Unset, None, None, Some("X"), None);
      var (t, c, f) := NextTriple(existing, req);
      && ItemContained(store, existing)
      && Contained(store, t, c, f)
      && !ItemContained(store, PatchAsWritten(existing, req, existing.attributes))
  {
    var cats := map["C" := Node("c", "c", None, [], [], map[], Some("T")), "X" := Node("x", "x", None, [], [], map[], None)];
    assert "C"[0] != "X"[0];
    assert cats["X"].owner.None?;
  }
}
