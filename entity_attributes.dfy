/**
 * Entity attribute validation: the definitions an entity's attribute groups
 * bring in are collected into a code-keyed map, the attribute values a request
 * provides are checked against it, and the stored values are merged with the
 * provided ones and completed with defaults.
 */
module EntityAttributes {
  import opened Common
  import opened Seqs
  import opened Values
  import opened AttributeModel
  import opened ValueValidation

  // ---------------------------------------------------------------------------
  // The code-keyed map of definitions

  /**
   * A JavaScript `Map<string, AttributeDoc>` keyed by code: `codes` lists the
   * keys in the order they were first set, `defs` holds the current entry of
   * each key.
   */
  datatype AttrMap = AttrMap(codes: seq<string>, defs: map<string, AttributeDef>)

  /** The keys are listed once each, exactly the keys of `defs`, and each entry sits under its own code. */
  ghost predicate WellFormed(am: AttrMap) {
    && NoDup(am.codes)
    && (forall c :: c in am.codes <==> c in am.defs)
    && (forall c :: c in am.defs ==> am.defs[c].code == c)
  }

  /** `map.set(a.code, a)`: a new key goes last, an existing key keeps its place and takes the new entry. */
  function Set(am: AttrMap, a: AttributeDef): AttrMap {
    AttrMap(if a.code in am.defs then am.codes else am.codes + [a.code], am.defs[a.code := a])
  }

  /** The map that setting every definition of `attrs` in order builds from the empty map. */
  function AttrMapOf(attrs: seq<AttributeDef>): AttrMap {
    if attrs == [] then AttrMap([], map[])
    else Set(AttrMapOf(attrs[..|attrs| - 1]), attrs[|attrs| - 1])
  }

  /** The codes of `attrs`, in order. */
  function CodesOf(attrs: seq<AttributeDef>): (r: seq<string>)
    ensures |r| == |attrs| && forall i :: 0 <= i < |attrs| ==> r[i] == attrs[i].code
  {
    seq(|attrs|, i requires 0 <= i < |attrs| => attrs[i].code)
  }

  /** Every entry of `am` is the last definition of `attrs` with its code. */
  ghost predicate LastWins(attrs: seq<AttributeDef>, am: AttrMap) {
    forall c :: c in am.defs ==>
      exists i :: 0 <= i < |attrs| && attrs[i] == am.defs[c] && forall j :: i < j < |attrs| ==> attrs[j].code != c
  }

  /** Setting a definition keeps a map well formed. */
  lemma SetWellFormed(am: AttrMap, a: AttributeDef)
    requires WellFormed(am)
    ensures WellFormed(Set(am, a))
  {
  }

  /** The map built from `attrs` is well formed. */
  lemma {:induction false} AttrMapOfWellFormed(attrs: seq<AttributeDef>)
    ensures WellFormed(AttrMapOf(attrs))
  {
    if attrs != [] {
      AttrMapOfWellFormed(attrs[..|attrs| - 1]);
      SetWellFormed(AttrMapOf(attrs[..|attrs| - 1]), attrs[|attrs| - 1]);
    }
  }

  /** The map built from `attrs` lists the distinct codes of `attrs`, in order of first occurrence. */
  lemma {:induction false} AttrMapOfCodes(attrs: seq<AttributeDef>)
    ensures AttrMapOf(attrs).codes == Distinct(CodesOf(attrs))
  {
    if attrs != [] {
      var init := attrs[..|attrs| - 1];
      AttrMapOfCodes(init);
      AttrMapOfWellFormed(init);
      assert CodesOf(attrs)[..|attrs| - 1] == CodesOf(init);
    }
  }

  /** The map built from `attrs` keeps, for each code, the last definition of `attrs` carrying it. */
  lemma {:induction false} AttrMapOfLastWins(attrs: seq<AttributeDef>)
    ensures LastWins(attrs, AttrMapOf(attrs))
  {
    if attrs != [] {
      var init, a := attrs[..|attrs| - 1], attrs[|attrs| - 1];
      AttrMapOfLastWins(init);
      var am, am' := AttrMapOf(init), AttrMapOf(attrs);
      forall c | c in am'.defs
        ensures exists i :: 0 <= i < |attrs| && attrs[i] == am'.defs[c] && forall j :: i < j < |attrs| ==> attrs[j].code != c
      {
        if c == a.code {
          assert attrs[|attrs| - 1] == am'.defs[c];
        } else {
          var i :| 0 <= i < |init| && init[i] == am.defs[c] && forall j :: i < j < |init| ==> init[j].code != c;
          assert attrs[i] == am'.defs[c];
        }
      }
    }
  }

  /**
   * The map built from `attrs` is well formed, lists the distinct codes of
   * `attrs` in order of first occurrence, and keeps for each code the last
   * definition carrying it.
   */
  lemma AttrMapOfMeaning(attrs: seq<AttributeDef>)
    ensures WellFormed(AttrMapOf(attrs))
    ensures AttrMapOf(attrs).codes == Distinct(CodesOf(attrs))
    ensures LastWins(attrs, AttrMapOf(attrs))
  {
    AttrMapOfWellFormed(attrs);
    AttrMapOfCodes(attrs);
    AttrMapOfLastWins(attrs);
  }

  /** `toAttrMap`: sets the definitions of `attrs` into a new map one by one. */
  method ToAttrMap(attrs: seq<AttributeDef>) returns (am: AttrMap)
    ensures am == AttrMapOf(attrs)
    ensures WellFormed(am) && am.codes == Distinct(CodesOf(attrs)) && LastWins(attrs, am)
  {
    am := AttrMap([], map[]);
    for i := 0 to |attrs|
      invariant am == AttrMapOf(attrs[..i])
    {
      assert attrs[..i + 1][..i] == attrs[..i];
      am := Set(am, attrs[i]);
    }
    assert attrs[..|attrs|] == attrs;
    AttrMapOfMeaning(attrs);
  }

  // ---------------------------------------------------------------------------
  // Loading the definitions of a list of groups

  /** The requested groups that exist, each once, in order of first request. */
  function FoundGroups(groups: map<Id, AttributeGroup>, groupIds: seq<Id>): (r: seq<Id>)
    ensures NoDup(r)
    ensures forall g :: g in r <==> g in groupIds && g in groups
  {
    Found(groups, groupIds)
  }

  /** `populate('attributes')`: the definitions a group references, in order, dropping references that do not resolve. */
  function Populate(attributes: map<Id, AttributeDef>, refs: seq<Id>): (r: seq<AttributeDef>)
    ensures forall a :: a in r <==> exists id :: id in refs && id in attributes && attributes[id] == a
  {
    if refs == [] then []
    else
      var init, id := refs[..|refs| - 1], refs[|refs| - 1];
      assert refs == init + [id];
      if id in attributes then Populate(attributes, init) + [attributes[id]] else Populate(attributes, init)
  }

  /** The populated definitions of each found group. */
  function GroupDocs(groups: map<Id, AttributeGroup>, attributes: map<Id, AttributeDef>, found: seq<Id>): (r: seq<seq<AttributeDef>>)
    requires forall g :: g in found ==> g in groups
    ensures |r| == |found|
    ensures forall i :: 0 <= i < |found| ==> r[i] == Populate(attributes, groups[found[i]].attributes)
  {
    seq(|found|, i requires 0 <= i < |found| => Populate(attributes, groups[found[i]].attributes))
  }

  /** The definitions the requested groups bring in, group by group. */
  function GroupDefinitions(groups: map<Id, AttributeGroup>, attributes: map<Id, AttributeDef>, groupIds: seq<Id>): seq<AttributeDef> {
    Flatten(GroupDocs(groups, attributes, FoundGroups(groups, groupIds)))
  }

  /**
   * A definition is loaded exactly when one of the requested groups that
   * exists references it.
   */
  lemma GroupDefinitionsMembers(groups: map<Id, AttributeGroup>, attributes: map<Id, AttributeDef>, groupIds: seq<Id>, a: AttributeDef)
    ensures a in GroupDefinitions(groups, attributes, groupIds) <==>
      exists g, id :: g in groupIds && g in groups && id in groups[g].attributes && id in attributes && attributes[id] == a
  {
    var found := FoundGroups(groups, groupIds);
    var docs := GroupDocs(groups, attributes, found);
    assert GroupDefinitions(groups, attributes, groupIds) == Flatten(docs);
    if a in Flatten(docs) {
      var i :| 0 <= i < |docs| && a in docs[i];
      var g := found[i];
      assert a in Populate(attributes, groups[g].attributes);
      var id :| id in groups[g].attributes && id in attributes && attributes[id] == a;
      assert g in groupIds && g in groups;
    }
    if exists g, id :: g in groupIds && g in groups && id in groups[g].attributes && id in attributes && attributes[id] == a {
      var g, id :| g in groupIds && g in groups && id in groups[g].attributes && id in attributes && attributes[id] == a;
      var i := FirstIndex(found, g);
      assert a in Populate(attributes, groups[found[i]].attributes);
      assert a in docs[i];
    }
  }

  /** No groups bring in no definitions. */
  lemma NoGroupsNoDefinitions(groups: map<Id, AttributeGroup>, attributes: map<Id, AttributeDef>)
    ensures GroupDefinitions(groups, attributes, []) == []
    ensures AttrMapOf(GroupDefinitions(groups, attributes, [])) == AttrMap([], map[])
  {
  }

  /** `for (const a of docs) attrs.push(a)`. */
  method PushAll(attrs: seq<AttributeDef>, docs: seq<AttributeDef>) returns (r: seq<AttributeDef>)
    ensures r == attrs + docs
  {
    r := attrs;
    for j := 0 to |docs|
      invariant r == attrs + docs[..j]
    {
      assert docs[..j + 1] == docs[..j] + [docs[j]];
      r := r + [docs[j]];
    }
    assert docs[..|docs|] == docs;
  }

  /**
   * `loadAttributesForGroups`: fetches the requested groups, populates their
   * definitions, and concatenates them group by group into a list and a
   * code-keyed map. The group store and the definition store stand for the
   * two collections the source queries.
   */
  method LoadAttributesForGroups(groups: map<Id, AttributeGroup>, attributes: map<Id, AttributeDef>, groupIds: seq<Id>)
    returns (attrs: seq<AttributeDef>, am: AttrMap)
    ensures attrs == GroupDefinitions(groups, attributes, groupIds)
    ensures am == AttrMapOf(attrs)
  {
    if groupIds == [] {
      return [], AttrMap([], map[]);
    }
    var found := FoundGroups(groups, groupIds);
    ghost var docsOf := GroupDocs(groups, attributes, found);
    attrs := [];
    for i := 0 to |found|
      invariant attrs == Flatten(docsOf[..i])
    {
      var docs := Populate(attributes, groups[found[i]].attributes);
      attrs := PushAll(attrs, docs);
      FlattenPrefix(docsOf, i);
    }
    assert docsOf[..|found|] == docsOf;
    am := ToAttrMap(attrs);
  }

  // ---------------------------------------------------------------------------
  // Checking and merging the provided values

  /** Why a request's attribute values are refused. */
  datatype NormError =
    | UnknownAttribute(key: string)
    | MissingRequired(code: string)
    | ReadonlyChanged(code: string)
    | InvalidValue(code: string, message: string)

  /** A set of attribute values: an entity's `attributes` object. */
  type ValueMap = map<string, Value>

  /**
   * The checks on one definition: a required value is missing on create, a
   * provided readonly value differs from the stored one on update, or a
   * provided value fails the value validator.
   */
  function CheckDefinition(host: Host, a: AttributeDef, provided: ValueMap, existing: ValueMap, isUpdate: bool): Option<NormError> {
    if a.required && !isUpdate && a.code !in provided && a.code !in existing && a.defaultValue.None? then
      Some(MissingRequired(a.code))
    else if a.code !in provided then None
    else if isUpdate && a.kind == Readonly && a.code in existing && existing[a.code] != provided[a.code] then
      Some(ReadonlyChanged(a.code))
    else match ValidateValue(host, a, provided[a.code])
      case Reject(m) => Some(InvalidValue(a.code, m))
      case Accept => None
  }

  /** The first violation among the definitions under `codes`, in order. */
  function FirstViolation(host: Host, am: AttrMap, codes: seq<string>, provided: ValueMap, existing: ValueMap, isUpdate: bool): Option<NormError>
    requires forall c :: c in codes ==> c in am.defs
  {
    if codes == [] then None
    else match CheckDefinition(host, am.defs[codes[0]], provided, existing, isUpdate)
      case Some(e) => Some(e)
      case None => FirstViolation(host, am, codes[1..], provided, existing, isUpdate)
  }

  /** The stored values, overwritten by the provided ones, completed with the defaults of the definitions still unset. */
  function Merge(am: AttrMap, provided: ValueMap, existing: ValueMap): ValueMap {
    var base := existing + provided;
    base + map c | c in am.defs && c !in base && am.defs[c].defaultValue.Some? :: am.defs[c].defaultValue.value
  }

  /** The outcome once every provided key is known. */
  function Checked(host: Host, am: AttrMap, provided: ValueMap, existing: ValueMap, isUpdate: bool): Result<ValueMap, NormError>
    requires WellFormed(am)
  {
    match FirstViolation(host, am, am.codes, provided, existing, isUpdate)
    case Some(e) => Err(e)
    case None => Ok(Merge(am, provided, existing))
  }

  /**
   * The outcome of checking `provided` against `am`: a provided key without a
   * definition is refused first (which one, when there are several, depends
   * on the key order of the request, which a map does not keep); otherwise the
   * first violating definition, in map order, is refused, and when there is
   * none the merged values are the result.
   */
  ghost predicate Normalized(host: Host, am: AttrMap, provided: ValueMap, existing: ValueMap, isUpdate: bool, r: Result<ValueMap, NormError>)
    requires WellFormed(am)
  {
    if provided.Keys <= am.defs.Keys then r == Checked(host, am, provided, existing, isUpdate)
    else r.Err? && r.error.UnknownAttribute? && r.error.key in provided && r.error.key !in am.defs
  }

  /** The checks pass exactly when no definition under `codes` is violated. */
  lemma {:induction false} FirstViolationNone(host: Host, am: AttrMap, codes: seq<string>, provided: ValueMap, existing: ValueMap, isUpdate: bool)
    requires forall c :: c in codes ==> c in am.defs
    ensures FirstViolation(host, am, codes, provided, existing, isUpdate).None? <==>
      forall i :: 0 <= i < |codes| ==> CheckDefinition(host, am.defs[codes[i]], provided, existing, isUpdate).None?
  {
    if codes != [] {
      FirstViolationNone(host, am, codes[1..], provided, existing, isUpdate);
      assert forall i :: 1 <= i < |codes| ==> codes[i] == codes[1..][i - 1];
    }
  }

  /** A violation found is the violation of one of the definitions under `codes`. */
  lemma {:induction false} FirstViolationIsViolation(host: Host, am: AttrMap, codes: seq<string>, provided: ValueMap, existing: ValueMap, isUpdate: bool)
    requires forall c :: c in codes ==> c in am.defs
    requires FirstViolation(host, am, codes, provided, existing, isUpdate).Some?
    ensures exists c :: c in codes && CheckDefinition(host, am.defs[c], provided, existing, isUpdate) == FirstViolation(host, am, codes, provided, existing, isUpdate)
  {
    if CheckDefinition(host, am.defs[codes[0]], provided, existing, isUpdate).None? {
      FirstViolationIsViolation(host, am, codes[1..], provided, existing, isUpdate);
    }
  }

  /** The key or code an error names. */
  function Culprit(e: NormError): string {
    match e
    case UnknownAttribute(key) => key
    case MissingRequired(code) => code
    case ReadonlyChanged(code) => code
    case InvalidValue(code, _) => code
  }

  /** A code of a well-formed map sits at some position of its key list. */
  lemma CodePosition(am: AttrMap, c: string) returns (i: nat)
    requires WellFormed(am) && c in am.defs
    ensures i < |am.codes| && am.codes[i] == c
  {
    i := FirstIndex(am.codes, c);
  }

  /**
   * The merged values hold every provided value, every stored value that is
   * not overwritten, and the default of each definition left unset, and
   * nothing else.
   */
  lemma MergeMeaning(am: AttrMap, provided: ValueMap, existing: ValueMap)
    ensures var m := Merge(am, provided, existing);
      && (forall k :: k in provided ==> k in m && m[k] == provided[k])
      && (forall k :: k in existing && k !in provided ==> k in m && m[k] == existing[k])
      && (forall c :: c in am.defs && c !in existing && c !in provided && am.defs[c].defaultValue.Some? ==>
            c in m && m[c] == am.defs[c].defaultValue.value)
      && (forall k :: k in m ==> k in provided || k in existing || (k in am.defs && am.defs[k].defaultValue.Some?))
  {
  }

  /** An accepted request's values are all known, all kept and all accepted by the value validator. */
  lemma AcceptedValuesValidated(host: Host, am: AttrMap, provided: ValueMap, existing: ValueMap, isUpdate: bool, m: ValueMap)
    requires WellFormed(am) && Normalized(host, am, provided, existing, isUpdate, Ok(m))
    ensures forall k :: k in provided ==>
      && k in am.defs
      && k in m && m[k] == provided[k]
      && ValidateValue(host, am.defs[k], provided[k]) == Accept
  {
    FirstViolationNone(host, am, am.codes, provided, existing, isUpdate);
    forall k | k in provided
      ensures k in am.defs && ValidateValue(host, am.defs[k], provided[k]) == Accept
    {
      var i := CodePosition(am, k);
      assert CheckDefinition(host, am.defs[am.codes[i]], provided, existing, isUpdate).None?;
    }
  }

  /** A create that is accepted leaves no required attribute unset: it is provided, stored, or defaulted. */
  lemma CreateFillsRequired(host: Host, am: AttrMap, provided: ValueMap, existing: ValueMap, m: ValueMap)
    requires WellFormed(am) && Normalized(host, am, provided, existing, false, Ok(m))
    ensures forall c :: c in am.defs && am.defs[c].required ==> c in m
  {
    FirstViolationNone(host, am, am.codes, provided, existing, false);
    forall c | c in am.defs && am.defs[c].required
      ensures c in m
    {
      var i := CodePosition(am, c);
      assert CheckDefinition(host, am.defs[am.codes[i]], provided, existing, false).None?;
    }
  }

  /** On update only provided values can be refused: required attributes are not enforced. */
  lemma UpdateRefusesOnlyProvided(host: Host, am: AttrMap, provided: ValueMap, existing: ValueMap, r: Result<ValueMap, NormError>)
    requires WellFormed(am) && Normalized(host, am, provided, existing, true, r)
    ensures r.Err? ==> Culprit(r.error) in provided && !r.error.MissingRequired?
  {
    if r.Err? && provided.Keys <= am.defs.Keys {
      FirstViolationIsViolation(host, am, am.codes, provided, existing, true);
    }
  }

  /** An update that provides no values is always accepted and only adds defaults to the stored values. */
  lemma EmptyUpdateAccepted(host: Host, am: AttrMap, existing: ValueMap)
    requires WellFormed(am)
    ensures Checked(host, am, map[], existing, true) == Ok(Merge(am, map[], existing))
  {
    FirstViolationNone(host, am, am.codes, map[], existing, true);
  }

  /** An accepted update never changes a stored readonly value. */
  lemma ReadonlyKept(host: Host, am: AttrMap, provided: ValueMap, existing: ValueMap, m: ValueMap, c: string)
    requires WellFormed(am) && Normalized(host, am, provided, existing, true, Ok(m))
    requires c in am.defs && am.defs[c].kind == Readonly && c in existing
    ensures c in m && m[c] == existing[c]
  {
    FirstViolationNone(host, am, am.codes, provided, existing, true);
    var i := CodePosition(am, c);
    assert CheckDefinition(host, am.defs[am.codes[i]], provided, existing, true).None?;
  }

  /** On update, a readonly value sent back unchanged passes its definition's checks. */
  lemma ReadonlyUnchangedPasses(host: Host, a: AttributeDef, provided: ValueMap, existing: ValueMap)
    requires a.kind == Readonly && a.code in provided && a.code in existing && provided[a.code] == existing[a.code]
    ensures CheckDefinition(host, a, provided, existing, true) == None
  {
  }

  /**
   * An update that sends back only stored readonly values, unchanged, is
   * accepted and yields what an empty update yields.
   */
  lemma ReadonlyResubmitAccepted(host: Host, am: AttrMap, provided: ValueMap, existing: ValueMap)
    requires WellFormed(am)
    requires forall k :: k in provided ==>
      k in am.defs && am.defs[k].kind == Readonly && k in existing && provided[k] == existing[k]
    ensures Normalized(host, am, provided, existing, true, Ok(Merge(am, map[], existing)))
  {
    forall i | 0 <= i < |am.codes|
      ensures CheckDefinition(host, am.defs[am.codes[i]], provided, existing, true).None?
    {
      var a := am.defs[am.codes[i]];
      if a.code in provided {
        ReadonlyUnchangedPasses(host, a, provided, existing);
      }
    }
    FirstViolationNone(host, am, am.codes, provided, existing, true);
    assert existing + provided == existing + map[];
  }

  /** Merging nothing into values that already hold every default leaves them as they are. */
  lemma MergeKeepsComplete(am: AttrMap, m: ValueMap)
    requires forall c :: c in am.defs && am.defs[c].defaultValue.Some? ==> c in m
    ensures Merge(am, map[], m) == m
  {
    var r := Merge(am, map[], m);
    assert m + map[] == m;
    assert r.Keys == m.Keys;
  }

  /**
   * Normalizing is idempotent: checking no new values against the values an
   * accepted request produced yields those values again.
   */
  lemma NormalizeIdempotent(host: Host, am: AttrMap, provided: ValueMap, existing: ValueMap, isUpdate: bool, m: ValueMap)
    requires WellFormed(am) && Normalized(host, am, provided, existing, isUpdate, Ok(m))
    ensures Checked(host, am, map[], m, isUpdate) == Ok(m)
  {
    if !isUpdate {
      CreateFillsRequired(host, am, provided, existing, m);
    }
    forall i | 0 <= i < |am.codes|
      ensures CheckDefinition(host, am.defs[am.codes[i]], map[], m, isUpdate).None?
    {
    }
    FirstViolationNone(host, am, am.codes, map[], m, isUpdate);
    MergeMeaning(am, provided, existing);
    MergeKeepsComplete(am, m);
  }

  /** The unknown-key loop: finds a provided key that no definition carries, if there is one. */
  method FindUnknownKey(am: AttrMap, provided: ValueMap) returns (unknown: Option<string>)
    ensures unknown.None? <==> provided.Keys <= am.defs.Keys
    ensures unknown.Some? ==> unknown.value in provided && unknown.value !in am.defs
  {
    var keys := provided.Keys;
    while keys != {}
      invariant keys <= provided.Keys
      invariant forall k :: k in provided && k !in keys ==> k in am.defs
      decreases keys
    {
      var k :| k in keys;
      if k !in am.defs {
        return Some(k);
      }
      keys := keys - {k};
    }
    return None;
  }

  /** The definition loop: checks the definitions in map order and stops at the first violation. */
  method FindViolation(host: Host, am: AttrMap, provided: ValueMap, existing: ValueMap, isUpdate: bool)
    returns (violation: Option<NormError>)
    requires WellFormed(am)
    ensures violation == FirstViolation(host, am, am.codes, provided, existing, isUpdate)
  {
    for i := 0 to |am.codes|
      invariant FirstViolation(host, am, am.codes, provided, existing, isUpdate)
             == FirstViolation(host, am, am.codes[i..], provided, existing, isUpdate)
    {
      assert am.codes[i..][1..] == am.codes[i + 1..];
      var v := CheckDefinition(host, am.defs[am.codes[i]], provided, existing, isUpdate);
      if v.Some? {
        return v;
      }
    }
    return None;
  }

  /** `{ ...existing }` followed by the copy of every provided entry. */
  method Overlay(provided: ValueMap, existing: ValueMap) returns (normalized: ValueMap)
    ensures normalized == existing + provided
  {
    normalized := existing;
    var keys := provided.Keys;
    while keys != {}
      invariant keys <= provided.Keys
      invariant normalized.Keys == existing.Keys + (provided.Keys - keys)
      invariant forall k :: k in normalized ==> normalized[k] == if k in provided && k !in keys then provided[k] else existing[k]
      decreases keys
    {
      var k :| k in keys;
      normalized := normalized[k := provided[k]];
      keys := keys - {k};
    }
  }

  /** The default fill: every definition whose code is still unset and that has a default gets it. */
  method FillDefaults(am: AttrMap, base: ValueMap) returns (normalized: ValueMap)
    requires WellFormed(am)
    ensures normalized == base + map c | c in am.defs && c !in base && am.defs[c].defaultValue.Some? :: am.defs[c].defaultValue.value
  {
    ghost var filled := map c | c in am.defs && c !in base && am.defs[c].defaultValue.Some? :: am.defs[c].defaultValue.value;
    normalized := base;
    for i := 0 to |am.codes|
      invariant forall c :: c in base ==> c in normalized && normalized[c] == base[c]
      invariant forall c :: c in normalized && c !in base ==> c in filled && normalized[c] == filled[c]
      invariant forall j :: 0 <= j < i && am.codes[j] in filled ==> am.codes[j] in normalized
    {
      var c := am.codes[i];
      if c !in normalized && am.defs[c].defaultValue.Some? {
        normalized := normalized[c := am.defs[c].defaultValue.value];
      }
    }
    assert normalized.Keys == (base + filled).Keys;
  }

  /**
   * `validateEntityAttributes` once the definitions are loaded: the
   * unknown-key loop, the definition loop, then the merge of the stored and
   * provided values and the default fill.
   */
  method NormalizeAgainst(host: Host, am: AttrMap, provided: ValueMap, existing: ValueMap, isUpdate: bool)
    returns (r: Result<ValueMap, NormError>)
    requires WellFormed(am)
    ensures Normalized(host, am, provided, existing, isUpdate, r)
  {
    var unknown := FindUnknownKey(am, provided);
    if unknown.Some? {
      return Err(UnknownAttribute(unknown.value));
    }
    var violation := FindViolation(host, am, provided, existing, isUpdate);
    if violation.Some? {
      return Err(violation.value);
    }
    var normalized := Overlay(provided, existing);
    normalized := FillDefaults(am, normalized);
    return Ok(normalized);
  }

  /** `values || {}`. */
  function OrEmpty(v: Option<ValueMap>): ValueMap {
    if v.Some? then v.value else map[]
  }

  /** The definitions `groupIds` bring in. */
  function DefinitionsFor(groups: map<Id, AttributeGroup>, attributes: map<Id, AttributeDef>, groupIds: seq<Id>): (am: AttrMap)
    ensures WellFormed(am)
  {
    AttrMapOfMeaning(GroupDefinitions(groups, attributes, groupIds));
    AttrMapOf(GroupDefinitions(groups, attributes, groupIds))
  }

  /** `validateEntityAttributes`: loads the definitions of the groups, then checks and merges the values. */
  method ValidateEntityAttributes(host: Host, groups: map<Id, AttributeGroup>, attributes: map<Id, AttributeDef>,
                                  groupIds: seq<Id>, values: Option<ValueMap>, existingValues: Option<ValueMap>, isUpdate: bool)
    returns (r: Result<ValueMap, NormError>)
    ensures Normalized(host, DefinitionsFor(groups, attributes, groupIds), OrEmpty(values), OrEmpty(existingValues), isUpdate, r)
  {
    var _, am := LoadAttributesForGroups(groups, attributes, groupIds);
    assert am == DefinitionsFor(groups, attributes, groupIds);
    var provided := OrEmpty(values);
    var existing := OrEmpty(existingValues);
    r := NormalizeAgainst(host, am, provided, existing, isUpdate);
  }
}
