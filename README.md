# Attribute engine of a master-data service, in Dafny

This project models the attribute engine of a master-data backend. The
backend's entities are items, item types, categories and families.
Administrators define typed attributes ("definitions": a code, one of 23
kinds, a free-form `config`, a `required` flag and an optional default) and
bundle them into attribute groups. Item types, categories and families attach
groups. An item's attribute values are checked against every definition its
item type, its category chain and its family chain bring in.

The model covers five parts of the engine:

- **Value validator** (`value_validation.dfy`). Accepts or rejects one JSON
  value against one definition, by kind. It reads the config with
  JavaScript's coercions, because a stored config need not have the shape its
  kind asks for: the attribute update endpoint writes with
  `findByIdAndUpdate`, which runs no `pre('validate')` hook.
- **Definition check** (`config_validation.dfy`). The `pre('validate')` hook
  of the attribute model: a per-kind shape check on the config, then the
  default value through the value validator. Its lemmas state what an accepted
  definition guarantees about the values the validator then accepts.
- **Normalizer** (`entity_attributes.dfy`). Loads the definitions of a list of
  groups into a code-keyed map. It refuses unknown keys, missing required
  values (on create only), changed readonly values (on update only) and
  invalid values. Then it merges the stored values with the provided ones and
  fills in defaults.
- **Ancestor hook** (`hierarchy.dfy`). The `pre('save')` hook that the
  category and family models share, on a table of nodes.
- **Item endpoints** (`item_controller.dfy`). The existence and containment
  checks of an (item type, category, family) triple, the group-id union with
  first-occurrence deduplication, and `createItem` / `updateItem` as methods
  on a table of items.

JSON numbers are modelled as finite decimals `Dec(mant, exp)`, meaning
`mant / 10^exp`, kept canonical (`exp == 0` or `mant % 10 != 0`). Two
consequences follow:

- Structural equality of values is numeric equality.
- `Number.isInteger` is `exp == 0`.

`String(x)` of a number is the fixed-point text `NumberText`.
`countDecimals` is modelled as the source writes it, over that text
(`CountDecimalsOfNumberText` proves it yields `exp`). The runtime services
the validator calls are parameters in a `Host`: `Number()` of a string,
array or object, `String()` of a non-string, `Date.parse`, and
`new RegExp(p).test(s)`.

The model follows these behaviours of the code:

- Category resolution needs an explicit category id. There is no fallback to
  an item type's default category.
- When two groups bring definitions with the same code, the last one loaded
  wins (`Map.set`), not the first. `AttrMapOfLastWins` states this.
- A node's ancestors are recomputed only for the node being saved, and only
  when its `parent` was modified. Descendants are never refreshed
  (`ReparentLeavesDescendantsStale`). The category and family update
  endpoints use `findByIdAndUpdate`, which skips the hook.
- The config-shape invariant is not guaranteed at value-validation time (see
  above).

## Model

| member | source | states |
|---|---|---|
| AttributeModel.KindOf | src/models/Attribute.ts:4-39 | a recognised kind string is the name of the kind returned |
| AttributeModel.KindNameRoundTrip | src/models/Attribute.ts:4-39 | every kind's string names exactly that kind |
| ValueValidation.CountDecimals | src/utils/attributeValidation.ts:25-29 | definition of `countDecimals` (characters after the first point); characterised by CountDecimalsOfNumberText |
| ValueValidation.ValidateValue | src/utils/attributeValidation.ts:31-158 | definition of `validateValueForAttribute`, one case per kind; characterised by FreeKindsAcceptAll, NumberAccepted, MultiSelectIsSelectEach, AttachmentIsFileList, TableIsObjectList and RatingIsWholeNumber |
| ValueValidation.CountDecimalsOfNumberText | src/utils/attributeValidation.ts:25-29 | the characters after the point in a number's text are exactly its fraction digits |
| ValueValidation.FreeKindsAcceptAll | src/utils/attributeValidation.ts:114-122 | json, formula, expression and readonly definitions accept every value |
| ValueValidation.NumberAccepted | src/utils/attributeValidation.ts:47-58 | with numeric bounds, a number definition accepts exactly the numbers within min and max, with at most `decimals` fraction digits, aligned to step |
| ValueValidation.PriceAcceptsTwoDecimals | src/utils/attributeValidation.ts:47-58 | with min 0, max 100 and decimals 2, every number from 0 to 100 with at most two fraction digits (50.55, say) is accepted |
| ValueValidation.PriceRejectsThreeDecimals | src/utils/attributeValidation.ts:47-53 | under the same config, every number with more than two fraction digits (50.555, say) is refused |
| ValueValidation.PriceRejectsNegative | src/utils/attributeValidation.ts:47-49 | under the same config, every negative number is refused |
| ValueValidation.MultiSelectIsSelectEach | src/utils/attributeValidation.ts:74-84 | a multiselect value is an array each of whose elements the select check accepts, with readable options |
| ValueValidation.SelectExamples | src/utils/attributeValidation.ts:74-78 | options s, m, l admit "m" and refuse "xl" |
| ValueValidation.AttachmentIsFileList | src/utils/attributeValidation.ts:85-95 | an attachment is an array of what a file definition accepts, no longer than maxFiles |
| ValueValidation.TableIsObjectList | src/utils/attributeValidation.ts:123-127 | a table is an array of rows each accepted as an object |
| ValueValidation.RatingIsWholeNumber | src/utils/attributeValidation.ts:139-145 | a rating accepts the same values as a number with min 0, decimals 0 and the rating's max |
| ConfigValidation.CheckConfig | src/models/Attribute.ts:85-188 | definition of the per-kind config checks of the validate hook; characterised by CheckOptionsAccepts and the Accepted*Definition lemmas |
| ConfigValidation.ValidateDefinition | src/models/Attribute.ts:71-197 | definition of the whole validate hook: config checks, then the default value through the value validator; characterised by AcceptedDefinitionDefault |
| ConfigValidation.CheckOptionsAccepts | src/models/Attribute.ts:116-120 | the option loop passes exactly when every option is an object with a string value and, if present, a string label |
| ConfigValidation.AcceptedDefinitionDefault | src/models/Attribute.ts:189-192 | a definition is accepted exactly when its config is, and its default, if any, passes the value validator |
| ConfigValidation.AcceptedTextDefinition | src/models/Attribute.ts:86-91 | under an accepted text config, minLength and maxLength are non-negative integers with minLength ≤ maxLength, pattern is a string, and exactly the strings within the length bounds that match the pattern are accepted |
| ConfigValidation.AcceptedNumberDefinition | src/models/Attribute.ts:93-101 | under an accepted number config, every bound is numeric, decimals is a non-negative integer, min ≤ max, step > 0, and exactly the numbers within the bounds, with at most `decimals` fraction digits and aligned to step, are accepted |
| ConfigValidation.AcceptedOptionsReadable | src/models/Attribute.ts:114-121 | under an accepted select config the validator reads every option's value without error |
| ConfigValidation.AcceptedSelectDefinition | src/utils/attributeValidation.ts:74-78 | under an accepted select config a value is accepted exactly when it is one of the option values |
| ConfigValidation.AcceptedMultiSelectDefinition | src/utils/attributeValidation.ts:79-84 | under an accepted select config a multiselect value is accepted exactly when it is an array of option values |
| ConfigValidation.SizeOptions | src/models/Attribute.ts:114-121 | options s, m, l pass the select config check and read as the option values s, m, l |
| ConfigValidation.SizeDefaultAccepted | src/models/Attribute.ts:189-192 | a select definition over s, m, l with default "m" is accepted |
| ConfigValidation.SizeDefaultRejected | src/models/Attribute.ts:189-192 | the same definition with default "xl" is refused |
| ConfigValidation.AcceptedRatingDefinition | src/models/Attribute.ts:170-173 | under an accepted rating config max is a positive integer and exactly the integers from 0 to max are accepted |
| ConfigValidation.AcceptedAttachmentDefinition | src/models/Attribute.ts:123-132 | under an accepted file config maxFiles is a positive integer and an attachment holds at most that many strings |
| ConfigValidation.AcceptedArrayDefinition | src/models/Attribute.ts:138-144 | under an accepted array config, itemType is a string, minItems and maxItems are non-negative integers with minItems ≤ maxItems, and exactly the arrays whose every item fits itemType are accepted |
| ConfigValidation.AcceptedExpressionDefinition | src/models/Attribute.ts:149-153 | a formula or expression config is accepted exactly when it holds a string `expression` |
| ConfigValidation.AcceptedTableDefinition | src/models/Attribute.ts:154-160 | a table config is accepted exactly when `columns` is a non-empty array of column shapes; a table value is accepted exactly when it is an array of objects |
| ConfigValidation.AcceptedColorFormat | src/models/Attribute.ts:162-165 | under an accepted color config the effective format is hex, rgb or hsl |
| ConfigValidation.AcceptedQrLevel | src/models/Attribute.ts:178-181 | a QR config is accepted exactly when its correction level, if present, is L, M, Q or H |
| EntityAttributes.SetWellFormed | src/utils/attributeValidation.ts:8 | `map.set` keeps the code-keyed map well formed |
| EntityAttributes.AttrMapOf | src/utils/attributeValidation.ts:6-10 | definition of `toAttrMap` (`Map.set` per definition, in order); characterised by AttrMapOfWellFormed, AttrMapOfCodes, AttrMapOfLastWins and AttrMapOfMeaning |
| EntityAttributes.AttrMapOfWellFormed | src/utils/attributeValidation.ts:6-10 | the map built from a list of definitions lists each code once and keys each entry by its own code |
| EntityAttributes.AttrMapOfCodes | src/utils/attributeValidation.ts:6-10 | the map's codes are the distinct codes of the list, in first-occurrence order |
| EntityAttributes.AttrMapOfLastWins | src/utils/attributeValidation.ts:6-10 | each code maps to the last definition in the list that carries it |
| EntityAttributes.AttrMapOfMeaning | src/utils/attributeValidation.ts:6-10 | the three facts above together |
| EntityAttributes.ToAttrMap | src/utils/attributeValidation.ts:6-10 | the loop builds the map of the list: well formed, distinct codes in order, last definition wins |
| EntityAttributes.FoundGroups | src/utils/attributeValidation.ts:162 | the groups found are the requested ones that exist, each once |
| EntityAttributes.Populate | src/utils/attributeValidation.ts:162 | a populated definition is one a reference of the group resolves to |
| EntityAttributes.GroupDefinitionsMembers | src/utils/attributeValidation.ts:160-169 | a definition is loaded exactly when an existing requested group references it |
| EntityAttributes.NoGroupsNoDefinitions | src/utils/attributeValidation.ts:161 | no group ids load no definitions and an empty map |
| EntityAttributes.PushAll | src/utils/attributeValidation.ts:166 | the push loop appends the group's definitions in order |
| EntityAttributes.LoadAttributesForGroups | src/utils/attributeValidation.ts:160-169 | the loops return the definitions of the found groups, group by group, and their map |
| EntityAttributes.CheckDefinition | src/utils/attributeValidation.ts:188-203 | definition of the checks on one definition: missing required on create, changed readonly on update, then the value validator; characterised by ReadonlyKept, ReadonlyUnchangedPasses and CreateFillsRequired |
| EntityAttributes.FirstViolation | src/utils/attributeValidation.ts:187-204 | definition of the definition loop's first refusal, in map order; characterised by FirstViolationNone and FirstViolationIsViolation |
| EntityAttributes.Merge | src/utils/attributeValidation.ts:206-214 | definition of the stored-then-provided spread plus defaults; characterised by MergeMeaning and MergeKeepsComplete |
| EntityAttributes.Checked | src/utils/attributeValidation.ts:187-215 | definition of the outcome once every key is known: the first refusal, else the merge; characterised by FirstViolationNone, AcceptedValuesValidated and EmptyUpdateAccepted |
| EntityAttributes.Normalized | src/utils/attributeValidation.ts:171-216 | definition of the outcome of `validateEntityAttributes`: an unknown key is refused, otherwise Checked; characterised by UpdateRefusesOnlyProvided, ReadonlyResubmitAccepted and NormalizeIdempotent |
| EntityAttributes.FirstViolationNone | src/utils/attributeValidation.ts:186-204 | the definition loop passes exactly when no definition is violated |
| EntityAttributes.FirstViolationIsViolation | src/utils/attributeValidation.ts:186-204 | a reported violation is the violation of some definition |
| EntityAttributes.MergeMeaning | src/utils/attributeValidation.ts:206-214 | the merge keeps provided values, stored values not overwritten, defaults of unset codes, and nothing else |
| EntityAttributes.AcceptedValuesValidated | src/utils/attributeValidation.ts:181-203 | in an accepted request every provided key is known, kept, and accepted by the value validator |
| EntityAttributes.CreateFillsRequired | src/utils/attributeValidation.ts:190-193 | an accepted create leaves no required attribute unset |
| EntityAttributes.UpdateRefusesOnlyProvided | src/utils/attributeValidation.ts:189-203 | on update a refusal always names a provided key and is never a missing required value |
| EntityAttributes.EmptyUpdateAccepted | src/utils/attributeValidation.ts:171-216 | an update providing nothing is accepted and only adds defaults |
| EntityAttributes.ReadonlyKept | src/utils/attributeValidation.ts:194-201 | an accepted update never changes a stored readonly value |
| EntityAttributes.ReadonlyUnchangedPasses | src/utils/attributeValidation.ts:194-201 | on update, a readonly value sent back equal to the stored one passes its definition's checks |
| EntityAttributes.ReadonlyResubmitAccepted | src/utils/attributeValidation.ts:182-215 | an update that sends back only unchanged readonly values is accepted and yields what an empty update yields |
| EntityAttributes.MergeKeepsComplete | src/utils/attributeValidation.ts:209-214 | merging nothing into values holding every default changes nothing |
| EntityAttributes.NormalizeIdempotent | src/utils/attributeValidation.ts:171-216 | re-normalizing an accepted result with no new values yields it again |
| EntityAttributes.FindUnknownKey | src/utils/attributeValidation.ts:181-184 | the unknown-key loop finds a provided key without a definition exactly when there is one |
| EntityAttributes.FindViolation | src/utils/attributeValidation.ts:186-204 | the definition loop returns the first violation in map order |
| EntityAttributes.Overlay | src/utils/attributeValidation.ts:207-208 | the copy loop yields the stored values overwritten by the provided ones |
| EntityAttributes.FillDefaults | src/utils/attributeValidation.ts:209-214 | the default loop adds each unset code's default and nothing else |
| EntityAttributes.NormalizeAgainst | src/utils/attributeValidation.ts:179-216 | unknown keys first, then the first violating definition, else the merged values |
| EntityAttributes.DefinitionsFor | src/utils/attributeValidation.ts:178 | the definitions an entity is checked against form a well-formed code-keyed map |
| EntityAttributes.ValidateEntityAttributes | src/utils/attributeValidation.ts:171-216 | the outcome is the normalization of the provided values against the loaded definitions, absent maps read as empty |
| Hierarchy.Tree.Save | src/models/Category.ts:18-29 | a modified parent recomputes the ancestors from the stored parent; a missing parent fails with the collection's message and writes nothing (the family hook, src/models/Family.ts:19-30, is the same) |
| Hierarchy.WithAncestors | src/models/Category.ts:18-29 | definition of the pre-save ancestor hook, shared with src/models/Family.ts:19-30; characterised by WithAncestorsMeaning |
| Hierarchy.WithAncestorsMeaning | src/models/Category.ts:20-28 | an unmodified parent leaves the document as it is; otherwise the hook fails only for a missing parent, changes only the ancestors, and chains them to the parent |
| Hierarchy.SavePreservesConsistency | src/models/Category.ts:18-29 | saving a node no other node names as parent keeps every chain derived from its parent |
| Hierarchy.AncestorsArePrefixes | src/models/Category.ts:27 | in consistent trees every ancestor is stored and its own chain is the prefix before it |
| Hierarchy.NoNodeIsItsOwnAncestor | src/models/Category.ts:27 | in consistent trees chains are acyclic and start at a root |
| Hierarchy.ChainExample | src/models/Family.ts:19-30 | saving a root, a child, then a grandchild gives the grandchild the chain root, child |
| Hierarchy.ReparentLeavesDescendantsStale | src/models/Category.ts:20-28 | re-parenting a node leaves its children's chains stale |
| ItemController.Gate | src/controllers/item.controller.ts:15-34 | definition of the existence and ownership checks of `loadGroupsFor`; characterised by GateOrder and GateMeaning |
| ItemController.LoadGroupsFor | src/controllers/item.controller.ts:15-56 | definition of `loadGroupsFor`: the checks, then the deduplicated item-type, category-chain and family-chain groups; characterised by LoadGroupsForMembers, NoFamilyNoFamilyGroups and ItemTypeGroupsFirst |
| ItemController.GateOrder | src/controllers/item.controller.ts:16-34 | the checks fail in the source's order: a missing item type, then a missing category, a category of another item type, a missing family, a family of another category |
| ItemController.GateMeaning | src/controllers/item.controller.ts:16-34 | the checks pass exactly for a stored, contained triple |
| ItemController.GroupsOf | src/controllers/item.controller.ts:39 | a group is collected exactly when one of the fetched nodes lists it |
| ItemController.ChainGroupsMembers | src/controllers/item.controller.ts:37-39 | a chain contributes exactly the groups of the node and of its stored ancestors |
| ItemController.LoadGroupsForMembers | src/controllers/item.controller.ts:37-54 | the group ids are, without repetition, the item type's, the category chain's and the family chain's groups |
| ItemController.NoFamilyNoFamilyGroups | src/controllers/item.controller.ts:41-46 | without a family only the item type and category chain contribute |
| ItemController.ItemTypeGroupsFirst | src/controllers/item.controller.ts:48-54 | the item type's groups precede every other group in the deduplicated list |
| ItemController.SchemaCategoriesRejectAll | src/controllers/item.controller.ts:23 | when no category carries an item type, every triple is refused |
| ItemController.ContainedTripleResolves | src/controllers/item.controller.ts:22-34 | with the category's item type stored, every contained triple resolves |
| ItemController.Created | src/controllers/item.controller.ts:82-109 | definition of the outcome of `createItem`; characterised by CreatedItemValid and ContainmentBeforeAttributes |
| ItemController.NextTriple | src/controllers/item.controller.ts:126-133 | definition of the ids an update checks: each given id, else the stored one; characterised by UpdateFallsBack |
| ItemController.Updated | src/controllers/item.controller.ts:122-162 | definition of the outcome of `updateItem`, storing the corrected patch; characterised by UpdatedItemContained and UpdateFallsBack |
| ItemController.ItemTable.CreateItem | src/controllers/item.controller.ts:82-109 | id checks, then triple checks, then normalization as a create; only a success stores the item |
| ItemController.ItemTable.UpdateItem | src/controllers/item.controller.ts:122-162 | lookup, checks on the next triple, normalization only when attributes are given; only a success replaces the item |
| ItemController.CreatedItemValid | src/controllers/item.controller.ts:103-106 | a created item is contained and holds every required attribute |
| ItemController.ContainmentBeforeAttributes | src/controllers/item.controller.ts:87-104 | a triple that is not contained is refused before the attributes are looked at |
| ItemController.Patch | src/controllers/item.controller.ts:153-157 | definition of the corrected patch: the checked ids and the normalized attributes; characterised by PatchContained |
| ItemController.PatchAsWritten | src/controllers/item.controller.ts:153-157 | definition of the patch as the source builds it, spreading the body; characterised by PatchAsWrittenEscapes |
| ItemController.PatchContained | src/controllers/item.controller.ts:153-157 | the corrected patch stores exactly the checked triple, so it stores a contained triple whenever the checked one is contained |
| ItemController.UpdatedItemContained | src/controllers/item.controller.ts:122-162 | every successful update yields a contained item |
| ItemController.UpdateFallsBack | src/controllers/item.controller.ts:126-157 | absent ids and attributes fall back to the stored ones |
| ItemController.PatchAsWrittenEscapes | src/controllers/item.controller.ts:153-156 | as written, a body `category` field stores an unchecked category |
| Seqs.Distinct | src/controllers/item.controller.ts:54 | the result has no repetitions, the same elements, and first-occurrence order |
| Seqs.Found | src/controllers/item.controller.ts:38 | a `$in` query finds the requested keys that exist, each once |
| Seqs.FirstIndexConcat | src/controllers/item.controller.ts:48-52 | an element absent from the first part is found in the second part, shifted |
| Seqs.DistinctOrder | src/controllers/item.controller.ts:54 | earlier first occurrences come at earlier positions of the deduplicated list |

## Left out

- Exponent notation and binary floating point: numbers are exact decimals.
  `String(x)` for very large or very small numbers (`1e21`, `1e-7`) uses
  exponent notation in JavaScript, where `countDecimals` differs. The step
  test is computed in exact arithmetic, so binary rounding of `(x - base) /
  step` is not modelled. Infinite and NaN numbers do not occur in JSON.
- String length: `value.length` counts UTF-16 code units; the model counts
  characters.
- The text patterns, `Date.parse` and `Number()` of strings are `Host`
  parameters, not definitions.
- Where the source throws a `TypeError` (options that are not an array) or a
  `SyntaxError` (a pattern that `new RegExp` refuses,
  src/utils/attributeValidation.ts:42), the model gives messages of its own:
  " options cannot be read" and " pattern is not a valid regular expression".
- The texts of the unknown-key, missing-required and readonly refusals
  (src/utils/attributeValidation.ts:184, :192, :200): `NormError` carries
  which refusal it is and the key or code it names, not the text. Value
  refusals keep the validators' texts in `InvalidValue`.
- ItemController.ItemTable.UpdateItem stores the corrected patch (`Patch`):
  only checked ids and the normalized attributes. The source spreads the
  whole body into the patch (src/controllers/item.controller.ts:153-157),
  which `PatchAsWritten` models and `PatchAsWrittenEscapes` shows can store
  unchecked ids (see Findings).
- `JSON.stringify` in the readonly check depends on key order; the model
  compares values structurally.
- The unknown-key refusal names some unknown key. The source names the first
  one in the request's key order, which a map does not keep.
- The order in which `$in` queries return documents is unspecified. The model
  uses the order of the requested ids, so group and definition order follows
  the request.
- Codes that coincide with `Object.prototype` property names, and
  `attributes` bodies that are not objects, are not modelled.
- An update body whose `attributes` is present but falsy (`null`) is not
  modelled. The source copies it into the patch unvalidated.
- `familyId: ""` in an update body is modelled like `null`.
- Malformed ids (cast errors), the unique-code index, schema-level
  `required`/`trim` on names and codes, and populating the response are
  persistence concerns.
- The `active` flag of a definition is carried but, as in the source, never
  read.
- Mongoose's dirty tracking is the `parentModified` parameter of
  `Hierarchy.Tree.Save`.
- The `get*Tree` builders, the other controllers (attribute, group, category,
  family, item type), `resolveItemAttributes`, authentication and HTTP
  responses are outside this model.
- `createItem` repeats the checks of `loadGroupsFor` with the same
  conditions, in the same order, before calling it. The model runs them once.

## Findings

| source | as written | input that shows it | evidently intended | confidence | as-written member | corrected member |
|---|---|---|---|---|---|---|
| src/controllers/item.controller.ts:23 | reads `cat.itemType`, a field the category schema (src/models/Category.ts:3-11) does not declare, so saved categories never carry it | any stored item type and category: the triple is refused with `category_not_allowed` | a category records the item type it belongs to (the model's `Node.owner`), as the comment at :22 says | not executed; high | ItemController.SchemaCategoriesRejectAll | ItemController.ContainedTripleResolves |
| src/controllers/item.controller.ts:153-156 | `{ ...req.body }` copies body fields `itemType`, `category` and `family`; they survive when the matching `*Id` field is absent | body `{ category: X }` for a category X of another item type: the checks run on the stored category, and X is stored | the stored triple is the checked one (`Patch`, used by `UpdateItem`) | not executed; medium, masked as deployed by the first row | ItemController.PatchAsWrittenEscapes | ItemController.PatchContained |
