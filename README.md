# iceberg-tools in Dafny

A model of the core of iceberg-tools, the tooling of the ACED data commons.
It turns FHIR resource definitions into simplified JSON schemas and flattens
FHIR resources into table-friendly records. It also migrates FHIR R4B
resources to R5, builds and inspects PFB files, and draws association graphs
from link description objects. The model covers the OMOP-to-FHIR helper
scripts and the schema viewer's naming helpers as well.

The modules follow the source files:

- `Json` and `Text` are the Python values and string operations the code relies on.
  - Dictionaries keep insertion order.
  - A raised exception becomes an `Err` of `PyError`; it is never a precondition.
- `Inflection`, `JsonPointer` and `HrefTemplate` are the three libraries the code calls: `inflection`, `jsonpointer` and `str.format`/`re`. Each is written out for the inputs the code gives it.
- The schema tools:
  - `SchemaClassify`, `SchemaExtract`, `SchemaBindings` and `SchemaStyle` model `_extract_schemas` of iceberg_tools/schema/__init__.py. The copy in tools/schema/__init__.py is `SchemaStyle.ExtractSchemaTools`.
  - `SchemaPasses`, `SchemaRewrites`, `SchemaLinks`, `SchemaConcepts`, `SchemaPluck` and `SchemaOutput` model the passes of `_simplify_schemas` in iceberg_tools/schema/gen3.py and iceberg_tools/schema/simplified.py.
  - `SchemaSimplify` composes those passes in both files' orders.
- The resource simplifier is iceberg_tools/data/simplifier/__init__.py:
  - `SimplifierRender` covers the `dict()` replacements;
  - `SimplifierResource` holds the properties of the renderers;
  - `SimplifierDialect` is the GEN3 dialect and the schema check;
  - `Simplifier` holds the entry points and the once-only log.
- `Migrator` covers iceberg_tools/data/migrator/__init__.py, one rule per resource type.
- `Graph` covers iceberg_tools/graph/__init__.py: association schemas and the `AssociationInstance` class.
- Four modules cover the PFB file and the simplified records:
  - `Pfb` is iceberg_tools/data/pfb.py;
  - `Report` is iceberg_tools/data/report.py;
  - `SimplifiedValidator` is iceberg_tools/schema/simplified_validator.py;
  - `Util` is iceberg_tools/util.py.
- `BindingLookup` is iceberg_tools/schema/fhir_resources/binding_lookup.py, and `SchemaViewer` is CytoScapeSchemaViewer/schema.py.
- `CleanData` and `MedicationRequest` cover the two OMOP scripts, omop-fhir-translator/clean_data.py and omop_to_fhir/construct_medication_request.py.

How state is modelled:

- Objects the source updates in place are classes with those fields: `Graph.AssociationInstance`, `Util.EmitterContextManager`, `Pfb.SimplePfbWriter`, `SimplifiedValidator.Validator` and `Simplifier.SimplifierState`. The last two hold the module-level log and compile cache.
- A dict that a module-level function mutates becomes a method that takes the dict and returns the new one. The source's loop is kept, with its invariant.
- Every loop is proved against a reference function, and the properties are proved about that function.

Files, the network, the clock and foreign libraries are never reached.
- Their results are parameters: the records an Avro reader yields, the lines of a file, the extension definitions fetched over HTTP, the schema fixtures.
- So is the behaviour of foreign code: `uuid5`, `get_oid`, and the check a compiled JSON schema performs.

## Model

| member | source | states |
|---|---|---|
| SchemaClassify.FirstIsUpper | iceberg_tools/schema/__init__.py:261 | `x[0].isupper()`: for a non-empty string, whether its first character is upper case; an empty string fails; only strings and lists can be indexed |
| SchemaClassify.IsListOfAny | iceberg_tools/schema/__init__.py:251-261 | true only for a dict with `type == 'array'` and dict `items`; false for non-dicts, other types and absent or None `items`; otherwise whether `items.type` or `items.$ref` (default `'xxx'`) starts upper case |
| SchemaClassify.IsListOfType | iceberg_tools/schema/__init__.py:243-248 | a list of `T` is a list of any type; it fails exactly when `_is_list_of_any` fails; for a list, true iff `items.type == T` or `items.$ref == T.yaml` |
| SchemaClassify.PropsOf | iceberg_tools/schema/__init__.py:266-269 | a schema without `properties` has none; otherwise the properties dict itself |
| SchemaClassify.WithProps | iceberg_tools/schema/__init__.py:124-151 | replacing `schema['properties']` sets that key and keeps every other key and the key order |
| SchemaClassify.ScalarOfType | iceberg_tools/schema/__init__.py:264-272 | empty without `properties`; otherwise exactly the dict properties whose `type == T` or `$ref == T.yaml`, with unique keys |
| SchemaClassify.ListOfType | iceberg_tools/schema/__init__.py:275-282 | empty without `properties`; fails iff some property's classification fails; otherwise exactly the properties that are lists of `T`, each a list of any type |
| SchemaClassify.ListOfAnyType | iceberg_tools/schema/__init__.py:285-292 | empty without `properties`; otherwise exactly the properties that are lists of an embedded type |
| SchemaClassify.IsScalarOfAny | iceberg_tools/schema/__init__.py:299-301 | false for non-dicts; for string `type`/`$ref` (default `''`), whether either contains `.yaml` |
| SchemaClassify.ScalarOfAnyType | iceberg_tools/schema/__init__.py:295-303 | empty without `properties`; otherwise exactly the dict properties whose `type` or `$ref` contains `.yaml` |
| SchemaClassify.TargetsOf | iceberg_tools/schema/__init__.py:235 | `v.get('enum_reference_types', [])`: empty when absent, the list itself when present; a non-dict fails |
| SchemaClassify.RefTargets | iceberg_tools/schema/__init__.py:235-236 | the flattening succeeds iff every reference's targets can be read, and contains every target of every reference |
| SchemaClassify.Contested | iceberg_tools/schema/__init__.py:232-240 | reference definition: a target is contested iff it occurs more than once |
| SchemaClassify.CountContested | iceberg_tools/schema/__init__.py:237-239 | the counting loop fails iff some target is unhashable (a list or dict), and otherwise returns exactly the contested targets |
| SchemaClassify.TargetsToItemize | iceberg_tools/schema/__init__.py:232-240 | `_targets_to_itemize` returns exactly the targets counted more than once across all references' `enum_reference_types` |
| SchemaExtract.WithBackref | iceberg_tools/schema/__init__.py:208 | on a property dict, `backref` is set to the name and every other key is kept |
| SchemaExtract.SetBackrefs | iceberg_tools/schema/__init__.py:206-208 | the loop succeeds exactly when every reference's backref name can be computed; then every reference property carries its own backref, the key set is unchanged and every other property is untouched (the reference dicts are the ones stored in the properties) |
| SchemaExtract.BaseBackref | iceberg_tools/schema/__init__.py:205 | defined exactly when `$id` is a string, and then it is the underscored `$id` |
| SchemaExtract.ScalarRefs | iceberg_tools/schema/__init__.py:214-215 | holds exactly the properties that are scalar Reference or CodeableReference properties; fails only when there are no readable properties |
| SchemaExtract.ListRefs | iceberg_tools/schema/__init__.py:201-202 | holds exactly the properties that are lists of Reference or CodeableReference; fails exactly when some property's list classification raises |
| SchemaExtract.AllRefs | iceberg_tools/schema/__init__.py:189-192 | holds exactly the properties in any of the four reference categories; fails exactly when one of the two collections fails |
| SchemaExtract.TargetSet | iceberg_tools/schema/__init__.py:222 | the set of the property's `enum_reference_types` (default empty); fails when the value is not iterable or holds an unhashable element |
| SchemaExtract.ScalarBackref | iceberg_tools/schema/__init__.py:222-226 | `{k}_{base}` when some target is contested, the base name when none is; fails exactly when the target set does |
| SchemaExtract.ListBackref | iceberg_tools/schema/__init__.py:207 | starts with `{k}_`, ends with the base name, and is exactly one character longer than the two together |
| SchemaExtract.DecorateScalarBackrefs | iceberg_tools/schema/__init__.py:212-229 | on success, every scalar reference has its scalar backref and nothing else changes, and the base name was computed whenever there was a reference; it succeeds whenever the properties, `$id` (if needed) and every target set can be read |
| SchemaExtract.DecorateListBackrefs | iceberg_tools/schema/__init__.py:199-209 | on success, every list reference has backref `{k}_{base}` and nothing else changes; it succeeds whenever the list references can be collected and `$id` is a string (if needed) |
| SchemaExtract.TwoPasses | iceberg_tools/schema/__init__.py:194-195 | the scalar pass followed by the list pass leaves list references with `{k}_{base}`, scalar-only references with their scalar backref and every other property unchanged |
| SchemaExtract.BackrefsDoneHasBackref | iceberg_tools/schema/__init__.py:188 | after both passes every reference property carries a backref |
| SchemaExtract.DecorateBackrefs | iceberg_tools/schema/__init__.py:187-196 | the contested targets are counted over all four categories before either pass; on success the schema reaches that final state with only `properties` changed; it succeeds whenever the references, their targets (hashable) and `$id` (if needed) can be read |
| SchemaBindings.OrNull | iceberg_tools/schema/__init__.py:175-176 | `binding.get(k, None)`: the value when present, `null` otherwise |
| SchemaBindings.SplitValueSet | iceberg_tools/schema/__init__.py:177-181 | a uri without `|` is kept whole with version `null`; the two-name unpacking succeeds exactly when the split has at most two parts, and then the uri is the two parts joined by `|`; a value that is not a string, dict or list fails |
| SchemaBindings.ValueSetRoundTrip | iceberg_tools/schema/__init__.py:180-181 | `uri|version` with one bar splits back into exactly `uri` and `version` |
| SchemaBindings.BindProp | iceberg_tools/schema/__init__.py:170-171 | a property without an element row is left as it is |
| SchemaBindings.BindPropStrength | iceberg_tools/schema/__init__.py:173-176 | a property with a binding gains `binding_strength` and `binding_description` from the binding (or `null`), and every other key is kept |
| SchemaBindings.BindPropVersioned | iceberg_tools/schema/__init__.py:177-183 | a `uri|version` value set gives `binding_uri = uri` and `binding_version = version` |
| SchemaBindings.BindPropUnversioned | iceberg_tools/schema/__init__.py:177-183 | a value set without `|` gives `binding_uri` the whole value and `binding_version = null` |
| SchemaBindings.DecorateBindings | iceberg_tools/schema/__init__.py:158-184 | the title is read first, so a schema without `title` raises KeyError whether or not there are rows; with a title and no rows the schema is returned unchanged; on success every property is passed through `BindProp`, only `properties` changes and its key set is kept |
| SchemaStyle.CleanDescription | iceberg_tools/schema/__init__.py:117-119 | the cleaned class description holds no newline |
| SchemaStyle.CleanSingleLine | iceberg_tools/schema/__init__.py:117-119 | a description that is already one line comes through unchanged |
| SchemaStyle.SeeAlso | iceberg_tools/schema/__init__.py:121 | the appended pointer starts with ` [See https://hl7.org/fhir/R5/` and ends with `.html]` (or `]` for the older copy in tools/schema/__init__.py:58) |
| SchemaStyle.RetypeProp | iceberg_tools/schema/__init__.py:138-143 | an upper-case `type` becomes `$ref: {type}.yaml` with `type` removed; a property whose type is not upper case is kept; every other key is kept; it fails exactly when `type[0].isupper()` raises |
| SchemaStyle.RetypePropIdempotent | iceberg_tools/schema/__init__.py:138-143 | restyling a restyled property changes nothing |
| SchemaStyle.RetypeItems | iceberg_tools/schema/__init__.py:144-151 | an upper-case `items.type` becomes `items.$ref`; other properties are kept; keys other than `items` are kept |
| SchemaStyle.RetypeItemsKeepsType | iceberg_tools/schema/__init__.py:144-151 | restyling `items` does not change whether the property's own type is upper case |
| SchemaStyle.RenameResourceType | iceberg_tools/schema/__init__.py:124-127 | `resource_type` moves to `resourceType` with the fixed FHIR description; nothing else changes; it fails exactly when the property is not a dict; without `resource_type` the properties are returned unchanged |
| SchemaStyle.RenameFor | iceberg_tools/schema/__init__.py:129-132 | `for` moves to `for_fhir` with the reserved-word prefix put before its description; nothing else changes; it fails exactly when the property is not a dict with a string description |
| SchemaStyle.RetypedProp | iceberg_tools/schema/__init__.py:138-151 | after both loops neither the property nor its `items` is typed with an upper-case name |
| SchemaStyle.RetypedDescription | iceberg_tools/schema/__init__.py:138-151 | the two loops keep a property's description |
| SchemaStyle.RetypedStyled | iceberg_tools/schema/__init__.py:138-151 | after both loops over all properties the keys are unchanged and every property is styled |
| SchemaStyle.RetypedKeepsDescription | iceberg_tools/schema/__init__.py:138-151 | after both loops over all properties each property keeps its description |
| SchemaStyle.Renamed | iceberg_tools/schema/__init__.py:124-132 | after both renames neither `resource_type` nor `for` is left, and every other property is unchanged |
| SchemaStyle.RenamedResourceType | iceberg_tools/schema/__init__.py:124-127 | a renamed `resourceType` carries the fixed description |
| SchemaStyle.RenamedFor | iceberg_tools/schema/__init__.py:129-132 | a renamed `for_fhir` carries a description that starts with the reserved-word prefix |
| SchemaStyle.StyleProps | iceberg_tools/schema/__init__.py:124-151 | the styled properties have unique keys, are styled, hold neither `resource_type` nor `for`, carry the renamed properties with their descriptions, and keep every other key |
| SchemaStyle.Decorate | iceberg_tools/schema/__init__.py:111-115 | `$id` is the title; only `properties` and `$id` change; the property keys are kept |
| SchemaStyle.Described | iceberg_tools/schema/__init__.py:117-121 | fails exactly when the description is not a string; otherwise the description is the cleaned text followed by the pointer and nothing else changes |
| SchemaStyle.DescribedOneLine | iceberg_tools/schema/__init__.py:117-121 | the description ends with the pointer and holds no newline before it |
| SchemaStyle.StyleSchema | iceberg_tools/schema/__init__.py:124-151 | only `properties` changes; the styled properties meet everything `StyleProps` promises |
| SchemaStyle.ExtractSchema | iceberg_tools/schema/__init__.py:108-153 | a schema without `title` fails with an assertion; on success `$id` and `title` equal the title, the description is one line ending with the pointer, and the properties are styled and renamed |
| SchemaStyle.ExtractSchemaTools | tools/schema/__init__.py:46-88 | the older copy: the same steps with the pointer lacking `.html` |
| SchemaPasses.PropsAt | iceberg_tools/schema/gen3.py:348 | `schema['properties']`: succeeds exactly when it is a dict, and raises `KeyError` when it is missing |
| SchemaPasses.KeptProps | iceberg_tools/schema/gen3.py:348-353 | keeps exactly the properties whose name is neither ignored nor starts with `_`, with their values |
| SchemaPasses.RemoveIgnored | iceberg_tools/schema/gen3.py:344-353 | succeeds exactly when `properties` is a dict, and then replaces it by the kept properties |
| SchemaPasses.IgnoredNames | iceberg_tools/schema/gen3.py:347-351 | collects exactly the names that are ignored or start with `_` |
| SchemaPasses.IgnoredNamesDistinct | iceberg_tools/schema/gen3.py:347-351 | the names collected from a dict's keys are distinct, so each `del` finds its key |
| SchemaPasses.Without | iceberg_tools/schema/gen3.py:352-353 | after the deletions a key is present exactly when it was and was not deleted |
| SchemaPasses.WithoutKept | iceberg_tools/schema/gen3.py:347-353 | deleting exactly the ignored names leaves the kept properties |
| SchemaPasses.CollectIgnored | iceberg_tools/schema/gen3.py:347-351 | the first loop collects the ignored names in property order |
| SchemaPasses.DeleteNames | iceberg_tools/schema/gen3.py:352-353 | the second loop deletes exactly the collected names |
| SchemaPasses.RemoveIgnoredProperties | iceberg_tools/schema/gen3.py:344-353 | the two loops together compute `RemoveIgnored` |
| SchemaPasses.WithoutIgnored | iceberg_tools/schema/gen3.py:347-353 | deleting the collected names gives the kept properties |
| SchemaPasses.RemoveFirst | iceberg_tools/schema/gen3.py:466 | `list.remove` succeeds exactly when the item is in the list, and raises `ValueError` otherwise |
| SchemaPasses.RemoveFirstAt | iceberg_tools/schema/gen3.py:466 | it removes the first occurrence and keeps the rest in order |
| SchemaPasses.RemoveRequiredName | iceberg_tools/schema/gen3.py:466-469 | on a list, succeeds exactly when the name is in it; otherwise it raises `ValueError` |
| SchemaPasses.RemoveRequired | iceberg_tools/schema/gen3.py:454-471 | a schema without `properties` or `required` is unchanged; only `required` changes; a `required` that is left is never empty |
| SchemaPasses.RemoveRequiredFlag | iceberg_tools/schema/gen3.py:454-471 | the in-place loop over a copy of `required` computes `RemoveRequired` |
| SchemaPasses.KeptRequired | iceberg_tools/schema/gen3.py:461-469 | keeps exactly the required names whose property is not a reference |
| SchemaPasses.DropRequiredTwice | iceberg_tools/schema/gen3.py:464-469 | a name whose property has both `$ref` and `items.$ref` is removed twice, and the second removal raises `ValueError` |
| SchemaPasses.DropAllKeptAll | iceberg_tools/schema/gen3.py:461-469 | without such a name the loop leaves exactly the kept names, in order |
| SchemaPasses.DropAllBoth | iceberg_tools/schema/gen3.py:461-469 | with such a name the loop raises `ValueError` |
| SchemaPasses.RemoveRequiredKept | iceberg_tools/schema/gen3.py:454-471 | for well-formed `required` names: the kept names remain, and `required` is deleted when none remain |
| SchemaPasses.BothRefsFails | iceberg_tools/schema/gen3.py:464-469 | the first required name with both kinds of `$ref` makes the pass raise `ValueError` |
| SchemaRewrites.RenameOne | iceberg_tools/schema/gen3.py:480-483 | a name not among the original keys is skipped; otherwise the property moves to its new name, failing exactly when the old name is no longer present (an earlier rename removed it) or `properties` is not a dict |
| SchemaRewrites.RenameAll | iceberg_tools/schema/gen3.py:480-483 | no renames leaves the properties unchanged; renaming a dict gives a dict |
| SchemaRewrites.Rename | iceberg_tools/schema/gen3.py:474-483 | a schema without `properties` is unchanged; only `properties` changes |
| SchemaRewrites.RenameProperties | iceberg_tools/schema/gen3.py:474-484 | the loop over the configured renames computes `Rename` |
| SchemaRewrites.RenameAllOk | iceberg_tools/schema/gen3.py:480-483 | distinct old names that are all present rename without error |
| SchemaRewrites.RenameStep | iceberg_tools/schema/gen3.py:482-483 | one rename puts the old value under the new name, removes the old name and keeps every other key |
| SchemaRewrites.RenameAllMoves | iceberg_tools/schema/gen3.py:480-483 | with well-formed renames (old and new names all distinct) every property moves to its new name and nothing else changes |
| SchemaRewrites.RenameSelfDeletes | iceberg_tools/schema/gen3.py:482-483 | renaming a property to its own name deletes it |
| SchemaRewrites.RenameOk | iceberg_tools/schema/gen3.py:474-483 | distinct old names never make the pass fail |
| SchemaRewrites.RenameMovesAll | iceberg_tools/schema/gen3.py:474-483 | with well-formed renames of present properties, the pass moves each of them and nothing else |
| SchemaRewrites.Describe | iceberg_tools/schema/gen3.py:340-341 | a dict ends with a description: kept when present, otherwise its `title` or `''`; every other key is kept; a string or list passes only when it contains `description`; anything else raises `TypeError` |
| SchemaRewrites.EnsureDescription | iceberg_tools/schema/gen3.py:336-341 | a schema without `properties` raises `KeyError`; only `properties` changes |
| SchemaRewrites.EnsureDescriptions | iceberg_tools/schema/gen3.py:336-341 | the loop computes `EnsureDescription` |
| SchemaRewrites.EnsureDescriptionDescribes | iceberg_tools/schema/gen3.py:336-341 | when every property is a dict, every property has a description afterwards, the keys are kept, and a property that had one is unchanged |
| SchemaRewrites.DescribeIdempotent | iceberg_tools/schema/gen3.py:340-341 | describing a described property changes nothing |
| SchemaRewrites.EnsureDescriptionIdempotent | iceberg_tools/schema/gen3.py:336-341 | running the pass twice is the same as running it once |
| SchemaRewrites.SetItem | iceberg_tools/schema/gen3.py:444 | item assignment succeeds exactly on a dict and puts the value under the key |
| SchemaRewrites.SetAllUpdate | iceberg_tools/schema/gen3.py:443-444 | assigning every snippet in turn is a dict update with the snippets |
| SchemaRewrites.Snippets | iceberg_tools/schema/gen3.py:443 | the snippets must be a dict; otherwise `.items()` fails |
| SchemaRewrites.AddExtra | iceberg_tools/schema/gen3.py:436-451 | a schema without `properties` is unchanged; one without `title` raises `KeyError`; only `properties` changes, and it ends with the fixed `project_id` property |
| SchemaRewrites.AddExtraProperties | iceberg_tools/schema/gen3.py:436-451 | the loop computes `AddExtra` |
| SchemaRewrites.AddExtraSnippets | iceberg_tools/schema/gen3.py:442-451 | without configured snippets only `project_id` is set; with them the properties are updated by the snippets and then `project_id` is set |
| SchemaRewrites.AddExtraValues | iceberg_tools/schema/gen3.py:443-451 | `project_id` is always the fixed property; a snippet's key takes the snippet's value; every other key keeps its value |
| SchemaRewrites.Boilerplate | iceberg_tools/schema/gen3.py:176-178 | sets `program` and `project` to `*` and `additionalProperties` to true, and keeps every other key |
| SchemaRewrites.MoveId | iceberg_tools/schema/gen3.py:182-184 | without `$id` nothing changes; with it, it succeeds exactly when `$id` is a string, and then `id` is its underscored form and `$id` is gone; every other key is kept |
| SchemaRewrites.CategoryOf | iceberg_tools/schema/gen3.py:179 | `config_categories.get(title, 'Clinical')` |
| SchemaRewrites.Scaffold | iceberg_tools/schema/gen3.py:168-184 | a schema without `properties` is skipped; one without `title` raises `KeyError`, an unhashable title fails; otherwise the boilerplate, the category and the `$id` move |
| SchemaRewrites.ScaffoldSettings | iceberg_tools/schema/gen3.py:176-184 | a scaffolded schema has the three boilerplate settings, its category and no `$id` |
| SchemaRewrites.ScaffoldId | iceberg_tools/schema/gen3.py:182-184 | `id` is the underscored `$id` when there was one, and the old `id` otherwise |
| SchemaRewrites.ScaffoldFrame | iceberg_tools/schema/gen3.py:168-184 | every key other than the six it sets is kept |
| SchemaRewrites.ScaffoldIdempotent | iceberg_tools/schema/gen3.py:168-184 | scaffolding a scaffolded schema changes nothing |
| SchemaRewrites.ScaffoldUnique | iceberg_tools/schema/gen3.py:168-184 | scaffolding keeps the schema's keys unique |
| SchemaRewrites.BoilerplateSame | iceberg_tools/schema/gen3.py:176-178 | a schema that already has the boilerplate is unchanged by it |
| SchemaRewrites.RetypeItems | iceberg_tools/schema/gen3.py:194-195 | succeeds exactly when `identifier.items` is a dict with `$ref`, and then `items.type` is `string` and `items.$ref` is gone |
| SchemaRewrites.Prefixed | iceberg_tools/schema/gen3.py:197-202 | the deep copy's description gets the prefix; it fails exactly when the description is not a string; nothing else changes |
| SchemaRewrites.WithIdentifier | iceberg_tools/schema/gen3.py:194-203 | `identifier`, `identifier_text_coding` and `identifier_coding` take the new values and every other property is kept |
| SchemaRewrites.SimplifyIdentifiers | iceberg_tools/schema/gen3.py:187-203 | a schema without `properties` is skipped; only `properties` changes |
| SchemaRewrites.GuardAgrees | iceberg_tools/schema/simplified.py:213-214 | the `items` guard of the simplified copy changes nothing wherever the unguarded pass succeeds |
| SchemaRewrites.IdentifierCopies | iceberg_tools/schema/gen3.py:194-203 | the rewritten identifier is a list of strings, and the two copies carry the two prefixes before the original description |
| SchemaRewrites.IdentifiersRewritten | iceberg_tools/schema/gen3.py:187-203 | a plain identifier property is rewritten and its two copies added, whichever copy of the pass runs |
| SchemaRewrites.IdentifiersVersions | iceberg_tools/schema/simplified.py:205-225 | an identifier without `items` is skipped by the simplified copy and raises `KeyError` in the gen3 copy (gen3.py:194); everywhere else the two copies agree |
| SchemaLinks.LinkJsonFields | iceberg_tools/schema/gen3.py:418-425 | a link dict carries `many_to_many`, `required: false` and the link's target type, name, label and backref |
| SchemaLinks.LinksJson | iceberg_tools/schema/gen3.py:433 | one link dict per link, in order |
| SchemaLinks.TargetTypes | iceberg_tools/schema/gen3.py:388 | exactly the target types of the links so far (the `targets` dict's keys) |
| SchemaLinks.PermittedFor | iceberg_tools/schema/gen3.py:364-366 | the configured destinations of the title, `None` without any, and failure exactly when the title is unhashable |
| SchemaLinks.FirstIndex | iceberg_tools/schema/gen3.py:371 | `names.index(x)`: the first position holding `x` |
| SchemaLinks.SubjectFirst | iceberg_tools/schema/gen3.py:369-371 | a permutation of the names that puts `subject` first when it is present and changes nothing otherwise |
| SchemaLinks.IsLinkCandidate | iceberg_tools/schema/gen3.py:375-384 | a non-dict is skipped; a truthy non-array `type` is skipped; otherwise a property without `items` is a candidate exactly when its `$ref` is a Reference |
| SchemaLinks.CandidatesSpec | iceberg_tools/schema/gen3.py:373-385 | the selection succeeds exactly when every property can be classified, holds only candidates, holds every candidate, and keeps the walk's order |
| SchemaLinks.InScope | iceberg_tools/schema/gen3.py:402-407 | a target outside the dependency order is out; with falsy permitted destinations every target in the order is in; otherwise it must be permitted |
| SchemaLinks.AddTargets | iceberg_tools/schema/gen3.py:399-427 | only appends to the links |
| SchemaLinks.LinksOf | iceberg_tools/schema/gen3.py:390-427 | only appends to the links |
| SchemaLinks.ReferenceCandidates | iceberg_tools/schema/gen3.py:362-385 | on success the title is read, the candidates are exactly the candidate properties with their dicts, and `subject`, when it is one, comes first |
| SchemaLinks.SimplifyReferences | iceberg_tools/schema/gen3.py:356-433 | a schema without `properties` is skipped; only `links` changes; it succeeds exactly when the links can be computed and then holds their dicts; a schema without `title` fails |
| SchemaLinks.SelectCandidates | iceberg_tools/schema/gen3.py:373-385 | the loop computes the candidate selection |
| SchemaLinks.BuildLinks | iceberg_tools/schema/gen3.py:387-427 | the loop computes the links |
| SchemaLinks.CandidateLinks | iceberg_tools/schema/gen3.py:390-427 | one candidate's turn computes its links and keeps `targets` equal to the links' target types |
| SchemaLinks.SimplifySchemaReferences | iceberg_tools/schema/gen3.py:356-433 | the whole loop computes `SimplifyReferences` |
| SchemaLinks.LinksUniqueTargets | iceberg_tools/schema/gen3.py:411-414 | no two links share a target type |
| SchemaLinks.LinksWellFormed | iceberg_tools/schema/gen3.py:398-425 | every link comes from a candidate property and has the shape the loop builds (name, label, backref, target type) |
| SchemaLinks.LinksComplete | iceberg_tools/schema/gen3.py:399-427 | every in-scope, permitted target of a candidate ends with a link to its target type |
| SchemaLinks.FirstCandidateWins | iceberg_tools/schema/gen3.py:411-414 | the first candidate that reaches a target type keeps its link to it |
| SchemaLinks.SubjectLinkWins | iceberg_tools/schema/gen3.py:368-371 | a target reachable through `subject` is linked through `subject` |
| SchemaLinks.MissingBackrefFails | iceberg_tools/schema/gen3.py:401 | a candidate with targets but no `backref` fails the assertion |
| SchemaConcepts.Visit | iceberg_tools/schema/gen3.py:263-272 | one turn of a loop over a snapshot: it fails exactly when the step fails; a property whose key an earlier turn re-bound to a new dict keeps its stored value (the turn mutates a detached dict), and every other key takes the step's result |
| SchemaConcepts.FoldStep | iceberg_tools/schema/gen3.py:263-272 | the walk over the snapshot stops at the first failing turn, and otherwise continues from the state that turn leaves |
| SchemaConcepts.FoldEntries | iceberg_tools/schema/gen3.py:263-272 | the loop over the snapshot, remembering the names visited, computes the walk |
| SchemaConcepts.FoldFrame | iceberg_tools/schema/gen3.py:263-272 | a key that no turn touches keeps its value through the whole walk |
| SchemaConcepts.FoldKeeps | iceberg_tools/schema/gen3.py:263-272 | a key already detached keeps its value when later turns either visit it or do not touch it |
| SchemaConcepts.Pass | iceberg_tools/schema/gen3.py:258-286 | an empty snapshot leaves the schema unchanged; otherwise the walk over the properties succeeds and replaces them |
| SchemaConcepts.RunPass | iceberg_tools/schema/gen3.py:258-286 | the loop over one snapshot computes `Pass` |
| SchemaConcepts.TermDefOf | iceberg_tools/schema/gen3.py:212-219 | the `termDef` names the binding uri as `cde_id`, `term` and `term_url`, with version `None`, source `fhir` and the binding strength |
| SchemaConcepts.TermOf | iceberg_tools/schema/gen3.py:210-220 | the `term` holds the binding description and that `termDef` |
| SchemaConcepts.AddTermDef | iceberg_tools/schema/gen3.py:206-220 | without `binding_uri` nothing changes; with it, it fails with `KeyError` exactly when `binding_strength` is missing, and otherwise sets `term` from the binding and keeps every other key |
| SchemaConcepts.Addendum | iceberg_tools/schema/gen3.py:229 | the strength followed by the enum values joined by a newline and dash; it fails when the strength is not a string or the values cannot be joined |
| SchemaConcepts.AppendDescription | iceberg_tools/schema/gen3.py:230-231 | without a description nothing changes; a string description gets the addendum appended; nothing else changes |
| SchemaConcepts.AddEnum | iceberg_tools/schema/gen3.py:223-231 | without `enum_values` nothing changes; a missing strength raises `KeyError`; a required binding copies `enum_values` into `enum` and then fails with `UnboundLocalError` exactly when there is a description; any other strength appends the addendum |
| SchemaConcepts.AdjustDescription | iceberg_tools/schema/gen3.py:234-240 | for a non-required binding with enum values the addendum is appended; otherwise nothing changes |
| SchemaConcepts.EnumThenAdjust | iceberg_tools/schema/gen3.py:223-240 | `_add_enum` then `_adjust_description` append the addendum twice |
| SchemaConcepts.AddendumAppendedTwice | iceberg_tools/schema/gen3.py:264-266 | a concept with a non-required binding ends with its description followed by the addendum twice |
| SchemaConcepts.RequiredWithDescriptionFails | iceberg_tools/schema/gen3.py:226-231 | a concept with a required binding and a description fails with `UnboundLocalError` |
| SchemaConcepts.AddCoding | iceberg_tools/schema/gen3.py:243-253 | fails with `KeyError` exactly when there is no description; `{name}_coding` is the copy with the coding prefix, `{name}_text` is that same coding copy (the text copy is discarded), and no other key changes |
| SchemaConcepts.TextCopyIsCodingCopy | iceberg_tools/schema/gen3.py:250-253 | `{name}_text` carries the coding prefix, not the text prefix |
| SchemaConcepts.TextRepresentation | iceberg_tools/schema/gen3.py:272 | the property's description gets the `text representation. ` prefix and no other key changes |
| SchemaConcepts.WithStringItems | iceberg_tools/schema/gen3.py:268-269 | `items` becomes a string type and no other key changes |
| SchemaConcepts.AsString | iceberg_tools/schema/gen3.py:282-283 | the property becomes a string type and no other key than `type` and `$ref` changes |
| SchemaConcepts.ListConceptStep | iceberg_tools/schema/gen3.py:263-272 | a list concept ends with string items and the text prefix, its `_coding` and `_text` copies are the same dict with the coding prefix, and no other key changes |
| SchemaConcepts.ScalarConceptStep | iceberg_tools/schema/gen3.py:277-286 | a scalar concept ends a string with the text prefix, its `_coding` and `_text` copies are the same dict with the coding prefix, and no other key changes |
| SchemaConcepts.CodedAndDescribed | iceberg_tools/schema/gen3.py:271-272 | fails exactly without a description; the property gets the text prefix, the coding copy the coding prefix, and `_text` is the coding copy |
| SchemaConcepts.SimplifyCodeableConcepts | iceberg_tools/schema/gen3.py:256-286 | the two loops over their snapshots compute the pass |
| SchemaConcepts.Rebinds | iceberg_tools/schema/gen3.py:248-253 | once a name is visited, its suffixed names are bound to new dicts |
| SchemaConcepts.StoredSurvives | iceberg_tools/schema/gen3.py:263-286 | what a turn stores under a suffixed key is what the walk ends with, when later turns do not touch it |
| SchemaConcepts.ListCopiesAgree | iceberg_tools/schema/gen3.py:261-272 | after the list loop, `{name}_text` and `{name}_coding` agree and carry the coding description |
| SchemaConcepts.ScalarCopiesAgree | iceberg_tools/schema/gen3.py:275-286 | after the scalar loop, `{name}_text` and `{name}_coding` agree and carry the coding description |
| SchemaConcepts.TextNotCoding | iceberg_tools/schema/gen3.py:245-250 | `{n}_coding` never touches `{n}_text` |
| SchemaConcepts.DetachedCodingEntry | iceberg_tools/schema/gen3.py:248-272 | when the snapshot also holds `{n}_coding`, its later turn changes only a detached dict: the final `{n}_coding` is still the coding copy and `{n}_coding_coding` carries the coding prefix |
| SchemaConcepts.TextDescribed | iceberg_tools/schema/gen3.py:296 | fails exactly without a description, and prefixes it otherwise |
| SchemaConcepts.ListQuantityStep | iceberg_tools/schema/gen3.py:295-298 | a list quantity gets the text prefix and string items; no other key changes |
| SchemaConcepts.TypeTitle | iceberg_tools/schema/gen3.py:305-306 | a fresh dict with the given type and title |
| SchemaConcepts.Companions | iceberg_tools/schema/gen3.py:305-306 | `{name}_unit` is a string titled with the unit wording and `{name}_value` a number titled with the value wording; no other key changes |
| SchemaConcepts.ScalarQuantityStep | iceberg_tools/schema/gen3.py:302-308 | succeeds exactly when the property has a title and a description; adds the two companions; no other key changes |
| SchemaConcepts.ScalarQuantityDescribed | iceberg_tools/schema/gen3.py:308 | the scalar quantity gets the text prefix |
| SchemaConcepts.SimplifyQuantities | iceberg_tools/schema/gen3.py:289-308 | the two loops compute the pass |
| SchemaConcepts.QuantityGainsUnitAndValue | iceberg_tools/schema/gen3.py:302-306 | after the loop every scalar quantity has its unit and value companions |
| SchemaConcepts.EmbeddedDescription | iceberg_tools/schema/gen3.py:326-331 | `[Text representation of {ref without .yaml}] {description}`; fails exactly when `$ref` is not a string or the description is missing |
| SchemaConcepts.ListEmbeddedStep | iceberg_tools/schema/gen3.py:325-328 | a list of an embedded type gets string items and loses `items.$ref`; no other key changes |
| SchemaConcepts.ScalarEmbeddedStep | iceberg_tools/schema/gen3.py:330-333 | succeeds exactly with a string `$ref` and a description; the property becomes a string with the new description and without `$ref`; no other key changes |
| SchemaConcepts.SimplifyEmbeddedTypes | iceberg_tools/schema/gen3.py:321-333 | the two loops compute the pass |
| SchemaConcepts.EmbeddedScalarsStringified | iceberg_tools/schema/gen3.py:329-333 | after the loop every embedded scalar is a string without `$ref` |
| SchemaConcepts.EmbeddedListsStringified | iceberg_tools/schema/gen3.py:324-328 | after the loop every embedded list has string items without `$ref` |
| SchemaPluck.PathRoot | iceberg_tools/schema/simplified.py:389 | the root is a prefix of the path, and a path without a dot is its own root |
| SchemaPluck.NestedKey | iceberg_tools/schema/simplified.py:394-395 | the stored name of the rest of a path holds no dot |
| SchemaPluck.TwoLevelPath | iceberg_tools/schema/simplified.py:389-395 | for `p.a` the root is `p` and the rest is stored as `a` |
| SchemaPluck.ThreeLevelPath | iceberg_tools/schema/simplified.py:389-395 | for `p.a.b` the root is `p` and the rest is stored under the single name `a_b` |
| SchemaPluck.RefKey | iceberg_tools/schema/simplified.py:401 | `.replace('.yaml', '')` succeeds exactly on a string |
| SchemaPluck.YamlKey | iceberg_tools/schema/simplified.py:401 | the reference `T.yaml` names the schema `T` |
| SchemaPluck.SchemaAt | iceberg_tools/schema/simplified.py:412-414 | the schema a reference names is the one stored under that key |
| SchemaPluck.NextSchema | iceberg_tools/schema/simplified.py:411-414 | a sub-property without `$ref` or `items` leaves the walk in the same sub-schema |
| SchemaPluck.SubSchema | iceberg_tools/schema/simplified.py:401-403 | the sub-schema is the one stored under the reference's name, and a missing name fails the assertion with that name |
| SchemaPluck.WalkList | iceberg_tools/schema/simplified.py:404-414 | inside an `Extension` schema every stored name becomes the fixed string property; no parts leave the stored value as it was |
| SchemaPluck.ListPaths | iceberg_tools/schema/simplified.py:400-414 | a list property with stored names resolves to a non-empty set of stored values, and only when `items` has a `$ref` |
| SchemaPluck.ScalarPaths | iceberg_tools/schema/simplified.py:419-426 | a scalar property with stored names resolves to a non-empty set of stored values |
| SchemaPluck.ResolveSource | iceberg_tools/schema/simplified.py:397-426 | resolving one plucked property changes only its `_nested_objects`, which stays a non-empty dict |
| SchemaPluck.ExistingNested | iceberg_tools/schema/simplified.py:392-393 | a missing `_nested_objects` starts empty; an existing one is updated |
| SchemaPluck.Request | iceberg_tools/schema/simplified.py:388-395 | a configured path's root is recorded and kept; only `properties` changes; a root that is not a property fails the assertion with the root's name |
| SchemaPluck.Record | iceberg_tools/schema/simplified.py:391-395 | the root is recorded with its `_nested_objects` entry put back in the schema's properties |
| SchemaPluck.Requests | iceberg_tools/schema/simplified.py:388-395 | every configured path's root ends recorded |
| SchemaPluck.Resolves | iceberg_tools/schema/simplified.py:397-426 | the second loop keeps the bookkeeping of the recorded properties |
| SchemaPluck.SetProp | iceberg_tools/schema/simplified.py:410 | writing a plucked dict rewrites that one property of its schema, keeping every other schema |
| SchemaPluck.WriteThrough | iceberg_tools/schema/simplified.py:357 | the write-back keeps the set of schemas |
| SchemaPluck.InsertNested | iceberg_tools/schema/simplified.py:355-359 | adding the stored values keeps the set of schemas |
| SchemaPluck.InsertNestedFrame | iceberg_tools/schema/simplified.py:355-359 | only names starting `{source}_` and the names the values were plucked from change |
| SchemaPluck.InsertAll | iceberg_tools/schema/simplified.py:354-359 | the outer loop keeps the set of schemas |
| SchemaPluck.InsertAllCollects | iceberg_tools/schema/simplified.py:353-359 | every plucked property with stored values is collected for deletion |
| SchemaPluck.PluckedOf | iceberg_tools/schema/simplified.py:428 | one entry per recorded property, in the order first seen, each non-empty when its stored names are |
| SchemaPluck.Listed | iceberg_tools/schema/simplified.py:387 | true exactly when the title is configured; with nothing configured the title is never read; otherwise a missing title raises `KeyError` |
| SchemaPluck.PluckSchema | iceberg_tools/schema/simplified.py:349-361 | a turn keeps the set of schemas |
| SchemaPluck.PluckRemovesRoots | iceberg_tools/schema/simplified.py:360-361 | every configured path's root property is gone from a plucked schema |
| SchemaPluck.DeleteAll | iceberg_tools/schema/simplified.py:360-361 | the deletion loop removes exactly the collected names |
| SchemaPluck.RequestLoop | iceberg_tools/schema/simplified.py:388-395 | the first loop computes `Requests` |
| SchemaPluck.ResolveLoop | iceberg_tools/schema/simplified.py:397-426 | the second loop computes `Resolves` |
| SchemaPluck.InsertNestedLoop | iceberg_tools/schema/simplified.py:355-359 | the inner loop computes `InsertNested` |
| SchemaPluck.InsertLoop | iceberg_tools/schema/simplified.py:354-359 | the outer loop computes `InsertAll` |
| SchemaPluck.AddPlucked | iceberg_tools/schema/simplified.py:349-361 | one schema's turn computes `PluckSchema` |
| SchemaPluck.PluckStep | iceberg_tools/schema/simplified.py:349-350 | a turn keeps the set of schemas |
| SchemaPluck.PluckAll | iceberg_tools/schema/simplified.py:343-361 | the pass keeps the set of schemas |
| SchemaPluck.NothingConfigured | iceberg_tools/schema/simplified.py:343-361 | with nothing configured the pass changes nothing and fails on nothing |
| SchemaPluck.AddPluckedProperties | iceberg_tools/schema/simplified.py:343-361 | the loop over the schemas computes `PluckAll` |
| SchemaPluck.RequestFresh | iceberg_tools/schema/simplified.py:388-395 | a path on a root without stored names records the root with the rest stored as an empty entry |
| SchemaPluck.PluckedOne | iceberg_tools/schema/simplified.py:428 | what the single plucked property carries |
| SchemaPluck.InsertOne | iceberg_tools/schema/simplified.py:355-359 | the stored value gets the `[Plucked from {title}.{source}]` prefix, is written back where it came from and is stored under `{source}_{name}` |
| SchemaPluck.SinglePath | iceberg_tools/schema/simplified.py:349-361 | one path `p.a`: the schema gains `p_a` with the prefixed description, loses `p`, and the value is written back to its origin |
| SchemaPluck.PluckedProps | iceberg_tools/schema/simplified.py:358-361 | afterwards `p_a` holds the plucked value, `p` is gone and every other property is as before |
| SchemaPluck.ResolveOneFails | iceberg_tools/schema/simplified.py:397-426 | a failing second loop fails the whole schema with the same error |
| SchemaPluck.ListResolve | iceberg_tools/schema/simplified.py:398-414 | a list property whose items reference `S.yaml` plucks property `a` of `S`, and records that origin |
| SchemaPluck.ScalarResolve | iceberg_tools/schema/simplified.py:415-426 | a scalar property referencing `S.yaml` plucks property `a` of `S`, and records that origin |
| SchemaPluck.ExtensionResolve | iceberg_tools/schema/simplified.py:404-407 | through an `Extension` item schema every stored name plucks the fixed string property, a fresh dict |
| SchemaPluck.ListPluck | iceberg_tools/schema/simplified.py:343-426 | the path `p.a` on a list property plucks `S.a` into `p_a` with the prefixed description, drops `p`, and rewrites `S.a` in place |
| SchemaPluck.ScalarPluck | iceberg_tools/schema/simplified.py:343-426 | the same for a scalar property |
| SchemaPluck.ExtensionPluck | iceberg_tools/schema/simplified.py:404-407 | through `Extension` the plucked property is the fixed string property with the prefix, and no other schema changes |
| SchemaPluck.ListPluckStep | iceberg_tools/schema/simplified.py:349-361 | the turn of one schema: it gains `p_a`, loses `p`, `S.a` is rewritten, every other schema is unchanged |
| SchemaPluck.PluckedAgain | iceberg_tools/schema/simplified.py:357 | a property plucked a second time, after an earlier turn rewrote it, carries both prefixes, the newer one first |
| SchemaPluck.RootMissing | iceberg_tools/schema/simplified.py:390 | a configured path whose root is not a property fails with that root |
| SchemaPluck.ScalarWholeName | iceberg_tools/schema/simplified.py:420-421 | the scalar walk looks a stored name up whole, and a missing one raises `KeyError` |
| SchemaPluck.ScalarMultiLevelFails | iceberg_tools/schema/simplified.py:395-421 | a three-level path on a scalar property is stored as `a_b` by the first loop, and the second loop then fails looking up `a_b` |
| SchemaOutput.Unordered | iceberg_tools/schema/simplified.py:90 | exactly the schema keys not in the dependency order, each once |
| SchemaOutput.DropVertices | iceberg_tools/schema/simplified.py:90-92 | the deletion loop removes exactly those keys |
| SchemaOutput.Dropped | iceberg_tools/schema/simplified.py:90-92 | a schema survives exactly when its key is in the dependency order |
| SchemaOutput.ExtendWith | iceberg_tools/schema/simplified.py:97 | the extended order starts with the old order and holds exactly the old names and the schema keys |
| SchemaOutput.ExtendWithKnown | iceberg_tools/schema/simplified.py:97 | an order that already names every key is left as it is |
| SchemaOutput.Extend | iceberg_tools/schema/simplified.py:97 | the loop computes `ExtendWith` |
| SchemaOutput.OutputHas | iceberg_tools/schema/simplified.py:100 | an output name is present exactly when some listed key present in the schemas has it |
| SchemaOutput.OutputGet | iceberg_tools/schema/simplified.py:100 | the output under a key's name is that key's schema when no later listed key has the same name |
| SchemaOutput.Present | iceberg_tools/schema/simplified.py:100 | the listed keys that are in the schemas |
| SchemaOutput.Names | iceberg_tools/schema/simplified.py:100 | the output name of every key, in order |
| SchemaOutput.OutputKeys | iceberg_tools/schema/simplified.py:100 | when the names are distinct, the output keys are the names of the present keys, in order |
| SchemaOutput.FreshName | iceberg_tools/schema/simplified.py:100 | a new distinct name is not yet in the output |
| SchemaOutput.Output | iceberg_tools/schema/simplified.py:100 | the dict comprehension computes `OutputOf` |
| SchemaOutput.OrderedNames | iceberg_tools/schema/simplified.py:97-100 | the completed order starts with the dependency order, and an output name is present exactly when some schema key has it |
| SchemaOutput.FinishSchemas | iceberg_tools/schema/simplified.py:89-100 | the finishing steps compute `Simplified` |
| SchemaOutput.OrderedOutput | iceberg_tools/schema/simplified.py:89-100 | after dropping the unordered vertices the order is not extended, and an output name is present exactly when some ordered, present key has it |
| SchemaOutput.SummaryPut | iceberg_tools/schema/simplified.py:52 | the title maps to the new count; other entries are kept; a repeated title does not add an entry |
| SchemaOutput.SummaryFails | iceberg_tools/schema/simplified.py:49-52 | a failure part way through is the loop's failure |
| SchemaOutput.SummaryCounts | iceberg_tools/schema/simplified.py:50-52 | the last schema with a title records that title with its number of properties |
| SchemaOutput.StepCounts | iceberg_tools/schema/simplified.py:50-52 | one schema with a title and properties records its property count |
| SchemaOutput.StepKeeps | iceberg_tools/schema/simplified.py:50-52 | one schema keeps every entry with a different title |
| SchemaOutput.StatLines | iceberg_tools/schema/simplified.py:53 | one line per summary entry, in order |
| SchemaOutput.StatsSorted | iceberg_tools/schema/simplified.py:53 | the joined lines are sorted and are a permutation of the summary's lines |
| SchemaOutput.SummarizeStats | iceberg_tools/schema/simplified.py:46-54 | the loop computes the summary text |
| SchemaSimplify.Lift | iceberg_tools/schema/gen3.py:63-79 | a pass on one stored schema succeeds exactly when the schema is a dict and the pass succeeds on it |
| SchemaSimplify.Each | iceberg_tools/schema/gen3.py:63-79 | a pass over all schemas succeeds exactly when it succeeds on each one, and then rewrites each in place, keeping the keys and their order |
| SchemaSimplify.Run | iceberg_tools/schema/gen3.py:63-79 | a chain of passes keeps the schema keys |
| SchemaSimplify.StaticDependencies | iceberg_tools/schema/gen3.py:92-97 | succeeds exactly when every fixture file is there; the fixtures are added under their file names, every other schema is kept, and the keys stay unique |
| SchemaSimplify.AddGen3StaticDependencies | iceberg_tools/schema/gen3.py:92-97 | the loop over the fixture names computes `StaticDependencies` |
| SchemaSimplify.StaticFails | iceberg_tools/schema/gen3.py:94-97 | a missing fixture part way through is the loop's failure |
| SchemaSimplify.EachAgrees | iceberg_tools/schema/simplified.py:83-87 | replacing a pass by one that agrees wherever it succeeds changes nothing |
| SchemaSimplify.RunAgrees | iceberg_tools/schema/simplified.py:81-87 | the same for a chain of passes |
| SchemaSimplify.EarlyFails | iceberg_tools/schema/gen3.py:63-65 | a schema on which the second pass fails makes the chain fail |
| SchemaSimplify.KeptWithout | iceberg_tools/schema/gen3.py:59-61 | a schema outside the dependency order is deleted before any pass sees it |
| SchemaSimplify.Gen3IgnoresUnordered | iceberg_tools/schema/gen3.py:58-89 | gen3.py's pipeline gives the same result whatever schemas outside the dependency order are added |
| SchemaSimplify.Gen3Names | iceberg_tools/schema/gen3.py:83-87 | the completed order starts with the dependency order, and an output name is present exactly when a kept schema has it |
| SchemaSimplify.PfbNames | iceberg_tools/schema/simplified.py:89-100 | the same for simplified.py's pipeline |
| SchemaSimplify.UnorderedFailure | iceberg_tools/schema/simplified.py:70-92 | a schema outside the order that a pass cannot take fails simplified.py's pipeline, which runs the passes before deleting it, and does not affect gen3.py's |
| SchemaSimplify.OrderedFailure | iceberg_tools/schema/gen3.py:58-79 | a schema in the order that a pass cannot take fails both pipelines |
| SchemaSimplify.PipelinesAgree | iceberg_tools/schema/simplified.py:57-100 | when every schema is in the order and nothing is plucked, the two pipelines agree wherever gen3.py's succeeds |
| SchemaSimplify.NothingUnordered | iceberg_tools/schema/gen3.py:59-61 | with every schema in the order nothing is deleted |
| SchemaSimplify.PreparedWithoutProperties | iceberg_tools/schema/gen3.py:63-65 | a schema without `properties` passes `_remove_required_flag` and fails `_ensure_description` with `KeyError` |
| SchemaSimplify.FinishedAgree | iceberg_tools/schema/simplified.py:205-225 | the later pass lists of the two files agree pass by pass wherever gen3.py's succeeds (only the identifier pass differs) |
| SchemaSimplify.OrdersAgree | iceberg_tools/schema/simplified.py:57-100 | for a configuration without nested objects and schemas all in the order, simplified.py's `_simplify_schemas` agrees with gen3.py's wherever that succeeds |
| SchemaSimplify.UnorderedWithoutProperties | iceberg_tools/schema/simplified.py:70-92 | a schema without `properties` and outside the order fails simplified.py's `_simplify_schemas` and does not change gen3.py's |
| SchemaSimplify.OrderedWithoutProperties | iceberg_tools/schema/gen3.py:58-72 | a schema without `properties` in the order fails both |
| SchemaSimplify.Gen3OutputNames | iceberg_tools/schema/gen3.py:83-89 | gen3.py's output names are exactly the names of the kept schemas, and the order starts with the dependency order |
| SchemaSimplify.PfbOutputNames | iceberg_tools/schema/simplified.py:96-105 | the same for simplified.py |
| SimplifierRender.DisplayOf | iceberg_tools/data/simplifier/__init__.py:40-42 | a Coding's display when it is set and not empty, the code otherwise |
| SimplifierRender.Flatten | iceberg_tools/data/simplifier/__init__.py:57-59 | flattening the rendered codings gives two entries per coding |
| SimplifierRender.CodingEntryValues | iceberg_tools/data/simplifier/__init__.py:38-46 | a rendered Coding contributes exactly `system#code` to the `coding` values and its display to the unnamed values |
| SimplifierRender.ConceptValues | iceberg_tools/data/simplifier/__init__.py:57-65 | picking the `coding`-named and the unnamed entries out of the flattened codings gives the coded values and the displays, in coding order |
| SimplifierRender.ConceptCodes | iceberg_tools/data/simplifier/__init__.py:57-62 | the coded values of a concept, in coding order |
| SimplifierRender.ConceptDisplays | iceberg_tools/data/simplifier/__init__.py:57-63 | the displays of a concept, in coding order |
| SimplifierRender.Codes | iceberg_tools/data/simplifier/__init__.py:57-62 | one `system#code` string per coding, in order |
| SimplifierRender.Displays | iceberg_tools/data/simplifier/__init__.py:38-63 | one display (or code) per coding, in order |
| SimplifierRender.PerCoding | iceberg_tools/data/simplifier/__init__.py:57 | one value per coding, position by position |
| SimplifierRender.ConceptRendered | iceberg_tools/data/simplifier/__init__.py:49-66 | a CodeableConcept renders as its text entry (only when the text is non-empty), then the `coding` entry of all coded values, then the entry of all displays |
| SimplifierRender.CodingRendered | iceberg_tools/data/simplifier/__init__.py:38-46 | a Coding renders as `system#code` named `coding`, then the display, falling back to the code when the display is missing or empty |
| SimplifierRender.ConceptOfRendered | iceberg_tools/data/simplifier/__init__.py:49-66 | a concept without text renders as just the coded-values entry and the displays entry |
| SimplifierRender.ConceptsRendered | iceberg_tools/data/simplifier/__init__.py:49-66 | every concept of a list renders as the two entries of its own codings |
| SimplifierRender.SimpleReference | iceberg_tools/data/simplifier/__init__.py:164-170 | rendering a Reference records exactly its reference string in the collected references |
| SimplifierRender.RenderPrimitives | iceberg_tools/data/simplifier/__init__.py:283-295 | the primitive dictionary always holds `resourceType` |
| SimplifierRender.DropEmpty | iceberg_tools/data/simplifier/__init__.py:346 | an entry is kept exactly when it was there and its value is neither None nor an empty list |
| SimplifierRender.ExtendAt | iceberg_tools/data/simplifier/__init__.py:376-378 | extending the list stored under a name keeps the dictionary's keys |
| SimplifierRender.PutPrefixed | iceberg_tools/data/simplifier/__init__.py:339-340 | storing an item's entries under prefixed names loses no key already present |
| SimplifierRender.ExtensionValue | iceberg_tools/data/simplifier/__init__.py:145-150 | the value an extension yields is one of its own elements |
| SimplifierRender.RenderExtensions | iceberg_tools/data/simplifier/__init__.py:310-347 | every rendered extension value is kept: none is None or an empty list |
| SimplifierRender.SimpleObservation | iceberg_tools/data/simplifier/__init__.py:130-137 | a rendered Observation always has a `category` |
| SimplifierRender.NoDash | iceberg_tools/data/simplifier/__init__.py:375 | replacing `-` by `_` leaves a name without `-` unchanged |
| SimplifierRender.NamedEntryStep | iceberg_tools/data/simplifier/__init__.py:372-380 | a named entry is stored under `element_name`: as a list, or as its first value for a single element |
| SimplifierRender.PlainEntryStep | iceberg_tools/data/simplifier/__init__.py:372-380 | an unnamed entry is stored under the element's own name: as a list, or as its first value for a single element |
| SimplifierRender.NamedExtendStep | iceberg_tools/data/simplifier/__init__.py:376-378 | a named entry appends its values to the list already stored under its name |
| SimplifierRender.PlainExtendStep | iceberg_tools/data/simplifier/__init__.py:376-378 | an unnamed entry appends its values to the list already stored under the element's name |
| SimplifierRender.SingleCodings | iceberg_tools/data/simplifier/__init__.py:354-368 | a single coding element is rendered as a one-item list marked scalar |
| SimplifierRender.ListCodings | iceberg_tools/data/simplifier/__init__.py:354-368 | a list element whose first item is a coding class is rendered item by item, not scalar |
| SimplifierRender.TextStep | iceberg_tools/data/simplifier/__init__.py:372-380 | a concept's text is stored under `k_text` |
| SimplifierRender.CodedStep | iceberg_tools/data/simplifier/__init__.py:372-380 | a concept's coded values are stored under `k_coding` |
| SimplifierRender.DisplayStep | iceberg_tools/data/simplifier/__init__.py:372-380 | a concept's displays are stored under `k` |
| SimplifierRender.ScalarConceptEntries | iceberg_tools/data/simplifier/__init__.py:371-380 | a concept with text, merged as a scalar, gives `k_text`, the first coded value under `k_coding` and the first display under `k` |
| SimplifierRender.ScalarConceptField | iceberg_tools/data/simplifier/__init__.py:350-381 | a single CodeableConcept element `k` renders as exactly the keys `k_text`, `k_coding`, `k`, holding its text, its first coded value and its first display, with no log |
| SimplifierRender.CodeCharStep | iceberg_tools/data/simplifier/__init__.py:378-380 | a single Coding's coded string is stored as its first character, because extending a list by a string adds its characters |
| SimplifierRender.DisplayCharStep | iceberg_tools/data/simplifier/__init__.py:378-380 | a single Coding's display is stored as its first character, for the same reason |
| SimplifierRender.ScalarCodingEntries | iceberg_tools/data/simplifier/__init__.py:371-380 | the two entries of a single Coding give one-character values under `k_coding` and `k` |
| SimplifierRender.ScalarCodingField | iceberg_tools/data/simplifier/__init__.py:350-381 | as written, a single Coding element `k` renders as the first character of `system#code` under `k_coding` and the first character of its display under `k` |
| SimplifierRender.ExtendCodes | iceberg_tools/data/simplifier/__init__.py:376-378 | one more concept appends its coded values to `k_coding` |
| SimplifierRender.ExtendDisplays | iceberg_tools/data/simplifier/__init__.py:376-378 | one more concept appends its displays to `k` |
| SimplifierRender.ExtendLists | iceberg_tools/data/simplifier/__init__.py:371-378 | one more concept appends to both lists |
| SimplifierRender.StartLists | iceberg_tools/data/simplifier/__init__.py:376-378 | the first concept starts both lists |
| SimplifierRender.ListItems | iceberg_tools/data/simplifier/__init__.py:367-378 | the remaining concepts of a list element are appended to both lists in order |
| SimplifierRender.ListConceptField | iceberg_tools/data/simplifier/__init__.py:350-381 | a list element `k` of CodeableConcepts renders as exactly two lists: every coded value under `k_coding` and every display under `k`, concept by concept and coding by coding |
| SimplifierDialect.ValidSimplifiedValue | iceberg_tools/data/simplifier/__init__.py:407-423 | false exactly for a dict or FHIR object, or a non-empty list whose first element is one |
| SimplifierDialect.OnlyHeadChecked | iceberg_tools/data/simplifier/__init__.py:413-416 | only a list's first element is inspected: a list is valid exactly when its head is not nested, whatever follows |
| SimplifierDialect.PathName | iceberg_tools/data/simplifier/__init__.py:437-439 | a path's name is one of its `/` components (or empty) and never `.` |
| SimplifierDialect.LastComponent | iceberg_tools/data/simplifier/__init__.py:439 | the last non-empty component, never `.` |
| SimplifierDialect.LastIndex | iceberg_tools/data/simplifier/__init__.py:438 | the position of the last occurrence of a character, None exactly when it does not occur |
| SimplifierDialect.Suffix | iceberg_tools/data/simplifier/__init__.py:438 | a suffix is empty or a dot followed by dot-free text at the end of the name, shorter than the name |
| SimplifierDialect.DropDots | iceberg_tools/data/simplifier/__init__.py:441-442 | a data type holds no dot |
| SimplifierDialect.NameOf | iceberg_tools/data/simplifier/__init__.py:439 | the file name of `dir/stem.ext` is `stem.ext` |
| SimplifierDialect.SuffixOf | iceberg_tools/data/simplifier/__init__.py:438 | the suffix of `stem.ext` is `.ext` |
| SimplifierDialect.DropDotsOf | iceberg_tools/data/simplifier/__init__.py:441-442 | `.ext` without its dot is `ext` |
| SimplifierDialect.DataTypeOf | iceberg_tools/data/simplifier/__init__.py:437-443 | the data type of `dir/stem.ext` is `ext` and its file name `stem.ext` |
| SimplifierDialect.ScaffoldSteps | iceberg_tools/data/simplifier/__init__.py:432-462 | the url step followed by the copy step sets everything the scaffolding promises |
| SimplifierDialect.ScaffoldStepsUrl | iceberg_tools/data/simplifier/__init__.py:432-457 | the two steps together set data type, data format and file name from the url |
| SimplifierDialect.ScaffoldStepsCopies | iceberg_tools/data/simplifier/__init__.py:458-462 | the two steps together copy checksum, size and id |
| SimplifierDialect.ScaffoldUrl | iceberg_tools/data/simplifier/__init__.py:441-457 | sets `data_type`, the `data_format` of the six known types, and `file_name`, and nothing else |
| SimplifierDialect.ScaffoldCopies | iceberg_tools/data/simplifier/__init__.py:458-462 | copies `content_md5` to `md5sum`, `content_size` to `file_size` and `id` to `object_id`; fails with KeyError exactly when there is no `id` |
| SimplifierDialect.Gen3Scaffolding | iceberg_tools/data/simplifier/__init__.py:426-464 | KeyError without `resourceType`; any other resource type passes through unchanged; an unreadable url raises TypeError; a DocumentReference succeeds exactly when it has an `id` and then carries the Gen3 file properties |
| SimplifierDialect.EnsureDialect | iceberg_tools/data/simplifier/__init__.py:472-480 | a dialect other than GEN3 returns the record unchanged; under GEN3 only a DocumentReference is scaffolded, and a value that is not a dict fails |
| SimplifierDialect.TitlesOfSchemas | iceberg_tools/data/simplifier/__init__.py:489 | the labels are exactly the `title` values of the schemas that have one |
| SimplifierDialect.LinkOfShape | iceberg_tools/data/simplifier/__init__.py:493-499 | a `Type/id` reference links to `id` with the underscored type exactly when the type is a label |
| SimplifierDialect.LinkOfSound | iceberg_tools/data/simplifier/__init__.py:493-499 | a reference that yields a link has exactly two `/`-separated parts and a labelled type |
| SimplifierDialect.LinksHead | iceberg_tools/data/simplifier/__init__.py:492-499 | the links are the first reference's link, if any, followed by the rest's |
| SimplifierDialect.LinksSound | iceberg_tools/data/simplifier/__init__.py:491-499 | every link comes from one of the references |
| SimplifierDialect.LinksComplete | iceberg_tools/data/simplifier/__init__.py:491-499 | every reference that yields a link has that link among the relations |
| SimplifierDialect.LinksAt | iceberg_tools/data/simplifier/__init__.py:492-499 | one step of the loop: None fails on `split`, a malformed reference is skipped after its warning reads `resourceType` and `id`, an unknown label is skipped, otherwise the link is added |
| SimplifierDialect.Gen3RecordShape | iceberg_tools/data/simplifier/__init__.py:501 | the Gen3 record has exactly the keys `id`, `name`, `relations`, `object`; its id is the record's, its name the underscored resource type and its object the record itself |
| SimplifierDialect.Gen3RecordValue | iceberg_tools/data/simplifier/__init__.py:489-501 | the Gen3 record is built from the schemas' titles, the links of the references and the record |
| SimplifierDialect.RenderDialect | iceberg_tools/data/simplifier/__init__.py:483-501 | other dialects return the record as it is; under GEN3 the loop computes the graph-loader record |
| SimplifierDialect.ExtraFields | iceberg_tools/data/simplifier/__init__.py:518 | a key is an extra field exactly when it is among the record's keys and not a schema property |
| SimplifierDialect.CheckUnknown | iceberg_tools/data/simplifier/__init__.py:516-517 | a record whose underscored type has no schema fails with `<type> not in schemas` |
| SimplifierDialect.CheckIff | iceberg_tools/data/simplifier/__init__.py:514-519 | the check passes exactly when every key of the record is a schema property |
| SimplifierDialect.CheckReaches | iceberg_tools/data/simplifier/__init__.py:518-519 | the check passes exactly when there are no extra fields |
| SimplifierDialect.CheckExtra | iceberg_tools/data/simplifier/__init__.py:518-519 | the check fails with the tuple `('extra_fields_not_in_schema', type, extra_fields)` when extra fields exist, and passes otherwise |
| SimplifierDialect.NoExtra | iceberg_tools/data/simplifier/__init__.py:518-519 | no extra fields exactly when every key is a property |
| SimplifierResource.SystemAbsent | iceberg_tools/data/simplifier/__init__.py:113-127 | an identifier without a system is named by the empty string and logs nothing |
| SimplifierResource.SystemUri | iceberg_tools/data/simplifier/__init__.py:121-122 | an RFC 3986 system is named `uri` |
| SimplifierResource.SystemSegment | iceberg_tools/data/simplifier/__init__.py:123-124 | any other system is named after its last `/` segment with `-` written `_`; the name holds neither `/` nor `-` |
| SimplifierResource.SystemOid | iceberg_tools/data/simplifier/__init__.py:117-120 | an OID system is named by the lookup; when the lookup finds nothing the name is empty and exactly one failure message is logged |
| SimplifierResource.ValueOid | iceberg_tools/data/simplifier/__init__.py:100-110 | an OID value is replaced by the name the lookup gives; otherwise it is kept and the failure is logged once |
| SimplifierResource.ValuePlain | iceberg_tools/data/simplifier/__init__.py:100-110 | a value that is not an OID is kept, None when unset |
| SimplifierResource.IdentifierNames | iceberg_tools/data/simplifier/__init__.py:81-97 | an identifier renders under `identifier` and `identifier_coding`, and under `identifier_text_coding` exactly when its type has codings; the type's text adds nothing |
| SimplifierResource.ValuesNamedIn | iceberg_tools/data/simplifier/__init__.py:402 | a value is listed under a name exactly when a rendered entry pairs them |
| SimplifierResource.GroupFromGet | iceberg_tools/data/simplifier/__init__.py:400-402 | each rendered name holds the list of its values in entry order, and no other name changes |
| SimplifierResource.IdentifiersGrouped | iceberg_tools/data/simplifier/__init__.py:384-404 | a name is present exactly when some identifier rendered an entry with it, and holds all values rendered under it in order |
| SimplifierResource.NoIdentifiers | iceberg_tools/data/simplifier/__init__.py:389 | a resource without identifiers renders none |
| SimplifierResource.ReferencesFromProps | iceberg_tools/data/simplifier/__init__.py:298-307 | references are only appended, and a name is present exactly when it was present or names a Reference element |
| SimplifierResource.PrimitivesHas | iceberg_tools/data/simplifier/__init__.py:286-292 | a name is present exactly when it was present or names a set primitive element |
| SimplifierResource.PrimitivesOther | iceberg_tools/data/simplifier/__init__.py:286-292 | a name no element has keeps its value |
| SimplifierResource.PrimitivesGet | iceberg_tools/data/simplifier/__init__.py:287-292 | with distinct element names, every set primitive element is rendered with its own value |
| SimplifierResource.ResourceTypeDefault | iceberg_tools/data/simplifier/__init__.py:293-294 | without a primitive `resourceType` element the resource type is the class name |
| SimplifierResource.ExtensionListValue | iceberg_tools/data/simplifier/__init__.py:333-344 | an extension item's values land under its name; a list of one becomes its element, a longer list stays a list |
| SimplifierResource.ExtensionRendered | iceberg_tools/data/simplifier/__init__.py:140-161 | a string-valued extension whose url ends in `/name` renders as that value under `name` |
| SimplifierResource.ExtensionsOne | iceberg_tools/data/simplifier/__init__.py:314-344 | the extension loop over one extension merges its rendering and adds its trace |
| SimplifierResource.ScalarInto | iceberg_tools/data/simplifier/__init__.py:325-327 | a plain extension value is stored under the extension's name |
| SimplifierResource.ExtensionScalar | iceberg_tools/data/simplifier/__init__.py:310-347 | a resource with one extension rendering to a plain value has exactly that value under the extension's name |
| SimplifierResource.PickedKeys | iceberg_tools/data/simplifier/__init__.py:247-249 | an item adds a name exactly for a configured property, prefixed by the element name |
| SimplifierResource.SubResourceKeys | iceberg_tools/data/simplifier/__init__.py:206-268 | only `<element>_<property>` names of the configured properties are added, and nothing for classes other than DocumentReference and Patient |
| SimplifierResource.ObservationCategory | iceberg_tools/data/simplifier/__init__.py:130-137 | an Observation without a category, or with `[None]`, is given the laboratory category and its coding; otherwise it renders as any resource |
| SimplifierResource.CodingsSkipped | iceberg_tools/data/simplifier/__init__.py:359-366 | without coding elements nothing is added |
| SimplifierResource.GenericDict | iceberg_tools/data/simplifier/__init__.py:271-280 | the classes without their own replacement render through the generic resource renderer |
| SimplifierResource.ReferencesOnly | iceberg_tools/data/simplifier/__init__.py:271-280 | a resource with no extensions, codings, identifiers or sub-resources records only its Reference elements' references |
| SimplifierResource.OutputRefs | iceberg_tools/data/simplifier/__init__.py:164-170 | a task output holding a Reference records that reference |
| SimplifierResource.TaskTrace | iceberg_tools/data/simplifier/__init__.py:197-203 | a task's trace is the resource's trace followed by its outputs' |
| SimplifierResource.TaskFields | iceberg_tools/data/simplifier/__init__.py:197-203 | the elements of a task with a focus, a subject and outputs |
| SimplifierResource.TaskOutput | iceberg_tools/data/simplifier/__init__.py:201-202 | rendering the outputs records the references they hold |
| SimplifierResource.TwoReferences | iceberg_tools/data/simplifier/__init__.py:298-307 | the focus and the subject are recorded in that order; the outputs are not References themselves |
| SimplifierResource.TaskRefs | iceberg_tools/data/simplifier/__init__.py:197-203 | a task records its references in encounter order: `focus`, `for`, then those of its outputs |
| SimplifierResource.TaskRefsOrder | iceberg_tools/data/simplifier/__init__.py:197-203 | a task with one Reference-holding output records exactly three references: focus, for, output |
| Simplifier.LoggedOnce | iceberg_tools/data/simplifier/__init__.py:618-621 | logging keeps the log free of duplicates, keeps what was logged before, and holds exactly the messages seen |
| Simplifier.LoggedAgain | iceberg_tools/data/simplifier/__init__.py:618-621 | logging messages already logged changes nothing |
| Simplifier.Message | iceberg_tools/data/simplifier/__init__.py:605-606 | `str(e)` of an assertion raised with a tuple is that three-element tuple; any other failure is a string |
| Simplifier.Strings | iceberg_tools/data/simplifier/__init__.py:518-519 | the extra fields as a list of strings, in order |
| Simplifier.TupleMessages | iceberg_tools/data/simplifier/__init__.py:517-519 | two failed schema checks give the same message exactly when they name the same type and extra fields, so each distinct failure is logged once |
| Simplifier.SimplifierState.constructor | iceberg_tools/data/simplifier/__init__.py:31 | nothing recorded and nothing logged |
| Simplifier.SimplifierState.DebugOnce | iceberg_tools/data/simplifier/__init__.py:618-621 | a message is appended to the log exactly when it was not logged before; the references are untouched |
| Simplifier.SimplifierState.DebugAll | iceberg_tools/data/simplifier/__init__.py:618-621 | the log after a rendering's messages is the log with each new message appended once |
| Simplifier.SimplifierState.RenderReferencesInPlace | iceberg_tools/data/simplifier/__init__.py:298-307 | the loop computes the references dictionary and appends each reference to the recorded list as it is met |
| Simplifier.SimplifierState.Simplify | iceberg_tools/data/simplifier/__init__.py:504-511 | the rendering's failure is returned; otherwise the recorded references are exactly those met while rendering, its messages are logged once each, and the dialect's scaffolding is applied |
| Simplifier.SimplifierState.SimplifyResource | iceberg_tools/data/simplifier/__init__.py:600-612 | a resource succeeds only when it renders to a non-empty flat record; FHIR gives that record, GEN3 a graph-loader record whose object is flat |
| Simplifier.ReferencesStep | iceberg_tools/data/simplifier/__init__.py:302-306 | one step of the references loop |
| Simplifier.PrimitivesStep | iceberg_tools/data/simplifier/__init__.py:287-292 | one step of the primitives loop |
| Simplifier.RenderPrimitivesLoop | iceberg_tools/data/simplifier/__init__.py:283-295 | the loop computes the primitive dictionary |
| Simplifier.AllValidOf | iceberg_tools/data/simplifier/__init__.py:609 | true exactly when every value of the record passes `validate_simplified_value` |
| Migrator.Assign | iceberg_tools/data/migrator/__init__.py:59 | the key holds the new value and no other key changes |
| Migrator.Remove | iceberg_tools/data/migrator/__init__.py:54 | the key is gone and no other key changes |
| Migrator.Replace | iceberg_tools/data/migrator/__init__.py:77-78 | the old key is gone, the new key holds the value, nothing else changes |
| Migrator.Move | iceberg_tools/data/migrator/__init__.py:92-93 | moving a missing key raises KeyError; otherwise the value moves to the new key and nothing else changes |
| Migrator.Rename | iceberg_tools/data/migrator/__init__.py:150-152 | the value moves to the new key when the old key is there; the old key is gone afterwards |
| Migrator.OrganizationContact | iceberg_tools/data/migrator/__init__.py:51-57 | the contact holds the first address when there is an address and the telecom when there is one, and is empty exactly when there is neither |
| Migrator.OrganizationContacts | iceberg_tools/data/migrator/__init__.py:50-59 | fails exactly when the address has no first element; otherwise address and telecom are gone, `contact` is the one-contact list when either was there, and nothing else changes |
| Migrator.MigrateOrganization | iceberg_tools/data/migrator/__init__.py:48-59 | other types are untouched; an Organization fails exactly when its address has no first element, and otherwise loses `address` and `telecom`, gains the one-entry `contact` list when either was there, and keeps every other key (`individual` among them) |
| Migrator.OrganizationSettled | iceberg_tools/data/migrator/__init__.py:48-59 | an Organization with neither address nor telecom is migrated to itself |
| Migrator.CollectionRewritable | iceberg_tools/data/migrator/__init__.py:66-70 | the `bodySite` test succeeds on a dict, and otherwise exactly when `in` answers no; its failure is a TypeError |
| Migrator.MigrateSpecimen | iceberg_tools/data/migrator/__init__.py:62-70 | other types are untouched; a Specimen loses its collection after the `bodySite` rewrite |
| Migrator.SpecimenSettled | iceberg_tools/data/migrator/__init__.py:62-70 | a Specimen without a collection is migrated to itself |
| Migrator.MigratePractitionerRole | iceberg_tools/data/migrator/__init__.py:73-78 | other types are untouched; a PractitionerRole's telecom moves into a one-element contact list |
| Migrator.MoveActors | iceberg_tools/data/migrator/__init__.py:89-91 | the participant loop succeeds exactly when every participant is a dict with an individual, and then moves each one's individual to actor, element by element |
| Migrator.EncounterParticipants | iceberg_tools/data/migrator/__init__.py:84-91 | KeyError without `class` or `participant`; otherwise the class is wrapped as a concept, every participant's individual becomes its actor, and nothing else changes |
| Migrator.EncounterReasons | iceberg_tools/data/migrator/__init__.py:94-99 | `reasonCode` becomes a one-element `reason` list and `hospitalization` becomes `admission`, each only when present; nothing else changes |
| Migrator.MigrateEncounter | iceberg_tools/data/migrator/__init__.py:81-99 | other types are untouched; an Encounter is migrated by the three steps of `migrate_encounter` |
| Migrator.EncounterOnce | iceberg_tools/data/migrator/__init__.py:92-93 | a migrated Encounter has no period, so migrating it again fails |
| Migrator.DropFormats | iceberg_tools/data/migrator/__init__.py:105-107 | the content loop succeeds exactly when every entry can be tested, and then drops the format of each entry and nothing else |
| Migrator.EncounterContext | iceberg_tools/data/migrator/__init__.py:108-110 | a context naming an encounter is replaced by it, and fails with KeyError without a period; other contexts are kept |
| Migrator.RelatedSubject | iceberg_tools/data/migrator/__init__.py:111-112 | a context with related entries gives its first entry as the subject, and fails when there is none; without related entries there is no subject |
| Migrator.DocumentContent | iceberg_tools/data/migrator/__init__.py:105-107 | KeyError without content; otherwise every content entry loses its format and nothing else changes |
| Migrator.DocumentContext | iceberg_tools/data/migrator/__init__.py:108-113 | the two context steps succeed exactly when the context can be read, then set context and subject as they promise and change nothing else |
| Migrator.MigrateDocumentReference | iceberg_tools/data/migrator/__init__.py:102-113 | other types are untouched; a DocumentReference is migrated by the content and context steps |
| Migrator.ContextChain | iceberg_tools/data/migrator/__init__.py:108-113 | a context with an encounter and a period is replaced by the encounter, and when that has related entries the first becomes the subject and the context is removed |
| Migrator.SampledInterval | iceberg_tools/data/migrator/__init__.py:119-123 | sampled data gets interval unit `/s` and its period as the interval, loses the period, and fails with KeyError without one |
| Migrator.MigrateObservation | iceberg_tools/data/migrator/__init__.py:116-125 | other types are untouched; an Observation's sampled data is rewritten and its status defaults to `final` |
| Migrator.ObservationOnce | iceberg_tools/data/migrator/__init__.py:119-123 | a migrated Observation with sampled data has no period there, so migrating it again fails with KeyError |
| Migrator.ReasonReferences | iceberg_tools/data/migrator/__init__.py:143 | each reason reference wrapped as `{'reference': _}`, in order |
| Migrator.MedicationRenames | iceberg_tools/data/migrator/__init__.py:131-137 | KeyError without `effectiveDateTime` or `medicationCodeableConcept`; otherwise they become `occurenceDateTime` and `medication.concept`, and nothing else changes |
| Migrator.MedicationReasons | iceberg_tools/data/migrator/__init__.py:139-144 | KeyError without `context`; otherwise it becomes `encounter`, and reason references become `reason` entries; nothing else changes |
| Migrator.MigrateMedicationAdministration | iceberg_tools/data/migrator/__init__.py:128-144 | other types are untouched; a MedicationAdministration is migrated by both steps |
| Migrator.MedicationAdministrationOnce | iceberg_tools/data/migrator/__init__.py:131-132 | a migrated MedicationAdministration has no effective time, so migrating it again fails with KeyError |
| Migrator.MigrateResearchSubject | iceberg_tools/data/migrator/__init__.py:147-152 | other types are untouched; a ResearchSubject's individual becomes its subject |
| Migrator.ResearchSubjectSettled | iceberg_tools/data/migrator/__init__.py:147-152 | a ResearchSubject without an individual is migrated to itself |
| Migrator.PartyList | iceberg_tools/data/migrator/__init__.py:165-167 | the party list is created when missing, and its `append` fails with AttributeError unless it is a list |
| Migrator.StudyInvestigator | iceberg_tools/data/migrator/__init__.py:163-182 | the principal investigator is appended to the parties with the primary-investigator role and removed |
| Migrator.StudyRenames | iceberg_tools/data/migrator/__init__.py:184-193 | status defaults to `active`, focus becomes condition, enrollment becomes recruitment, nothing else changes |
| Migrator.StudySponsor | iceberg_tools/data/migrator/__init__.py:201-220 | the sponsor's reference is appended as a sponsor party and the sponsor removed; the list is looked up first |
| Migrator.StudyRecruitment | iceberg_tools/data/migrator/__init__.py:228-232 | the recruitment is read as a first group and then deleted, so no recruitment is left |
| Migrator.MigrateResearchStudy | iceberg_tools/data/migrator/__init__.py:155-232 | other types are untouched; a ResearchStudy is migrated by the five steps of `migrate_research_study` |
| Migrator.StudyInvestigatorFails | iceberg_tools/data/migrator/__init__.py:165-167 | without a list to append the investigator to, the study migration fails |
| Migrator.StudySponsorFails | iceberg_tools/data/migrator/__init__.py:202-216 | a failing sponsor step makes the study migration fail |
| Migrator.StudyParties | iceberg_tools/data/migrator/__init__.py:163-220 | the parties left are the investigator's and then the sponsor's, added to those there before |
| Migrator.StudyPartiesGone | iceberg_tools/data/migrator/__init__.py:182-220 | the investigator and the sponsor are removed |
| Migrator.ResearchStudySettled | iceberg_tools/data/migrator/__init__.py:155-232 | a ResearchStudy with a status and none of the old keys is migrated to itself |
| Migrator.EarlierRules | iceberg_tools/data/migrator/__init__.py:35-38 | only the rule for the resource's type among the first four applies |
| Migrator.LaterRules | iceberg_tools/data/migrator/__init__.py:39-43 | only the rule for the resource's type among the last five applies |
| Migrator.MigrateResource | iceberg_tools/data/migrator/__init__.py:22-45 | fails with AssertionError without `resourceType`; any other type is returned unchanged; each of the nine types is migrated by its own rule only |
| Graph.FirstOr | iceberg_tools/graph/__init__.py:69-71 | the first item of a list, or the default for an empty one; fails exactly on a value that cannot be iterated |
| Graph.GetOrJ | iceberg_tools/graph/__init__.py:68-71 | `get` with a default succeeds exactly on a dict, and gives the stored value or the default |
| Graph.HintsOf | iceberg_tools/graph/__init__.py:66-72 | each hint is the first element of its list, or `one`, `has_many`, `False` when the list or the whole `targetHints` is absent or empty |
| Graph.IsAssociation | iceberg_tools/graph/__init__.py:34-43 | the loop computes whether the links form an association |
| Graph.AssociationIff | iceberg_tools/graph/__init__.py:37-43 | with readable hints the links form an association exactly when one of them has a truthy association hint |
| Graph.ValidateConventions | iceberg_tools/graph/__init__.py:45-52 | a schema that passes is an association, and the check then returns True |
| Graph.ConventionsOf | iceberg_tools/graph/__init__.py:45-52 | a dict schema with a list of links passes exactly when it has at least two links, one of them an association, and a title |
| Graph.NewSchema | iceberg_tools/graph/__init__.py:12-21 | a dict schema is kept as it is and accepted exactly when it passes the conventions; a value that is neither a URL nor a dict is a ValueError |
| Graph.RelsOf | iceberg_tools/graph/__init__.py:59 | the rel of every schema link, in order |
| Graph.RelsKnown | iceberg_tools/graph/__init__.py:60-61 | the check loop succeeds only with True |
| Graph.ValidateLinksOf | iceberg_tools/graph/__init__.py:55-63 | a validated instance is returned unchanged |
| Graph.ValidateLinks | iceberg_tools/graph/__init__.py:55-63 | the loop computes `validate_links` |
| Graph.RelsKnownIff | iceberg_tools/graph/__init__.py:60-61 | the check passes exactly when every instance link's rel is among the rels |
| Graph.ValidateLinksIff | iceberg_tools/graph/__init__.py:55-63 | an instance validates exactly when every one of its links has a rel the schema's links have |
| Graph.HrefKeysOf | iceberg_tools/graph/__init__.py:128 | the keys are read only from a string href, as the template's field names |
| Graph.ExtractIdOf | iceberg_tools/graph/__init__.py:132-144 | the id is read with the template's pattern from a string href, and fails otherwise |
| Graph.FinishParts | iceberg_tools/graph/__init__.py:162-173 | the parts carry the id, its field name and the schema link's rel |
| Graph.PPut | iceberg_tools/graph/__init__.py:154 | storing under a key sets it and changes no other key |
| Graph.PartsDict | iceberg_tools/graph/__init__.py:166-173 | the parts dict holds the target schema, the id's name and the rel |
| Graph.ShownId | iceberg_tools/graph/__init__.py:104-173 | the part stored under the id's name is the id, unless that name is one of the fixed keys |
| Graph.LPut | iceberg_tools/graph/__init__.py:154 | the parts of a rel are stored once under it, the number of rels growing by at most one |
| Graph.AddPart | iceberg_tools/graph/__init__.py:154 | storing parts succeeds exactly for a hashable rel; a rel called `label` overwrites the label, any other rel keeps it |
| Graph.MsgsFrom | iceberg_tools/graph/__init__.py:102-104 | one message per link |
| Graph.Messages | iceberg_tools/graph/__init__.py:100-104 | the loop computes the messages |
| Graph.ReprOf | iceberg_tools/graph/__init__.py:94-106 | a representation exists only when the edge parts have at least two links |
| Graph.ResolveAll | iceberg_tools/graph/__init__.py:113 | one value per pointer |
| Graph.CreateFrom | iceberg_tools/graph/__init__.py:110-119 | one link per schema link and vertex; the template pointers are read as intended, through `Graph.CreateLink`, which resolves a `templatePointers` dict's values (line 113 iterates its keys, see Findings) |
| Graph.AssociationInstance.constructor | iceberg_tools/graph/__init__.py:86-89 | the instance and schema as given, both caches empty |
| Graph.AssociationInstance.ExtractHrefKeys | iceberg_tools/graph/__init__.py:124-130 | computes the template's keys and caches them; every cached entry is what the template gives |
| Graph.AssociationInstance.CachedPattern | iceberg_tools/graph/__init__.py:134-141 | the cached pattern is the template's pattern, computed and cached when missing |
| Graph.AssociationInstance.ExtractId | iceberg_tools/graph/__init__.py:132-144 | reads the id through the caches, with the same result as without them |
| Graph.AssociationInstance.ExtractLinkParts | iceberg_tools/graph/__init__.py:158-173 | computes the link parts through the caches |
| Graph.AssociationInstance.EdgeParts | iceberg_tools/graph/__init__.py:146-156 | the loop computes the edge parts: the title under `label`, then each schema link's parts under its rel |
| Graph.AssociationInstance.Repr | iceberg_tools/graph/__init__.py:94-106 | computes the representation through the caches |
| Graph.AssociationInstance.CreateOne | iceberg_tools/graph/__init__.py:111-119 | one created link, its keys read through the cache; the template pointers are read as intended, through `Graph.CreateLink`, which resolves a `templatePointers` dict's values (line 113 iterates its keys, see Findings) |
| Graph.AssociationInstance.CreateInstance | iceberg_tools/graph/__init__.py:108-122 | the loop computes the created instance from the first two schema links and the two vertices; the template pointers are read as intended, through `Graph.CreateLink`, which resolves a `templatePointers` dict's values (line 113 iterates its keys, see Findings) |
| Graph.AssociationInstance.New | iceberg_tools/graph/__init__.py:86-92 | the given instance is kept; without an instance both vertices are needed, or it fails with "Must provide instance or vertex_a and vertex_b"; otherwise the instance is created from them, and a failure to create it is returned; the template pointers are read as intended, through `Graph.CreateLink`, which resolves a `templatePointers` dict's values (line 113 iterates its keys, see Findings) |
| Graph.KwargsOne | iceberg_tools/graph/__init__.py:117 | one key and one value make one keyword argument |
| Graph.CreatePointed | iceberg_tools/graph/__init__.py:111-119 | a link `prefix{key}` whose only pointer selects a vertex member gets the rel and the href filled with that member |
| Graph.CreateSimple | iceberg_tools/graph/__init__.py:111-119 | the same for a pointer list |
| Graph.CreateThenExtract | iceberg_tools/graph/__init__.py:108-144 | creating a link and reading its id back gives the selected member's text and the key, when the text holds no line break |
| Graph.DictPointersFail | iceberg_tools/graph/__init__.py:113 | as written, a dict of template pointers is iterated by key, so a key that is not a pointer makes link creation fail with "Location must start with /" |
| Graph.ListPointersAgree | iceberg_tools/graph/__init__.py:113 | the as-written and intended readings agree on pointer lists |
| Graph.DictPointersCreate | iceberg_tools/graph/__init__.py:111-119 | as intended, a pointer dict `{key: /name}` fills the href with the vertex's member `name` |
| Graph.InstanceLinkSingle | iceberg_tools/graph/__init__.py:160 | the only instance link with the schema link's rel is the one chosen |
| Graph.ExtractIdSimple | iceberg_tools/graph/__init__.py:132-144 | reading `prefix` followed by an id with `prefix{key}` gives the id and the key |
| Graph.LinkPartsSimple | iceberg_tools/graph/__init__.py:158-173 | the parts of a schema link `prefix{key}` paired with its instance link: key, id, rel, target schema and hints |
| Graph.MsgShown | iceberg_tools/graph/__init__.py:104 | a link's message names the target, the id and the rel when the id's name is not a fixed key |
| Graph.MsgShadowed | iceberg_tools/graph/__init__.py:104 | an id field called `rel` is shadowed, so the message shows the rel in place of the id |
| HrefTemplate.BraceFrom | iceberg_tools/graph/__init__.py:128 | the first brace at or after a position, or the end |
| HrefTemplate.CharFrom | iceberg_tools/graph/__init__.py:128 | the first occurrence of a character at or after a position, or the end |
| HrefTemplate.CloseFrom | iceberg_tools/graph/__init__.py:128 | the closing `}` of a field, when there is one |
| HrefTemplate.NameStop | iceberg_tools/graph/__init__.py:128 | the end of a field name is a `:`, `!` or `}`, or the end of the field |
| HrefTemplate.NextChunk | iceberg_tools/graph/__init__.py:128 | each parsed chunk consumes input |
| HrefTemplate.FieldNames | iceberg_tools/graph/__init__.py:128 | `_[1]` of each parsed chunk: its field name, None for a chunk without a field |
| HrefTemplate.ArgName | iceberg_tools/graph/__init__.py:117 | the argument a field names is its name up to the first `.` or `[` |
| HrefTemplate.Convert | iceberg_tools/graph/__init__.py:117 | a field without a conversion shows `str()` of its value |
| HrefTemplate.Kwargs | iceberg_tools/graph/__init__.py:117 | `dict(zip(keys, values))` has each key once |
| HrefTemplate.LineRun | iceberg_tools/graph/__init__.py:142 | the characters before the first line break, where `.*` stops |
| HrefTemplate.LineRunAll | iceberg_tools/graph/__init__.py:142 | a text without line breaks is matched whole |
| HrefTemplate.Pattern | iceberg_tools/graph/__init__.py:134-141 | the pattern is built exactly when the template's keys can be read |
| HrefTemplate.Lits | iceberg_tools/graph/__init__.py:140 | one literal piece per character |
| HrefTemplate.ParseSimple | iceberg_tools/graph/__init__.py:128 | `prefix{key}` parses into one chunk: the prefix and the field `key` |
| HrefTemplate.FillSimple | iceberg_tools/graph/__init__.py:117 | filling `prefix{key}` inserts `str()` of the value under the key, and raises KeyError without it |
| HrefTemplate.CompilePlain | iceberg_tools/graph/__init__.py:140 | `prefix(.*)` compiles to the prefix's literals and one group |
| HrefTemplate.MatchPlain | iceberg_tools/graph/__init__.py:142 | the pattern matches exactly the hrefs that start with the prefix, the group taking the rest of the line |
| HrefTemplate.SubstituteOne | iceberg_tools/graph/__init__.py:138-139 | replacing `{key}` in `prefix{key}` gives `prefix(.*)` |
| HrefTemplate.PatternSimple | iceberg_tools/graph/__init__.py:134-141 | the pattern of `prefix{key}` is the prefix followed by one group |
| HrefTemplate.ReadIdSimple | iceberg_tools/graph/__init__.py:142-144 | reading an href back gives the text after the prefix and the key name, and fails the assertion when the href does not start with the prefix |
| HrefTemplate.FillThenRead | iceberg_tools/graph/__init__.py:117-144 | filling `prefix{key}` and reading the result back gives the inserted text and the key, when that text holds no line break |
| JsonPointer.Escape | iceberg_tools/graph/__init__.py:113 | an escaped member name holds no `/` and only valid escapes |
| JsonPointer.EscapesJoin | iceberg_tools/graph/__init__.py:113 | valid escapes stay valid when joined |
| JsonPointer.DecodeEscape | iceberg_tools/graph/__init__.py:113 | decoding an escaped member name gives it back |
| JsonPointer.Tokens | iceberg_tools/graph/__init__.py:113 | the empty pointer has no tokens; a pointer not starting with `/` is rejected with "Location must start with /" |
| JsonPointer.SequenceIndex | iceberg_tools/graph/__init__.py:113 | a token selects a position exactly when it matches the index pattern at its start (a `0`, or a digit from 1 to 9 with digits up to the end or a final line break), `int()` reads it and the value is in range, and then the position is what `int()` reads; a match `int()` rejects is a ValueError; a token that does not match is a pointer error |
| JsonPointer.ReadIndex | iceberg_tools/graph/__init__.py:113 | a matched token that `int()` reads as `v` selects position `v`, or is out of bounds |
| JsonPointer.DigitsIndex | iceberg_tools/graph/__init__.py:113 | a run of digits selects the position it spells, or is out of bounds |
| JsonPointer.ReadUnderscore | iceberg_tools/graph/__init__.py:113 | `int()` reads a digit, an underscore and a digit as the two-digit number, so `0_e` as the digit `e` |
| JsonPointer.ReadTrailing | iceberg_tools/graph/__init__.py:113 | `int()` reads a digit followed by white space as the digit |
| JsonPointer.ReadLetter | iceberg_tools/graph/__init__.py:113 | `int()` rejects a digit followed by a letter |
| JsonPointer.UnderscoreIndex | iceberg_tools/graph/__init__.py:113 | a digit, an underscore and a digit pass the pattern exactly when the first digit is `0`; `0_e` then selects position `e`, since `int()` drops the underscore, and any other such string is rejected as not a valid index |
| JsonPointer.ZeroUnderscoreIndex | iceberg_tools/graph/__init__.py:113 | `0_e` selects position `e`, or is out of bounds when the list is no longer than `e` |
| JsonPointer.TrailingIndices | iceberg_tools/graph/__init__.py:113 | `0 `, `0\n` and `1\n` select positions 0, 0 and 1: the pattern passes them (`$` matches before a final line break) and `int()` strips the white space |
| JsonPointer.SpacedIndex | iceberg_tools/graph/__init__.py:113 | a digit from 1 to 9 followed by a space fails the pattern, a pointer error |
| JsonPointer.LetterIndex | iceberg_tools/graph/__init__.py:113 | `0x` passes the pattern and is a ValueError from `int()`; after any other digit a letter fails the pattern |
| JsonPointer.Step | iceberg_tools/graph/__init__.py:113 | a dict step succeeds exactly when the member exists; a list or string step exactly when the index is valid, selecting that item or character; other values fail |
| JsonPointer.IndexSelects | iceberg_tools/graph/__init__.py:113 | a decimal position selects that item of a list, with or without one leading zero |
| JsonPointer.LeadingZeroValue | iceberg_tools/graph/__init__.py:113 | a leading zero does not change a number's value |
| JsonPointer.StringIndexed | iceberg_tools/graph/__init__.py:113 | a string document is indexed by character |
| JsonPointer.Resolve | iceberg_tools/graph/__init__.py:113 | a pointer that is not a string is a TypeError; the empty pointer selects the whole document |
| JsonPointer.MemberTokens | iceberg_tools/graph/__init__.py:113 | `/` followed by an escaped name is that one token |
| JsonPointer.WalkOne | iceberg_tools/graph/__init__.py:113 | a walk of one token is one step |
| JsonPointer.ResolveMember | iceberg_tools/graph/__init__.py:113 | `/name` selects the member `name` of a dict, and fails when there is none |
| JsonPointer.ResolveRelative | iceberg_tools/graph/__init__.py:113 | a pointer without the leading `/` is rejected whatever the document |
| Pfb.StoredIff | iceberg_tools/data/pfb.py:78-80 | a (name, id) pair is in the graph exactly when some record has that name and id |
| Pfb.Missing | iceberg_tools/data/pfb.py:69-74 | at most one message per relation; `check_links` reports the relations whose target is not stored |
| Pfb.MissingEmpty | iceberg_tools/data/pfb.py:69-74 | `check_links` yields nothing exactly when every relation's target is in the graph |
| Pfb.LinkErrorsEmpty | iceberg_tools/data/pfb.py:76-82 | the first loop reports no error exactly when every record names only records stored before it or itself |
| Pfb.ForwardReference | iceberg_tools/data/pfb.py:76-82 | a record may name itself; a record naming a later one gets a "not found in Graph" message |
| Pfb.DuplicateCount | iceberg_tools/data/pfb.py:84-94 | the number of "Duplicate" messages is the number of records less the number of distinct ids |
| Pfb.SeenIdsIff | iceberg_tools/data/pfb.py:87-90 | an id is seen exactly when some record has it |
| Pfb.DuplicatesEmpty | iceberg_tools/data/pfb.py:84-94 | no "Duplicate" message exactly when the ids are distinct |
| Pfb.WithRelations | iceberg_tools/data/pfb.py:96 | at most the number of records; zero exactly when no record has relations |
| Pfb.CountedIff | iceberg_tools/data/pfb.py:104-108 | an entity name is counted exactly when a record has it |
| Pfb.EdgeCountedIff | iceberg_tools/data/pfb.py:109-113 | an edge summary exists exactly when a relation has that destination |
| Pfb.EdgeSummariesSnoc | iceberg_tools/data/pfb.py:109-113 | one more relation bumps the count of its destination's edge summary and nothing else |
| Pfb.CountsSnoc | iceberg_tools/data/pfb.py:104-113 | one more record changes only the summary of its own name: one more count and its relations added |
| Pfb.SummaryBefore | iceberg_tools/data/pfb.py:105-107 | a name without a summary starts from a fresh one |
| Pfb.InspectPfb | iceberg_tools/data/pfb.py:48-115 | fails the assertion with one record or fewer; otherwise returns the errors, info, warnings and counts of the reference inspection |
| Pfb.LinkLoop | iceberg_tools/data/pfb.py:76-82 | the loop computes the link errors of the records |
| Pfb.DuplicateLoop | iceberg_tools/data/pfb.py:84-94 | the loop computes the duplicate errors of the records |
| Pfb.CountLoop | iceberg_tools/data/pfb.py:104-113 | the loop computes the per-name summaries |
| Pfb.CountEdges | iceberg_tools/data/pfb.py:109-113 | the inner loop adds the relations to the edge summaries |
| Pfb.FirstMatch | iceberg_tools/data/pfb.py:194 | the first file whose path holds `<entry>.ndjson`; None exactly when no file does |
| Pfb.WriteOrder | iceberg_tools/data/pfb.py:191-196 | at most one file per entry of the dependency order, each one of the directory's files |
| Pfb.SimplePfbWriter.constructor | iceberg_tools/data/pfb.py:143-159 | nothing written yet; the paths and the dependency order are kept |
| Pfb.SimplePfbWriter.WriteSchema | iceberg_tools/data/pfb.py:161-168 | issues `pfb from` with the output and schema paths and marks the schema written |
| Pfb.SimplePfbWriter.Write | iceberg_tools/data/pfb.py:170-180 | issues `pfb from` first when the schema is not yet written, then `pfb add` for the file |
| Pfb.SimplePfbWriter.TransformDirectory | iceberg_tools/data/pfb.py:186-198 | the schema once (when anything is written and it was not yet) then one `pfb add` per file of the write order |
| Pfb.AddAll | iceberg_tools/data/pfb.py:197-198 | one `add` command per file |
| Pfb.WriteOrderOf | iceberg_tools/data/pfb.py:191-196 | the loop computes the write order |
| Pfb.FirstMatchOf | iceberg_tools/data/pfb.py:194 | the comprehension computes the first match |
| Report.TallyCounts | iceberg_tools/data/report.py:29-36 | an entity has a count exactly when it was counted before or a non-Metadata record has its name; the count adds that record count |
| Report.TallyNothing | iceberg_tools/data/report.py:31-32 | a file with only Metadata records leaves the counts unchanged |
| Report.TallyAppend | iceberg_tools/data/report.py:29-36 | counting two runs of records is counting one after the other |
| Report.CountFileIs | iceberg_tools/data/report.py:34 | a file gets counts only when it has a non-Metadata record |
| Report.NodeCountsAt | iceberg_tools/data/report.py:25-36 | a path has node counts exactly when its file has a non-Metadata record; they are the tally of its records |
| Report.NodeCountsMeaning | iceberg_tools/data/report.py:25-36 | an entity is counted for a file exactly when it is not Metadata and occurs there; the count is its number of records |
| Report.DstsAppend | iceberg_tools/data/report.py:38-41 | the destinations of two runs of relations are the union |
| Report.LinkAllAt | iceberg_tools/data/report.py:38-41 | the relations of a record add its file to exactly the edges from its name to their destinations |
| Report.EdgeFileAt | iceberg_tools/data/report.py:29-41 | reading a file adds its path to exactly the edges some record in it has |
| Report.EdgeCountsMeaning | iceberg_tools/data/report.py:22-41 | an edge exists exactly when some file holds a record with that relation; its set is those files |
| Report.EdgeCountAlwaysZero | iceberg_tools/data/report.py:49 | as written the `edge_count` column is always 0 |
| Report.EdgeCountDiffers | iceberg_tools/data/report.py:46-50 | one Patient record related to a Specimen gives `edge_count` 0 as written and 1 as intended |
| Report.NodeRowsMeaning | iceberg_tools/data/report.py:53-58 | a node row is a file and a non-Metadata entity with its positive count |
| Report.EdgeRowsMeaning | iceberg_tools/data/report.py:43-50 | each edge row counts the files its edge occurs in and the files its source occurs in; no row for an edge that occurs nowhere |
| Report.Dedup | iceberg_tools/data/report.py:29-41 | the keys in the order a dict gains them: each key once, at its first occurrence |
| Report.GroupedIff | iceberg_tools/data/report.py:55-56 | walking a dict of dicts visits exactly the pairs of an outer key with one of its inner keys |
| Report.GroupedDistinct | iceberg_tools/data/report.py:55-56 | that walk visits each pair once |
| Report.EntityNames | iceberg_tools/data/report.py:31-36 | the names of the records that are not Metadata, in record order |
| Report.EntityPathsIff | iceberg_tools/data/report.py:31-36 | a path becomes a key of `aggregated_node_counts` exactly when its records hold an entity |
| Report.NodeOrderPairs | iceberg_tools/data/report.py:55-56 | the walk over `aggregated_node_counts` visits exactly the stored (file, entity) pairs, each once |
| Report.DstNames | iceberg_tools/data/report.py:38-40 | the destinations of the relations, in order |
| Report.RelatesAll | iceberg_tools/data/report.py:25-41 | an edge occurs among all records exactly when it occurs in some file |
| Report.RelatingIff | iceberg_tools/data/report.py:38-39 | a record's name becomes a key of `aggregated_edge_counts` when the record relates it to some target |
| Report.EdgeOrderPairs | iceberg_tools/data/report.py:46-47 | the walk over `aggregated_edge_counts` visits exactly the stored (source, target) pairs, each once |
| Report.NodeTableRows | iceberg_tools/data/report.py:53-58 | `aggregated_node_counts.tsv` lists every node row once, in the order of the dict |
| Report.EdgeTableRows | iceberg_tools/data/report.py:43-50 | `aggregated_edge_counts.tsv` lists every edge row once, in the order of the dict |
| Report.LastIndex | iceberg_tools/data/report.py:68 | the last position of a character, None when it does not occur |
| Report.Stem | iceberg_tools/data/report.py:68 | a stem is no longer than the path |
| Report.PivotExact | iceberg_tools/data/report.py:61-69 | without collisions every (file, entity) count sits in the cell of its camelised entity and file stem |
| Report.PivotCells | iceberg_tools/data/report.py:61-69 | a cell exists exactly when some pair camelises and stems to it |
| Report.PivotPut | iceberg_tools/data/report.py:69 | setting a cell sets that cell and keeps every other |
| Report.PutCellsHas | iceberg_tools/data/report.py:64-69 | setting cells one entry at a time leaves a cell exactly when some entry names it |
| Report.PutCellsLast | iceberg_tools/data/report.py:64-69 | a cell set by several entries is there exactly when one names it, and holds the value of the last one |
| Report.PivotLastWins | iceberg_tools/data/report.py:64-69 | a cell exists exactly when some pair falls into it (camelised entity and file stem), and holds the count of the last such pair in the walk's order |
| Report.PivotDone | iceberg_tools/data/report.py:64-69 | a walk over every pair gives a cell for each pair, each cell holding the count of a pair that falls into it |
| Report.Pivot | iceberg_tools/data/report.py:64-69 | the loop over the pairs in the given order sets each pair's cell in turn, so the last of colliding pairs wins |
| Report.PivotDoneFiles | iceberg_tools/data/report.py:64-69 | the pivot walked in the order of `aggregated_node_counts` has a cell for each of its pairs, each holding the count of a pair that falls into it |
| Report.PivotTable | iceberg_tools/data/report.py:70-87 | sorted entity names (the pivot's keys) and sorted file stems, and table lines built from a row per entity holding each stem's cell |
| Report.SortedSet | iceberg_tools/data/report.py:71-72 | `sorted()` of a set: sorted and holding exactly its elements |
| Report.PivotRows | iceberg_tools/data/report.py:73-79 | a row per entity with a cell per stem: the count or `''` |
| Report.PivotRow | iceberg_tools/data/report.py:75-79 | one row: a cell per stem holding the count or `''` |
| Report.PivotLines | iceberg_tools/data/report.py:83-87 | one header line and one line per entity |
| Report.Aggregate | iceberg_tools/data/report.py:25-41 | the loop computes the node counts and the edge files |
| Report.ReadFile | iceberg_tools/data/report.py:29-41 | one file's records update the node counts and the edge files |
| Report.LinkRelations | iceberg_tools/data/report.py:38-41 | the loop adds the file to each relation's edge |
| Report.AggregateEdges | iceberg_tools/data/report.py:19-88 | the edge rows with the intended `edge_count` and the node rows, each in the order of its dict; the pivot walked in the order of `aggregated_node_counts`, so the last of colliding pairs wins; sorted entity names and stems, and the pivot table lines |
| SimplifiedValidator.LinkValues | iceberg_tools/schema/simplified_validator.py:40 | one link name per link of the schema |
| SimplifiedValidator.ExpectedKeys | iceberg_tools/schema/simplified_validator.py:40 | the expected keys exist only for a dict schema with `properties` and `links` |
| SimplifiedValidator.FirstMissing | iceberg_tools/schema/simplified_validator.py:48-50 | none missing exactly when every required name is a key of the object; otherwise a required entry that is not |
| SimplifiedValidator.CheckSchema | iceberg_tools/schema/simplified_validator.py:37-50 | a failure carries the object; a pass carries the object, its schema key |
| SimplifiedValidator.CheckKeys | iceberg_tools/schema/simplified_validator.py:39-50 | a failure carries the object; a pass carries the object, the key and the schema |
| SimplifiedValidator.Validator.constructor | iceberg_tools/schema/simplified_validator.py:17-18 | nothing logged and nothing compiled |
| SimplifiedValidator.Validator.LogOnce | iceberg_tools/schema/simplified_validator.py:21-24 | a message is appended only when not logged before |
| SimplifiedValidator.Validator.LogAll | iceberg_tools/schema/simplified_validator.py:45-47 | the log keeps its old messages in order and gains exactly the new ones |
| SimplifiedValidator.Validator.Validate | iceberg_tools/schema/simplified_validator.py:27-71 | the outcome of the checks and the compiled schema; a schema is compiled once per key and the extra-property messages are logged |
| SimplifiedValidator.MissingPropertyFails | iceberg_tools/schema/simplified_validator.py:29-32 | a missing `id`, `relations` or `object` is exactly a failure without an object, reported as a result without an id |
| SimplifiedValidator.CheckedUnderType | iceberg_tools/schema/simplified_validator.py:34-36 | the schema key is the underscored `resourceType` |
| SimplifiedValidator.SchemaLookup | iceberg_tools/schema/simplified_validator.py:37-38 | the schema is looked up under the key then under `key.yaml`; a missing or falsy schema fails with "Could not find schema" |
| SimplifiedValidator.PassedKeys | iceberg_tools/schema/simplified_validator.py:39-50 | a passing object has only expected keys unless the schema allows additional properties, and every required key |
| SimplifiedValidator.KeysPassed | iceberg_tools/schema/simplified_validator.py:41-50 | the same for the key stage alone |
| SimplifiedValidator.ExtraKeysFail | iceberg_tools/schema/simplified_validator.py:41-43 | unexpected keys without `additionalProperties` fail with the set of extra keys |
| SimplifiedValidator.MessagesLogged | iceberg_tools/schema/simplified_validator.py:44-47 | extra-property messages occur only with `additionalProperties` and are one per extra key |
| SimplifiedValidator.CacheReused | iceberg_tools/schema/simplified_validator.py:51-64 | a compiled schema is kept; a passing key is compiled once; nothing else enters the cache |
| SimplifiedValidator.LogTwice | iceberg_tools/schema/simplified_validator.py:21-24 | logging a message twice logs it once |
| SimplifiedValidator.FileLines | iceberg_tools/schema/simplified_validator.py:92-98 | one line per line of the file with its offset from 0 |
| SimplifiedValidator.RunPositions | iceberg_tools/schema/simplified_validator.py:86-99 | no more results than lines, one per line when nothing raises, each with its file and offset |
| SimplifiedValidator.LinesNumbered | iceberg_tools/schema/simplified_validator.py:92-98 | offsets count from 0 within a file |
| SimplifiedValidator.RunStops | iceberg_tools/schema/simplified_validator.py:86-99 | once an error is raised later lines change nothing |
| SimplifiedValidator.DirectoryReader | iceberg_tools/schema/simplified_validator.py:74-99 | the loop yields the results of the reference run over the files' lines, stops at its error and leaves its cache |
| Util.JsonFilesRead | iceberg_tools/util.py:79-85 | `.json`, `.ndjson` and `.json.gz` files are read |
| Util.GzRead | iceberg_tools/util.py:79-85 | a `.gz` file is read exactly when its name before `.gz` ends in `json` |
| Util.BareJsonRead | iceberg_tools/util.py:83-84 | a name merely ending in `json`, without a dot, is read too |
| Util.EntriesFrom | iceberg_tools/util.py:103-112 | no more results than entries |
| Util.NonBundleOnce | iceberg_tools/util.py:97-98 | a result without entries is yielded as it is |
| Util.EntriesYielded | iceberg_tools/util.py:102-112 | each entry up to the first missing one is yielded with the bundle's path and its offset; an entry with neither `resource` nor `item` raises AttributeError |
| Util.EntryIterator | iceberg_tools/util.py:95-113 | the loop yields the results and the error of the reference iteration |
| Util.Names | iceberg_tools/util.py:188 | the names of the open emitters, in order |
| Util.Handles | iceberg_tools/util.py:188 | the open files, in order |
| Util.EmitterContextManager.constructor | iceberg_tools/util.py:165-179 | the path and mode are kept; nothing is open |
| Util.EmitterContextManager.Emit | iceberg_tools/util.py:193-199 | returns the file for the name; opens it once, on the first emit of that name |
| Util.EmitterContextManager.Exit | iceberg_tools/util.py:186-191 | closes every file opened, in order, and changes nothing else |
| Util.OpenedOnce | iceberg_tools/util.py:193-199 | distinct names are distinct open files |
| Util.HandleForInjective | iceberg_tools/util.py:196 | two names share a file only when they are equal |
| BindingLookup.CamelizeAll | iceberg_tools/schema/fhir_resources/binding_lookup.py:20 | each part camelised, in order |
| BindingLookup.TwoPartsKept | iceberg_tools/schema/fhir_resources/binding_lookup.py:17-18 | an id of two parts is kept as it is |
| BindingLookup.KeyShape | iceberg_tools/schema/fhir_resources/binding_lookup.py:14-21 | the key has two parts: the id's last part, after its parts but the last camelised and joined (or kept for two parts) |
| BindingLookup.KeyIdempotent | iceberg_tools/schema/fhir_resources/binding_lookup.py:14-21 | computing the key of a key changes nothing |
| BindingLookup.ThreeParts | iceberg_tools/schema/fhir_resources/binding_lookup.py:20-21 | `a.b.c` becomes `AB.c` with `a` and `b` camelised |
| BindingLookup.KeyOf | iceberg_tools/schema/fhir_resources/binding_lookup.py:69 | a key exists exactly when the element has a string `id`, and is its class and property |
| BindingLookup.BindingOfObject | iceberg_tools/schema/fhir_resources/binding_lookup.py:66-69 | an element yields a binding exactly when it has a truthy `binding.valueSet` and an id; without `binding` it is skipped |
| BindingLookup.CollectOk | iceberg_tools/schema/fhir_resources/binding_lookup.py:63-69 | the generator over elements completes exactly when every element's step does |
| BindingLookup.CollectSound | iceberg_tools/schema/fhir_resources/binding_lookup.py:63-69 | every yield comes from some element |
| BindingLookup.CollectLength | iceberg_tools/schema/fhir_resources/binding_lookup.py:63-69 | at most one yield per element |
| BindingLookup.CollectComplete | iceberg_tools/schema/fhir_resources/binding_lookup.py:63-69 | every element that yields is yielded |
| BindingLookup.ElementsOfProfile | iceberg_tools/schema/fhir_resources/binding_lookup.py:48-53 | no `snapshot` or no `element` yields nothing; otherwise each element in order |
| BindingLookup.ProfileOf | iceberg_tools/schema/fhir_resources/binding_lookup.py:26-29 | an entry's truthy `resource` is a profile |
| BindingLookup.EntryWithoutResource | iceberg_tools/schema/fhir_resources/binding_lookup.py:27-29 | an entry without a truthy resource yields nothing |
| BindingLookup.EntriesYieldBound | iceberg_tools/schema/fhir_resources/binding_lookup.py:56-69 | every binding of a bundle comes from one of its entries |
| BindingLookup.EntryYieldsBound | iceberg_tools/schema/fhir_resources/binding_lookup.py:63-69 | every binding has an element with a string id and a truthy `binding.valueSet`, keyed by that id |
| BindingLookup.BoundElement | iceberg_tools/schema/fhir_resources/binding_lookup.py:66-69 | a yielded binding is its element keyed by its id, and the element has a truthy `binding.valueSet` |
| SchemaViewer.TitleAll | CytoScapeSchemaViewer/schema.py:104-105 | each part title-cased, in order |
| SchemaViewer.ConvertFileToTitle | CytoScapeSchemaViewer/schema.py:100-110 | the loop computes the file's title |
| SchemaViewer.YamlSuffixDropped | CytoScapeSchemaViewer/schema.py:101 | everything from the first `.yaml` on is dropped |
| SchemaViewer.NoUnderscoreCapitalized | CytoScapeSchemaViewer/schema.py:107-108 | a name without `_` is capitalised: its first letter upper-cased |
| SchemaViewer.TwoWords | CytoScapeSchemaViewer/schema.py:102-106 | `a_b.yaml` becomes the title-cased words joined |
| SchemaViewer.TitleLength | CytoScapeSchemaViewer/schema.py:102-106 | title-casing keeps the length of the joined words |
| SchemaViewer.RecursiveItems | CytoScapeSchemaViewer/schema.py:92-97 | only non-dict values are yielded |
| SchemaViewer.FlatItems | CytoScapeSchemaViewer/schema.py:92-97 | a dict without nested dicts yields its own items in order |
| SchemaViewer.ItemsAppend | CytoScapeSchemaViewer/schema.py:93-97 | the items of two runs of keys are yielded one after the other |
| SchemaViewer.LeavesYielded | CytoScapeSchemaViewer/schema.py:93-97 | every leaf is yielded, including those of nested dicts |
| CleanData.Rekey | omop-fhir-translator/clean_data.py:15 | a dict comprehension: each key once |
| CleanData.Images | omop-fhir-translator/clean_data.py:15 | one image per key |
| CleanData.RekeyHas | omop-fhir-translator/clean_data.py:15 | a key is present exactly when some old key maps to it |
| CleanData.RekeyGet | omop-fhir-translator/clean_data.py:15 | the last old key mapping to a new key gives its value |
| CleanData.LowercaseAll | omop-fhir-translator/clean_data.py:16-17 | one cleaned item per item |
| CleanData.CleanValueMeaning | omop-fhir-translator/clean_data.py:15 | `"0"`, `"None"` and None become None; every other value becomes its stripped `str()` |
| CleanData.DictKeysLowered | omop-fhir-translator/clean_data.py:13-15 | the keys become their lower-cased forms, each once |
| CleanData.DictValueCleaned | omop-fhir-translator/clean_data.py:15 | each value under its lower-cased key is cleaned; the last of colliding keys wins |
| CleanData.LowerIdempotent | omop-fhir-translator/clean_data.py:15 | lower-casing twice is lower-casing once |
| CleanData.ListAndScalar | omop-fhir-translator/clean_data.py:16-18 | a list is cleaned item by item; any other value is returned as it is |
| CleanData.LowercaseAllAt | omop-fhir-translator/clean_data.py:17 | the comprehension cleans each item at its position |
| CleanData.UpperKeysMeaning | omop-fhir-translator/clean_data.py:90 | the keys become their upper-cased forms; the last of colliding keys gives the value |
| CleanData.FirstNonDict | omop-fhir-translator/clean_data.py:89-92 | the position of the first non-dict line, or the end |
| CleanData.JsonKeyUpper | omop-fhir-translator/clean_data.py:85-92 | each dict is rewritten in place with upper-cased keys up to the first non-dict, which raises AttributeError and leaves the rest |
| CleanData.DictRowKeys | omop-fhir-translator/clean_data.py:30 | under a distinct header a csv row has the header's names in order, each holding its cell or None; a line with more cells than names also has the restkey entry last, the extra cells in order, under the name `json.dump` gives None (`null`) |
| CleanData.Yielded | omop-fhir-translator/clean_data.py:30 | the reader yields only non-empty lines of the file, no more than there are |
| CleanData.Rows | omop-fhir-translator/clean_data.py:30 | one string-keyed row per yielded line |
| CleanData.RestEntry | omop-fhir-translator/clean_data.py:30 | at most one restkey entry per row |
| CleanData.ExtraCellKept | omop-fhir-translator/clean_data.py:30-42 | header `a` and line `1,2` give `{"a": "1", "null": ["2"]}` |
| CleanData.FillCells | omop-fhir-translator/clean_data.py:39-41 | one cell per cell |
| CleanData.FillCellsMeaning | omop-fhir-translator/clean_data.py:39-41 | the keys stay; non-empty cells stay; with a non-empty fill no cell stays empty |
| CleanData.FillRow | omop-fhir-translator/clean_data.py:39-41 | the loop computes the filled row |
| CleanData.FillRows | omop-fhir-translator/clean_data.py:38-41 | one record per row, each the row with its empty cells filled, in order |
| CleanData.ConvertCsvToNdjson | omop-fhir-translator/clean_data.py:27-43 | the loop computes every yielded line's dict, restkey entry included, with its empty cells set to `"None"` |
| CleanData.CsvRecordsClean | omop-fhir-translator/clean_data.py:37-43 | no written record has an empty cell; the restkey entry comes through unchanged after the header's names; with a distinct header each record has the header's keys, then `null` exactly when its line has more cells than the header |
| CleanData.YieldedComplete | omop-fhir-translator/clean_data.py:30 | the reader misses no line: one row per non-empty line, and the non-empty line `j` gives the row at the position counting the non-empty lines before it, the header zipped with that line's cells |
| CleanData.Pick | omop-fhir-translator/clean_data.py:136-142 | the record exists exactly when every named column exists, and holds those columns in order; otherwise KeyError |
| CleanData.PickKeys | omop-fhir-translator/clean_data.py:136-142 | a record's keys are the named columns |
| CleanData.RecordsShape | omop-fhir-translator/clean_data.py:130-145 | one record per row, each keyed by the named columns |
| CleanData.ConceptsShape | omop-fhir-translator/clean_data.py:136-142 | one concept record per data row, keyed by the five concept columns |
| CleanData.WriteRecords | omop-fhir-translator/clean_data.py:130-145 | the loop computes the records and stops at the first KeyError |
| CleanData.BuildConcepts | omop-fhir-translator/clean_data.py:120-145 | the loop computes the intended concept table: the header read once |
| CleanData.RecordsStop | omop-fhir-translator/clean_data.py:130-142 | a record that raises ends the output with that error |
| CleanData.HeaderRowWritten | omop-fhir-translator/clean_data.py:123-130 | as written the header line is read back after `seek(0)` as a first data row, so one extra record leads the output |
| CleanData.HeaderEcho | omop-fhir-translator/clean_data.py:129-142 | the header read as a row gives each column its own name |
| CleanData.HeaderOnly | omop-fhir-translator/clean_data.py:129-142 | a header-only file gives no records as intended and one echo record as written |
| CleanData.HeaderOnlyTable | omop-fhir-translator/clean_data.py:120-145 | a concept file with only its header: no record as intended and one record of column names as written |
| MedicationRequest.IntOf | omop-fhir-translator/omop_to_fhir/construct_medication_request.py:15 | `int()` raises ValueError exactly for a string it cannot read and TypeError otherwise |
| MedicationRequest.IsInt | omop-fhir-translator/omop_to_fhir/construct_medication_request.py:13-18 | True exactly when `int()` succeeds; False exactly on ValueError; a TypeError passes through |
| Text.ParseIntString | omop-fhir-translator/omop_to_fhir/construct_medication_request.py:105 | `int()` reads back the decimal text of every integer |
| MedicationRequest.Qualifies | omop-fhir-translator/omop_to_fhir/construct_medication_request.py:34-40 | the guard raises only KeyError on `quantity` |
| MedicationRequest.QualifiesIff | omop-fhir-translator/omop_to_fhir/construct_medication_request.py:34-40 | the row is skipped exactly when none of the six fields is set, the `quanitity` clause counting only through `quantity` |
| MedicationRequest.Base | omop-fhir-translator/omop_to_fhir/construct_medication_request.py:42-62 | the base record exists exactly when the exposure, person and drug concept ids are present |
| MedicationRequest.BaseFields | omop-fhir-translator/omop_to_fhir/construct_medication_request.py:42-62 | the base record's id, type, status, intent and two identifiers |
| MedicationRequest.BaseKeys | omop-fhir-translator/omop_to_fhir/construct_medication_request.py:42-62 | the base record has none of the four optional parts |
| MedicationRequest.DosageAsWritten | omop-fhir-translator/omop_to_fhir/construct_medication_request.py:64-92 | the dosage raises only KeyError on `rout_concept_id` |
| MedicationRequest.DosageAlone | omop-fhir-translator/omop_to_fhir/construct_medication_request.py:78-92 | a sig alone gives a text dosage; a route alone gives a route dosage |
| MedicationRequest.RouteCode | omop-fhir-translator/omop_to_fhir/construct_medication_request.py:69-76 | the route is a filler coding holding the route concept id |
| MedicationRequest.SigAndRoute | omop-fhir-translator/omop_to_fhir/construct_medication_request.py:66-77 | a sig with a route raises KeyError on `rout_concept_id` as written; the intended dosage holds both |
| MedicationRequest.Dispense | omop-fhir-translator/omop_to_fhir/construct_medication_request.py:93-101 | the intended dispense request fails only when `refills` is set and `int()` rejects it |
| MedicationRequest.RefillsFail | omop-fhir-translator/omop_to_fhir/construct_medication_request.py:94-95 | as written a `refills` value that `int()` reads raises KeyError on `dispenseRequest` at that step; as intended it becomes the number of repeats |
| MedicationRequest.DaysSupplyWins | omop-fhir-translator/omop_to_fhir/construct_medication_request.py:96-101 | as written `days_supply` replaces the dict holding `quantity`; as intended both are kept |
| MedicationRequest.Requester | omop-fhir-translator/omop_to_fhir/construct_medication_request.py:103-107 | the requester fails only on a `provider_id` that `int()` rejects with TypeError |
| MedicationRequest.RequesterInteger | omop-fhir-translator/omop_to_fhir/construct_medication_request.py:104-105 | an integer provider id or its decimal text is referenced by its number |
| MedicationRequest.RequesterRaw | omop-fhir-translator/omop_to_fhir/construct_medication_request.py:106-107 | a provider id `int()` cannot read is referenced as it is |
| MedicationRequest.StoreDosage | omop-fhir-translator/omop_to_fhir/construct_medication_request.py:64-92 | stores the dosage under `dosageInstruction`, or raises its error |
| MedicationRequest.StoreDispense | omop-fhir-translator/omop_to_fhir/construct_medication_request.py:93-101 | stores the dispense request under `dispenseRequest`, or raises its error |
| MedicationRequest.FormulateMedReq | omop-fhir-translator/omop_to_fhir/construct_medication_request.py:33-116 | the steps compute the record as written |
| MedicationRequest.PutSomeGet | omop-fhir-translator/omop_to_fhir/construct_medication_request.py:65-112 | setting a key changes only that key |
| MedicationRequest.AssembleGet | omop-fhir-translator/omop_to_fhir/construct_medication_request.py:42-116 | the assembled record holds each optional part under its key and the base fields as they are |
| MedicationRequest.NoRequestUnlessQualified | omop-fhir-translator/omop_to_fhir/construct_medication_request.py:34-40 | as written no record exactly when the guard finds no field set |
| MedicationRequest.NoRequestUnlessQualifiedIntended | omop-fhir-translator/omop_to_fhir/construct_medication_request.py:34-40 | as intended no record exactly when none of the six fields, `quantity` included, is set |
| MedicationRequest.QuantityAloneIgnored | omop-fhir-translator/omop_to_fhir/construct_medication_request.py:37 | a row with only `quantity` is skipped as written and kept as intended |
| MedicationRequest.RequestFields | omop-fhir-translator/omop_to_fhir/construct_medication_request.py:42-62 | every record holds the base fields of its row |
| MedicationRequest.AsWrittenParts | omop-fhir-translator/omop_to_fhir/construct_medication_request.py:33-116 | every record is the base record with the dosage, dispense, requester and validity parts of its row |
| MedicationRequest.AssembleKeeps | omop-fhir-translator/omop_to_fhir/construct_medication_request.py:42-116 | the optional parts leave the base fields alone |
| MedicationRequest.RequestParts | omop-fhir-translator/omop_to_fhir/construct_medication_request.py:64-114 | as written each optional part sits under its key |
| MedicationRequest.IntendedParts | omop-fhir-translator/omop_to_fhir/construct_medication_request.py:64-114 | as intended each optional part sits under its key, the dosage and dispense request in their corrected forms |
| Inflection.Underscore | iceberg_tools/schema/simplified_validator.py:36 | `inflection.underscore` leaves no upper-case letter and no `-`, and keeps a name that has neither |
| Inflection.UnderscoreIdempotent | iceberg_tools/schema/simplified_validator.py:36 | underscoring twice is underscoring once |
| Inflection.Camelize | iceberg_tools/data/report.py:66 | `inflection.camelize` upper-cases the first letter and keeps a name without `_` otherwise as it is |

## Left out

- Reading and writing files is not modelled; these steps take parsed contents and give rows or records. This covers CSV and NDJSON, gzip, the three TSV files of `aggregate_edges`, Avro reading, `simplify_directory`, `migrate_bundles`/`migrate_ndjson`/`migrate_json_gz`/`migrate_directory` and the file loop of `directory_reader`.
- `print`, `logging` and `tqdm` output is not modelled. The exceptions are the once-only logs (`_debug_once`, `log_once`), which are state, and `log_stats`, which is modelled as the text it logs.
- The network is not modelled:
  - `_add_extensions` fetches extension definitions over HTTP; the rewrite it makes of a schema is a parameter, `SchemaSimplify.Config.extension`;
  - `ensure_schema`, the definitions download of binding_lookup.py and the `requests_cache` install are left out.
- The SQLite `element_bindings` table is not modelled: its rows matching a title are a parameter, and the insert is not modelled.
- `run_cmd` and the `pfb` command line tool are not modelled: `Pfb.SimplePfbWriter` records the commands it would run.
- The JSON-Schema compilation and validation of fastjsonschema and jsonschema are not modelled. The compiled check is a parameter (`conforms`), and its format regexes are not modelled.
- FHIR library introspection is not modelled. This covers `klass.schema()`, `get_fhir_model_class`, `parse_obj`, `get_alias_mapping`, `elements_sequence`, `_find_fhir_classes` and `_update_stats`. Their results are parameters.
- The per-class loop of `_extract_schemas` is not modelled: one iteration is modelled, given the class's generated schema.
- `SimplifierContextManager` monkey-patches the FHIR classes' `dict()`. It is modelled as a dispatch over the value's type (`SimplifierRender.Dict`). `THREAD_LOCAL` is an explicit accumulator in `Simplifier.SimplifierState`.
- The URL validator patch in iceberg_tools/__init__.py is not modelled.
- `uuid.uuid3`/`uuid5` are not modelled: the name-based UUID is a function parameter.
- `int()` (`Text.ParseInt`, used both for the row fields of construct_medication_request.py and for JSON pointer indices) is modelled for surrounding whitespace, one sign, and ASCII digits with single underscores between them. The Unicode digits it also accepts are not modelled.
- Json: numbers are modelled as integers only (`Json.Int`). Floats and `Decimal` values cannot be represented, so they are out of scope. These include FHIR decimals, `str()` of a float cell in clean_data.py:15 and the `str(Decimal)` and bytes rendering of `_default_json_serializer` (iceberg_tools/data/simplifier/__init__.py:522-529).
- Inflection.Underscore and Inflection.Camelize are written for ASCII letters; the Unicode case mappings of Python's `str.lower`/`str.upper` are not modelled.
- JsonPointer.SequenceIndex: the token `-` is an error here. The library returns an `EndOfList` marker on the last step instead, and the code never builds such a pointer.
- HrefTemplate.Fill: a field's format spec is parsed and then not applied, and attribute or index access after the field name (`{a.b}`, `{a[0]}`) is not applied either; the templates of the code use neither.
- HrefTemplate.Pattern: the regular expression `_extract_id` builds is modelled as literal characters and `(.*)` groups. The rest of the `re` language is not modelled.
- Migrator: each rule returns the migrated dict as a new value. The source updates the resource dict in place and returns that same object, so aliasing between the argument and the result is not modelled.
- SchemaPluck: plucked sub-properties are written back into the referred schema, and the origin of each plucked dict is recorded. Some aliasing effects of the source are not modelled:
  - an alias stored by one turn is not updated by later turns;
  - a walk over a self-referencing schema sees the copy from before the turn;
  - the `_nested_objects` key is left on aliased dicts;
  - the same source property plucked twice in one turn is not modelled.
- Graph.CreateFrom, Graph.AssociationInstance.CreateOne, Graph.AssociationInstance.CreateInstance and Graph.AssociationInstance.New read the values of a `templatePointers` dict, as intended. The source iterates its keys and fails (see Findings); only `Graph.DictPointersFail` models that reading.
- Pfb.SimplePfbWriter.TransformDirectory: `transform_directory` is a generator (`yield self.write(file)`), so each write happens only when the caller asks for the next item. The model runs every write at once and returns the commands in order; a caller that stops early is not modelled.
- Report.AggregateEdges: the `edge_count` column is modelled as intended, the number of files in which the source entity occurs. As written it is always 0 (report.py:49, see Findings); only `Report.EdgeCountAlwaysZero` and `Report.EdgeCountDiffers` model that reading.
- Pfb.Counts is a map, so the key order of `results.counts` and of each summary's `relationships` (a name at its first record, a destination at its first relation) is not modelled; that order shows only in printed output, which is not modelled either.
- SchemaPluck.ListPluckStep states one turn of the pluck loop; chains of several turns are stated one turn at a time.
- SchemaConcepts: the `X_coding` and `X_text` entries that `_add_coding` creates share one dict in the source. The model stores two equal values, and no later pass selects either, so the sharing is never observed.
- `_bundle_schemas` (YAML text rewriting) is not modelled. Neither are the CLI modules under iceberg_tools/cli and tools/cli, or the viewer's `onefile`/`yaml_dir` commands.
- The date/time scripts are not modelled: readable_to_epoch_time.py and epochtime_convert.py depend on the C library's `strptime`/`mktime` and the time zone.
- Several scripts are not modelled: build_concept_table.py (multiprocessing and polars), table_tools.py, specimen_anatomic_site_to_fhir_Body_Structure.py, redivis_extract.py, regenObjects.py and the viewer's JavaScript.
- Behaviour that the tests assert but the shown source lacks is not modelled: a third `nested_objects` argument to `simplify`, Quantity flattening, and `relations` under the PFB dialect.

## Findings

| source | as written | input that shows it | evidently intended | confidence | as-written member | corrected member |
|---|---|---|---|---|---|---|
| iceberg_tools/graph/__init__.py:113 | `for _ in schema_link['templatePointers']` iterates a dict by key, so the key is handed to `resolve_pointer` | `templatePointers: {id: "/id"}`, the form tests/unit/link-description-object/conftest.py uses: `resolve_pointer(vertex, "id")` raises "Location must start with /" | resolve the dict's values, the pointers | high; not executed | Graph.DictPointersFail | Graph.DictPointersCreate |
| iceberg_tools/data/report.py:49 | `len(aggregated_node_counts[source])` looks up an entity name in a dict keyed by file paths, creating an empty dict | one file with a Patient record related to a Specimen: the row reads `Patient Specimen 1 0` | the number of files in which the source entity occurs (1 here) | medium; not executed | Report.EdgeCountDiffers | Report.EdgeRowsMeaning |
| omop-fhir-translator/clean_data.py:129-130 | `f.seek(0)` rewinds the file under the exhausted DictReader, which then reads the header line as a data row | a concept file holding only its header: one record of column names is written | re-create the reader after rewinding, so the header is read once | high; not executed | CleanData.HeaderOnlyTable | CleanData.ConceptsShape |
| omop-fhir-translator/omop_to_fhir/construct_medication_request.py:66 | `row["rout_concept_id"]` misspells the key | a row with both `sig` and `route_concept_id` raises KeyError | test `row["route_concept_id"]` and emit text and route | high; not executed | MedicationRequest.SigAndRoute | MedicationRequest.IntendedParts |
| omop-fhir-translator/omop_to_fhir/construct_medication_request.py:94-95 | `out["dispenseRequest"]["numberOfRepeatsAllowed"]` indexes a key not yet created | a row whose `refills` value `int()` reads raises KeyError on `dispenseRequest` (once the earlier steps succeed) | create `dispenseRequest` first and store the repeats | high; not executed | MedicationRequest.RefillsFail | MedicationRequest.IntendedParts |
| omop-fhir-translator/omop_to_fhir/construct_medication_request.py:96-101 | each branch assigns a fresh `{}` to `dispenseRequest` | `quantity` and `days_supply` set: only the supply duration is kept | keep quantity, repeats and supply duration in one dict | medium; not executed | MedicationRequest.DaysSupplyWins | MedicationRequest.IntendedParts |
| omop-fhir-translator/omop_to_fhir/construct_medication_request.py:37 | `"quanitity" in row` misspells the key, so `quantity` alone never qualifies a row | a row with only `quantity` set gives no MedicationRequest | test `"quantity" in row` | high; not executed | MedicationRequest.QuantityAloneIgnored | MedicationRequest.NoRequestUnlessQualifiedIntended |
