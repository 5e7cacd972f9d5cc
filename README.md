# gofhir code generator: the data behind the templates

This project models the pure, data-shaping part of the gofhir code generator,
`internal/codegen/generator/template_loader.go`. Before the generator renders a
Go template, it shapes the analyzed FHIR catalog (resources, datatypes,
primitives, backbone elements, value sets) into the records the template
reads. The model covers:

- **XML template helpers** (`xmlTemplateFuncMap`):
  - the Go type-string trims `elemType` and `derefType`;
  - the `_field` extension-companion test `isExtField`;
  - the three tables from a Go type to the name of an XML encode or decode helper;
  - `extFieldRef`;
  - the property searches `hasIdField`, `hasResourceField` and `resourceFieldName`.
- **Builder data**: `toLowerFirstChar` and `buildResourceBuilderData`, which copy
  each property and strip one `[]` or `*` prefix.
- **Catalog collection** inside the `generate*` methods:
  - the sorted resource names of the registry;
  - the per-resource summary fields;
  - the value sets, de-duplicated by sanitized type name in sorted URL order;
  - the per-resource file data, with backbones sorted on a copy;
  - the ordered datatype list with its sorted backbones.

Modules:

- `Analyzer` (analyzer.dfy): the analyzer's records, reduced to the fields the
  generator reads.
- `Order` (order.dfy): Go's string ordering and a reference sort.
- `Lists` (lists.dfy): the filter and map shapes that the collecting loops build
  with `append`.
- `TemplateFuncs` (template_funcs.dfy): the XML template helpers.
- `Builder` (builder.dfy): `toLowerFirstChar` and the builder data.
- `Generator` (generator.dfy): the collectors of the `generate*` methods.

Modelling choices:

- **Representation.**
  - Strings are sequences of code points (Go runes).
  - Go's `<` on strings compares UTF-8 bytes, which gives the same order as
    comparing code points. `Order.Below` models it.
- **Parameters for code this model does not include.**
  - `unicode.ToLower` is a parameter `lower: char -> char`. `strings.ToLower`
    applies `lower` to each rune.
  - `sanitizeTypeName` and `toPascalCaseCode` are function parameters.
  - The value-set loader is a map from URL to value set. A URL missing from
    the map is the loader's nil result.
  - The analyzer's `UsedBindings` map is modelled by its key set. A nil
    analyzer is `None`.
- **Sorting.**
  - Every `sort.Strings` and `sort.Slice` call is proved to produce a sorted
    permutation of its input.
  - The sort used is `Order.SortBy`, an insertion sort.
  - For strings, `Order.SortedStringsUnique` shows that any sorted permutation
    is this one.
- **Loops.** The collecting loops are methods with `for` loops. Each is proved
  equal to a function of its input (`ResourceNames`, `SummaryEntries`,
  `CollectValueSets`, `DatatypeOrder`, `BackbonesOf`), and lemmas state what
  that function means.

## Model

| member | source | states |
|---|---|---|
| Order.BelowTotal | internal/codegen/generator/template_loader.go:289-291 | Go's string comparison orders any two names one way or the other, so sorting by name is well defined |
| Order.BelowTransitive | internal/codegen/generator/template_loader.go:289-291 | the name comparison is transitive |
| Order.BelowAntisymmetric | internal/codegen/generator/template_loader.go:289-291 | two names each at most the other are equal |
| Order.SortBy | internal/codegen/generator/template_loader.go:154 | the sort returns a permutation of its input, sorted by the key |
| Order.SortedStringsUnique | internal/codegen/generator/template_loader.go:192 | two sorted lists of strings with the same elements (counting repeats) are equal, so the sorted URL list is fully determined |
| TemplateFuncs.TrimPrefix | internal/codegen/generator/template_loader.go:323-328 | `strings.TrimPrefix` removes the prefix once when present, and otherwise returns the string unchanged |
| TemplateFuncs.ElemType | internal/codegen/generator/template_loader.go:433-436 | `elemType` removes exactly one leading "[]", or returns the type unchanged when there is none |
| TemplateFuncs.DerefType | internal/codegen/generator/template_loader.go:438-441 | `derefType` removes exactly one leading "*", or returns the type unchanged when there is none |
| TemplateFuncs.ElemTypeStripsOnlyOne | internal/codegen/generator/template_loader.go:433-436 | "[]T" gives T, and "[][]T" gives "[]T", not T |
| TemplateFuncs.DerefTypeStripsOnlyOne | internal/codegen/generator/template_loader.go:438-441 | "*T" gives T, and "**T" gives "*T", not T |
| TemplateFuncs.IsExtField | internal/codegen/generator/template_loader.go:343-346 | a property is an extension companion exactly when its wire name starts with '_' |
| TemplateFuncs.PrimitiveOf | internal/codegen/generator/template_loader.go:348-368 | a base type falls into the Code group exactly when it is not one of the six Go primitives with their own helper |
| TemplateFuncs.XmlPrimitiveFunc | internal/codegen/generator/template_loader.go:348-368 | the encode helper is one of the seven names. It is chosen only by the type with one "*" stripped, and every non-primitive base type gets the Code helper |
| TemplateFuncs.ArrayNamesSpelled | internal/codegen/generator/template_loader.go:389-409 | the seven slice helper names are "xmlEncodePrimitive" + the kind's suffix + "Array" |
| TemplateFuncs.XmlPrimitiveArrayFunc | internal/codegen/generator/template_loader.go:389-409 | the slice encode helper is one of the seven Array names. It is chosen only by the element type, and non-primitive elements get the Code variant |
| TemplateFuncs.XmlPrimitiveDecodeFunc | internal/codegen/generator/template_loader.go:411-431 | a primitive base type gets its decode helper, and any other base type gets exactly "xmlDecodePrimitiveCode[" + base + "]" |
| TemplateFuncs.PointerAndBaseAgree | internal/codegen/generator/template_loader.go:348-368 | "*T" and T get the same encode and decode helpers when T itself has no leading "*" |
| TemplateFuncs.DoublePointerIsCode | internal/codegen/generator/template_loader.go:350-352 | only one "*" is stripped: "**string" gets the Code helper and "*string" the String helper |
| TemplateFuncs.EncodeDecodeAgree | internal/codegen/generator/template_loader.go:348-431 | the encode and decode tables classify every type the same way: the decode name is the encode suffix behind "xmlDecodePrimitive", except for code types |
| TemplateFuncs.ArrayAndScalarAgree | internal/codegen/generator/template_loader.go:389-409 | the slice helper for "[]T" is T's scalar encode helper with "Array" appended |
| TemplateFuncs.ExtFieldRef | internal/codegen/generator/template_loader.go:370-377 | the result is "nil" exactly when the property has no extension or is a choice, and otherwise receiver + "." + name + "Ext" |
| TemplateFuncs.HasIdField | internal/codegen/generator/template_loader.go:379-387 | true exactly when some property has wire name "id" |
| TemplateFuncs.HasResourceField | internal/codegen/generator/template_loader.go:443-451 | true exactly when some property has Go type "Resource" |
| TemplateFuncs.ResourceFieldName | internal/codegen/generator/template_loader.go:453-461 | the name of the first property of Go type "Resource", or "" when there is none |
| Builder.ToLowerFirstChar | internal/codegen/generator/template_loader.go:241-249 | same rune count; the first rune is lowered; all other runes are unchanged; "" stays "" |
| Builder.LowerFirstCharIdempotent | internal/codegen/generator/template_loader.go:241-249 | lowering the first rune twice is lowering it once, for a case mapping idempotent on that rune |
| Builder.BuildResourceBuilderData | internal/codegen/generator/template_loader.go:306-334 | name copied; lower name is `toLowerFirstChar` of it; one builder entry per property, in order; five fields copied; element type set only for arrays and base type only for pointers, each with one prefix stripped |
| Builder.PropertyTypesRebuild | internal/codegen/generator/template_loader.go:323-328 | the builder data rebuilds a slice or pointer Go type from its element or base type, and a non-empty element or base type implies an array or a pointer |
| Lists.MapFilterMember | internal/codegen/generator/template_loader.go:147-152 | a collect-if loop yields the image of exactly the elements that pass its test |
| Generator.ResourceNamesSpec | internal/codegen/generator/template_loader.go:147-152 | a name is collected for the registry exactly when a resource-kind type has it |
| Generator.RegistryResourceNames | internal/codegen/generator/template_loader.go:146-154 | the registry names are sorted and are a permutation of the names of the resource-kind types |
| Generator.CollectSummaryFields | internal/codegen/generator/template_loader.go:272-277 | the wire names of the summary properties, in property order |
| Generator.HasSummaryIff | internal/codegen/generator/template_loader.go:266-279 | a type is listed exactly when it is resource-kind and has a summary property |
| Generator.SummaryEntriesSpec | internal/codegen/generator/template_loader.go:264-287 | an entry is collected exactly when it is the entry of a listed type of the catalog |
| Generator.SummaryOfSpec | internal/codegen/generator/template_loader.go:279-286 | a listed resource's field list is non-empty, sorted, and a permutation of its summary wire names |
| Generator.SummaryResources | internal/codegen/generator/template_loader.go:264-291 | the summary list is sorted by resource name and is a permutation of the entries of the listed resources |
| Generator.CodeDataOf | internal/codegen/generator/template_loader.go:217-223 | one code entry per source code, in order, with code and display copied and the constant named by `toPascalCaseCode` |
| Generator.CollectCodes | internal/codegen/generator/template_loader.go:210-223 | the inner loop builds exactly the code list of the value set |
| Generator.SortedKeysSpec | internal/codegen/generator/template_loader.go:188-192 | the URLs are visited in sorted order, each used binding exactly once |
| Generator.SortedBindingUrls | internal/codegen/generator/template_loader.go:188-192 | collecting the binding keys in any order and then sorting gives the sorted key list |
| Generator.CollectValueSetsDistinct | internal/codegen/generator/template_loader.go:194-208 | no two collected value sets share a sanitized type name |
| Generator.CollectValueSetsFirstWins | internal/codegen/generator/template_loader.go:194-208 | a value set is collected exactly for the URLs the loader knows that are the first in visiting order to yield their type name; unknown URLs and later duplicates add nothing |
| Generator.CollectValueSetsInOrder | internal/codegen/generator/template_loader.go:194-226 | the loop over the sorted URLs, which keeps a map of the type names generated so far, computes exactly the first-wins collection |
| Generator.CodeSystems | internal/codegen/generator/template_loader.go:182-226 | nothing is generated exactly when there is no analyzer or no used binding. Otherwise the result is the first-wins collection over the sorted binding URLs |
| Generator.ToLowerString | internal/codegen/generator/template_loader.go:544 | `strings.ToLower` keeps the length and lowers every rune |
| Generator.ResourceFileName | internal/codegen/generator/template_loader.go:544 | the file name is "resource_" + the lower-cased name + ".go", rune by rune |
| Generator.SortedBackbones | internal/codegen/generator/template_loader.go:524-531 | a resource's backbones, sorted by name, as a permutation of its own list |
| Generator.ResourcesConsolidated | internal/codegen/generator/template_loader.go:518-553 | one file per resource-kind type, in catalog order, each with its file name, the resource, its sorted backbones and its builder data |
| Generator.BackbonesOfSpec | internal/codegen/generator/template_loader.go:579-581 | a backbone is gathered exactly when one of the gathered types has it |
| Generator.DatatypeOrderSpec | internal/codegen/generator/template_loader.go:561-578 | no other datatype precedes a base type, and the list holds exactly the Element and BackboneElement types and the datatype, primitive and backbone kinds |
| Generator.CollectBaseTypes | internal/codegen/generator/template_loader.go:561-566 | the first loop collects exactly the Element and BackboneElement types, in catalog order |
| Generator.CollectOtherDatatypes | internal/codegen/generator/template_loader.go:568-582 | the second loop collects the other datatype, primitive and backbone types in catalog order, and their backbones list after list |
| Generator.DatatypesConsolidated | internal/codegen/generator/template_loader.go:557-586 | the types are the base types followed by the other datatypes. The backbones are sorted by name and are a permutation of those of the other datatypes |

## Left out

- Loading, parsing and executing templates, `go/format`, and writing files, including the `.unformatted` debug file (template_loader.go:96-143, 466-498). These are I/O and library calls. `generateInterfacesFromTemplate` and `generateXMLHelpers` do only this, so they are not modelled. Each modelled collector stops before building its template data.
- The error returns of the `generate*` methods: a failed write in `generateResourcesConsolidated` ends its loop early. The model computes the data for every file.
- The header fields of the template data (package name, upper-cased version, file type) are not modelled. They come from configuration and do not depend on the catalog.
- The Unicode case tables are not modelled. `unicode.ToLower` is the parameter `lower`. Invalid UTF-8 in a name, which Go reads as U+FFFD, is not represented, because strings here are sequences of code points.
- `sanitizeTypeName`, `toPascalCaseCode`, the value-set loader and the analyzer package are not part of this model. They appear as parameters and plain records.
- Go's sorting algorithms are not modelled. `sort.Slice` is not stable, so when two resources or backbones have the same name, Go may order them differently from the model's stable insertion sort. Generator.SummaryResources, Generator.SortedBackbones and Generator.DatatypesConsolidated therefore promise only a sorted permutation.
- Pointers and aliasing are not modelled. Analyzed types are values, so "sorted on a copy, the resource's own list untouched" (template_loader.go:525-527) holds trivially.
- The iteration order of Go maps is not modelled. Generator.SortedBindingUrls accepts any order in which the keys are picked.
- `cmd/generator/main.go` (command-line entry point), `r5/marshal.go` (a wrapper over `encoding/json`), and the runtime codec, decimal and registry tests are not part of this model. The code they test is not among the files modelled.
