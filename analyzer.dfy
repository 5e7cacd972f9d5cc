/** The analyzer's output as the generator reads it.

    The analyzer package and the value-set loader are not part of this model;
    their records are kept here as plain values with only the fields the
    generator uses. Pointers to analyzed types become values, so sharing
    between records is not represented. */
module Analyzer {

  /** The `Kind` of a type that is a resource. */
  const KindResource: string := "resource"

  /** One field of an analyzed type. */
  datatype AnalyzedProperty = AnalyzedProperty(
    name: string,       // Go field name
    jsonName: string,   // wire name; companions of primitives start with '_'
    goType: string,     // Go type as text, e.g. "*string", "[]HumanName", "Resource"
    isArray: bool,
    isPointer: bool,
    isChoice: bool,
    hasExtension: bool,
    isSummary: bool)

  /** A resource, datatype, primitive or backbone type of the catalog. */
  datatype AnalyzedType = AnalyzedType(
    name: string,
    kind: string,
    properties: seq<AnalyzedProperty>,
    backboneTypes: seq<AnalyzedType>)

  /** The bindings the analyzer saw in use, keyed by value-set URL. */
  datatype AnalyzerState = AnalyzerState(usedBindings: set<string>)

  /** One code of a value set. */
  datatype ValueSetCode = ValueSetCode(code: string, display: string)

  /** A value set as the loader returns it for one URL. */
  datatype ValueSet = ValueSet(name: string, title: string, codes: seq<ValueSetCode>)

  datatype Option<+T> = None | Some(value: T)

  /** The sort key of analyzed types. */
  function TypeName(t: AnalyzedType): string
  {
    t.name
  }
}
