/** The data behind a resource's generated builder: `toLowerFirstChar` and
    `buildResourceBuilderData`. */
module Builder {
  import opened Analyzer
  import opened TemplateFuncs

  /** `toLowerFirstChar`, over a string of code points (Go's runes).
      `lower` is the rune case mapping (`unicode.ToLower`). */
  function ToLowerFirstChar(s: string, lower: char -> char): (r: string)
    ensures |r| == |s|
    ensures s != "" ==> r[0] == lower(s[0])
    ensures forall i :: 1 <= i < |s| ==> r[i] == s[i]
  {
    if s == "" then "" else [lower(s[0])] + s[1..]
  }

  /** With a case mapping that is idempotent on the first rune, lowering the
      first rune a second time changes nothing. */
  lemma LowerFirstCharIdempotent(s: string, lower: char -> char)
    requires s != "" ==> lower(lower(s[0])) == lower(s[0])
    ensures ToLowerFirstChar(ToLowerFirstChar(s, lower), lower) == ToLowerFirstChar(s, lower)
  {
    if s != "" {
      var once := ToLowerFirstChar(s, lower);
      assert once[1..] == s[1..];
    }
  }

  /** `PropertyBuilderData`. */
  datatype PropertyBuilderData = PropertyBuilderData(
    name: string,
    goType: string,
    isArray: bool,
    isPointer: bool,
    isChoice: bool,
    elementType: string,  // for arrays: "HumanName" from "[]HumanName"; "" otherwise
    baseType: string)     // for pointers: "string" from "*string"; "" otherwise

  /** `ResourceBuilderData`. */
  datatype ResourceBuilderData = ResourceBuilderData(
    name: string,
    lowerName: string,
    properties: seq<PropertyBuilderData>)

  /** `d` is the builder data of property `p`: the five copied fields agree,
      and the element and base types are filled in only for arrays and
      pointers respectively. */
  ghost predicate DescribesProperty(d: PropertyBuilderData, p: AnalyzedProperty)
  {
    && d.name == p.name
    && d.goType == p.goType
    && d.isArray == p.isArray
    && d.isPointer == p.isPointer
    && d.isChoice == p.isChoice
    && d.elementType == (if p.isArray then ElemType(p.goType) else "")
    && d.baseType == (if p.isPointer then DerefType(p.goType) else "")
  }

  /** `r` is the builder data of type `t`, property by property, in order. */
  ghost predicate DescribesType(r: ResourceBuilderData, t: AnalyzedType, lower: char -> char)
  {
    && r.name == t.name
    && r.lowerName == ToLowerFirstChar(t.name, lower)
    && |r.properties| == |t.properties|
    && forall i :: 0 <= i < |t.properties| ==> DescribesProperty(r.properties[i], t.properties[i])
  }

  /** `buildResourceBuilderData`. */
  method BuildResourceBuilderData(t: AnalyzedType, lower: char -> char) returns (r: ResourceBuilderData)
    ensures DescribesType(r, t, lower)
  {
    var props: seq<PropertyBuilderData> := [];
    for i := 0 to |t.properties|
      invariant |props| == i
      invariant forall k :: 0 <= k < i ==> DescribesProperty(props[k], t.properties[k])
    {
      var p := t.properties[i];
      var d := PropertyBuilderData(p.name, p.goType, p.isArray, p.isPointer, p.isChoice, "", "");
      if p.isArray {
        d := d.(elementType := TrimPrefix(p.goType, "[]"));
      }
      if p.isPointer {
        d := d.(baseType := TrimPrefix(p.goType, "*"));
      }
      props := props + [d];
    }
    r := ResourceBuilderData(t.name, ToLowerFirstChar(t.name, lower), props);
  }

  /** The builder data of a property rebuilds its Go type: a slice type from
      its element type, a pointer type from its base type. */
  lemma PropertyTypesRebuild(d: PropertyBuilderData, p: AnalyzedProperty)
    requires DescribesProperty(d, p)
    ensures d.isArray && "[]" <= d.goType ==> "[]" + d.elementType == d.goType
    ensures d.isPointer && "*" <= d.goType ==> "*" + d.baseType == d.goType
    ensures d.elementType != "" ==> d.isArray
    ensures d.baseType != "" ==> d.isPointer
  {
  }
}
