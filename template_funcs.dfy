/** The helper functions the XML templates call (`xmlTemplateFuncMap`):
    prefix trimming of Go type strings, the tables from a Go type to the name
    of an XML encode or decode helper, the extension-companion reference and
    searches over a type's properties. */
module TemplateFuncs {
  import opened Analyzer

  /** `strings.TrimPrefix`: `s` without a leading `prefix`, or `s` itself. */
  function TrimPrefix(s: string, prefix: string): (r: string)
    ensures prefix <= s ==> prefix + r == s
    ensures !(prefix <= s) ==> r == s
  {
    if prefix <= s then s[|prefix|..] else s
  }

  /** `elemType`: "[]Foo" gives "Foo"; exactly one "[]" is removed. */
  function ElemType(goType: string): (r: string)
    ensures "[]" <= goType ==> "[]" + r == goType
    ensures !("[]" <= goType) ==> r == goType
  {
    TrimPrefix(goType, "[]")
  }

  /** `derefType`: "*Foo" gives "Foo"; exactly one "*" is removed. */
  function DerefType(goType: string): (r: string)
    ensures "*" <= goType ==> "*" + r == goType
    ensures !("*" <= goType) ==> r == goType
  {
    TrimPrefix(goType, "*")
  }

  lemma ElemTypeStripsOnlyOne(t: string)
    ensures ElemType("[]" + t) == t
    ensures ElemType("[][]" + t) == "[]" + t
  {
    assert "[][]" + t == "[]" + ("[]" + t);
  }

  lemma DerefTypeStripsOnlyOne(t: string)
    ensures DerefType("*" + t) == t
    ensures DerefType("**" + t) == "*" + t
  {
    assert "**" + t == "*" + ("*" + t);
  }

  /** `isExtField`: the property is a `_field` extension companion. */
  function IsExtField(p: AnalyzedProperty): (r: bool)
    ensures r <==> |p.jsonName| > 0 && p.jsonName[0] == '_'
  {
    "_" <= p.jsonName
  }

  /** The primitive kinds the helper tables tell apart; `Code` stands for
      every other base type (a generated code enumeration). */
  datatype Primitive = String | Bool | Int | Int64 | Uint32 | Float64 | Code

  /** The Go base types that have a helper of their own. */
  const PrimitiveBases: set<string> := {"string", "bool", "int", "int64", "uint32", "float64"}

  /** The primitive kind of a base Go type, and the suffix its helpers carry:
      a reference against which each of the three tables is checked. */
  function PrimitiveOf(base: string): (k: Primitive)
    ensures k == Code <==> base !in PrimitiveBases
  {
    if base == "string" then String
    else if base == "bool" then Bool
    else if base == "int" then Int
    else if base == "int64" then Int64
    else if base == "uint32" then Uint32
    else if base == "float64" then Float64
    else Code
  }

  function Suffix(k: Primitive): string
  {
    match k
    case String => "String"
    case Bool => "Bool"
    case Int => "Int"
    case Int64 => "Int64"
    case Uint32 => "Uint32"
    case Float64 => "Float64"
    case Code => "Code"
  }

  const EncodeNames: set<string> := {
    "xmlEncodePrimitiveString", "xmlEncodePrimitiveBool", "xmlEncodePrimitiveInt",
    "xmlEncodePrimitiveInt64", "xmlEncodePrimitiveUint32", "xmlEncodePrimitiveFloat64",
    "xmlEncodePrimitiveCode"}

  const EncodeArrayNames: set<string> := {
    "xmlEncodePrimitiveStringArray", "xmlEncodePrimitiveBoolArray", "xmlEncodePrimitiveIntArray",
    "xmlEncodePrimitiveInt64Array", "xmlEncodePrimitiveUint32Array", "xmlEncodePrimitiveFloat64Array",
    "xmlEncodePrimitiveCodeArray"}

  const DecodeNames: set<string> := {
    "xmlDecodePrimitiveString", "xmlDecodePrimitiveBool", "xmlDecodePrimitiveInt",
    "xmlDecodePrimitiveInt64", "xmlDecodePrimitiveUint32", "xmlDecodePrimitiveFloat64"}

  /** `xmlPrimitiveFunc`: the encode helper for a possibly-pointer Go type. */
  function XmlPrimitiveFunc(goType: string): (r: string)
    ensures r in EncodeNames
    ensures r == "xmlEncodePrimitive" + Suffix(PrimitiveOf(DerefType(goType)))
    ensures DerefType(goType) !in PrimitiveBases ==> r == "xmlEncodePrimitiveCode"
  {
    match DerefType(goType)
    case "string" => "xmlEncodePrimitiveString"
    case "bool" => "xmlEncodePrimitiveBool"
    case "int" => "xmlEncodePrimitiveInt"
    case "int64" => "xmlEncodePrimitiveInt64"
    case "uint32" => "xmlEncodePrimitiveUint32"
    case "float64" => "xmlEncodePrimitiveFloat64"
    case _ => "xmlEncodePrimitiveCode"
  }

  /** The names of the slice helpers, spelled out from the kind suffix. */
  lemma ArrayNamesSpelled(k: Primitive)
    ensures "xmlEncodePrimitive" + Suffix(k) + "Array" in EncodeArrayNames
    ensures "xmlEncodePrimitive" + Suffix(k) + "Array" ==
      match k
      case String => "xmlEncodePrimitiveStringArray"
      case Bool => "xmlEncodePrimitiveBoolArray"
      case Int => "xmlEncodePrimitiveIntArray"
      case Int64 => "xmlEncodePrimitiveInt64Array"
      case Uint32 => "xmlEncodePrimitiveUint32Array"
      case Float64 => "xmlEncodePrimitiveFloat64Array"
      case Code => "xmlEncodePrimitiveCodeArray"
  {
    match k
    case String => assert "xmlEncodePrimitive" + "String" + "Array" == "xmlEncodePrimitiveStringArray";
    case Bool => assert "xmlEncodePrimitive" + "Bool" + "Array" == "xmlEncodePrimitiveBoolArray";
    case Int => assert "xmlEncodePrimitive" + "Int" + "Array" == "xmlEncodePrimitiveIntArray";
    case Int64 => assert "xmlEncodePrimitive" + "Int64" + "Array" == "xmlEncodePrimitiveInt64Array";
    case Uint32 => assert "xmlEncodePrimitive" + "Uint32" + "Array" == "xmlEncodePrimitiveUint32Array";
    case Float64 => assert "xmlEncodePrimitive" + "Float64" + "Array" == "xmlEncodePrimitiveFloat64Array";
    case Code => assert "xmlEncodePrimitive" + "Code" + "Array" == "xmlEncodePrimitiveCodeArray";
  }

  /** `xmlPrimitiveArrayFunc`: the encode helper for a slice Go type. */
  function XmlPrimitiveArrayFunc(goType: string): (r: string)
    ensures r in EncodeArrayNames
    ensures r == "xmlEncodePrimitive" + Suffix(PrimitiveOf(ElemType(goType))) + "Array"
    ensures ElemType(goType) !in PrimitiveBases ==> r == "xmlEncodePrimitiveCodeArray"
  {
    ArrayNamesSpelled(PrimitiveOf(ElemType(goType)));
    match ElemType(goType)
    case "string" => "xmlEncodePrimitiveStringArray"
    case "bool" => "xmlEncodePrimitiveBoolArray"
    case "int" => "xmlEncodePrimitiveIntArray"
    case "int64" => "xmlEncodePrimitiveInt64Array"
    case "uint32" => "xmlEncodePrimitiveUint32Array"
    case "float64" => "xmlEncodePrimitiveFloat64Array"
    case _ => "xmlEncodePrimitiveCodeArray"
  }

  /** `xmlPrimitiveDecodeFunc`: the decode helper for a possibly-pointer Go
      type; code types get the generic helper instantiated at the base type. */
  function XmlPrimitiveDecodeFunc(goType: string): (r: string)
    ensures DerefType(goType) in PrimitiveBases ==>
      r in DecodeNames && r == "xmlDecodePrimitive" + Suffix(PrimitiveOf(DerefType(goType)))
    ensures DerefType(goType) !in PrimitiveBases ==>
      r == "xmlDecodePrimitiveCode[" + DerefType(goType) + "]"
  {
    match DerefType(goType)
    case "string" => "xmlDecodePrimitiveString"
    case "bool" => "xmlDecodePrimitiveBool"
    case "int" => "xmlDecodePrimitiveInt"
    case "int64" => "xmlDecodePrimitiveInt64"
    case "uint32" => "xmlDecodePrimitiveUint32"
    case "float64" => "xmlDecodePrimitiveFloat64"
    case _ => "xmlDecodePrimitiveCode[" + DerefType(goType) + "]"
  }

  /** A pointer and its base type get the same helpers, as long as the base
      type is not itself a pointer type (one "*" is stripped, not all). */
  lemma PointerAndBaseAgree(t: string)
    requires !("*" <= t)
    ensures XmlPrimitiveFunc("*" + t) == XmlPrimitiveFunc(t)
    ensures XmlPrimitiveDecodeFunc("*" + t) == XmlPrimitiveDecodeFunc(t)
  {
  }

  /** Only one "*" is stripped: a double pointer to string is treated as a
      code type while a single pointer to string is not. */
  lemma DoublePointerIsCode()
    ensures XmlPrimitiveFunc("**string") == "xmlEncodePrimitiveCode"
    ensures XmlPrimitiveFunc("*string") == "xmlEncodePrimitiveString"
  {
    assert DerefType("**string") == "*string";
  }

  /** The encode and decode tables classify every type the same way. */
  lemma {:induction false} EncodeDecodeAgree(goType: string)
    ensures var base := DerefType(goType);
      XmlPrimitiveDecodeFunc(goType) ==
        if base in PrimitiveBases
        then "xmlDecodePrimitive" + XmlPrimitiveFunc(goType)[|"xmlEncodePrimitive"|..]
        else "xmlDecodePrimitiveCode[" + base + "]"
  {
    var base := DerefType(goType);
    var enc := XmlPrimitiveFunc(goType);
    assert enc == "xmlEncodePrimitive" + Suffix(PrimitiveOf(base));
    assert enc[|"xmlEncodePrimitive"|..] == Suffix(PrimitiveOf(base));
  }

  /** The slice table names, for `[]T`, the array form of T's scalar helper. */
  lemma ArrayAndScalarAgree(t: string)
    requires !("*" <= t)
    ensures XmlPrimitiveArrayFunc("[]" + t) == XmlPrimitiveFunc(t) + "Array"
  {
    assert ElemType("[]" + t) == t;
  }

  /** `extFieldRef`: the Go expression for a property's extension companion. */
  function ExtFieldRef(receiver: string, p: AnalyzedProperty): (r: string)
    ensures r == "nil" <==> !p.hasExtension || p.isChoice
    ensures r != "nil" ==> r == receiver + "." + p.name + "Ext"
  {
    if !p.hasExtension || p.isChoice then "nil"
    else receiver + "." + p.name + "Ext"
  }

  /** Some property of `ps` has Go type "Resource". */
  ghost predicate HasResourceProperty(ps: seq<AnalyzedProperty>)
  {
    exists i :: 0 <= i < |ps| && ps[i].goType == "Resource"
  }

  /** `hasIdField`: some property has wire name "id". */
  method HasIdField(t: AnalyzedType) returns (found: bool)
    ensures found <==> exists i :: 0 <= i < |t.properties| && t.properties[i].jsonName == "id"
  {
    for i := 0 to |t.properties|
      invariant forall k :: 0 <= k < i ==> t.properties[k].jsonName != "id"
    {
      if t.properties[i].jsonName == "id" {
        return true;
      }
    }
    return false;
  }

  /** `hasResourceField`: some property has Go type "Resource". */
  method HasResourceField(t: AnalyzedType) returns (found: bool)
    ensures found <==> HasResourceProperty(t.properties)
  {
    for i := 0 to |t.properties|
      invariant forall k :: 0 <= k < i ==> t.properties[k].goType != "Resource"
    {
      if t.properties[i].goType == "Resource" {
        return true;
      }
    }
    return false;
  }

  /** `resourceFieldName`: the name of the first Resource-typed property, or
      "" when there is none. */
  method ResourceFieldName(t: AnalyzedType) returns (name: string)
    ensures !HasResourceProperty(t.properties) ==> name == ""
    ensures HasResourceProperty(t.properties) ==>
      exists i :: 0 <= i < |t.properties| && t.properties[i].goType == "Resource" &&
        name == t.properties[i].name &&
        forall k :: 0 <= k < i ==> t.properties[k].goType != "Resource"
  {
    for i := 0 to |t.properties|
      invariant forall k :: 0 <= k < i ==> t.properties[k].goType != "Resource"
    {
      if t.properties[i].goType == "Resource" {
        return t.properties[i].name;
      }
    }
    return "";
  }
}
