/** The interface records the generator walks. The parser that builds them
    and the type mapping that fills in their C++ type strings are outside
    this model: their results arrive here as plain string fields, and the
    two expression builders of an argument as functions. */
module Ir {

  /** A method argument. `cpptypeSend(var, name)` is the statement that packs
      `name` into a variant called `var`; `cppvalueGet(var, out, idx)` is the
      statement that unpacks child `idx` of the reply into `out`. */
  datatype Arg = Arg(
    name: string,
    cpptypeIn: string,
    cpptypeOut: string,
    cpptypeGet: string,
    cpptypeGetCast: string,
    cpptypeSend: (string, string) -> string,
    cppvalueGet: (string, string, string) -> string)

  /** A D-Bus method: `name` is its wire name, `camelName` the name its proxy
      definitions use. */
  datatype Method = Method(name: string, camelName: string, inArgs: seq<Arg>, outArgs: seq<Arg>)

  datatype Property = Property(
    name: string,
    readable: bool,
    writable: bool,
    cpptypeIn: string,
    cpptypeOut: string,
    cpptypeGet: string,
    cpptypeGetCast: string,
    cpptypeToDbus: string)

  /** An interface: `name` is the dotted D-Bus name, `cppNamespaceName` the
      `::`-separated qualified C++ name whose last segment names the class. */
  datatype Interface = Interface(
    name: string,
    cppNamespaceName: string,
    cppClassName: string,
    methods: seq<Method>,
    properties: seq<Property>)

  predicate IsIdentifierChar(c: char)
  {
    'a' <= c <= 'z' || 'A' <= c <= 'Z' || '0' <= c <= '9' || c == '_'
  }

  /** A C++ identifier as the parser produces it (letters, digits, underscores). */
  predicate IsIdentifier(s: string)
  {
    forall k :: 0 <= k < |s| ==> IsIdentifierChar(s[k])
  }

  predicate IsReadable(p: Property)
  {
    p.readable
  }

  predicate IsWritable(p: Property)
  {
    p.writable
  }
}
