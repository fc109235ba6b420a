# gdbus-codegen-glibmm: the C++ emitter

This project models the `CodeGenerator` class of gdbus-codegen-glibmm.
The class takes parsed D-Bus interfaces and writes six C++ files:

- the proxy header and the proxy source (client side);
- the stub header and the stub source (server side);
- a common header and a common source.

It writes through a small family of `emit` helpers. The model keeps that
shape:

- `CodeGen.Sink` is an open output file: its name, plus the strings handed
  to its `write` so far.
- `CodeGen.CodeGenerator` holds the interfaces, the introspection documents,
  the version string and the six sinks.
- Each generator step is a method with the loops of the source.
- Each method is proved to leave exactly the writes that a pure function of
  module `Emission` gives. That function takes the old writes and the
  interface records.

The properties of the generated text are proved about those functions:

- Namespace lines balance in both headers. Each class opens its outer
  namespaces outermost first and closes them innermost first.
- A getter or setter is declared, defined and dispatched exactly when the
  property's access flags ask for it.
- In-arguments are packed according to their number.
- Out-argument `x` of a proxy call is unpacked from child `x` of the reply.
- In-argument `ai` of a stub call is unboxed from child `ai` of the call
  parameters.
- The stub header's introspection arrays read back as the documents, each
  under the array named by its position.
- An interface is registered at the object path of its name, and that path
  gives the name back.

Modules:

| module | file | role |
|---|---|---|
| `Wrappers` | wrappers.dfy | `Option` |
| `Text` | text.dfy | `split`/`join`, `str(n)` and its parse, two-digit hex and its parse, `replace` |
| `Ir` | ir.dfy | the interface, method, argument and property records |
| `Emission` | emission.dfy | the writes of every generator step, as functions |
| `CodeGen` | codegen.dfy | the sinks and the generator class |
| `Namespaces` | namespaces.dfy | namespace balance of the headers |
| `Arguments` | arguments.dfy | where argument lines land in calls and dispatchers |
| `Gating` | gating.dfy | the effect of the readable/writable flags |
| `Introspection` | introspection.dfy | a reader for the embedded introspection arrays, and the round trip |
| `ObjectPaths` | objectpaths.dfy | object paths of the stub registration |

## Where the model follows the code

The model writes what the code writes, including these behaviours:

- The stub's `connect` always loads `interfaceXml0` and owns the name on
  `BUS_TYPE_SESSION`. It ignores its `busType` argument and the interface's
  own position (codegen/codegen.py:340, codegen/codegen.py:346).
- The proxy header declares the method `m.name`. The proxy source defines
  `m.camel_name` (codegen/codegen.py:100, codegen/codegen.py:136).
- A single in-argument is packed straight into a variable called `params`.
  The tuple is created from that variable (codegen/codegen.py:149-154).
- The proxy method declaration writes `"...&slot);\n"` and then a separate
  newline, so two newlines follow that line (codegen/codegen.py:103).
- `generate` never writes the common source file. `Generate` proves that
  file unchanged.

## Model

| member | source | states |
|---|---|---|
| `CodeGen.Sink.Write` | codegen/codegen.py:45 | a write appends exactly its text to the file's writes |
| `CodeGen.CodeGenerator.constructor` | codegen/codegen.py:34-42 | the generator keeps the interfaces, documents and six files, which start empty and are six distinct objects |
| `CodeGen.CodeGenerator.Emit` | codegen/codegen.py:44-47 | `emit` writes the text, then a newline exactly when `newline` holds, to `dest` only |
| `CodeGen.CodeGenerator.EmitHP` | codegen/codegen.py:49-50 | emits to the proxy header and to no other file |
| `CodeGen.CodeGenerator.EmitCppP` | codegen/codegen.py:52-53 | emits to the proxy source and to no other file |
| `CodeGen.CodeGenerator.EmitHS` | codegen/codegen.py:55-56 | emits to the stub header and to no other file |
| `CodeGen.CodeGenerator.EmitCppS` | codegen/codegen.py:58-59 | emits to the stub source and to no other file |
| `CodeGen.CodeGenerator.EmitHCommon` | codegen/codegen.py:61-62 | emits to the common header and to no other file |
| `CodeGen.CodeGenerator.EmitCppCommon` | codegen/codegen.py:64-65 | emits to the common source and to no other file |
| `Emission.EmittedContents` | codegen/codegen.py:44-47 | the file's text after an `emit` is its old text, then `text`, then "\n" exactly when `newline` holds |
| `CodeGen.CodeGenerator.EmitNamespaceOpens` | codegen/codegen.py:85-86 | one `namespace <s> {` line per segment before the last of the qualified name, outermost first |
| `CodeGen.CodeGenerator.EmitNamespaceCloses` | codegen/codegen.py:130-131 | one `}// <s>` line per such segment, innermost first |
| `CodeGen.CodeGenerator.GenerateIntro` | codegen/codegen.py:67-75 | the proxy source gets the version banner and then the include of the proxy header |
| `CodeGen.CodeGenerator.DeclareTypes` | codegen/codegen.py:77-131 | the proxy header gets four includes, a blank line, then one class declaration per interface in order |
| `CodeGen.CodeGenerator.DeclareProxyClass` | codegen/codegen.py:84-131 | namespaces, class head, methods, gated property accessors, blank line, class tail, closing namespaces |
| `CodeGen.CodeGenerator.DeclareProxyMethod` | codegen/codegen.py:98-110 | the async call with one parameter per in-argument and the `_finish` with one per out-argument |
| `CodeGen.CodeGenerator.GenerateMethodCalls` | codegen/codegen.py:133-180 | the begin and the finish definition of every method of the interface, in order |
| `CodeGen.CodeGenerator.GenerateBegin` | codegen/codegen.py:136-162 | the begin definition: parameters, `base`, the packing, and the call under the wire name |
| `CodeGen.CodeGenerator.PackInArguments` | codegen/codegen.py:142-154 | the packing chosen by the number of in-arguments |
| `CodeGen.CodeGenerator.GenerateFinish` | codegen/codegen.py:164-180 | the finish definition, which unpacks out-argument `x` with index `x` |
| `CodeGen.CodeGenerator.GeneratePropertyHandlers` | codegen/codegen.py:182-213 | per property in order: the getter definition if readable, then the setter pair if writable |
| `CodeGen.CodeGenerator.GenerateProxy` | codegen/codegen.py:215-236 | the `createForBus`/`createForBusFinish` definitions for the interface |
| `CodeGen.CodeGenerator.GenerateStubIntrospection` | codegen/codegen.py:238-246 | per document: the array head, one entry per byte without newlines, `0x00`, `};` |
| `CodeGen.CodeGenerator.GenerateStubIntro` | codegen/codegen.py:248-249 | the stub source gets the include of the stub header |
| `CodeGen.CodeGenerator.DeclareTypesStub` | codegen/codegen.py:251-325 | the includes, then one abstract stub class per interface in order |
| `CodeGen.CodeGenerator.DeclareStubClass` | codegen/codegen.py:259-325 | namespaces, class head, pure virtual methods, gated accessors, callbacks, closing namespaces, blank line |
| `CodeGen.CodeGenerator.DeclareStubMethod` | codegen/codegen.py:270-277 | a method with one parameter per in-argument and the invocation |
| `CodeGen.CodeGenerator.DefineTypesStub` | codegen/codegen.py:327-463 | one stub definition per interface, in order |
| `CodeGen.CodeGenerator.DefineStubClass` | codegen/codegen.py:328-463 | prologue, method dispatch, get and set dispatch, bus callbacks at the object path |
| `CodeGen.CodeGenerator.DefineMethodDispatch` | codegen/codegen.py:359-372 | one dispatch branch: unbox in-argument `ai` from child `ai`, then call the method with the casts |
| `CodeGen.CodeGenerator.CreateCommon` | codegen/codegen.py:465-495 | the common header gets the `Common` class |
| `CodeGen.CodeGenerator.Generate` | codegen/codegen.py:498-514 | each of the five written files ends with exactly its spec text; the common source is untouched |
| `Text.Split` | codegen/codegen.py:85 | Python's `str.split`: there is always at least one piece |
| `Text.Decimal` | codegen/codegen.py:177 | Python's `str(x)` on a non-negative int: a non-empty run of decimal digits |
| `Text.HexByte` | codegen/codegen.py:244 | `char.encode("hex")`: exactly two lower-case hex digits |
| `Text.ReplaceChar` | codegen/codegen.py:329 | `str.replace` of one character by another keeps the length |
| `Text.ReplaceCharAt` | codegen/codegen.py:329 | each character is replaced exactly where it equals the one replaced, and kept elsewhere |
| `Text.SplitJoin` | codegen/codegen.py:85 | splitting a qualified name on `::` and joining the pieces gives the name back |
| `Text.DecimalRoundTrip` | codegen/codegen.py:177 | `str(x)` parses back to `x` |
| `Text.HexByteRoundTrip` | codegen/codegen.py:244 | a byte's two hex digits parse back to the byte |
| `Text.ReplaceCharBack` | codegen/codegen.py:329 | replacing `.` by `/` is undone by replacing back, when the name has no `/` |
| `Namespaces.OuterNamespacesJoin` | codegen/codegen.py:85-86 | the enclosing namespaces and the class segment join back into the qualified name |
| `Namespaces.RunOpens` | codegen/codegen.py:85-86 | opening lines push their segments in order |
| `Namespaces.RunCloses` | codegen/codegen.py:130-131 | closing lines, last segment first, pop exactly those segments |
| `Namespaces.ProxyClassDeclMarkers` | codegen/codegen.py:84-131 | a proxy class opens its outer namespaces and closes them in reverse, with no other namespace line |
| `Namespaces.ProxyHeaderMarkers` | codegen/codegen.py:77-131 | the namespace lines of the proxy header are one nest per interface, in order |
| `Namespaces.ProxyHeaderBalanced` | codegen/codegen.py:77-131 | every namespace the proxy header opens is closed, innermost first |
| `Namespaces.ConstructorDeclPlain` | codegen/codegen.py:266 | the stub constructor declaration is no namespace line |
| `Namespaces.StubClassDeclMarkers` | codegen/codegen.py:259-325 | a stub class nests like the proxy class |
| `Namespaces.IntrospectionPlain` | codegen/codegen.py:238-246 | the introspection arrays contain no namespace line |
| `Namespaces.StubHeaderMarkers` | codegen/codegen.py:238-325 | the namespace lines of the stub header are one nest per interface, in order |
| `Namespaces.StubHeaderBalanced` | codegen/codegen.py:238-325 | every namespace the stub header opens is closed, innermost first |
| `Namespaces.CommonHeaderBalanced` | codegen/codegen.py:465-495 | the common header has no namespace line |
| `Arguments.LinesLayout` | codegen/codegen.py:101-102 | a per-element loop writes element `k`'s line at offset `2k`, each followed by a newline |
| `Arguments.PackNoArgs` | codegen/codegen.py:142-154 | with no in-arguments, the packing writes nothing |
| `Arguments.PackOneArg` | codegen/codegen.py:149-154 | one in-argument: it is sent into `params`, then the tuple is created |
| `Arguments.PackManyArgs` | codegen/codegen.py:144-154 | two or more: the `params` vector, the send and push lines of argument `k` at `2+4k` and `4+4k`, then the tuple |
| `Arguments.PackTuple` | codegen/codegen.py:153-154 | `create_tuple` is written iff there is an in-argument, and then last |
| `Arguments.ProxyBeginPacking` | codegen/codegen.py:136-156 | the packing follows the head, the parameters, the callback and `base`, and precedes `m_proxy->call (` |
| `Arguments.UnpackOutLayout` | codegen/codegen.py:175-178 | out-argument `x` is unpacked with index `x`, each followed by an empty line |
| `Arguments.ProxyFinishIndices` | codegen/codegen.py:164-180 | in the finish definition, out-argument `x` is read with the index string `str(x)` |
| `Arguments.UnboxInShape` | codegen/codegen.py:363-367 | one unboxing is ten writes, and the third reads child `ai` |
| `Arguments.UnboxInLayout` | codegen/codegen.py:361-367 | in-argument `ai` is unboxed from child `ai`, for every `ai` in order |
| `Arguments.ChildIndexOf` | codegen/codegen.py:364 | the index read back from the `get_child` line of in-argument `ai` is `ai` |
| `Arguments.MethodDispatchIndices` | codegen/codegen.py:359-372 | in a dispatch branch, in-argument `ai` has its `get_child` line at offset `4+10ai`, and the index read back from that line is `ai` |
| `Gating.ProxyPropertyDeclGating` | codegen/codegen.py:112-117 | the proxy class declares `_get` iff readable, and `_set` and `_set_finish` iff writable |
| `Gating.StubPropertyDeclGating` | codegen/codegen.py:279-283 | the stub class declares the pure virtual `_get` iff readable and `_set` iff writable |
| `Gating.ProxyPropertyDeclsGating` | codegen/codegen.py:112-117 | for a whole property list, the proxy class declares the getter of every readable property and the setter pair of every writable one. Every line it writes is one of those or a newline |
| `Gating.StubPropertyDeclsGating` | codegen/codegen.py:279-283 | for a whole property list, the stub class declares the getter of every readable property and the setter of every writable one. Every line it writes is one of those or a newline |
| `Gating.PropertyHandlerGating` | codegen/codegen.py:182-213 | the proxy source defines the getter iff readable and the setter pair iff writable |
| `Gating.GetBranches` | codegen/codegen.py:383-389 | `on_interface_get_property` has one branch per readable property, in order |
| `Gating.SetBranches` | codegen/codegen.py:406-416 | `on_interface_set_property` has one branch per writable property, in order |
| `Gating.SetDispatchShape` | codegen/codegen.py:391-435 | the set dispatcher is its head, the writable branches and the `PropertiesChanged` tail, in that order |
| `Introspection.ParseHeadRoundTrip` | codegen/codegen.py:242 | the head `interfaceXml<i>[] = { ` reads back as `i` |
| `Introspection.ArrayNamesDistinct` | codegen/codegen.py:239-242 | documents at different positions get arrays of different names |
| `Introspection.ParseXmlByteRoundTrip` | codegen/codegen.py:244 | a byte entry reads back as its byte and is never the `0x00` terminator |
| `Introspection.EmbeddedXmlBlock` | codegen/codegen.py:240-246 | one document's writes are its head, its byte entries, `0x00`, then `};` |
| `Introspection.ReadBytesRoundTrip` | codegen/codegen.py:243-245 | byte entries up to the terminator read back as the document |
| `Introspection.ReadArrayRoundTrip` | codegen/codegen.py:242-246 | one array reads back as its index and its document, and the rest is left |
| `Introspection.ReadArraysAppend` | codegen/codegen.py:239-246 | consecutive arrays read back one after the other |
| `Introspection.IntrospectionRoundTrip` | codegen/codegen.py:238-246 | the introspection writes read back as every document paired with its position |
| `ObjectPaths.ObjectPathShape` | codegen/codegen.py:329 | the object path is `/`, then the name with each `.` turned into `/`; no `.` is left |
| `ObjectPaths.ObjectPathInverse` | codegen/codegen.py:329 | a name without `/` is recovered from its object path |
| `ObjectPaths.ObjectPathInjective` | codegen/codegen.py:329 | names without `/` get different object paths |
| `ObjectPaths.StubDefinitionRegisters` | codegen/codegen.py:329-447 | the stub source's `on_bus_acquired` text contains `connection->register_object("<path>", introspection_data->lookup_interface("<name>"`, where the path is the interface name's object path and the name is the interface's own name |

## Left out

- The interface parser and the D-Bus-to-C++ type mapping are not part of
  this model. Their results arrive as string fields of the records. The
  argument builders `cpptype_send` and `cppvalue_get` arrive as function
  fields.
- The meaning of the generated C++ is not modelled: whether it compiles or
  what it does at run time. The model covers only the text written and its
  structure.
- Writing to real files is modelled as appending to `Sink.writes`. Opening
  and closing the files belongs to the caller and is left out.
- The constructor's `namespace` and `interface_prefix` arguments are left
  out. The class never reads them.
- `config.VERSION` is a constructor parameter.
- The fixed C++ passages are kept line by line with their content. The
  whitespace of the continuation lines inside them is normalised. The
  `dedent` of their common margin is applied. The banner of the proxy
  source is exact.
- A byte of a document is a `Byte` (0..255). Python 2's `char.encode("hex")`
  is modelled as two lower-case hex digits of that byte.
- The order in which writes to different files interleave is not modelled.
  Each file's own sequence of writes is.
- `Arguments.PackOneArg`, `Arguments.PackManyArgs`: the argument's send line
  is shown in its place. What `cpptype_send` produces is not modelled, so
  nothing is proved about its text.
- `Namespaces.StubClassDeclMarkers`, `Namespaces.StubHeaderBalanced`,
  `Namespaces.StubHeaderMarkers`: hold for class names made of identifier
  characters. Without that, the constructor declaration `<class> ();` could
  read as a namespace close. A class name is a C++
  identifier in any input the generator accepts.
- `ObjectPaths.ObjectPathInverse`, `ObjectPaths.ObjectPathInjective`: hold
  for names without `/`. D-Bus interface names never contain one.
