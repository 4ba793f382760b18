/**
 * Attaching a data loader to an object field, in two phases.
 *
 * While the field is being described, `UseDataloader` inspects the loader type, appends an
 * inert placeholder to the field's middleware list and registers a create-time hook.  The
 * hook (`BeforeCreate`) picks the field's output type and registers a completion step; the
 * completion step (`CompileMiddleware`) overwrites the placeholder, in place, with the
 * grouped or the plain data-loader middleware.
 */
module FieldBinder {
  import opened Wrappers
  import opened Sequences
  import opened ClrTypes

  /** The key of the data-loader middleware, shared by the placeholder and its replacement. */
  const DataLoaderKey: string := "DataLoader"

  /** The specialised middleware class chosen at completion, with its generic arguments:
      `GroupedDataLoaderMiddleware<TDataLoader, TKey, TElement>` or
      `DataLoaderMiddleware<TDataLoader, TKey, TValue>`. */
  datatype MiddlewareType =
    | Grouped(dataLoaderType: ClrType, keyType: ClrType, elementType: ClrType)
    | Plain(dataLoaderType: ClrType, keyType: ClrType, valueType: ClrType)

  /** The delegate a middleware definition holds: the placeholder's, which ignores the rest of
      the pipeline and completes at once, or a compiled data-loader middleware. */
  datatype FieldMiddleware = Inert | Compiled(middlewareType: MiddlewareType)

  /** An entry of a field's middleware list.  Entries are objects: the list locates the
      placeholder by reference. */
  class FieldMiddlewareDefinition {
    const middleware: FieldMiddleware
    const key: Option<string>

    constructor (middleware: FieldMiddleware, key: Option<string>)
      ensures this.middleware == middleware && this.key == key
    {
      this.middleware := middleware;
      this.key := key;
    }
  }

  /** A reference to the field's schema type, taken in the output context. */
  datatype TypeReference = OutputType(schemaType: ClrType)

  /** What the deferred hooks capture when `UseDataloader` succeeds. */
  datatype DataLoaderBinding = DataLoaderBinding(
    placeholder: FieldMiddlewareDefinition,
    keyType: ClrType,
    valueType: ClrType,
    dataLoaderType: ClrType)

  datatype ConfigurationError =
    | InvalidDataLoaderType(dataLoaderType: ClrType)  // the loader implements no IDataLoader<,>
    | IndexOutOfRange(index: int)                     // the placeholder was not found in the list

  /** The mutable definition of an object field while the schema is built. */
  class ObjectFieldDefinition {
    var middlewareDefinitions: seq<FieldMiddlewareDefinition>
    /** The runtime type the field's resolver returns. */
    var resultType: ClrType
    /** The field's schema type, unset until the create-time hook assigns it. */
    var typeReference: Option<TypeReference>
    /** Create-time hooks registered through the descriptor. */
    var beforeCreate: seq<DataLoaderBinding>
    /** Completion steps registered to run before the field is completed. */
    var configurations: seq<DataLoaderBinding>

    constructor (middlewareDefinitions: seq<FieldMiddlewareDefinition>, resultType: ClrType)
      ensures this.middlewareDefinitions == middlewareDefinitions
      ensures this.resultType == resultType
      ensures typeReference == None && beforeCreate == [] && configurations == []
    {
      this.middlewareDefinitions := middlewareDefinitions;
      this.resultType := resultType;
      typeReference := None;
      beforeCreate := [];
      configurations := [];
    }
  }

  /** Scans the loader's interfaces in order and returns the key and value type arguments of
      the first constructed `IDataLoader<,>`; both are null when there is none. */
  method TryGetDataLoaderTypes(interfaces: seq<ClrType>)
    returns (found: bool, key: Option<ClrType>, value: Option<ClrType>)
    requires forall j :: 0 <= j < |interfaces| ==> interfaces[j].WellFormed()
    ensures found <==> exists j :: 0 <= j < |interfaces| && IsDataLoaderInterface(interfaces[j])
    ensures found ==>
      var i := FirstIndex(interfaces, IsDataLoaderInterface);
      && 0 <= i && IsDataLoaderInterface(interfaces[i]) && |interfaces[i].arguments| == 2
      && key == Some(interfaces[i].arguments[0])
      && value == Some(interfaces[i].arguments[1])
    ensures !found ==> key == None && value == None
  {
    var k := 0;
    while k < |interfaces|
      invariant 0 <= k <= |interfaces|
      invariant forall j :: 0 <= j < k ==> !IsDataLoaderInterface(interfaces[j])
    {
      var interfaceType := interfaces[k];
      if interfaceType.IsGenericType() {
        var typeDefinition := interfaceType.definition;
        if typeDefinition == IDataLoaderDefinition {
          key := Some(interfaceType.arguments[0]);
          value := Some(interfaceType.arguments[1]);
          return true, key, value;
        }
      }
      k := k + 1;
    }
    key := None;
    value := None;
    return false, key, value;
  }

  /** Phase one.  `interfaces` is what reflection reports for `dataLoaderType`. */
  method UseDataloader(field: ObjectFieldDefinition, dataLoaderType: ClrType, interfaces: seq<ClrType>)
    returns (r: Result<DataLoaderBinding, ConfigurationError>)
    requires forall j :: 0 <= j < |interfaces| ==> interfaces[j].WellFormed()
    modifies field`middlewareDefinitions, field`beforeCreate
    ensures r.Failure? <==> forall j :: 0 <= j < |interfaces| ==> !IsDataLoaderInterface(interfaces[j])
    ensures r.Failure? ==>
      && r.error == InvalidDataLoaderType(dataLoaderType)
      && field.middlewareDefinitions == old(field.middlewareDefinitions)
      && field.beforeCreate == old(field.beforeCreate)
    ensures r.Success? ==>
      var b := r.value;
      var i := FirstIndex(interfaces, IsDataLoaderInterface);
      && 0 <= i && IsDataLoaderInterface(interfaces[i]) && |interfaces[i].arguments| == 2
      && b.keyType == interfaces[i].arguments[0]
      && b.valueType == interfaces[i].arguments[1]
      && b.dataLoaderType == dataLoaderType
      && fresh(b.placeholder)
      && b.placeholder.middleware == Inert
      && b.placeholder.key == Some(DataLoaderKey)
      && field.middlewareDefinitions == old(field.middlewareDefinitions) + [b.placeholder]
      && field.beforeCreate == old(field.beforeCreate) + [b]
  {
    var placeholder := new FieldMiddlewareDefinition(Inert, Some(DataLoaderKey));
    var found, keyType, valueType := TryGetDataLoaderTypes(interfaces);
    if !found {
      return Failure(InvalidDataLoaderType(dataLoaderType));
    }
    field.middlewareDefinitions := field.middlewareDefinitions + [placeholder];
    var binding := DataLoaderBinding(placeholder, keyType.value, valueType.value, dataLoaderType);
    field.beforeCreate := field.beforeCreate + [binding];
    return Success(binding);
  }

  /** The field's schema type: an array value type as it is; otherwise a sequence of the
      value type when the resolver returns an array or list, else the value type. */
  function SchemaType(valueType: ClrType, resultType: ClrType, inspector: TypeInspector): (t: ClrType)
    ensures t == valueType || t == EnumerableOf(valueType)
    ensures t == EnumerableOf(valueType) <==> !valueType.IsArray() && inspector.isArrayOrList(resultType)
  {
    // A type is never a sequence of itself: it is a proper part of EnumerableOf(valueType).
    assert EnumerableOf(valueType).arguments[0] == valueType;
    if !valueType.IsArray() then
      if inspector.isArrayOrList(resultType) then EnumerableOf(valueType) else valueType
    else
      valueType
  }

  /** The middleware class for a value type: grouped over the element type of an array,
      plain over any other value type; the loader and key types pass through. */
  function SelectMiddlewareType(dataLoaderType: ClrType, keyType: ClrType, valueType: ClrType): (m: MiddlewareType)
    ensures m.Grouped? <==> valueType.IsArray()
    ensures m.dataLoaderType == dataLoaderType && m.keyType == keyType
    ensures m.Grouped? ==> valueType == ArrayOf(m.elementType)
    ensures m.Plain? ==> m.valueType == valueType
  {
    if valueType.IsArray() then Grouped(dataLoaderType, keyType, valueType.element)
    else Plain(dataLoaderType, keyType, valueType)
  }

  /** The create-time hook: assigns the field's output type and registers the completion
      step that will compile the middleware. */
  method BeforeCreate(field: ObjectFieldDefinition, binding: DataLoaderBinding, inspector: TypeInspector)
    modifies field`typeReference, field`configurations
    ensures field.typeReference == Some(OutputType(SchemaType(binding.valueType, field.resultType, inspector)))
    ensures field.configurations == old(field.configurations) + [binding]
  {
    var schemaType: ClrType;
    if !binding.valueType.IsArray() {
      var resolverType := field.resultType;
      schemaType := if inspector.isArrayOrList(resolverType) then EnumerableOf(binding.valueType)
                    else binding.valueType;
    } else {
      schemaType := binding.valueType;
    }
    field.typeReference := Some(OutputType(schemaType));
    field.configurations := field.configurations + [binding];
  }

  /** The completion step: overwrites the placeholder, located by reference, with a new entry
      holding the specialised middleware.  A missing placeholder gives index -1, and the
      indexed write then fails. */
  method CompileMiddleware(
    definition: ObjectFieldDefinition,
    placeholder: FieldMiddlewareDefinition,
    keyType: ClrType,
    valueType: ClrType,
    dataLoaderType: ClrType)
    returns (outcome: Outcome<ConfigurationError>)
    modifies definition`middlewareDefinitions
    ensures placeholder !in old(definition.middlewareDefinitions) ==>
      && outcome == Fail(IndexOutOfRange(-1))
      && definition.middlewareDefinitions == old(definition.middlewareDefinitions)
    ensures placeholder in old(definition.middlewareDefinitions) ==>
      var before := old(definition.middlewareDefinitions);
      var after := definition.middlewareDefinitions;
      var i := IndexOf(before, placeholder);
      && outcome == Pass
      && 0 <= i < |after| == |before|
      && fresh(after[i])
      && after[i].key == Some(DataLoaderKey)
      && after[i].middleware == Compiled(SelectMiddlewareType(dataLoaderType, keyType, valueType))
      && (forall j :: 0 <= j < |after| && j != i ==> after[j] == before[j])
      && (placeholder !in before[i + 1..] ==> placeholder !in after)
  {
    var middlewareType := SelectMiddlewareType(dataLoaderType, keyType, valueType);
    var middleware := Compiled(middlewareType);
    var index := IndexOf(definition.middlewareDefinitions, placeholder);
    if index < 0 {
      return Fail(IndexOutOfRange(index));
    }
    var entry := new FieldMiddlewareDefinition(middleware, Some(DataLoaderKey));
    ghost var before := definition.middlewareDefinitions;
    definition.middlewareDefinitions := definition.middlewareDefinitions[index := entry];
    assert forall j :: index < j < |before| ==> before[j] in before[index + 1..];
    return Pass;
  }

  /** The output type and the middleware agree: a grouped middleware, which returns a set of
      elements, serves a field typed as an array of exactly those elements; a plain one
      serves a field typed as its value type or as a sequence of it. */
  lemma SchemaAgreesWithMiddleware(
    dataLoaderType: ClrType, keyType: ClrType, valueType: ClrType,
    resultType: ClrType, inspector: TypeInspector)
    ensures match SelectMiddlewareType(dataLoaderType, keyType, valueType)
      case Grouped(_, _, e) =>
        SchemaType(valueType, resultType, inspector) == ArrayOf(e)
      case Plain(_, _, v) =>
        SchemaType(valueType, resultType, inspector)
        == (if inspector.isArrayOrList(resultType) then EnumerableOf(v) else v)
  {
  }

  /** The whole binding of one loader to one field, in the order the schema builder runs the
      steps: after the create-time hook and the completion step the list has grown by exactly
      one compiled entry at its end, chosen by the first `IDataLoader<,>` interface's types.
      The completion step is then run a second time, which the builder never does, to show
      that a double completion is rejected; when binding fails neither run happens and
      `again` stays `Pass`. */
  method BindAndCompile(field: ObjectFieldDefinition, dataLoaderType: ClrType, interfaces: seq<ClrType>, inspector: TypeInspector)
    returns (r: Result<DataLoaderBinding, ConfigurationError>, again: Outcome<ConfigurationError>)
    requires forall j :: 0 <= j < |interfaces| ==> interfaces[j].WellFormed()
    modifies field
    ensures r.Failure? <==> forall j :: 0 <= j < |interfaces| ==> !IsDataLoaderInterface(interfaces[j])
    ensures r.Failure? ==> r.error == InvalidDataLoaderType(dataLoaderType) && again == Pass
    ensures r.Success? ==>
      var i := FirstIndex(interfaces, IsDataLoaderInterface);
      && 0 <= i
      && |interfaces[i].arguments| == 2
      && r.value.keyType == interfaces[i].arguments[0]
      && r.value.valueType == interfaces[i].arguments[1]
      && r.value.dataLoaderType == dataLoaderType
    ensures field.resultType == old(field.resultType)
    ensures r.Failure? ==>
      && field.middlewareDefinitions == old(field.middlewareDefinitions)
      && field.typeReference == old(field.typeReference)
      && field.beforeCreate == old(field.beforeCreate)
      && field.configurations == old(field.configurations)
    ensures r.Success? ==>
      && field.beforeCreate == old(field.beforeCreate) + [r.value]
      && field.configurations == old(field.configurations) + [r.value]
    ensures r.Success? ==>
      var b := r.value;
      var n := |old(field.middlewareDefinitions)|;
      && |field.middlewareDefinitions| == n + 1
      && field.middlewareDefinitions[..n] == old(field.middlewareDefinitions)
      && field.middlewareDefinitions[n].key == Some(DataLoaderKey)
      && field.middlewareDefinitions[n].middleware
         == Compiled(SelectMiddlewareType(dataLoaderType, b.keyType, b.valueType))
      && field.typeReference == Some(OutputType(SchemaType(b.valueType, field.resultType, inspector)))
      && again == Fail(IndexOutOfRange(-1))
  {
    again := Pass;
    r := UseDataloader(field, dataLoaderType, interfaces);
    if r.Failure? {
      return;
    }
    var b := r.value;
    ghost var n := |old(field.middlewareDefinitions)|;
    BeforeCreate(field, b, inspector);
    assert IndexOf(field.middlewareDefinitions, b.placeholder) == n;
    var first := CompileMiddleware(field, b.placeholder, b.keyType, b.valueType, b.dataLoaderType);
    assert field.middlewareDefinitions[..n] == old(field.middlewareDefinitions);
    again := CompileMiddleware(field, b.placeholder, b.keyType, b.valueType, b.dataLoaderType);
  }
}
