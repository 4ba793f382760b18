/** Runtime types as the data-loader binder inspects them through reflection. */
module ClrTypes {

  /** An open generic definition such as `IDataLoader<,>`, identified by name and arity. */
  datatype TypeDefinition = TypeDefinition(name: string, arity: nat)

  /** A runtime type: a plain named type, an array `T[]`, or a constructed generic type. */
  datatype ClrType =
    | Named(name: string)
    | ArrayOf(element: ClrType)
    | Generic(definition: TypeDefinition, arguments: seq<ClrType>)
  {
    /** `Type.IsArray` */
    predicate IsArray() { ArrayOf? }

    /** `Type.IsGenericType` */
    predicate IsGenericType() { Generic? }

    /** A constructed generic type has as many arguments as its definition has parameters;
        the runtime never builds any other kind. */
    predicate WellFormed() { Generic? ==> |arguments| == definition.arity }
  }

  /** `typeof(IDataLoader<,>)` */
  const IDataLoaderDefinition := TypeDefinition("GreenDonut.IDataLoader", 2)

  /** `typeof(IEnumerable<>)` */
  const IEnumerableDefinition := TypeDefinition("System.Collections.Generic.IEnumerable", 1)

  /** `typeof(IEnumerable<>).MakeGenericType(t)` */
  function EnumerableOf(t: ClrType): ClrType {
    Generic(IEnumerableDefinition, [t])
  }

  /** An interface type that is a constructed `IDataLoader<TKey, TValue>`. */
  predicate IsDataLoaderInterface(t: ClrType) {
    t.IsGenericType() && t.definition == IDataLoaderDefinition
  }

  /** The part of the schema's type inspector the binder consults: whether the resolver's
      result type is an array or list type. */
  datatype TypeInspector = TypeInspector(isArrayOrList: ClrType -> bool)
}
