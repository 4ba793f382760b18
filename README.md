# DataLoader field middleware of HotChocolate, modelled in Dafny

This project models how HotChocolate attaches a GreenDonut data loader to an object field
(`DataLoaderObjectFieldExtensions` in `src/HotChocolate/Core/src/Fetching/Extensions/ObjectFieldDataLoaderExtensions.cs`) and how the two
middlewares it installs rewrite the field's result at request time.

- **Loader-type inspection** (`FieldBinder.TryGetDataLoaderTypes`): the loader type's
  interfaces are scanned in order. The key and value types are the two generic arguments of the
  first constructed `IDataLoader<,>`. Runtime types are the datatype `ClrTypes.ClrType`
  (named, array, constructed generic).
- **Two-phase binding** (`FieldBinder`): the field definition is the class
  `ObjectFieldDefinition`. Its middleware list is a `seq` of `FieldMiddlewareDefinition`
  objects, which the methods reassign. `UseDataloader` validates the loader and appends an inert
  placeholder keyed `DataLoader`. The create-time hook `BeforeCreate` sets the field's output
  type. `CompileMiddleware` finds the placeholder by reference and overwrites it in place with
  the grouped middleware (the value type is an array) or the plain one (any other value type).
  `BindAndCompile` runs the three steps in the order the schema builder runs them. It then runs
  the completion step a second time, which the builder never does, to show that a double
  completion is rejected.
- **Result rewriting** (`DataLoaderMiddlewares`): both middleware classes first run the rest of
  the pipeline. A collection of keys is then batch-loaded and a single key is loaded. Anything
  else, including null, stays as it was. The grouped middleware flattens the per-key arrays into
  a set with a nested loop (`CollectDistinct`). The loader is a deterministic function from key
  to value.

Three facts about the code shape the model:

- The grouped middleware is chosen only when the value type is an array (lines 84-95). When the
  value type is not an array and the resolver returns an array or list, the middleware stays the
  plain one and only the output type becomes `IEnumerable<value>` (lines 48-50).
- The flattened result is a `HashSet<object>` (lines 149-158), which keeps no order. It is
  modelled as a set, and nothing is claimed about order.
- The key and value types are generic arguments 0 and 1 of the loader interface (lines 114-115).

## Model

| member | source | states |
|---|---|---|
| `Sequences.FirstIndex` | src/HotChocolate/Core/src/Fetching/Extensions/ObjectFieldDataLoaderExtensions.cs:107-119 | The result is -1 exactly when no element satisfies the test. Otherwise the element at the result satisfies it and no earlier element does. |
| `Sequences.IndexOf` | src/HotChocolate/Core/src/Fetching/Extensions/ObjectFieldDataLoaderExtensions.cs:98 | `List.IndexOf` gives -1 exactly when the element is absent. Otherwise it gives the first position that holds the element. |
| `FieldBinder.TryGetDataLoaderTypes` | src/HotChocolate/Core/src/Fetching/Extensions/ObjectFieldDataLoaderExtensions.cs:102-124 | Returns true iff some interface is a constructed `IDataLoader<,>`. On success, key and value are arguments 0 and 1 of the first such interface in list order. On failure both are null. |
| `FieldBinder.UseDataloader` | src/HotChocolate/Core/src/Fetching/Extensions/ObjectFieldDataLoaderExtensions.cs:24-35 | Fails with the invalid-type error iff the loader has no `IDataLoader<,>` interface, and then the middleware list is unchanged. On success it appends exactly one fresh inert placeholder keyed `DataLoader` at the end (earlier entries unchanged) and registers the create-time hook with the key and value types of the first loader interface. |
| `FieldBinder.BeforeCreate` | src/HotChocolate/Core/src/Fetching/Extensions/ObjectFieldDataLoaderExtensions.cs:40-70 | Sets the field's output type: an array value type as is; otherwise `IEnumerable<value>` when the resolver type is an array or list, else the value type. Registers the completion step. Nothing else changes. |
| `FieldBinder.CompileMiddleware` | src/HotChocolate/Core/src/Fetching/Extensions/ObjectFieldDataLoaderExtensions.cs:76-100 | A missing placeholder gives index -1 and a failed write, and the list is unchanged. Otherwise the entry at the placeholder's first index is overwritten with a fresh entry keyed `DataLoader` that holds the selected middleware. The length and every other entry are unchanged, and a placeholder that occurred once no longer occurs. |
| `FieldBinder.SchemaAgreesWithMiddleware` | src/HotChocolate/Core/src/Fetching/Extensions/ObjectFieldDataLoaderExtensions.cs:42-95 | The output type agrees with the chosen middleware. When the grouped middleware over element type `e` is chosen, the output type is exactly the array of `e`. When the plain middleware over `v` is chosen, the output type is `IEnumerable<v>` if the resolver returns an array or list, and `v` otherwise. |
| `FieldBinder.SchemaType` | src/HotChocolate/Core/src/Fetching/Extensions/ObjectFieldDataLoaderExtensions.cs:42-55 | The output type is either the value type or `IEnumerable<value>`. It is `IEnumerable<value>` exactly when the value type is not an array and the resolver's result type is an array or list. |
| `FieldBinder.SelectMiddlewareType` | src/HotChocolate/Core/src/Fetching/Extensions/ObjectFieldDataLoaderExtensions.cs:84-95 | The grouped middleware is chosen iff the value type is an array, and then its element type is the array's element type. Otherwise the plain middleware is chosen with the value type itself. The loader and key types are passed through unchanged. |
| `FieldBinder.BindAndCompile` | src/HotChocolate/Core/src/Fetching/Extensions/ObjectFieldDataLoaderExtensions.cs:28-99 | Binding fails iff the loader has no `IDataLoader<,>` interface, with the invalid-type error naming the loader, and then the middleware list, output type, hooks and completion steps are all unchanged. On success the bound key and value types are arguments 0 and 1 of the first `IDataLoader<,>` interface, so they decide which middleware is compiled and which output type is set; the hook and the completion step are each registered once. The list grows by exactly one entry at its end, keyed `DataLoader` and holding the compiled middleware; earlier entries are unchanged. The output type is set by the three-way rule. A second completion for the same placeholder fails with index -1; on failure no completion runs. |
| `DataLoaderMiddlewares.LoadMany` | src/HotChocolate/Core/src/Fetching/Extensions/ObjectFieldDataLoaderExtensions.cs:145-147 | A batch load returns one value per key, aligned with the keys in order. |
| `DataLoaderMiddlewares.CollectDistinct` | src/HotChocolate/Core/src/Fetching/Extensions/ObjectFieldDataLoaderExtensions.cs:149-156 | The nested loop builds exactly the set of elements of all per-key arrays. |
| `DataLoaderMiddlewares.OccurringMembers` | src/HotChocolate/Core/src/Fetching/Extensions/ObjectFieldDataLoaderExtensions.cs:149-156 | An element is in the flattened set iff it stands at some position of some per-key array. |
| `DataLoaderMiddlewares.OccurringSize` | src/HotChocolate/Core/src/Fetching/Extensions/ObjectFieldDataLoaderExtensions.cs:149-156 | The flattened set never has more members than the arrays hold together. It has exactly as many iff no element stands at two positions, in one array or across arrays. So each repeated element is kept once and shrinks the result. |
| `DataLoaderMiddlewares.PlainOutcome` | src/HotChocolate/Core/src/Fetching/Extensions/ObjectFieldDataLoaderExtensions.cs:184-197 | In the plain middleware a single key becomes the loader's value. A key collection becomes the batch result as returned: one value per key in key order, duplicates kept. Any other result, null included, is left unchanged. |
| `DataLoaderMiddlewares.GroupedOutcome` | src/HotChocolate/Core/src/Fetching/Extensions/ObjectFieldDataLoaderExtensions.cs:141-165 | In the grouped middleware a key collection becomes a set, and a single key becomes its loaded array. Any other result, null included, is left unchanged. |
| `DataLoaderMiddlewares.GroupedMembers` | src/HotChocolate/Core/src/Fetching/Extensions/ObjectFieldDataLoaderExtensions.cs:143-158 | The set that replaces a key collection has as members exactly the elements of the arrays loaded for its keys. |
| `DataLoaderMiddlewares.GroupedDeduplicates` | src/HotChocolate/Core/src/Fetching/Extensions/ObjectFieldDataLoaderExtensions.cs:143-158 | The grouped result of a key collection never has more members than the loaded arrays hold together. It has exactly as many iff no element repeats, and strictly fewer when one does, even when it is loaded under two different keys. |
| `DataLoaderMiddlewares.GroupedExample` | src/HotChocolate/Core/src/Fetching/Extensions/ObjectFieldDataLoaderExtensions.cs:143-158 | Keys 1, 2, 2, 3 with arrays [A], [B], [B], [C] give the set {A, B, C}, with B once. |
| `DataLoaderMiddlewares.GroupedDataLoaderMiddleware.InvokeAsync` | src/HotChocolate/Core/src/Fetching/Extensions/ObjectFieldDataLoaderExtensions.cs:137-166 | Runs `next` first, then leaves the grouped outcome of the result `next` produced. |
| `DataLoaderMiddlewares.DataLoaderMiddleware.InvokeAsync` | src/HotChocolate/Core/src/Fetching/Extensions/ObjectFieldDataLoaderExtensions.cs:180-198 | Runs `next` first, then leaves the plain outcome of the result `next` produced. |

## Left out

- Asynchrony and cancellation are not modelled: `await`, `ConfigureAwait` and `context.RequestAborted`. The next delegate and the loader calls are synchronous steps. A load that fails or is cancelled, and the exception it raises, are not modelled.
- The next delegate is modelled as a function on the field result. Its other effects on the middleware context are not modelled.
- GreenDonut's batching and caching are not modelled. The loader is a total deterministic function, and a batch load is that function applied to each key. `context.DataLoader<TDataLoader>()` becomes the loader parameter.
- The result is modelled as a datatype. A result that passes both runtime tests (`is IReadOnlyCollection<TKey>` and `is TKey`) is represented as a key collection, because that test runs first. Subtyping in `is TKey` is not modelled.
- `HashSet<object>` uses `Equals`/`GetHashCode` (reference identity for most entity types). The model uses a Dafny set, which compares by value.
- Reflection and factories are replaced by data. `MakeGenericType` becomes the `MiddlewareType` variant, `GetElementType` the array's element, `FieldClassMiddlewareFactory.Create` the `Compiled` delegate tag, and `TypeInspector.GetType` / `TypeReference.Create` the `OutputType` reference.
- `Type.GetInterfaces()` is not modelled. The caller passes the interface list, and every type in it is assumed well formed (a constructed generic has as many arguments as its definition).
- `IExtendedType.IsArrayOrList` is not modelled. It is a function supplied by the type inspector.
- The schema builder that runs the create-time hooks and the completion steps is not modelled. The model records them in `beforeCreate` and `configurations`, and `BindAndCompile` calls them in the builder's order.
- A null `definition.ResultType` is not modelled. The field always has a resolver result type.
- The middleware constructors' null check of `next` has no counterpart, because Dafny references are never null.
- The exception thrown by `DataLoader_InvalidType` becomes the error value `InvalidDataLoaderType`. The `ArgumentOutOfRangeException` of the list indexer becomes `IndexOutOfRange`.
- The key string `WellKnownMiddleware.DataLoader` is not part of this model. It appears as the constant `"DataLoader"`.
- The generic overload `UseDataloader<TDataLoader>` (lines 19-22) only forwards `typeof(TDataLoader)`, so it is covered by `UseDataloader`.
- The StrawberryShake CLI `init` command and the generator of the entity-array update method are not modelled. They are file, network and code-text plumbing with no behaviour of their own.
- `FieldMiddlewareDefinition` has no `isRepeatable` flag, because both entries the binder creates (lines 28 and 99) leave it at its default.
- Per-key arrays are assumed non-null. The loader's value type is declared non-null under `#nullable enable`, but a null array would make `data[m].Length` (line 152) throw, and the model does not capture that throw.
- .NET does not specify the order in which `GetInterfaces()` returns interfaces. "First" therefore means first in whatever list reflection supplies; the model takes that list as given.
