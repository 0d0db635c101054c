# tressed / gluetypes: a Dafny model of the loading and dumping engines

tressed turns plain Python data (dicts, lists, scalars) into typed values
described by *type forms* (`int`, `list[str]`, `tuple[int, float]`, dataclasses,
`NewType`s, unions), and dumps typed values back to plain data. gluetypes is
its earlier incarnation and shares most of the loader design. This project
models the core of both and proves what it promises:

- **The loader engines** (`Loader._load` of both packages). The engine looks
  up an exact table of type forms. On a miss it scans an ordered table of
  (type predicate, converter) pairs and memoises the first match. A converter
  failure becomes a value error for that step. The converters are
  `load_simple_scalar`, `load_simple_collection`/`load_simple_sequence`,
  `load_tuple`, `load_dataclass` (with cached alias resolution) and
  `load_newtype`. The engine is a state-passing function (`Loading.LoadF` and
  its companions). The `Loader` class is proved to compute it, method by
  method.
- **Specialisation.** `SpecializingLoader` counts the calls per
  (type form, path) key. Past the threshold of 3 it asks a specialiser for a
  routine, then runs that routine instead of the generic converter.
  - The counter is a pure state machine (`Specialization`).
  - The class's methods are proved against it.
  - The generated routines are modelled twice: as text (the `Codegen` buffer
    class and the two specialisers) and as behaviour (what the text does once
    executed). The generators build both side by side; the behaviour is not
    parsed back from the text. What links the two are lemmas about the pieces
    of text: a rendered element type evaluates back to its form
    (`Specializers.RenderRoundTrip`), a rendered path reads as the path tuple
    (`Specializers.PathReprIsTupleRepr`, `Specializers.IdentStandsForItem`,
    `Specializers.LoadPathTextsAgree`), and one whole routine is checked
    against its expected text (`SpecializerVectors.SpecializesThreeTuple`).
- **Type predicates** and the ordered predicate tables of both packages, and
  `is_discriminated_union`.
- **The Discriminator**: the first-match and best-match strategies over a
  scoring function.
- **The alias subsystem**:
  - `normalize_alias_fn` (arity detection);
  - `to_identity`, `to_camel` and `to_pascal` (an imperative scan proved
    against a declarative description);
  - `make_maybe_dataclass_alias_fn` and `compose_alias_fn`;
  - the caching `AliasResolver` class.
- **Rendering.** `type_form_repr`, `type_path_repr` and the `__str__` of the
  three exception classes.
- **The dumper.** `Dumper._dump` dispatches on the runtime class of a value
  through the same exact-table and predicate-table scheme. The model covers
  `dump_identity`, `dump_simple_scalar`, `dump_simple_sequence`,
  `_dump_key`, `dump_simple_mapping`, `dump_enum` and the construction of the
  `Dumper`.

Shared modules:

| module | what it holds |
|---|---|
| `Wrappers` | `Option` and `Result` |
| `Text` | ASCII case mapping, `str.title`, joins |
| `Values` | the value universe, `repr`/`str`, dict insertion |
| `Forms` | type forms as attribute records |
| `Dispatch` | the exact table plus predicate table lookup, memoisation and `dict |=` |

Python exceptions are values of a `Result`: either an `EngineError` kind or the
name of the exception class.

## Model

| member | source | states |
|---|---|---|
| Dispatch.FirstMatchIndex | src/tressed/loader/loader.py:127-131 | the scan stops at the first mapper whose predicate holds; it is -1 exactly when no predicate holds, and no earlier predicate holds |
| Dispatch.ScanMappers | src/tressed/loader/loader.py:127-131 | the `for ... break ... else` loop returns the converter of the first matching mapper, or none |
| Dispatch.FirstMatchWins | src/tressed/dumper/dumper.py:137-141 | a mapper whose predicate holds, with no earlier predicate holding, supplies the converter |
| Dispatch.ExactEntryWins | src/tressed/dumper/dumper.py:135-136 | an exact entry is used whatever the predicates say, and nothing is memoised |
| Dispatch.MemoisationTransparent | src/tressed/loader/loader.py:137-138 | storing the first match changes the resolution of no type form |
| Dispatch.MemoisedGrows | src/tressed/dumper/dumper.py:145-146 | the exact table only gains entries; the dispatched form is present afterwards iff it resolved, mapped to its converter |
| Dispatch.SoundCacheResolves | src/tressed/loader/loader.py:126-138 | a table grown only by memoisation resolves every form as the initial table does |
| Dispatch.MemoisedSound | src/tressed/loader/loader.py:137-138 | memoisation keeps a grown table sound |
| Dispatch.SetMapper | src/tressed/dumper/dumper.py:108-109 | `d[pred] = fn` keeps an existing key's position and appends a new one; lookups of other predicates are unchanged |
| Dispatch.LookupPred | src/tressed/dumper/dumper.py:108-110 | a predicate has a converter in a predicate table iff it is one of the table's keys |
| Dispatch.MergeMappersLookup | src/tressed/dumper/dumper.py:104-110 | after `base |= extra`, an extra predicate maps to its extra converter and every other to its base one; base predicates keep their order at the front |
| Predicates.CountDiscriminators | src/tressed/predicates.py:291-296 | the count is zero iff no metadata entry is a discriminator, and never exceeds the metadata length |
| Predicates.IsDiscriminatedUnion | src/tressed/predicates.py:277-297 | true iff annotated, the module is loaded, there is exactly one argument, it is a union, and exactly one discriminator; it fails (assert or unpacking) iff annotated, loaded and the argument count is not one |
| Predicates.NoOriginNoMatch | src/tressed/predicates.py:62-65 | every origin-based predicate is false on a form without `__origin__` |
| Predicates.HomogeneousTupleIsTuple | src/tressed/predicates.py:74-99 | a homogeneous tuple form is also a tuple form, so table order decides between them |
| Predicates.CollectionPredicatesExclusive | src/tressed/predicates.py:91-132 | the tuple, list, set, frozenset and dict predicates never hold together |
| Predicates.OptionalIsUnion | src/tressed/predicates.py:219-264 | a two-argument optional form is a union form |
| DiscriminatedUnion.ParseStrategy | src/tressed/discriminated_union.py:28-34 | "first-match" and "best-match" select their strategy; any other name fails |
| DiscriminatedUnion.Discriminator.constructor | src/tressed/discriminated_union.py:21-27 | stores the match function and the strategy |
| DiscriminatedUnion.Discriminator.FirstMatchOf | src/tressed/discriminated_union.py:58-62 | none iff every score is zero; otherwise the first candidate with a non-zero score |
| DiscriminatedUnion.Discriminator.BestMatchOf | src/tressed/discriminated_union.py:36-56 | a result iff one candidate scores at least 1 and strictly more than all others, and then that candidate; ties and all-below-1 give none |
| DiscriminatedUnion.Discriminator.Match | src/tressed/discriminated_union.py:28-32 | first match: none iff every score is zero, else the first candidate with a non-zero score; best match: a result iff one candidate is the unique best, and then that candidate |
| DiscriminatedUnion.UniqueBestIsUnique | src/tressed/discriminated_union.py:48-56 | at most one candidate is the unique best |
| DiscriminatedUnion.UniqueBestIsTruthy | src/tressed/discriminated_union.py:36-62 | a best-match winner implies first-match also finds a candidate |
| TypeFormText.RenderableRepr | src/tressed/type_form.py:22-49 | rendering succeeds on every form whose parameterised parts have no more arguments than type parameters |
| TypeFormText.TooManyArgumentsFail | src/tressed/type_form.py:30-35 | more arguments than type parameters makes `type_params[i]` fail |
| TypeFormText.ReprOfParameterised | src/tressed/type_form.py:26-40 | a generic class renders as `Name[P=V, ..., Q=?]`: bound parameters with their argument, the rest with `?` |
| TypeFormText.ReprOfArgs | src/tressed/type_form.py:42-48 | a union of several arguments renders as `A | B`; another named form with arguments as `Name[A, B]`, and without them as its name |
| TypeFormText.ReprOfNameless | src/tressed/type_form.py:25-49 | a form without a truthy `__name__` renders as its `repr` |
| TypePaths.TypePathRepr | src/tressed/type_path.py:11-12 | a rendered path always starts with a dot |
| TypePaths.TypePathReprExtend | src/tressed/type_path.py:11-12 | extending a path appends a dot (none at the root) and the item's `str` |
| TypePaths.TypePathReprRoot | src/tressed/type_path.py:11-12 | the root path renders as "." |
| Exceptions.NewTypeError | src/tressed/exceptions.py:22-32 | a type error records the value, `type(value)`, the path and the message |
| Exceptions.ErrorStrDefined | src/tressed/exceptions.py:34-95 | every exception whose type forms render has a message |
| Exceptions.MessageHead | src/tressed/exceptions.py:34-90 | a message opens with "Unhandled type T at path P" (or "type form"), or "Failed to load value of type T at path P into type form F" for a value error |
| Exceptions.MessageTail | src/tressed/exceptions.py:38-95 | a message ends with the sub-exception count if any, else ": message" if non-empty, else the value (the type form for a value error) |
| Exceptions.RaiseExceptionGroup | src/tressed/exceptions.py:97-104 | a ValueError iff there are no sub-exceptions; otherwise the group carries the error's message and exactly its sub-exceptions |
| Exceptions.Wrap | src/tressed/loader/loader.py:140-149 | a value error passes unchanged; any other failure becomes a value error for this value, type form and path |
| AliasFunctions.NormalizeByArity | src/tressed/alias/functions.py:35-58 | normalisation succeeds iff the positional argument count, less a bound `self`, is 1, 2 or 3; the result passes the function exactly that many leading arguments of (name, type form, path) |
| AliasFunctions.NormalizedIgnoresUnusedArguments | src/tressed/alias/functions.py:43-58 | a two-argument function's alias does not depend on the path; a one-argument function's depends on neither form nor path |
| AliasFunctions.BoundSelfNotCounted | src/tressed/alias/functions.py:36-38 | a bound method with n+1 code arguments normalises to the same arity as an n-argument function |
| AliasFunctions.NormalizeErrors | src/tressed/alias/functions.py:26-60 | the package copy raises ValueError without code; the single-module copy raises AttributeError; other counts hit the `assert False` |
| AliasFunctions.IdentityResolvesToName | src/tressed/alias/functions.py:63-64 | the identity normalises and answers the name it is given |
| AliasFunctions.MaybeDataclassAliasCases | src/tressed/alias/functions.py:117-126 | the function always normalises; it answers `None` for a form that is not a dataclass or has no fields, KeyError for a name that is not a field, and otherwise the field's alias-field metadata entry, or `None` without one |
| AliasFunctions.NormalizeAll | src/tressed/alias/functions.py:138 | succeeds iff every function normalises, and then normalises each in order |
| AliasFunctions.CallComposed | src/tressed/alias/functions.py:141-147 | the loop of the composed function computes the first non-`None` answer, else the default's |
| AliasFunctions.ComposedPicksFirst | src/tressed/alias/functions.py:144-146 | the first function whose answer is not `None` decides |
| AliasFunctions.ComposedFallsBack | src/tressed/alias/functions.py:147 | when every function answers `None`, the default decides |
| AliasFunctions.ComposeNormalizesEagerly | src/tressed/alias/functions.py:138-139 | composition fails iff one of the functions or the default fails to normalise |
| AliasFunctions.ComposeTriesInOrder | tests/test_alias.py:25-54 | the test's three functions composed give "FOO!", "bar?" and "BAZ" |
| AliasResolution.AliasResolver.constructor | src/tressed/alias/resolver.py:11-22 | an empty cache, no calls, the given function and caching flag |
| AliasResolution.AliasResolver.Create | src/tressed/alias/resolver.py:11-22 | a missing function is the identity; succeeds iff it normalises, with that error otherwise; the resolver holds the normalised function |
| AliasResolution.AliasResolver.Resolve | src/tressed/alias/resolver.py:20-34 | the answer is always the alias function's for the key; the function is skipped only when caching and a found alias is cached (a cached `None` is asked again); with caching every answer that is not an exception is stored, without caching the cache is unchanged |
| AliasResolution.IdentityAnswersName | src/tressed/alias/resolver.py:16-18 | the default resolver answers the name itself |
| AliasResolution.CachingCallsOncePerKey | tests/test_alias.py:79-95 | four lookups over three keys, the second repeating the first, call the alias function once per key in order of first use; keys differing only in type form or path are separate |
| CaseConversion.SkipLeadingUnderscores | src/tressed/alias/functions.py:71-73 | stops at the first non-underscore, or at the last character |
| CaseConversion.CountUnderscores | src/tressed/alias/functions.py:85-88 | finds the end of the underscore run and its length |
| CaseConversion.SeparatorDecision | src/tressed/alias/functions.py:91-95 | the loop drops the found underscore exactly where the declarative rule removes it, and no other position in the run |
| CaseConversion.SnakeToCamelPascal | src/tressed/alias/functions.py:67-106 | the scanning loop computes the declarative conversion: the first part is cased by the first function, the rest title-cased, with lone separators removed |
| CaseConversion.ToPascal | src/tressed/alias/functions.py:109-110 | `to_pascal` is the conversion with every part title-cased |
| CaseConversion.ToCamel | src/tressed/alias/functions.py:113-114 | `to_camel` is the conversion with the first part lower-cased |
| CaseConversion.ConversionOnlyRecases | src/tressed/alias/functions.py:67-106 | ignoring case, the result is the input without its removed separators |
| CaseConversion.PascalCasesByTitle | src/tressed/alias/functions.py:109-110 | pascal case title-cases every kept character |
| CaseConversion.TwoWordSeparator | src/tressed/alias/functions.py:90-92 | in `foo_bar` exactly the underscore at 3 is removed |
| CaseConversion.CamelTwoWords | tests/test_alias.py:4 | `to_camel("foo_bar") == "fooBar"` |
| CaseConversion.PascalTwoWords | tests/test_alias.py:16 | `to_pascal("foo_bar") == "FooBar"` |
| CaseConversion.MixedNameSeparators | src/tressed/alias/functions.py:85-95 | in `_foO_bar__baz___` only the lone underscore at 4 is removed; leading, doubled and trailing runs are kept |
| CaseConversion.CamelKeepsUnderscoreRuns | tests/test_alias.py:7 | `to_camel("_foO_bar__baz___") == "_fooBar__Baz___"` |
| CaseConversion.PascalKeepsUnderscoreRuns | tests/test_alias.py:19 | `to_pascal("_foO_bar__baz___") == "_FooBar__Baz___"` |
| CaseConversion.LoneSeparatorBeforeLastCharacter | src/tressed/alias/functions.py:91 | as written `foo_b` converts to `foo_B`; with the described rule, `fooB` |
| CodeGeneration.Codegen.constructor | src/tressed/loader/specializers.py:20-25 | four-space indent, empty parts, no cached code |
| CodeGeneration.Codegen.Code | src/tressed/loader/specializers.py:27-41 | a non-empty cached text is returned unchanged; otherwise the header, the parts and a newline, which is cached, and the parts are cleared |
| CodeGeneration.Codegen.Emit | src/tressed/loader/specializers.py:50-51 | appends one part |
| CodeGeneration.Codegen.EmitIndent | src/tressed/loader/specializers.py:53-54 | appends indent+1 indentation units |
| CodeGeneration.Codegen.EmitNewline | src/tressed/loader/specializers.py:56-57 | appends a newline |
| CodeGeneration.Codegen.EmitLine | src/tressed/loader/specializers.py:59-62 | appends indentation, the line and a newline |
| CodeGeneration.EmitLineText | src/tressed/loader/specializers.py:59-62 | the appended parts spell the indented line |
| CodeGeneration.Codegen.EmitUnpackArgs | src/tressed/loader/specializers.py:64-78 | names positions `_item_i`, and writes the unpacking line (with trailing comma for one item, nothing for none) |
| CodeGeneration.UnpackPartsText | src/tressed/loader/specializers.py:64-78 | the appended parts spell the unpacking statement |
| CodeGeneration.Codegen.EmitLoadFn | src/tressed/loader/specializers.py:80-82 | writes `ident = loader._load` and returns the identifier |
| CodeGeneration.Codegen.EmitLoad | src/tressed/loader/specializers.py:84-98 | writes the `_load` call for the item with the form's qualname and the extended path; a form without qualname fails with AttributeError and writes nothing |
| CodeGeneration.LoadPartsText | src/tressed/loader/specializers.py:136-137 | the parts of the load loop spell one load line per item |
| CodeGeneration.Codegen.EmitTuple | src/tressed/loader/specializers.py:100-113 | appends a parenthesised display of the identifiers, each with a trailing comma |
| CodeGeneration.Codegen.EmitEntries | src/tressed/loader/specializers.py:104-109 | appends one entry per identifier, in order |
| CodeGeneration.Codegen.EmitEntry | src/tressed/loader/specializers.py:105-109 | appends the identifier with a trailing comma, on its own indented line unless compact |
| CodeGeneration.TuplePartsText | src/tressed/loader/specializers.py:100-113 | the appended parts spell that display |
| CodeGeneration.Codegen.EmitReturn | src/tressed/loader/specializers.py:115-117 | appends the indented `return ` |
| CodeGeneration.PathRepr | src/tressed/loader/specializers.py:170-184 | computes the tuple display of the pieces, with the one-item trailing comma |
| CodeGeneration.EmitItemLoads | src/tressed/loader/specializers.py:135-137 | fails iff some argument has no qualname; otherwise returns the loaded identifiers in order and writes every load line |
| CodeGeneration.SpecializeLoadTuple | src/tressed/loader/specializers.py:120-140 | the imperative generator returns the text (or error) of the specification `SpecializeTuple` |
| CodeGeneration.SpecializeLoadSimpleCollection | src/tressed/loader/specializers.py:187-222 | the imperative generator returns the text (or error) of `SpecializeCollection`, for either package |
| CodeGeneration.CollectionDelimiters | src/tressed/loader/specializers.py:207-214 | brackets for list, braces for set, `({`/`})` for frozenset as written, `origin([`/`])` otherwise |
| CodeGeneration.CollectionPathText | src/gluetypes/loader/specializers.py:170 | gluetypes as written writes its own join of the item reprs and `pos`; otherwise the text is the tuple display of the path items followed by `pos` |
| CodeGeneration.ElementText | src/tressed/loader/specializers.py:217 | tressed writes `_type_form_repr` of the element, gluetypes its qualname |
| Specializers.RenderName | src/gluetypes/loader/specializers.py:172 | the text is the qualname and it denotes the builtin of that name; fails iff there is no qualname |
| Specializers.RenderForm | src/tressed/loader/specializers.py:143-160 | a rendered text never denotes a form larger than the one rendered |
| Specializers.RenderRoundTrip | src/tressed/loader/specializers.py:143-160 | the rendered text of a builtin generic evaluates back to the same type form |
| Specializers.RenderAllRoundTrip | src/tressed/loader/specializers.py:155-160 | rendering arguments and evaluating them gives the arguments back |
| Specializers.UnnamedSpoils | src/tressed/loader/specializers.py:96 | one argument without a qualname spoils the whole routine |
| Specializers.SpecializeTuple | src/tressed/loader/specializers.py:120-140 | the generated routine unpacks exactly one form per argument at the key's path |
| Specializers.SpecializeCollection | src/tressed/loader/specializers.py:187-222 | the generated routine loads each item at the key's path |
| Specializers.CollectionShape | src/tressed/loader/specializers.py:203-214 | a collection routine exists only for a form with an origin whose delimiters are known, and builds the shape those delimiters write |
| Specializers.TuplePlanAgrees | src/tressed/loader/specializers.py:120-140 | the generator fails exactly where the engine's plan does, with the same error, and otherwise attaches the plan's behaviour to its text |
| Specializers.CollectionPlanAgrees | src/tressed/loader/specializers.py:187-222 | likewise for collection routines, for the generator as written and corrected |
| Specializers.PathReprIsTupleRepr | src/tressed/loader/specializers.py:170-184 | `_type_path_repr` of path items is the `repr` of the path tuple |
| Specializers.IdentStandsForItem | src/tressed/loader/specializers.py:217 | with `pos` bound to an item, the written path reads as the extended path tuple |
| Specializers.LoadPathTextsAgree | src/tressed/loader/specializers.py:96 | the load lines of both packages write the extended path as its tuple `repr` |
| Specializers.CollectionRoutineBuildsOrigin | src/tressed/loader/specializers.py:207-214 | corrected, a collection routine builds an instance of the class its origin names |
| Specializers.FrozenSetRoutineBuildsSet | src/tressed/loader/specializers.py:211-212 | as written a frozenset routine builds a `set`; corrected, a `frozenset` |
| Specializers.GluePathAgreesOffRoot | src/gluetypes/loader/specializers.py:170 | gluetypes' path text equals the tuple display for every non-empty path |
| Specializers.GlueRootPathIsNotATuple | src/gluetypes/loader/specializers.py:170 | at the root gluetypes writes `(pos)`, not the tuple `(pos,)` |
| SpecializerVectors.SpecializesThreeTuple | tests/test_specializers.py:1-28 | the routine for `tuple[int, float, str]` at `('foo', 1)` is the expected text and unpacks three items loaded with int, float, str |
| Specialization.FirstCall | src/tressed/loader/specializer.py:32-38 | the first call for a key stores 1 and runs the generic loader |
| Specialization.CounterIncrements | src/tressed/loader/specializer.py:33-37 | below the threshold the counter increments and the generic loader runs |
| Specialization.CompiledIsFinal | src/tressed/loader/specializer.py:55-58 | a stored routine is never replaced and runs on every call |
| Specialization.AttemptIgnoredUnlessConsulted | src/tressed/loader/specializer.py:41 | only a call past the threshold depends on the specialiser |
| Specialization.DeclinedCycles | src/tressed/loader/specializer.py:43-45 | a specialiser returning `None` makes the counter cycle: every fourth call consults it and all run the generic loader |
| Specialization.FailedRetries | src/tressed/loader/specializer.py:41-42 | a raising specialiser is consulted on every call past the third, which raises |
| Specialization.ProducedSticks | src/tressed/loader/specializer.py:41-53 | a produced routine is consulted once, on the fourth call, and runs from then on |
| Loading.SpecializedBelow | src/tressed/loader/specializers.py:120-222 | a generated routine only loads with forms smaller than its own |
| Loading.ResolveAliasF | src/tressed/loader/loader.py:114-123 | resolution keeps the alias cache sound (each entry the uncached answer) and only grows it |
| Loading.LoadF | src/tressed/loader/loader.py:125-149 | a load keeps the engine state sound |
| Loading.FirstMatchIsEntry | src/tressed/loader/loader.py:127-131 | the converter found by the scan is one of the table's entries |
| Loading.SpecializingLoader.constructor | src/tressed/loader/specializer.py:17-21 | the converter, the specialiser, no entries |
| Loading.SpecializingLoader.Store | src/tressed/loader/specializer.py:37 | stores one entry and updates the loader's view of it |
| Loading.SpecializingLoader.Call | src/tressed/loader/specializer.py:23-58 | the new state and the result are those of `SpecCallF` |
| Loading.SpecializingLoader.Tally | src/tressed/loader/specializer.py:32-41 | the counter step and what follows agree with `SpecCallF` |
| Loading.SpecializingLoader.Generate | src/tressed/loader/specializer.py:42-52 | generating the code and executing it yields the specialiser's plan for the form and path, or its error; the collection specialiser is the revision the loader holds |
| Loading.SpecializingLoader.Consult | src/tressed/loader/specializer.py:41-58 | past the threshold, the stored entry and result agree with `SpecCallF` |
| Loading.Loader.constructor | src/tressed/loader/loader.py:78-101 | given tables are used as is; the defaults otherwise, with fresh specialising loaders for tuples and collections (the collection generator as written) when specialisation is on |
| Loading.Loader.Create | src/gluetypes/loader/loader.py:33-85 | without a mapper table the constructor fails with an ImportError exactly when the default table's import fails (gluetypes as written); otherwise it builds the loader the constructor describes |
| Loading.Loader.LoadAt | src/tressed/loader/loader.py:125-149 | the new state and result are `LoadF`'s |
| Loading.Loader.FindLoader | src/tressed/loader/loader.py:126-138 | returns the exact entry or first match and memoises it |
| Loading.Loader.Load | src/tressed/loader/loader.py:151-152 | a load from the root path |
| Loading.Loader.Apply | src/tressed/loader/loader.py:141 | calling a table entry agrees with `ApplyF` |
| Loading.Loader.Convert | src/tressed/loader/loaders.py:20-92 | the converters agree with `ConvertF` |
| Loading.Loader.ConvertCollection | src/tressed/loader/loaders.py:32-50 | agrees with `CollectionF` |
| Loading.Loader.ConvertTuple | src/tressed/loader/loaders.py:53-69 | agrees with `TupleF` |
| Loading.Loader.RunRoutine | src/tressed/loader/specializer.py:58 | running a routine agrees with `RunRoutineF` |
| Loading.Loader.LoadItems | src/tressed/loader/loaders.py:47-50 | the item loop agrees with `LoadItemsF` |
| Loading.Loader.LoadItem | src/tressed/loader/loaders.py:48 | one item agrees with `ItemStep` |
| Loading.Loader.ResolveAlias | src/tressed/loader/loader.py:114-123 | agrees with `ResolveAliasF` and keeps the alias cache sound |
| Loading.Loader.LoadDataclass | src/tressed/loader/loaders.py:72-85 | agrees with `LoadDataclassF` |
| Loading.Loader.LoadFields | src/tressed/loader/loaders.py:79-83 | the field loop agrees with `LoadFieldsF` |
| Loading.Loader.BindField | src/tressed/loader/loaders.py:80-83 | one field agrees with `FieldStep` |
| LoadingProperties.LoadFailureKinds | src/tressed/loader/loader.py:125-149 | a load fails either unhandled (and then changes nothing) or with a value error |
| LoadingProperties.ForeignBecomesInvalidHere | src/tressed/loader/loader.py:144-149 | any other exception becomes a value error naming this step |
| LoadingProperties.DefaultOrderHomogeneousTuple | src/tressed/loader/loader.py:64-71 | `tuple[T, ...]` goes to the collection converter |
| LoadingProperties.DefaultOrderTuple | src/tressed/loader/loader.py:64-71 | any other tuple goes to the tuple converter |
| LoadingProperties.DefaultOrderCollections | src/tressed/loader/loader.py:64-71 | list, set and frozenset forms go to the collection converter |
| LoadingProperties.DefaultOrderDataclass | src/tressed/loader/loader.py:64-71 | a dataclass goes to `load_dataclass` in tressed and is unhandled in gluetypes |
| LoadingProperties.ScalarExact | src/tressed/loader/loaders.py:20-29 | a scalar loads iff its type is exactly the form, unchanged; otherwise a value error |
| LoadingProperties.CollectionResult | src/tressed/loader/loaders.py:32-50 | a successful collection load had exactly the expected number of arguments and is `origin(...)` of the loaded items: item k is the load of input item k with `args[0]` at `path + (k,)`, the state threaded from item to item (deduplicated for sets) |
| LoadingProperties.CollectionArity | src/tressed/loader/loaders.py:37-44 | no origin, no arguments, or a number of arguments other than 2 for `tuple` and 1 otherwise is a value error for this step |
| LoadingProperties.ItemStepLoads | src/tressed/loader/loaders.py:48 | a successful pass loads item i with its form at `path + (i,)` |
| LoadingProperties.ItemsLoadInOrder | src/tressed/loader/loaders.py:46-50 | a successful item loop loaded every item from i on with its form at its own position, one after the other, ending in the last state |
| LoadingProperties.ItemsLoaded | src/tressed/loader/loaders.py:46-50 | the same from the first item, with the forms given as a sequence |
| LoadingProperties.FrozenSetRoutineLoadsSet | src/tressed/loader/specializers.py:211-212 | the routine the collection specialiser as written generates for a frozenset returns a `set`, where `load_simple_collection` returns a `frozenset` |
| LoadingProperties.PositionalWithin | src/tressed/loader/loaders.py:66-69 | with positional forms, the item loop succeeds only if there are no more items than forms |
| LoadingProperties.TupleResult | src/tressed/loader/loaders.py:53-69 | a successful tuple load is the tuple of the loaded items: item k is the load of input item k with `args[k]` at `path + (k,)`, the state threaded; there are no more items than arguments |
| LoadingProperties.NewtypeAsSupertype | src/tressed/loader/loaders.py:88-92 | a newtype loads as its supertype at the same path |
| LoadingProperties.FieldAlias | src/tressed/loader/loaders.py:80-81 | a field of a dataclass resolves to its alias-field metadata entry, or its own name |
| LoadingProperties.FieldStepBinds | src/tressed/loader/loaders.py:80-83 | one field step binds the field's name to the input's value under the field's alias, and binds nothing when the input lacks that key |
| LoadingProperties.FieldsAgree | src/tressed/loader/loaders.py:79-83 | the field loop binds exactly what the cache-free reference binds |
| LoadingProperties.DataclassCacheTransparent | src/tressed/loader/loaders.py:72-85 | `load_dataclass` equals the cache-free reference whatever the alias cache holds |
| LoadingProperties.AliasResolvedOnce | src/tressed/loader/loader.py:117-123 | a resolved alias is cached and asking again returns it without change |
| LoadingProperties.GenericWhileCounting | src/tressed/loader/specializer.py:32-56 | until past the threshold a call stores the counter and runs the generic converter |
| LoadingProperties.StoredRoutineRuns | src/tressed/loader/specializer.py:55-58 | a stored routine runs on every call, leaving the entry unchanged |
| LoadingProperties.TupleRoutineTransparent | src/tressed/loader/specializers.py:120-140 | for builtin argument classes, the tuple routine returns what `load_tuple` returns |
| LoadingProperties.RoutineChecksLength | src/tressed/loader/specializers.py:133 | the routine rejects a value of another length |
| LoadingProperties.CollectionPlanFor | src/tressed/loader/specializers.py:207-221 | a list, set or homogeneous tuple whose element text evaluates gets a collecting routine |
| LoadingProperties.CollectionRoutineTransparent | src/tressed/loader/specializers.py:187-222 | that routine returns what `load_simple_collection` returns |
| LoadingProperties.EachMatchesCollection | src/tressed/loader/loaders.py:46-50 | running the collecting routine is the converter's item loop and result |
| LoadingProperties.Raised | src/tressed/exceptions.py:22-80 | a constructor call raises TypeError iff given fewer positional arguments than it requires |
| LoadingProperties.EveryFailureIsTypeErrorAsWritten | src/tressed/loader/loader.py:132-147 | as written every failure surfaces as TypeError; with the declared arguments none does |
| LoadingProperties.StringForIntAsWritten | tests/test_loader.py:30-31 | a string loaded as `int` by the default loader is a value error for that step; the declared arguments raise TressedValueError as the test expects, while as written TypeError escapes |
| LoadingProperties.FailureRaisesDeclaredError | src/tressed/loader/loader.py:132-147 | with declared arguments a failed load raises TressedTypeError when unhandled and TressedValueError otherwise |
| Loading.ImportFrom | src/gluetypes/loader/loader.py:34 | an import succeeds iff every name is bound, with an ImportError otherwise |
| Loading.BoundTo | src/gluetypes/loader/loaders.py:1-62 | a name is bound iff the module defines it |
| LoadingProperties.GlueDefaultMappersImportFails | src/gluetypes/loader/loader.py:34 | gluetypes' default mapper import fails as written |
| LoadingProperties.DefaultMappersImport | src/gluetypes/loader/loaders.py:25-43 | with the defined name both packages import their converters |
| LoadingProperties.DefaultMapperImportsFailForGluetypes | src/gluetypes/loader/loader.py:34 | as written the default mapper import fails for gluetypes and only there |
| Dumping.DumpF | src/tressed/dumper/dumper.py:134-156 | the exact table only gains first matches; a failure is unhandled exactly when no converter resolves (and then nothing changes), else a value error |
| Dumping.DumpWith | src/tressed/dumper/dumper.py:148-156 | calling a dumper only memoises first matches in the exact table |
| Dumping.SameDump | src/tressed/dumper/dumper.py:145-146 | two tables grown by memoisation from the same initial table dump every value alike |
| Dumping.DumpItemsF | src/tressed/dumper/dumpers.py:28-31 | a successful comprehension keeps the earlier items and adds one per item |
| Dumping.DumpKeyF | src/tressed/dumper/dumpers.py:34-39 | a dumped key is always a `str` |
| Dumping.DumpEntriesF | src/tressed/dumper/dumpers.py:42-50 | a dumped dict has string keys and no more entries than the input |
| Dumping.DumpCacheTransparent | src/tressed/dumper/dumper.py:145-146 | dumping through any table memoisation reaches gives the same result as through the initial table |
| Dumping.ImportAliasNames | src/tressed/alias/__init__.py:1-10 | an import from the alias package succeeds iff every name is among those it provides |
| Dumping.Dumper.Init | src/tressed/dumper/dumper.py:101-129 | stores the tables, external dumpers, `hide_defaults`, the key check and resolver |
| Dumping.Dumper.Create | src/tressed/dumper/dumper.py:77-129 | succeeds iff the alias imports, composition and normalisation succeed; defaults or copies merged with the extras; a caching resolver over the composed alias function; the key check as written, a `NameError` |
| Dumping.Dumper.ResolveAlias | src/tressed/dumper/dumper.py:131-132 | answers what the resolver's alias function answers |
| Dumping.Dumper.Dump | src/tressed/dumper/dumper.py:158-159 | dumps from the root path as `DumpF` does on the current table with the dumper's own key check, and the result is what a freshly constructed dumper gives, whatever was dumped before; for a dumper `Create` builds, `{1: "a"}` fails for the whole dict at the root (`DumpingProperties.DumpKeyNameErrorAsWritten`) |
| Dumping.Dumper.DumpAt | src/tressed/dumper/dumper.py:134-156 | agrees with `DumpF` |
| Dumping.Dumper.FindDumper | src/tressed/dumper/dumper.py:135-146 | returns the exact entry or the first match and memoises it |
| Dumping.Dumper.Call | src/tressed/dumper/dumper.py:149 | agrees with `DumpWith` |
| Dumping.Dumper.DumpSequence | src/tressed/dumper/dumpers.py:28-31 | agrees with `DumpWith` for sequences |
| Dumping.Dumper.DumpItems | src/tressed/dumper/dumpers.py:31 | the comprehension agrees with `DumpItemsF` |
| Dumping.Dumper.DumpKey | src/tressed/dumper/dumpers.py:34-39 | agrees with `DumpKeyF` under the dumper's key check: a key that does not dump to a `str` raises the `NameError` of the code as written in a dumper `Create` builds |
| Dumping.Dumper.DumpMapping | src/tressed/dumper/dumpers.py:45-50 | the comprehension agrees with `DumpEntriesF` |
| DumpingProperties.DefaultDumpRouting | src/tressed/dumper/dumper.py:65-73 | a class missing from the exact table gets its kind's dumper |
| DumpingProperties.ScalarKindsRouted | src/tressed/dumper/dumper.py:66-68 | ipaddress and uuid classes go to `dump_simple_scalar`, enums to `dump_enum` |
| DumpingProperties.DateKindsRouted | src/tressed/dumper/dumper.py:69-70 | datetime classes and dataclasses go to their external dumpers |
| DumpingProperties.TupleKindsRouted | src/tressed/dumper/dumper.py:71-72 | named tuples and path-like classes go to their external dumpers |
| DumpingProperties.OtherKindsUnrouted | src/tressed/dumper/dumper.py:65-73 | a class of no listed kind matches no default predicate |
| DumpingProperties.ScalarsDumpAsThemselves | src/tressed/dumper/dumper.py:31-36 | `None`, booleans, ints, floats and strings dump as themselves |
| DumpingProperties.SimpleScalarDumpsText | src/tressed/dumper/dumpers.py:22-25 | a `dump_simple_scalar` entry gives the value's `str` |
| DumpingProperties.DefaultScalarDumpsText | src/tressed/dumper/dumper.py:66-67 | with the default tables, an address or uuid dumps as its `str` |
| DumpingProperties.EnumDumpsValue | src/tressed/dumper/dumpers.py:53-54 | a `dump_enum` entry dumps the member's value at the same path; a failure there becomes a value error for the member |
| DumpingProperties.DefaultEnumDumpsValue | src/tressed/dumper/dumper.py:68 | with the default tables, an enum member dumps successfully iff its value does, and then as its value dumps |
| DumpingProperties.SequenceDumpsToList | src/tressed/dumper/dumpers.py:28-31 | an iterable (not a string) dumps to a list whose i-th item is item i dumped at `path + (i,)`, and fails iff some item does |
| DumpingProperties.MappingDumpsToDict | src/tressed/dumper/dumpers.py:42-50 | a dict dumps to a dict iff every key and value dumps |
| DumpingProperties.MappingKeys | src/tressed/dumper/dumpers.py:45-50 | the dumped dict's keys are exactly the dumped keys, all `str` |
| DumpingProperties.MappingLastWriterWins | src/tressed/dumper/dumpers.py:45-50 | a dumped key reads as the value of the last entry dumping to it |
| DumpingProperties.ScalarSequenceDumpsAsList | tests/test_dumper.py:15-27 | a list or tuple of builtin scalars dumps as the list of them |
| DumpingProperties.DumperTupleExample | tests/test_dumper.py:19 | `dump((1, 2, 3)) == [1, 2, 3]` |
| DumpingProperties.DumperAddressExample | tests/test_dumper.py:35 | an IPv4 address dumps as its text |
| DumpingProperties.DumperEnumExample | tests/test_dumper.py:59 | an enum member with value `(1, 2)` dumps as `[1, 2]` |
| DumpingProperties.DumperStrEnumExample | tests/test_dumper.py:60 | a `StrEnum` member dumps as its string |
| DumpingProperties.IntKeyFails | src/tressed/dumper/dumpers.py:37-38 | `{1: "a"}` fails at its key |
| DumpingProperties.DefaultDictDump | src/tressed/dumper/dumper.py:41 | with the default tables, a dict dumps to the dict its entries build, or a value error for the dict when an entry fails |
| DumpingProperties.DumpKeyNameErrorAsWritten | src/tressed/dumper/dumpers.py:38 | as written the raise at the key is a NameError, which `_dump` turns into a value error for the whole dict at the root |
| DumpingProperties.DumpKeyReportsKey | src/tressed/dumper/dumpers.py:34-39 | with the class in scope, `{1: "a"}` fails with a value error for the key `1`, its type `int` and the key path `(1,)` |
| DumpingProperties.DumperImportFailsAsWritten | src/tressed/dumper/dumper.py:112-117 | as written `Dumper()` fails with ImportError |
| DumpingProperties.DumperImportsResolve | src/tressed/dumper/dumper.py:112-117 | importing `to_identity` instead, construction succeeds |
| DumpingProperties.ComposedDumperAlias | src/tressed/dumper/dumper.py:119-123 | with an alias field, the composed function takes three arguments and answers the field's metadata alias, else the alias function's answer, else the name |
| DumpingProperties.DumperAliasOrder | src/tressed/dumper/dumper.py:119-123 | with an alias field, the metadata alias wins, then `alias_fn` (or the identity) |
| DumpingProperties.DefaultDumperAlias | src/tressed/dumper/dumper.py:87-89 | the default dumper (alias field `alias`, no alias function) constructs, and answers a name that is not a dataclass field with the name itself |

## Left out

- `Codegen.exec` and the `exec` in `SpecializingLoader.__call__`: running
  generated text is not modelled. What the text does once executed is
  modelled as a `Behaviour` value that the generator attaches to the text it
  writes; it is not read back from that text.
- The specialisers never return `None`, so the `None` branch of the counter
  is exercised only through `Specialization.DeclinedCycles`.
- User-supplied callables are not modelled as arbitrary code:
  - converters and predicates are closed tag datatypes;
  - alias functions are pure functions with their inspected code shape;
  - match functions are pure functions.

  Side effects inside them are not modelled (such as the counting alias
  function of the caching test), and neither are their own exceptions.
- Loading.Loader.constructor: caller-supplied tables may only hold plain
  converters, because a user's `SpecializingLoader` instance cannot be
  tracked in the state.
- Loading.Loader.constructor: takes the imports of the default mapper table
  as done. `Loading.Loader.Create` is the constructor with those imports as
  written: without a mapper table, gluetypes fails there with an ImportError
  (Findings row 2).
- `alias_resolver_factory` of `Dumper.__init__`: a user callable.
- `enable_specialization` is unused by the dumper. `hide_defaults` is only
  stored.
- `dump_complex`, `dump_datetime`, `dump_dataclass`, `dump_namedtuple` and
  `dump_fspath` are imported by the dumper's table builders
  (src/tressed/dumper/dumper.py:24-29 and 47-54), but `dumpers.py` does not
  define them, so as written those imports fail too. Their behaviour is
  unknown, so the model takes them as a parameter (`ExternalDumpers`) and
  assumes the imports succeed.
- `Dumping.DumpF`, for a `str` under `dump_simple_sequence`: iterating a
  string yields strings forever, so the model reports a RecursionError
  without modelling the stack.
- `add_note` and `raise ... from` chaining are not modelled. Engine failures
  are recorded as kinds (`Unhandled`, `Invalid`, `Foreign`), not message
  texts; the messages themselves are modelled in `Exceptions`.
- Concurrency: no thread races on the tables or caches.
- Floats are opaque tokens.
- Set iteration order is modelled as first-occurrence order rather than
  hash order.
- The `sys.modules` gating of the predicates is dropped: a form of a kind
  can only exist once its module is loaded. `is_discriminated_union` keeps
  it as a parameter.
- Predicates other than the collection and origin ones are modelled by
  kind only: typeddict, literal, uuid, enum, type alias, fspath, datetime,
  ipaddress and namedtuple.
- `is_newtype` for Python versions before 3.10 is not modelled.
- `Text.Title` and `Text.Lower`: case mapping is ASCII only.
- `Discriminator.__repr__`, `__eq__` and `__hash__`: Dafny function values
  have no identity. As written, `__eq__` compares `self.match` with the
  other's `match_fn`.
- `Loading.ScalarMismatch`: gluetypes' scalar loader reads `__name___` while
  formatting its message. That gives an AttributeError, which its `_load`
  wraps into the same value error tressed raises. The model keeps it as
  written.
- CaseConversion.ToCamel: models the separator rule the source's comment
  describes, not the comparison as written (Findings row 3).
- CaseConversion.ToPascal: the same rule as `ToCamel`.
- Dumping.Dumper.Create models the import naming `to_identity` (Findings
  row 7).
- Loading.LoadF records the failures the engine means to raise (Findings
  row 1). `LoadingProperties.RaisedAsWritten` gives the exception that
  actually escapes.
- Loading.Specialize: the behaviour of gluetypes' collection routine loads
  item k at `path + (k,)` also at the root, where the text as written passes
  the int `k` (Findings row 5). gluetypes only builds that routine inside the
  default mapper table, whose import fails as written (Findings row 2), so
  `Loading.Loader.Create` never reaches it.

## Findings

| source | as written | input that shows it | evidently intended | confidence | as-written member | corrected member |
|---|---|---|---|---|---|---|
| src/tressed/loader/loader.py:132-147 | `_load` and `load_simple_scalar` build `TressedTypeError`/`TressedValueError` with one message argument, but the constructors require two and three positional arguments, so a TypeError escapes instead | `Loader().load("x", int)` | raise `TressedValueError(value, type_form, type_path, message)` (and `TressedTypeError(value, type_path, message)`) | not executed | LoadingProperties.StringForIntAsWritten | LoadingProperties.FailureRaisesDeclaredError |
| src/gluetypes/loader/loader.py:34 | imports `load_simple_collection`, which gluetypes' `loaders.py` does not define (it defines `load_simple_sequence`) | `gluetypes.loader.Loader()` raises ImportError | import `load_simple_sequence` | not executed | LoadingProperties.GlueDefaultMappersImportFails | LoadingProperties.DefaultMappersImport |
| src/tressed/alias/functions.py:91 | `index + 1 < end` with `end = len(name) - 1` demands two characters after a lone underscore | `to_camel("foo_b")` gives `"foo_B"` | `"fooB"`: drop a lone underscore when anything follows (`index + 1 <= end`) | not executed | CaseConversion.LoneSeparatorBeforeLastCharacter | CaseConversion.ToCamel |
| src/tressed/loader/specializers.py:211-212 | the frozenset delimiters `({` and `})` make a set comprehension in parentheses | loading `frozenset[int]` four times at one path returns a `set` on the fourth | `frozenset({...})` | not executed | Specializers.FrozenSetRoutineBuildsSet | Specializers.CollectionRoutineBuildsOrigin |
| src/gluetypes/loader/specializers.py:170 | at the root the path text is `(pos)`, an int, not a one-item tuple | a specialised `list[int]` loaded at the root passes `0` as the type path | `(pos,)` | not executed | Specializers.GlueRootPathIsNotATuple | Specializers.IdentStandsForItem |
| src/tressed/dumper/dumpers.py:38 | `TressedValueError` is imported only under `TYPE_CHECKING` (lines 1-7), so the raise is a NameError | `Dumper().dump({1: "a"})` | raise the value error naming the key, its type and the key path | not executed | DumpingProperties.DumpKeyNameErrorAsWritten | DumpingProperties.DumpKeyReportsKey |
| src/tressed/dumper/dumper.py:112-117 | imports `identity_alias_fn`, which the `tressed.alias` package does not provide (its names are at src/tressed/alias/__init__.py:1-10) | `Dumper()` raises ImportError | import `to_identity` | not executed | DumpingProperties.DumperImportFailsAsWritten | DumpingProperties.DumperImportsResolve |
