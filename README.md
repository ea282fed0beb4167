# OpenGamma engine components, modelled in Dafny

This project models a set of small, sequential components of the OpenGamma
analytics platform and proves what they promise:

- **`ExecutorFactory`**: the multiple-node executor factory. It holds five job
  partitioning bounds, a function-cost object and an execution-plan cache.
  Every configuration change empties the cache. `afterPropertiesSet` fills in
  a missing cost object and a missing cache.
- **`JobResultBuilder`**: the message builder for calculation job results. A
  message is a flat list of named fields. The model proves the round trip
  from a job result to a message and back.
- **`CompositeDecorator`**: a node decorator made of node decorators. It
  stores them reversed, folds them over a node, and tries to close every
  closeable one, whatever fails.
- **`FunctionDefinition`**: the base function definition. Its unique
  identifier can be set only once.
- **`TargetResolver`**: resolution of computation target specifications
  through the security and position masters.
- **`PointShiftManipulator`**: the list-building part of the yield-curve
  point-shift manipulator.
- **`BloombergContract`**: Bloomberg contract identifiers and the future and
  option tickers built from them.
- **`Frequencies`**: the registry of standard frequencies, keyed by
  convention name.
- **`SqlServerDbManagement`**: the SQL Server 2008 catalogue-query builders
  of the database test tooling. `DatabaseName` is the constant
  "sqlserver2008".

`Common` holds the conventions shared by all modules:

- A Java exception is a `Failure` carrying an `Error` kind. A null-argument
  check gives `NullArgument` with the checked name.
- A nullable value is an `Option`. A nullable object reference is a `C?`
  class type.
- `Show` renders a nullable string the way Java string concatenation does.
- `int` and `long` are the subset types `Int32` and `Int64`.

Behaviour that lives outside these classes is a parameter of the model:

- the decorators' own `decorateNode`;
- the serialisation context's conversion between objects and messages;
- the security and position master lookups;
- the Bloomberg month-code table and the strike rounding.

Some code paths differ from a plain reading of the components' intent. In
each case the model follows the code:

- `YieldCurvePointShiftManipulator.execute` checks only the upper bound of a
  point index. A negative index fails on the array read instead, so the model
  gives it an index-out-of-bounds error, not a precondition.
- `setUniqueIdentifier(null)` on a function without an identifier succeeds and
  leaves it unset.
- `getCreateSchemaSQL` does not apply the "public" default that the other
  builders apply.

## Model

| member | source | states |
|---|---|---|
| ExecutorFactory.MultipleNodeExecutorFactory.constructor | projects/OG-Engine/src/com/opengamma/engine/view/calc/MultipleNodeExecutorFactory.java:19-27 | a new factory has minimum job items 1, maximum job items Integer.MAX_VALUE, minimum job cost 1, maximum job cost Long.MAX_VALUE, maximum concurrency Integer.MAX_VALUE, no cache and no function cost |
| ExecutorFactory.MultipleNodeExecutorFactory.InvalidateExecutionPlanCache | projects/OG-Engine/src/com/opengamma/engine/view/calc/MultipleNodeExecutorFactory.java:104-108 | an existing cache is emptied and kept; without a cache nothing changes and no cache is created |
| ExecutorFactory.MultipleNodeExecutorFactory.SetMinimumJobItems | projects/OG-Engine/src/com/opengamma/engine/view/calc/MultipleNodeExecutorFactory.java:29-36 | stores exactly the argument, leaves the other bounds and the cost unchanged, and empties an existing cache |
| ExecutorFactory.MultipleNodeExecutorFactory.SetMaximumJobItems | projects/OG-Engine/src/com/opengamma/engine/view/calc/MultipleNodeExecutorFactory.java:38-45 | stores exactly the argument, leaves the other bounds and the cost unchanged, and empties an existing cache |
| ExecutorFactory.MultipleNodeExecutorFactory.SetMinimumJobCost | projects/OG-Engine/src/com/opengamma/engine/view/calc/MultipleNodeExecutorFactory.java:47-54 | stores exactly the argument, leaves the other bounds and the cost unchanged, and empties an existing cache |
| ExecutorFactory.MultipleNodeExecutorFactory.SetMaximumJobCost | projects/OG-Engine/src/com/opengamma/engine/view/calc/MultipleNodeExecutorFactory.java:56-63 | stores exactly the argument, leaves the other bounds and the cost unchanged, and empties an existing cache |
| ExecutorFactory.MultipleNodeExecutorFactory.SetMaximumConcurrency | projects/OG-Engine/src/com/opengamma/engine/view/calc/MultipleNodeExecutorFactory.java:65-77 | stores exactly the argument, leaves the other bounds and the cost unchanged, and empties an existing cache |
| ExecutorFactory.MultipleNodeExecutorFactory.SetFunctionCost | projects/OG-Engine/src/com/opengamma/engine/view/calc/MultipleNodeExecutorFactory.java:79-87 | null is rejected with nothing changed; otherwise the cost is stored, the bounds kept and an existing cache emptied |
| ExecutorFactory.MultipleNodeExecutorFactory.SetCacheSize | projects/OG-Engine/src/com/opengamma/engine/view/calc/MultipleNodeExecutorFactory.java:89-91 | a new, empty cache of the given capacity replaces the old one; bounds and cost unchanged |
| ExecutorFactory.MultipleNodeExecutorFactory.CreateExecutor | projects/OG-Engine/src/com/opengamma/engine/view/calc/MultipleNodeExecutorFactory.java:93-97 | a null cycle is rejected; otherwise the executor carries the cycle and the current five bounds, cost object and cache |
| ExecutorFactory.MultipleNodeExecutorFactory.AfterPropertiesSet | projects/OG-Engine/src/com/opengamma/engine/view/calc/MultipleNodeExecutorFactory.java:110-118 | afterwards both a cost and a cache exist; a missing cost is a new one and empties an existing cache, a missing cache is a new empty 100-entry one; with both present nothing changes; the bounds never change |
| ExecutorFactory.StalePlanIsNeverServed | projects/OG-Engine/src/com/opengamma/engine/view/calc/MultipleNodeExecutorFactory.java:29-32 | a plan cached before any of the five bound setters is called is not found afterwards, and the configuration is the old one with that one bound replaced |
| ExecutorFactory.InvertedBoundsPassThrough | projects/OG-Engine/src/com/opengamma/engine/view/calc/MultipleNodeExecutorFactory.java:29-45 | the setters do not compare bounds: a minimum above the maximum reaches the executor as set |
| JobResultBuilder.ItemFields | projects/OG-Engine/src/com/opengamma/engine/fudgemsg/CalculationJobResultBuilder.java:37-39 | one `resultItems` field per item, in item order, holding that item's message |
| JobResultBuilder.BuildMessage | projects/OG-Engine/src/com/opengamma/engine/fudgemsg/CalculationJobResultBuilder.java:33-41 | the message built by appending fields one at a time is the specification's fields, then `duration`, then `computeNodeId`, then the item fields |
| JobResultBuilder.Encoded | projects/OG-Engine/src/com/opengamma/engine/fudgemsg/CalculationJobResultBuilder.java:33-41 | the message is the specification's fields, then the duration field, then the node id field, then one `resultItems` field per item holding that item's message, in item order, and nothing else |
| JobResultBuilder.FirstNamed | projects/OG-Engine/src/com/opengamma/engine/fudgemsg/CalculationJobResultBuilder.java:46-47 | a by-name read finds nothing exactly when no field has the name, and otherwise the first field of that name |
| JobResultBuilder.DecodeItem | projects/OG-Engine/src/com/opengamma/engine/fudgemsg/CalculationJobResultBuilder.java:50 | a `resultItems` value that is not a sub-message fails with a class-cast error; a decodable one gives its item |
| JobResultBuilder.DecodeItems | projects/OG-Engine/src/com/opengamma/engine/fudgemsg/CalculationJobResultBuilder.java:48-52 | on success there is one item per `resultItems` field |
| JobResultBuilder.DecodeItemsFailurePersists | projects/OG-Engine/src/com/opengamma/engine/fudgemsg/CalculationJobResultBuilder.java:49-52 | once the item fields read so far fail, reading the whole list fails with the same error |
| JobResultBuilder.Decoded | projects/OG-Engine/src/com/opengamma/engine/fudgemsg/CalculationJobResultBuilder.java:44-54 | reading succeeds exactly when the specification decodes, the first `duration` field is a long, the first `computeNodeId` field is a string and every `resultItems` field decodes; the result then carries those values and the items in field order; an undecodable specification, a missing duration and a missing node id each give their own error, in that order |
| JobResultBuilder.BuildObject | projects/OG-Engine/src/com/opengamma/engine/fudgemsg/CalculationJobResultBuilder.java:44-54 | the loop that reads the message field by field computes exactly the decoding of the whole message, error cases included |
| JobResultBuilder.WithoutReservedAppend | projects/OG-Engine/src/com/opengamma/engine/fudgemsg/CalculationJobResultBuilder.java:28-30 | dropping the three reserved field names distributes over concatenation |
| JobResultBuilder.AllNamedAppend | projects/OG-Engine/src/com/opengamma/engine/fudgemsg/CalculationJobResultBuilder.java:49 | the fields of one name in a concatenation are those of each part, in order |
| JobResultBuilder.FirstNamedSkips | projects/OG-Engine/src/com/opengamma/engine/fudgemsg/CalculationJobResultBuilder.java:46-47 | a by-name read skips a prefix that has no field of that name |
| JobResultBuilder.ItemFieldsValues | projects/OG-Engine/src/com/opengamma/engine/fudgemsg/CalculationJobResultBuilder.java:37-39 | the `resultItems` values of the item fields are the items' messages in order |
| JobResultBuilder.DecodeEncodedItems | projects/OG-Engine/src/com/opengamma/engine/fudgemsg/CalculationJobResultBuilder.java:37-52 | with a round-tripping item conversion, reading the written item values gives back the items |
| JobResultBuilder.ItemFieldCount | projects/OG-Engine/src/com/opengamma/engine/fudgemsg/CalculationJobResultBuilder.java:37-39 | the number of `resultItems` fields equals the number of result items |
| JobResultBuilder.EncodedItemValues | projects/OG-Engine/src/com/opengamma/engine/fudgemsg/CalculationJobResultBuilder.java:37-49 | the `resultItems` values of the whole message are exactly the items' messages, in order |
| JobResultBuilder.EncodedSpecification | projects/OG-Engine/src/com/opengamma/engine/fudgemsg/CalculationJobResultBuilder.java:34-45 | the specification read from the whole message is the one written |
| JobResultBuilder.EncodedHeader | projects/OG-Engine/src/com/opengamma/engine/fudgemsg/CalculationJobResultBuilder.java:35-47 | the duration and node id read by name are the ones written |
| JobResultBuilder.RoundTrip | projects/OG-Engine/src/com/opengamma/engine/fudgemsg/CalculationJobResultBuilder.java:33-54 | reading a written job result gives back the same specification, duration, items and node id, given the conversion assumptions |
| CompositeDecorator.ReverseAt | src/main/java/com/opengamma/sesame/graph/CompositeNodeDecorator.java:35 | position k of the reversed list holds element n-1-k of the original |
| CompositeDecorator.ReverseReverse | src/main/java/com/opengamma/sesame/graph/CompositeNodeDecorator.java:35 | reversing twice gives the list back |
| CompositeDecorator.Compose | src/main/java/com/opengamma/sesame/graph/CompositeNodeDecorator.java:40-46 | no decorators leave the node as it is; a single decorator is applied to the node itself |
| CompositeDecorator.ComposeAppend | src/main/java/com/opengamma/sesame/graph/CompositeNodeDecorator.java:40-46 | decorating with a concatenation nests the first part around the second |
| CompositeDecorator.ComposeWrapsEachOnce | src/main/java/com/opengamma/sesame/graph/CompositeNodeDecorator.java:42-44 | with wrapping decorators the node carries each decorator exactly once, in the order given, first outermost |
| CompositeDecorator.Filter | src/main/java/com/opengamma/sesame/graph/CompositeNodeDecorator.java:50-51 | keeps at most the decorators given |
| CompositeDecorator.FilterMembership | src/main/java/com/opengamma/sesame/graph/CompositeNodeDecorator.java:50-51 | a decorator is kept exactly when it is in the list and passes the test |
| CompositeDecorator.CompositeNodeDecorator.FromList | src/main/java/com/opengamma/sesame/graph/CompositeNodeDecorator.java:27-29 | the list constructor stores the same reversed decorators as the array constructor on the same elements |
| CompositeDecorator.CompositeNodeDecorator.constructor | src/main/java/com/opengamma/sesame/graph/CompositeNodeDecorator.java:31-37 | the stored decorators are the reverse of those given |
| CompositeDecorator.CompositeNodeDecorator.Create | src/main/java/com/opengamma/sesame/graph/CompositeNodeDecorator.java:34 | a null array is rejected; otherwise a composite over exactly the given decorators |
| CompositeDecorator.CompositeNodeDecorator.ReversedCopy | src/main/java/com/opengamma/sesame/graph/CompositeNodeDecorator.java:34-35 | the in-place reversal of the copied list yields the reverse of the list |
| CompositeDecorator.CompositeNodeDecorator.DecorateNode | src/main/java/com/opengamma/sesame/graph/CompositeNodeDecorator.java:39-46 | for decorators given as [d1..dk] the result is d1(d2(..dk(node)..)); with none, the node itself |
| CompositeDecorator.CompositeNodeDecorator.Close | src/main/java/com/opengamma/sesame/graph/CompositeNodeDecorator.java:48-59 | every closeable decorator is tried, in stored order, whether or not earlier ones failed; the failures are those tries that threw |
| FunctionDefinition.AbstractFunction.constructor | projects/OG-Engine/src/com/opengamma/engine/function/AbstractFunction.java:20 | a new function has no unique identifier |
| FunctionDefinition.AbstractFunction.GetUniqueIdentifier | projects/OG-Engine/src/com/opengamma/engine/function/AbstractFunction.java:25-27 | returns the stored identifier |
| FunctionDefinition.AbstractFunction.SetUniqueIdentifier | projects/OG-Engine/src/com/opengamma/engine/function/AbstractFunction.java:32-37 | when unset, stores the argument (null included); when set, fails with an illegal-state error and keeps the stored identifier |
| FunctionDefinition.AbstractFunction.Init | projects/OG-Engine/src/com/opengamma/engine/function/AbstractFunction.java:39-41 | the base initialisation leaves the unique identifier as it was |
| FunctionDefinition.AbstractFunction.RequiredLiveData | projects/OG-Engine/src/com/opengamma/engine/function/AbstractFunction.java:43-46 | no value specification is required |
| FunctionDefinition.AbstractFunction.DefaultParameters | projects/OG-Engine/src/com/opengamma/engine/function/AbstractFunction.java:48-52 | the parameters are the empty kind |
| FunctionDefinition.WriteOnceProtocol | projects/OG-Engine/src/com/opengamma/engine/function/AbstractFunction.java:32-37 | setting null leaves the identifier unset, the first identifier then sticks and a second set is refused |
| TargetResolver.NewResolver | src/com/opengamma/engine/DefaultComputationTargetResolver.java:36-41 | a null security master or position master is rejected, in that order; otherwise both are kept |
| TargetResolver.ResolveSecurity | src/com/opengamma/engine/DefaultComputationTargetResolver.java:96-111 | an identity-key identifier is looked up directly; any other gives nothing when the bundle search has no hit and otherwise its first hit |
| TargetResolver.Resolve | src/com/opengamma/engine/DefaultComputationTargetResolver.java:57-90 | primitives resolve to themselves; securities, positions and portfolio nodes resolve to a target of the same type wrapping the found object, or to none; every other type fails, and only it |
| TargetResolver.PrimitiveIgnoresMasters | src/com/opengamma/engine/DefaultComputationTargetResolver.java:61-62 | a primitive resolves the same whatever the masters are |
| TargetResolver.FirstHitWins | src/com/opengamma/engine/DefaultComputationTargetResolver.java:101-110 | when several securities match, only the first hit matters |
| PointShiftManipulator.NewManipulator | projects/OG-Integration/src/main/java/com/opengamma/integration/marketdata/manipulator/dsl/YieldCurvePointShiftManipulator.java:54-58 | a null shift type or shift list is rejected, in that order; otherwise both are kept |
| PointShiftManipulator.OutOfBounds | projects/OG-Integration/src/main/java/com/opengamma/integration/marketdata/manipulator/dsl/YieldCurvePointShiftManipulator.java:70-73 | an index at or past the end is refused with an illegal-argument error; a negative one fails with an index-out-of-bounds error |
| PointShiftManipulator.Execute | projects/OG-Integration/src/main/java/com/opengamma/integration/marketdata/manipulator/dsl/YieldCurvePointShiftManipulator.java:60-83 | succeeds exactly when every index is on the curve; then one point and one shift per point shift in order, the point being the x-value at the index and the shift increased by 1 for relative shifts; otherwise the error of the first bad index |
| BloombergContract.YearCode | projects/OG-Bloomberg/src/main/java/com/opengamma/bbg/BloombergContractID.java:71-74 | the year is reduced to its last decimal digit |
| BloombergContract.ToUpper | projects/OG-Bloomberg/src/main/java/com/opengamma/bbg/BloombergContractID.java:76 | upper-casing keeps the length and upper-cases each letter |
| BloombergContract.ToUpperAppend | projects/OG-Bloomberg/src/main/java/com/opengamma/bbg/BloombergContractID.java:76 | upper-casing distributes over concatenation |
| BloombergContract.ToUpperNormalises | projects/OG-Bloomberg/src/main/java/com/opengamma/bbg/BloombergContractID.java:76 | an upper-cased text has no lower-case letter, so upper-casing again changes nothing |
| BloombergContract.FutureTicker | projects/OG-Bloomberg/src/main/java/com/opengamma/bbg/BloombergContractID.java:75-76 | the future ticker is the upper-cased contract code, month code and year code, a space and the upper-cased market sector (null written as "null"), and it has no lower-case letter |
| BloombergContract.OptionTicker | projects/OG-Bloomberg/src/main/java/com/opengamma/bbg/BloombergContractID.java:96-97 | the option ticker is the upper-cased contract code, month code and year code, the initial of the option type, a space, the upper-cased rounded strike, a space and the upper-cased market sector, and it has no lower-case letter |
| BloombergContract.FutureTickerShape | projects/OG-Bloomberg/src/main/java/com/opengamma/bbg/BloombergContractID.java:75-76 | the future ticker is the upper-cased contract code and month code, the last year digit, a space and the upper-cased market sector |
| BloombergContract.OptionTickerShape | projects/OG-Bloomberg/src/main/java/com/opengamma/bbg/BloombergContractID.java:96-97 | the option ticker is the upper-cased code, month code, last year digit, the option type initial, the rounded strike and the market sector, space separated as written |
| BloombergContract.BloombergContractID.constructor | projects/OG-Bloomberg/src/main/java/com/opengamma/bbg/BloombergContractID.java:54-55 | the no-argument constructor leaves both fields null |
| BloombergContract.BloombergContractID.WithCodes | projects/OG-Bloomberg/src/main/java/com/opengamma/bbg/BloombergContractID.java:57-62 | the two-argument constructor stores both arguments |
| BloombergContract.BloombergContractID.Create | projects/OG-Bloomberg/src/main/java/com/opengamma/bbg/BloombergContractID.java:57-62 | a null contract code or market sector is rejected, in that order; otherwise both are stored |
| BloombergContract.BloombergContractID.SetContractCode | projects/OG-Bloomberg/src/main/java/com/opengamma/bbg/BloombergContractID.java:185-187 | changes the contract code only |
| BloombergContract.BloombergContractID.SetMarketSector | projects/OG-Bloomberg/src/main/java/com/opengamma/bbg/BloombergContractID.java:210-212 | changes the market sector only |
| BloombergContract.BloombergContractID.ToFutureExternalId | projects/OG-Bloomberg/src/main/java/com/opengamma/bbg/BloombergContractID.java:64-81 | null month, then null year, are rejected first; a month outside 1..12 is a date-time error; a month without a month code gives none; otherwise the ticker identifier of the future ticker shape |
| BloombergContract.BloombergContractID.ToOptionExternalId | projects/OG-Bloomberg/src/main/java/com/opengamma/bbg/BloombergContractID.java:83-102 | null month, year, strike and option type are rejected first, in that order; a month outside 1..12 is a date-time error; a month without a month code gives none; otherwise the ticker identifier of the option ticker shape |
| BloombergContract.BloombergContractID.Equals | projects/OG-Bloomberg/src/main/java/com/opengamma/bbg/BloombergContractID.java:151-162 | equal exactly to a non-null id with the same contract code and market sector |
| BloombergContract.EqualsIsEquivalence | projects/OG-Bloomberg/src/main/java/com/opengamma/bbg/BloombergContractID.java:151-162 | equality is reflexive, symmetric and transitive |
| Frequencies.StandardRegistry | src/com/opengamma/financial/convention/frequency/FrequencyFactory.java:22-27 | every standard frequency is keyed by its own convention name |
| Frequencies.FrequencyFactory.constructor | src/com/opengamma/financial/convention/frequency/FrequencyFactory.java:22-27 | the registry holds exactly the monthly, annual, semi-annual and quarterly frequencies, each under its own name |
| Frequencies.FrequencyFactory.Store | src/com/opengamma/financial/convention/frequency/FrequencyFactory.java:29-31 | the frequency is keyed by its convention name, replacing an earlier one of that name, and every key still names its frequency |
| Frequencies.FrequencyFactory.GetFrequency | src/com/opengamma/financial/convention/frequency/FrequencyFactory.java:33-35 | a registered name gives the frequency stored under it, which carries that name; any other gives none |
| Frequencies.StandardLookup | src/com/opengamma/financial/convention/frequency/FrequencyFactory.java:22-35 | on a fresh registry the four standard names give their frequencies and every other name gives none |
| Frequencies.StoreReplaces | src/com/opengamma/financial/convention/frequency/FrequencyFactory.java:29-35 | after storing, the name gives the new frequency, repeatably, and other names are unaffected |
| SqlServerDbManagement.EffectiveSchema | projects/OG-Util/src/com/opengamma/util/test/SqlServer2008DbManagement.java:84-86 | a null schema becomes "public"; any other is used as given |
| SqlServerDbManagement.DatabaseName | projects/OG-Util/src/com/opengamma/util/test/SqlServer2008DbManagement.java:71-74 | the database name is "sqlserver2008" |
| SqlServerDbManagement.AllSchemasSQL | projects/OG-Util/src/com/opengamma/util/test/SqlServer2008DbManagement.java:77-80 | the schemas query is the fixed pg_namespace query, whatever the catalog |
| SqlServerDbManagement.AllForeignKeyConstraintsSQL | projects/OG-Util/src/com/opengamma/util/test/SqlServer2008DbManagement.java:82-90 | the query is the fixed constraints start, then the catalog verbatim, then the schema clause with the given schema (or "public" for null) and the foreign-key filter |
| SqlServerDbManagement.AllSequencesSQL | projects/OG-Util/src/com/opengamma/util/test/SqlServer2008DbManagement.java:92-100 | the query is the fixed sequences start, then the catalog verbatim, then the schema clause with the effective schema and a closing quote |
| SqlServerDbManagement.AllTablesSQL | projects/OG-Util/src/com/opengamma/util/test/SqlServer2008DbManagement.java:102-110 | the query is the fixed tables start, then the catalog verbatim, then the schema clause with the effective schema and the `BASE TABLE` filter |
| SqlServerDbManagement.AllViewsSQL | projects/OG-Util/src/com/opengamma/util/test/SqlServer2008DbManagement.java:112-120 | the query is the fixed tables start, then the catalog verbatim, then the schema clause with the effective schema and the `VIEW` filter |
| SqlServerDbManagement.AllColumnsSQL | projects/OG-Util/src/com/opengamma/util/test/SqlServer2008DbManagement.java:122-131 | the query is the fixed columns start, then the catalog verbatim, then the schema clause with the effective schema, the table clause with the table and a closing quote |
| SqlServerDbManagement.CreateSchemaSQL | projects/OG-Util/src/com/opengamma/util/test/SqlServer2008DbManagement.java:133-136 | the statement is "CREATE SCHEMA " followed by exactly the schema as given, "null" for null, and nothing else |
| SqlServerDbManagement.NullSchemaIsDefault | projects/OG-Util/src/com/opengamma/util/test/SqlServer2008DbManagement.java:82-131 | a null schema gives the same foreign-key, sequence, table, view and column queries as "public" |
| SqlServerDbManagement.CreateSchemaHasNoDefault | projects/OG-Util/src/com/opengamma/util/test/SqlServer2008DbManagement.java:133-136 | schema creation applies no default: a null schema is written "null", not "public" |
| SqlServerDbManagement.SchemasIgnoreCatalog | projects/OG-Util/src/com/opengamma/util/test/SqlServer2008DbManagement.java:77-80 | the schemas query is the same for every catalog |
| SqlServerDbManagement.ForeignKeysQueryDeterminesArguments | projects/OG-Util/src/com/opengamma/util/test/SqlServer2008DbManagement.java:82-90 | with quote-free catalog and schema, equal foreign-key queries have equal catalog and schema |
| SqlServerDbManagement.SequencesQueryDeterminesArguments | projects/OG-Util/src/com/opengamma/util/test/SqlServer2008DbManagement.java:92-100 | with quote-free catalog and schema, equal sequence queries have equal catalog and schema |
| SqlServerDbManagement.TablesQueryDeterminesArguments | projects/OG-Util/src/com/opengamma/util/test/SqlServer2008DbManagement.java:102-110 | with quote-free catalog and schema, equal table queries have equal catalog and schema |
| SqlServerDbManagement.ViewsQueryDeterminesArguments | projects/OG-Util/src/com/opengamma/util/test/SqlServer2008DbManagement.java:112-120 | with quote-free catalog and schema, equal view queries have equal catalog and schema |
| SqlServerDbManagement.TablesAreNeverViews | projects/OG-Util/src/com/opengamma/util/test/SqlServer2008DbManagement.java:102-120 | for any catalogs and schemas, the tables and views queries are one shared prefix followed by the `BASE TABLE` or the `VIEW` filter, so no tables query equals any views query |
| SqlServerDbManagement.ColumnsQueryDeterminesArguments | projects/OG-Util/src/com/opengamma/util/test/SqlServer2008DbManagement.java:122-131 | the columns query is the fixed start, then catalog, schema and table each closed by a quote; with quote-free catalog and schema it determines all three |
| SqlServerDbManagement.QuotesMakeQueriesAmbiguous | projects/OG-Util/src/com/opengamma/util/test/SqlServer2008DbManagement.java:82-90 | catalog and schema are spliced in unescaped: different pairs carrying the schema clause give the same foreign-key query |

## Left out

- ExecutionPlanCache internals (the EHCache manager, eviction, plan building) are not modelled. The cache is a map of plans with a capacity, and only emptying it matters here.
- MultipleNodeExecutor, FunctionCost and SingleComputationCycle are opaque values. The partitioner, dispatcher and cost model are not part of this model.
- The getters of MultipleNodeExecutorFactory and BloombergContractID are field reads. BloombergContractID.contractCode() and marketSector() are Joda-Bean property objects and are left out.
- The Fudge encoding of job specifications and result items is taken as a `Codec` parameter.
- JobResultBuilder.RoundTrip: the round trip also assumes that the specification's decoder reads only fields it could have written, i.e. it ignores `duration`, `computeNodeId` and `resultItems`. That conversion is not part of this model.
- JobResultBuilder.Decoded: a message without a `computeNodeId` field fails with a null-pointer error. `msg.getString` would return null, and what the CalculationJobResult constructor then does is not part of this model.
- JobResultBuilder.Decoded: a `duration` or `computeNodeId` field of the wrong type fails. Fudge's own type conversions between field types are not modelled.
- CompositeDecorator.CompositeNodeDecorator.FromList: the list is a value, so the null-pointer exception of `toArray` on a null list is not modelled.
- CompositeDecorator.CompositeNodeDecorator.Create: decorators are values and cannot be null, so the null-pointer exception of `ImmutableList.copyOf` on a null element is not modelled; the same holds for FromList and the array constructor.
- PointShiftManipulator.NewManipulator: point shifts are values and cannot be null, so the null-pointer exception of `ImmutableList.copyOf` on a null element is not modelled.
- BloombergContract.BloombergContractID.ToOptionExternalId: the strike is a real, so the number-format exception of `BigDecimal.valueOf` on a NaN or infinite strike is not modelled; the rounding is a parameter.
- CompositeNodeDecorator: which decorators implement AutoCloseable, and whether their close throws, are given by the decorator value and a parameter. Logging of close failures is not modelled.
- DefaultComputationTargetResolver: the value of SECURITY_IDENTITY_KEY_DOMAIN is taken as "SecurityIdentityKey"; the Security interface is not part of this model. ComputationTargetType is not part of this model either: it is written as the four handled kinds plus any other.
- DefaultComputationTargetResolver: logging and the getters of the two masters are left out.
- YieldCurvePointShiftManipulator: the curve rebuild (YieldCurveUtils.withPointShifts) and the mapping ScenarioShiftType.toAnalyticsType are foreign. The model stops at the point and shift lists handed to the rebuild.
- YieldCurvePointShiftManipulator: shifts are reals, so IEEE double rounding of `shift + 1` is not modelled.
- BloombergContract: BloombergDataUtils.futureMonthCode and getRoundedPrice (BigDecimal half-up rounding to three places) are parameters. ExternalSchemes is not part of this model, and the ticker scheme name is taken as "BLOOMBERG_TICKER".
- BloombergContract.ToUpper: upper-cases ASCII letters only, not the full Unicode mapping of String.toUpperCase.
- BloombergContract: the month-out-of-range error stands for java.time's DateTimeException. Logging is not modelled.
- BloombergContract.BloombergContractID.Equals: compares with any non-null contract id; the Java class-equality test only matters for subclasses, which are not modelled. hashCode and the Joda-Bean meta-bean reflection are left out.
- Frequencies: SimpleFrequency is not part of this model. The four convention names ("Monthly", "Annual", "Semi-annual", "Quarterly") and period counts are taken as written in frequency_factory.dfy. The INSTANCE singleton is left out.
- SqlServerDbManagement: dropSchema (JDBC I/O), getHibernateDialect (a lazily built, synchronized dialect), getCatalogCreationStrategy, getJDBCDriverClass and the INSTANCE singleton are left out.
- Concurrency: all components are modelled single-threaded.
