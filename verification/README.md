# CrystalFlow, modelled and proved

CrystalFlow runs small deterministic programs ("crystals") written in a JSON
expression language, keeps their versions in a content-addressed registry over a
key-value store, learns new ones from observed inputs and outputs, and learns
tool routes from observed actions. This project models that core in Dafny and
proves what the rest of the program relies on: that the metered evaluator
computes what the expression means, that storing a program does not change it,
that the registry is consistent after each single write, that a live learned
program reproduces all the evidence there is, and that a route is only hit when
history justifies it.

`dafny verify dfyconfig.toml` checks the whole project.

## How it is modelled

- A text is a sequence of code points, lone surrogates included. A JSON object is
  a sequence of fields with distinct keys, so the order in which a dictionary was
  filled is visible. `Normalize` sorts all keys; numbers are integers.
- A content hash is the canonical text itself, which is to say that the digest is
  taken to be free of collisions. Everything the code does about hashes (the
  comparison of stored and recomputed ones, the search by hash, the collision
  branch of the learner) is still there, as code and as checks.
- `lower`, `upper` and `strip` are parameters: the proofs hold for any functions.
- The evaluator is a class with its `evaluations` counter and its loops. Its
  specification, `Sem`, gives the result and the number of evaluations of each
  step under the limits; `Denotation` is a second semantics without counter,
  byte totals or budgets, and `Refinement` connects the two.
- The registry, the crystal service, the progressive service and the route store
  are classes over key-value cells. One write changes one cell, or is refused and
  changes nothing; a ghost counter `failures` counts refusals, and a contract lets
  an operation report a storage failure only if that counter rose. Each operation
  therefore either does all it is specified to do, or gives exactly the refusal
  its specification names, or a write was refused.
- The registry keeps a ghost history with the store after every single write. A run
  is such a history from the empty store, each step being one write of an operation:
  a new record, an alias with one version appended, activated or retired, one name
  more in the catalog, or raised counters. Consistency and growth are not part of
  that definition; they are proved of every run.
- An exception that is not one of the program's own errors (`Crash`) leaves the call
  that meets it, through `execute` and `crystallize` alike.
- The learner is stated twice: as a transition system of many threads, with one
  step per critical section or write and with retiring and activating possible
  between any two steps, and as the class whose methods are those sections. The
  class carries the protocol state of each task as ghost state, and each method
  takes protocol steps.
- A route operation is specified by its effect: an answer, or one change of the
  record with an event and an answer. The class has exactly these effects, and the
  theorems about histories are proved over all sequences of calls.
- A lock is a critical section: a method of a class runs without interference.

| modules | source | subject |
|---|---|---|
| Texts, Json, Canonical, Reader | canonical.py, registry.py | UTF-8, equality, the printer and the strict reader |
| Limits, Sizing, TextOps, Operators, Preflight, Exactness | engine.py | the sizer, the string operators and their size predictions |
| Ir, Validity | engine.py | the validator, and what acceptance guarantees |
| Semantics, Runtimes, Denotation, Refinement, Raising, Bounded | engine.py | the evaluator and its meaning |
| Schemas, SchemaOrder, SchemaSafety, NullKeywords, Conformance, Annotations | schema.py, adaptive_routes.py | schemas, their admission, conformance, and stripping annotations |
| Snapshot, Storing, Programs, Encoding, StoredPrograms, Guarantees | engine.py, registry.py, service.py | whole programs, and what storing them keeps |
| Cells, Registries, RegistryRuns | registry.py | cells, consistency, and the operations |
| Services, Views, ServiceRuns | service.py | tests, versions, and the lifecycle service |
| Learning, LearnerProtocol, LearnerRuns, Progressive | progressive.py | one observation, the protocol, and the service that follows it |
| Contracts, Routes, RouteStores | adaptive_routes.py | tool contracts, routes and their histories |
| Streaming | progressive_function_calling.py | reassembling streamed tool calls |

## Where the code does not meet the expectation

- `concat` of no arguments returns the empty string without charging its two bytes,
  so under an output limit of one byte it returns more than the limit allows
  (`EmptyConcatIsUncharged`); `ConcatIsExactOnceCharged` says that this is the only
  exception. `join` has none: its arguments have been charged before.
- `validate_schema` admits `null` for `properties` and for `required`, and checking
  a value against such a schema can then end in an unstructured exception
  (`NullPropertiesBreak`, `NullRequiredBreaks`). Without such nulls it never does
  (`UsableNeverBreaks`). `BreaksExactly` says for which values it does, and
  `NullFreeExactly` that among schemas without enumerations and item or property
  counts only those without such nulls are safe for all values. The exception leaves
  `execute` and `crystallize`, and `run` then answers from its fallback and learns
  nothing.
- A name the catalog has no room for is registered, and the call then fails; a
  retirement can likewise fail after the version is retired, when no summary can be
  made (`Register`, `Withdraw`).
- Activating a retired version beside the learner can make a version live that does
  not reproduce what was learned since; `RevivalIsExact` says exactly when it does not.
- Route quarantine is not permanent: a manual invalidation ends it
  (`InvalidationEndsQuarantine`); nothing else does (`QuarantineLasts`).
- A streamed delta that happens to start with all the text before it replaces that
  text instead of extending it (`RepeatingDeltaIsLost`); `DeltasConcatenate` says
  exactly when deltas are joined to their concatenation.

## Model

| member | source | states |
|---|---|---|
| Refinement.SemRefines | crystalflow/engine.py:1034-1385 | under any limits, evaluation gives the limit-free meaning after exactly that meaning's number of visits, or stops with a limit's error |
| Refinement.EvaluationCountsVisits | crystalflow/engine.py:1034-1048 | when an evaluation returns a value, that value is the limit-free meaning and `evaluations` has risen by exactly the visits that meaning takes |
| Runtimes.Runtime.Eval | crystalflow/engine.py:1034-1385 | the imperative evaluator returns what the specified step says and leaves the counter where it says, never recursing deeper than the expression |
| Runtimes.Runtime.ValueLoop | crystalflow/engine.py:1012-1032 | the loop over arguments keeps the running byte total and gives the specified values or the specified error |
| Runtimes.Runtime.FieldLoop | crystalflow/engine.py:1080-1098 | the loop over object fields charges comma, key and value as specified |
| Runtimes.Runtime.GetBranch | crystalflow/engine.py:1117-1149 | `get` evaluates target, key and, only where nothing is found, the default |
| Runtimes.Runtime.LazyBranch | crystalflow/engine.py:1150-1183 | `and`, `or`, `if` and `coalesce` evaluate no more arguments than they need, and count only those |
| Runtimes.Runtime.EachBranch | crystalflow/engine.py:1184-1255 | `map`, `filter` and `sort` run their loops with nested variables as specified |
| Runtimes.Runtime.SumBranch | crystalflow/engine.py:1257-1273 | `sum` over a collection stops at the first item or total that breaks a limit |
| Runtimes.AddLoop | crystalflow/engine.py:1387-1482 | the `add` loop checks each partial result |
| Runtimes.MultiplyLoop | crystalflow/engine.py:1387-1482 | the `mul` loop checks each partial result |
| Runtimes.Preflight | crystalflow/engine.py:928-946 | the loop over string parts gives the predicted size or the first error |
| Denotation.ApplyRefines | crystalflow/engine.py:1277-1385 | every eager operator computes its limit-free meaning or hits a limit |
| Semantics.StableSortIsStable | crystalflow/engine.py:1231-1255 | the sort orders by key, is a permutation, and keeps the order of equal keys also when descending |
| Semantics.KeyOrder | crystalflow/engine.py:1529-1547 | sort keys are totally ordered |
| Raising.SemRaised | crystalflow/engine.py:116-137 | raising limits leaves every step as it was unless the lower limits had stopped it |
| Guarantees.RunRaised | crystalflow/engine.py:1576-1598 | raising any limits never changes a successful run of a program nor makes it fail |
| Guarantees.RunMeansDenotation | crystalflow/engine.py:1576-1598 | a run that succeeds returns the limit-free meaning of the program's expression, which needs no more visits than allowed |
| Bounded.SemBounded | crystalflow/engine.py:1080-1385 | in a bounded environment, with byte limits of at least 2, an accepted expression's value has at most the larger byte limit and no collection over the item limit |
| Bounded.MadeIsReady | crystalflow/engine.py:1184-1255 | every call such an evaluation makes is of an accepted expression in a bounded environment again, with the nested variables of `map`, `filter` and `sort` |
| Bounded.CallsBounded | crystalflow/engine.py:1034-1385 | so the value of every call on any stack of calls is bounded |
| Guarantees.RunCallsBounded | crystalflow/engine.py:986-1010 | in every run of an admitted program with preflighted inputs, the value of every call of the evaluator is within the byte and item limits |
| Bounded.FilterBounded | crystalflow/engine.py:1218-1229 | what `filter` keeps is no larger than its input, although it is never sized again |
| Bounded.SortWeight | crystalflow/engine.py:1231-1255 | sorting changes neither the size of a collection nor its item counts |
| Bounded.SliceWithin | crystalflow/engine.py:1360-1376 | a slice of a bounded array is bounded |
| Guarantees.RunIsBounded | crystalflow/engine.py:986-1010 | the output of a run fits the limits, and its canonical bytes are no more than the output limit |
| Guarantees.InputsPrepared | crystalflow/engine.py:948-956 | inputs that pass the preflight satisfy what the bound on intermediate values assumes |
| Validity.AcceptedExactly | crystalflow/engine.py:481-677 | the validator accepts exactly the expressions whose names, arities, scopes, depth, literals and node count are within the rules |
| Validity.SemSound | crystalflow/engine.py:1034-1078 | an accepted expression never meets an unbound variable, a missing argument or an unreachable branch, and depends on its variables in scope only |
| Validity.ValidDepth | crystalflow/engine.py:481-500 | accepted expressions are no deeper than the depth limit |
| Validity.MeaningUnstuck | crystalflow/engine.py:447-479 | with an accepted number of arguments no operator reaches for a missing one |
| Guarantees.EvaluateUnstuck | crystalflow/engine.py:1550-1573 | evaluating an accepted expression ends in a value or a structured error and recurses at most `max_depth` deep |
| Guarantees.RunUnstuck | crystalflow/engine.py:1576-1598 | the same for a whole run of an admitted program, its schemas without null keywords |
| Ir.Validator.Node | crystalflow/engine.py:481-677 | the validator with its node counter returns the verdict of the check and stops at the node limit |
| Ir.Validator.EachNodes | crystalflow/engine.py:619-664 | traversals bind their names in the body only |
| Ir.ValidateExpression | crystalflow/engine.py:719-736 | `validate_expression` accepts if and only if the expression is accepted |
| Sizing.SizedExact | crystalflow/engine.py:216-384 | the sizer returns the exact size if the value is within the limits and the size within the budget, the size error if only the size is wrong, and never a size otherwise |
| Sizing.SizeIsUtf8Length | crystalflow/canonical.py:64-126 | the size it counts is the UTF-8 length of the canonical text |
| Sizing.BoundedJsonSize | crystalflow/engine.py:216-384 | the imperative sizer, with early exits and shrinking nested budgets, keeps that contract |
| Sizing.StringContentBytes | crystalflow/engine.py:177-213 | the scan of string content stops as specified |
| Sizing.ScanContentExact | crystalflow/engine.py:177-213 | on encodable text the scan gives the escaped size, or one more than the maximum; a lone surrogate is refused unless the maximum was passed first |
| Sizing.EscapeOneLength | crystalflow/engine.py:177-213 | the table of escape sizes agrees with the printer's escapes |
| Sizing.SizeNormalizes | crystalflow/engine.py:216-384 | key order does not change the size |
| Exactness.ReplaceIsExactOnceCharged | crystalflow/engine.py:1294-1307 | once its arguments have passed, `replace`, with an empty or a non-empty `old`, raises the limit exactly when its real result exceeds it |
| Exactness.SplitIsExactOnceCharged | crystalflow/engine.py:1308-1333 | once its arguments have passed, `split` refuses an empty separator and too many parts, and otherwise raises the limit exactly when the array it would build exceeds it |
| Exactness.JoinIsExactOnceCharged | crystalflow/engine.py:1334-1349 | once its arguments have passed, `join`, of an empty list too, raises the limit exactly when its result exceeds it |
| Exactness.ConcatIsExactOnceCharged | crystalflow/engine.py:1277-1286 | once its arguments have passed, `concat` is exact in the same way if and only if it has an argument or the limit is at least 2 |
| Exactness.EmptyConcatIsUncharged | crystalflow/engine.py:1277-1286 | under legal limits with one byte of output, `concat` of nothing returns two |
| Exactness.ArgumentsFit | crystalflow/engine.py:1012-1032 | arguments that passed are within the limits, and charging any takes a limit of at least two |
| Preflight.SplitThenJoin | crystalflow/engine.py:1308-1349 | joining what `split` returned with the same separator gives the source back |
| Preflight.ReplacePredictsSize | crystalflow/engine.py:1294-1307 | the closed form for `replace` is the content size of the replaced text |
| Preflight.SplitPredictsSize | crystalflow/engine.py:1308-1333 | the closed form for `split` is the canonical size of the array of parts |
| TextOps.ReplaceIsJoinOfSplit | crystalflow/engine.py:1294-1349 | replacing is splitting at the old text and joining with the new one |
| TextOps.PartsLackSeparator | crystalflow/engine.py:1308-1333 | no part of a split contains the separator |
| TextOps.SplitHasCountPlusOne | crystalflow/engine.py:1308-1333 | a split has one part more than the separator has occurrences |
| TextOps.ReplaceSize | crystalflow/engine.py:1294-1307 | each occurrence trades the size of the old text for that of the new one |
| TextOps.SplitSize | crystalflow/engine.py:1308-1333 | the array of parts has the size of the source without separators, plus quotes, commas and brackets |
| Limits.PowerGateIsSound | crystalflow/engine.py:1387-1482 | when `bit_length(base) * exponent` is within the integer limit, so is the power |
| Limits.BitLengthBoundsMagnitude | crystalflow/engine.py:868-891 | a magnitude has at most that many bits exactly when it is below that power of two |
| Operators.FloorModLaw | crystalflow/engine.py:1387-1482 | `mod` rebuilds the dividend and has the divisor's sign |
| Operators.RoundsToNearestEven | crystalflow/engine.py:1387-1482 | rounding to negative digits gives a nearest multiple, the even one from a tie |
| Operators.LeastIsMinimum | crystalflow/engine.py:1387-1482 | `min` and `max` return elements that bound all others |
| Operators.SliceIsRange | crystalflow/engine.py:1360-1376 | a slice holds exactly the elements at the positions asked for, negative ones counted from the end, in order |
| Operators.SliceCuts | crystalflow/engine.py:1360-1376 | the part before a cut and the part from it on are the whole |
| Operators.CompareIsTotal | crystalflow/engine.py:1503-1527 | of two comparable values exactly one is less, equal or greater, and the other comparisons follow |
| Texts.Utf8RoundTrip | crystalflow/canonical.py:148-151 | encodable text survives encoding and decoding |
| Texts.Utf8DecodeExact | crystalflow/registry.py:134-175 | the decoder accepts only the encoding of the text it returns |
| Texts.Utf8EncodeLength | crystalflow/canonical.py:148-151 | the encoded length is the sum of the code points' widths |
| Canonical.RenderNormalizes | crystalflow/canonical.py:64-126 | key order never reaches the canonical text |
| Reader.LoadsRender | crystalflow/canonical.py:172-208 | reading printed text back gives the value with sorted keys |
| Reader.RenderIsUnambiguous | crystalflow/canonical.py:129-145 | two values print alike exactly when they are equal up to key order, and exactly when the engine's `_equal` holds |
| Json.EqualIsSameNormalForm | crystalflow/engine.py:1484-1501 | `_equal` holds exactly for values with the same normal form |
| Json.EqualIsEquivalence | crystalflow/engine.py:1484-1501 | `_equal` is an equivalence relation |
| Json.SortByKeyProperties | crystalflow/canonical.py:84-92 | sorting the pairs of a dictionary orders them and changes no binding |
| Reader.ObjectPairs | crystalflow/canonical.py:181-191 | the pairs hook refuses exactly the lists with a repeated key |
| Reader.ReadIsWellFormed | crystalflow/canonical.py:172-208 | whatever is read has no duplicate keys at any depth |
| Reader.StoredRoundTrip | crystalflow/registry.py:134-175 | the bytes written for a value read back as its sorted form, and pass the canonical check, whenever they are within the byte limit |
| Reader.CanonicalBytesAreUnique | crystalflow/registry.py:134-175 | the canonical check accepts one byte sequence per value: the printed one |
| Storing.SemSnap | crystalflow/engine.py:1080-1098 | the key-sorted expression on key-sorted inputs succeeds exactly when the original does, with the same evaluations and the same value up to key order, at every node |
| Storing.FieldsExact | crystalflow/engine.py:1080-1098 | an object evaluates exactly when each field does and the total size is within the limit, whatever the order of fields |
| Storing.StableSortSnap | crystalflow/engine.py:1231-1255 | sorting by keys commutes with sorting the keys of the items |
| Snapshot.ApplyNormalizes | crystalflow/engine.py:1277-1385 | each eager operator commutes with key sorting |
| StoredPrograms.DecodeNormalizes | crystalflow/engine.py:481-677 | the stored expression is well formed exactly when the submitted one is, and is its sorted form |
| StoredPrograms.ValidSnap | crystalflow/engine.py:481-677 | sorting keys makes no expression valid or invalid, and adds no nodes |
| StoredPrograms.AdmitStored | crystalflow/engine.py:747-789 | the stored program is admitted exactly when the submitted one is |
| StoredPrograms.StoredProgramRuns | crystalflow/service.py:147-179 | storing preserves meaning: the stored program on the stored input succeeds exactly when the submitted one does, with the same canonical output |
| Encoding.DecodesBack | crystalflow/engine.py:481-677 | every expression has a JSON form with the keys of its operation, and that form is read back as the expression |
| Encoding.OpReadBack | crystalflow/engine.py:68-99 | each eager operator is read back from its name, so no two share one |
| Programs.ValidateProgram | crystalflow/engine.py:747-789 | `validate_program` admits what the specification admits |
| Programs.EvaluateBody | crystalflow/engine.py:986-1010 | evaluation with its preflights gives the specified result |
| Programs.Execute | crystalflow/engine.py:1576-1598 | `run` is validation, input schema, evaluation and output schema, in that order |
| Schemas.ValidateSchema | crystalflow/schema.py:100-274 | `validate_schema` accepts exactly the schemas of the supported subset |
| Schemas.TypeKeyword | crystalflow/schema.py:69-97 | the `type` keyword check, which refuses unknown and repeated names |
| Schemas.RequiredNames | crystalflow/schema.py:178-200 | `required` must list distinct strings |
| Schemas.EnumSpellings | crystalflow/schema.py:215-237 | `enum` entries must be canonical JSON with distinct canonical spellings |
| SchemaOrder.SchemaOkNormalizes | crystalflow/schema.py:100-274 | admission of a schema does not depend on key order |
| SchemaOrder.CheckNormalizes | crystalflow/schema.py:309-396 | whether a value passes a schema depends on neither's key order |
| SchemaOrder.JsonEqualIsEqual | crystalflow/schema.py:299-306 | the schema's own equality is the engine's |
| Conformance.ValidationDecides | crystalflow/schema.py:309-396 | validation against an admitted schema without null keywords passes exactly the values that conform to it: some named type, some equal enum entry, bounds, every item, every required name, and for each property its own or the additional schema |
| Conformance.TypeExact | crystalflow/schema.py:277-296 | the type check passes exactly when some declared name is the value's JSON type |
| Conformance.EnumExact | crystalflow/schema.py:299-330 | the enum check passes exactly when some entry is the value up to key order |
| SchemaSafety.UsableNeverBreaks | crystalflow/schema.py:309-396 | checking against an admitted schema without null keywords never ends in an unstructured exception |
| SchemaSafety.NullPropertiesBreak | crystalflow/schema.py:161-162 | the schema whose only keyword is a null `properties` is admitted, and breaks on every non-empty object |
| NullKeywords.NullRequiredBreaks | crystalflow/schema.py:178-179 | the schema whose only keyword is a null `required` is admitted, and breaks on every object |
| NullKeywords.BreaksExactly | crystalflow/schema.py:309-396 | for any admitted schema and any value, checking breaks exactly when the earlier keywords pass and `required` is null, or `properties` is null and there is a property, or the check of a part is the first that does not pass and breaks |
| NullKeywords.NullFreeExactly | crystalflow/schema.py:100-274 | for an admitted schema without enumerations and counts, no value breaks the check if and only if no `properties` and no `required` is null at any depth |
| Annotations.StripKeepsMeaning | crystalflow/adaptive_routes.py:152-168 | stripping annotations leaves the outcome of validation the same for every schema and value, also where a property is named like an annotation |
| Annotations.StripSchemaAnnotations | crystalflow/adaptive_routes.py:152-168 | the loop that fills the stripped dictionary gives the specified one |
| Annotations.AdmittedHasNoAnnotations | crystalflow/adaptive_routes.py:186-218 | stripping an admitted schema changes nothing |
| Annotations.StripWellFormed | crystalflow/adaptive_routes.py:152-168 | a stripped schema has distinct keys at every depth |
| Cells.HashIsInjective | crystalflow/canonical.py:160-163 | equal hashes mean values equal up to key order |
| Cells.RecordHashDetermines | crystalflow/registry.py:441-510 | the content hash of a record determines the record |
| Cells.RecordRoundTrip | crystalflow/registry.py:441-510 | the bytes of a record read back as that record under the same hash |
| Cells.SnapshotSorts | crystalflow/registry.py:299-306 | a snapshot is the value with sorted keys and the same hash, and exists exactly for encodable values within the size |
| Registries.ValidateAlias | crystalflow/registry.py:340-423 | one pass with counters and a set of versions accepts exactly the valid aliases |
| Registries.GoodAliasShape | crystalflow/registry.py:340-423 | in an alias of a consistent store versions are positions 1..n, at most one entry is active, and it is the one pointed to |
| Registries.WriteKeeps | crystalflow/registry.py:643-658 | every permitted write, by itself, keeps the whole store consistent and extends its history |
| Registries.AppendedIsPermitted | crystalflow/registry.py:604-660 | the alias write of a registration is permitted once its record is there |
| Registries.ActivatedIsPermitted | crystalflow/registry.py:748-767 | the alias write of an activation is permitted |
| Registries.WithdrawnIsPermitted | crystalflow/registry.py:773-790 | the alias write of a retirement is permitted |
| Registries.PerformedIsPermitted | crystalflow/registry.py:564-790 | on a consistent store, every write an operation makes is a permitted one |
| Registries.RunIsConsistent | crystalflow/registry.py:275-882 | in every run from the empty store, made of single writes of operations, the whole store is consistent after every write: versions 1..n, records present under fitting hashes, catalog sorted, counters of listed versions |
| Registries.RunOnlyGrows | crystalflow/registry.py:275-882 | between any two points of such a run, no alias, version, record or counter is lost or goes back |
| Registries.HistoryIsAppendOnly | crystalflow/registry.py:604-790 | between any two points of any run: versions stay 1..n, hashes and revisions of entries never change, none returns to draft, at most one is active and it is the one pointed to, and every change raises the alias revision |
| Registries.ArtifactsAreImmutable | crystalflow/registry.py:512-520 | the record of a version is the same at every later point, under a hash that fits it and a program hash that fits its program |
| RegistryRuns.Registry.Set | crystalflow/registry.py:275-297 | one write changes one cell or is refused, and the history grows by it |
| RegistryRuns.Registry.LoadAlias | crystalflow/registry.py:331-338 | a stored alias always passes its validation |
| RegistryRuns.Registry.LoadRecord | crystalflow/registry.py:441-510 | the record of a listed version is present and passes every check |
| RegistryRuns.Registry.LoadTelemetry | crystalflow/registry.py:792-832 | counters always load, absent ones as zero |
| RegistryRuns.Registry.Find | crystalflow/registry.py:425-439 | an explicit version, else the active one, else the latest |
| RegistryRuns.Registry.Get | crystalflow/registry.py:681-689 | `get` never reports corruption: it returns what the store holds, or the refusal the arguments deserve |
| RegistryRuns.Registry.Latest | crystalflow/registry.py:693-701 | `latest` returns the last version exactly when the name is known |
| RegistryRuns.Registry.EnsureIndexed | crystalflow/registry.py:547-562 | a catalog without room for the name is reported, exactly then; a refused write is not; otherwise the name is in the sorted catalog afterwards |
| RegistryRuns.Registry.WriteRecord | crystalflow/registry.py:512-520 | a record is written once; an existing cell already holds it |
| RegistryRuns.Registry.Register | crystalflow/registry.py:564-660 | reuses a non-retired version of the same program or appends a draft, refuses exactly bad arguments and one version too many, and on failure leaves the alias untouched, or complete where the catalog has no room |
| RegistryRuns.Registry.Activate | crystalflow/registry.py:703-769 | makes active exactly the version the arguments select and its tests allow, gives exactly the specified refusal otherwise, and never half-changes the alias |
| RegistryRuns.Registry.Retire | crystalflow/registry.py:773-790 | retires the selected version, and nothing is active any more if it was, or gives the specified refusal |
| RegistryRuns.Registry.RecordRun | crystalflow/registry.py:834-882 | raises one version's counters by the given amounts, or refuses what would overflow |
| RegistryRuns.Registry.AggregateTelemetry | crystalflow/registry.py:902-919 | sums the counters of all versions, or reports that a sum overflows |
| RegistryRuns.Registry.List | crystalflow/registry.py:921-966 | lists exactly the catalog's names, or reports a sum of counters that overflows; a listed name is never without alias |
| RegistryRuns.Registry.SummaryFor | crystalflow/service.py:94-104 | a summary is of the stored alias, listed if it was missing; it fails only for an overflow, a full catalog or a refused write |
| Registries.InsertNameSorts | crystalflow/registry.py:547-562 | adding a name keeps the catalog sorted and adds nothing else |
| RegistryRuns.FirstReusableIsIn | crystalflow/registry.py:606-615 | the version reused is a listed, non-retired one of the same hash, and none is found only if there is none |
| Services.ValidatedTests | crystalflow/service.py:46-91 | the loop over the tests accepts exactly well-shaped ones and fills in their names |
| Services.TestsStored | crystalflow/service.py:145-186 | the submitted program passes the submitted tests exactly when the stored one passes the stored tests |
| ServiceRuns.CrystalService.RunTests | crystalflow/service.py:148-165 | the test loop passes exactly when each case gives its expected canonical text, and breaks exactly when the first case that does not pass ends in an unstructured exception |
| ServiceRuns.CrystalService.Crystallize | crystalflow/service.py:120-214 | rejects exactly unacceptable requests, fails exactly failing tests, is left by an exception exactly when a test breaks, writes nothing in these cases, and otherwise stores the tested program under this name only, active exactly as asked |
| ServiceRuns.CrystalService.RegisterTested | crystalflow/service.py:166-186 | what is registered is trusted: it is admitted, marked and passes its own stored tests |
| ServiceRuns.CrystalService.ActivateTested | crystalflow/service.py:188-193 | activating what was just registered fails only if a write does |
| ServiceRuns.CrystalService.Execute | crystalflow/service.py:216-321 | a hit comes from a non-retired version that passes its stored tests and is what its stored program returns; every other answer is exactly the specified fallback, and an unstructured exception leaves the call; only its counters change |
| ServiceRuns.CrystalService.MissingExecution | crystalflow/service.py:323-342 | a known name without active version and an unknown name are told apart |
| ServiceRuns.CrystalService.Activate | crystalflow/service.py:431-477 | with the right confirmation and hash, activation fails only if a write does: its checks never refuse a stored version |
| ServiceRuns.CrystalService.Retire | crystalflow/service.py:479-504 | with the right confirmation, retires exactly the version asked for or the active one, or a write was refused; it fails after retiring exactly where the summary does |
| ServiceRuns.CrystalService.Withdraw | crystalflow/service.py:496-504 | the retirement and its summary change this version's state and the catalog only |
| ServiceRuns.SubmissionIsTrusted | crystalflow/service.py:145-186 | what is stored for a submission that passed its tests passes its stored tests |
| ServiceRuns.RegisteredIsTrusted | crystalflow/service.py:166-186 | a registration after the tests adds only records that pass their own tests |
| ServiceRuns.TrustedThroughout | crystalflow/service.py:145-274 | records that pass their stored tests were the same, and did so, at every earlier point of the run |
| ServiceRuns.TrustedActivates | crystalflow/service.py:431-477 | the registry activates every trusted version named by number and hash |
| ServiceRuns.ReceiptIdentifiesRun | crystalflow/service.py:277-286 | equal receipts mean the same crystal, version, program hash, and input and output up to key order |
| Views.CandidateExists | crystalflow/progressive.py:810-834 | the walk from the latest version down finds a non-retired version exactly when there is one |
| Views.DraftAdded | crystalflow/registry.py:604-660 | a created version appears as one more draft of the submitted program, and no other version changes |
| Views.ActivatedView | crystalflow/registry.py:758-767 | activation makes one version active and retires the one that was |
| Views.OtherView | crystalflow/registry.py:564-790 | no operation on one name changes the versions of another |
| Learning.ValidateMemory | crystalflow/progressive.py:909-964 | one pass with a set of input hashes accepts exactly the valid learning records |
| Learning.DecideExtends | crystalflow/progressive.py:454-611 | an observation only extends the record; inputs stay distinct, cursors stay ordered, a reserved build moves its cursor up, and the deferred branch is never taken |
| Learning.DecideIsStorable | crystalflow/progressive.py:883-894 | what an observation writes passes validation as long as the counters have room |
| Learning.QuarantineIsConflict | crystalflow/progressive.py:463-505 | an observation quarantines exactly when its input is retained with another output; the collision branch is never taken |
| LearnerProtocol.StepKeeps | crystalflow/progressive.py:432-703 | every step of every thread, and every retirement or activation in between, keeps the invariant |
| LearnerProtocol.RunKeepsInv | crystalflow/progressive.py:432-703 | so it holds in every state of every interleaving |
| LearnerProtocol.RevivalIsExact | crystalflow/service.py:431-477 | activating a retired version between critical sections keeps the invariant if and only if nothing was learned since it was registered and the task is not quarantined |
| LearnerProtocol.LiveVersionsReproduceEverything | crystalflow/progressive.py:657-703 | at every point, a version that is not retired reproduces every example retained then, and the task is not quarantined |
| LearnerProtocol.RegistrationIsJustified | crystalflow/progressive.py:657-703 | a version appears only through a build's registration, reproduces every example retained at that moment, and then nothing else is live |
| LearnerProtocol.NothingIsLearnedBesideALiveVersion | crystalflow/progressive.py:443-454 | while a version stays non-retired no example is added or changed |
| LearnerProtocol.OneBuildAtATime | crystalflow/progressive.py:612-627 | at most one build is in flight per task |
| LearnerProtocol.CursorsStayOrdered | crystalflow/progressive.py:909-964 | attempts, last build cursor and number of examples stay in that order, and inputs stay distinct |
| LearnerProtocol.QuarantineIsAbsorbing | crystalflow/progressive.py:966-993 | after quarantine the record never changes, no version is registered, and all versions are retired |
| LearnerProtocol.BuildsAreCounted | crystalflow/progressive.py:586-611 | the attempt counter is the number of builds reserved, and never exceeds the number of examples |
| LearnerProtocol.RunGrows | crystalflow/progressive.py:432-703 | between any two points of a run, examples and versions only accumulate |
| LearnerRuns.TestsReadBack | crystalflow/progressive.py:797-808 | the tests made from the examples are read back by the service as those examples |
| LearnerRuns.PassingIsReproducing | crystalflow/progressive.py:797-808 | passing those tests is reproducing the examples |
| LearnerRuns.ObservedLinks | crystalflow/progressive.py:443-611 | the stored cells after an observation are those of the protocol after its two steps |
| LearnerRuns.SettledLinks | crystalflow/progressive.py:669-703 | the stored versions after a build's registration are those of the protocol |
| LearnerRuns.LinkedVersionsReproduce | crystalflow/progressive.py:657-703 | a stored version that is not retired reproduces every stored example |
| Progressive.ProgressiveService.LearnLocked | crystalflow/progressive.py:463-611 | the locked section stores exactly what one observation is specified to do, and reserves a build only with it |
| Progressive.ProgressiveService.Quarantine | crystalflow/progressive.py:966-993 | the in-place change and its write are the specified quarantine |
| Progressive.ProgressiveService.Observe | crystalflow/progressive.py:443-616 | nothing is learned beside a candidate; a build is reserved for one thread, with tests from all retained examples; a storage error means a refused write or a full counter |
| Progressive.ProgressiveService.Settle | crystalflow/progressive.py:657-703 | the checks are made again under the lock, and versions change only if the program reproduces everything retained by then; failure is accounted for |
| Progressive.ProgressiveService.RegisterChecked | crystalflow/progressive.py:669-703 | a proposal that fits all retained examples is stored unless it is unfit or a write is refused |
| Progressive.ProgressiveService.Release | crystalflow/progressive.py:621-627 | the reservation is given back on every path |
| Progressive.ProgressiveService.Retire | crystalflow/service.py:479-504 | retiring a learned version keeps the learner's invariant, also where the call fails after the retirement |
| Progressive.ProgressiveService.Activate | crystalflow/service.py:431-477 | any version may be activated; the learner's invariant is kept unless a retired version is revived after something was learned |
| Progressive.ProgressiveService.Attempt | crystalflow/progressive.py:351-365 | a warm hit comes from an active version that reproduces every retained example, and touches no learning state |
| Progressive.ProgressiveService.Serve | crystalflow/progressive.py:298-430 | which of invalid, hit, cold failure and cold answer is given, exactly; the fallback's answer is never lost to learning, and nothing is learned without consent or after an execution that raised |
| Contracts.ContractHashDetermines | crystalflow/adaptive_routes.py:225-236 | a contract hash determines identity, version, access and schema up to key order |
| Contracts.ActionHashDetermines | crystalflow/adaptive_routes.py:567-578 | an action hash determines the action up to key order |
| Contracts.ContractMeansItsSchema | crystalflow/adaptive_routes.py:186-218 | a contract admits exactly the arguments its annotated schema admits |
| Contracts.SameHashSameAdmission | crystalflow/adaptive_routes.py:394-402 | contracts with the same hash admit the same arguments |
| Routes.LivedIsExplained | crystalflow/adaptive_routes.py:366-526 | on every run of lookups, observations, hits and invalidations, with any writes refused, the stored record is valid and is what its history says |
| Routes.HitIsJustified | crystalflow/adaptive_routes.py:366-411 | on every run, a hit's plan is what the latest uninterrupted observations all were, at least threshold many, under the tool's current read-only contract, which admits its arguments |
| Routes.ActivationIsJustified | crystalflow/adaptive_routes.py:413-473 | on every run, a plan handed out by an observation is the action just observed, uninterrupted and at least threshold many times with this one, under the tool's current read-only contract, which admits its arguments |
| Routes.StreakIsUninterrupted | crystalflow/adaptive_routes.py:610-652 | what a streak is: from the last start, restart, conflict or other action on, every observation was this action, and their number is the streak |
| Routes.LivedIsAligned | crystalflow/adaptive_routes.py:456-465 | under one threshold, a learning or active record is active exactly when its observations reach it |
| Routes.LookupJustified | crystalflow/adaptive_routes.py:394-410 | a lookup keeps the record explained and never finds stored arguments invalid |
| Routes.AgreedContractAdmits | crystalflow/adaptive_routes.py:394-402 | once stored and current contract hash agree, validating the stored arguments again succeeds |
| Routes.ObserveJustified | crystalflow/adaptive_routes.py:413-473 | an observation keeps the record explained and graded |
| Routes.CallKeeps | crystalflow/adaptive_routes.py:366-526 | every call keeps what the record says about its history |
| Routes.QuarantineLasts | crystalflow/adaptive_routes.py:413-473 | without a manual invalidation a quarantined route never changes |
| Routes.ConflictQuarantines | crystalflow/adaptive_routes.py:624-632 | a quarantined route is reachable: observations of two different admissible tools quarantine a new route |
| Routes.InvalidationEndsQuarantine | crystalflow/adaptive_routes.py:513-526 | on every run, a manual invalidation of a quarantined route is stored, and the next admissible observation counts from one again, as long as the counters have room and the storage takes the writes |
| RouteStores.AdaptiveRouteStore.Lookup | crystalflow/adaptive_routes.py:366-411 | the lookup has exactly its specified effect on the one record, or its write was refused |
| RouteStores.AdaptiveRouteStore.ObserveSuccess | crystalflow/adaptive_routes.py:413-473 | the same for an observation |
| RouteStores.AdaptiveRouteStore.RecordHit | crystalflow/adaptive_routes.py:475-511 | the same for a recorded hit |
| RouteStores.AdaptiveRouteStore.Invalidate | crystalflow/adaptive_routes.py:513-526 | the same for a manual invalidation |
| RouteStores.AdaptiveRouteStore.Stop | crystalflow/adaptive_routes.py:634-652 | the in-place invalidation is the specified one |
| RouteStores.AdaptiveRouteStore.Quarantine | crystalflow/adaptive_routes.py:624-632 | the in-place quarantine is the specified one |
| RouteStores.AdaptiveRouteStore.Validate | crystalflow/adaptive_routes.py:707-760 | the checks accept exactly the valid records |
| RouteStores.AdaptiveRouteStore.Load | crystalflow/adaptive_routes.py:678-693 | a stored record always passes its validation |
| RouteStores.AdaptiveRouteStore.Write | crystalflow/adaptive_routes.py:695-704 | only valid records are stored, each with its event, and the answer is given only after the write |
| RouteStores.ContractsOf | crystalflow/adaptive_routes.py:553-565 | the toolbox is refused exactly when an identity repeats, and holds exactly the given contracts |
| Streaming.Assemble | strategies/progressive_function_calling.py:794-822 | the chunk loop over one list and two tables gives the specified calls |
| Streaming.AcceptAll | strategies/progressive_function_calling.py:794-822 | for every fragment stream both slot tables point inside the call list |
| Streaming.SlotOf | strategies/progressive_function_calling.py:843-863 | the slot chosen is one in the list or the next free one |
| Streaming.StreamDemultiplexes | strategies/progressive_function_calling.py:794-890 | when all fragments carry ids, the calls are one per id in order of first appearance, each the fold of that id's own fragments |
| Streaming.IdsAreDistinct | strategies/progressive_function_calling.py:794-822 | for every stream, no two assembled calls carry the same id |
| Streaming.GrowingTextsKeepTheLast | strategies/progressive_function_calling.py:866-890 | where each text repeats what came before, the last one is the result |
| Streaming.DeltasConcatenate | strategies/progressive_function_calling.py:866-890 | deltas merge to their concatenation exactly when none starts with all the non-empty text before it |
| Streaming.RepeatingDeltaIsLost | strategies/progressive_function_calling.py:873-882 | a delta that repeats the text before it is lost |

## Left out

- Floating point: numbers are integers; `div`, negative powers and whatever else would yield a float ends in the error `FloatResult`, and the non-finite and overflow guards of floats are not modelled.
- Python's cap on converting integers to text, and its recursion limit.
- Cyclic values and the sets of object identities that detect them: values are trees.
- Unicode library behaviour: case mapping and trimming are parameters; NFC and NFKC normalization, case folding, identity parts and the text key of a route are not modelled, nor is any regular expression over hashes or namespaces.
- SHA-256: a digest is the canonical text it is taken of.
- Error messages and paths, and which of several errors comes first where that depends on dictionary order; all shape errors of an expression are one code.
- CheckValue: that a schema is safe for all values only without null keywords is stated for schemas without enumerations and item or property counts, which can make the values that would break unreachable; for one value the condition is exact for every admitted schema.
- RunUnstuck: assumes schemas without null `properties` or `required`.
- SemBounded: assumes byte limits of at least 2, since the empty string has two bytes.
- Failing and racing reads, several processes on one store, and cells edited by hand: a cell is what this program wrote last.
- Typed cells: aliases, counters, catalog and learning records are records, and only the record of a version is followed down to its bytes; apart from records and the catalog, the byte limits of cells are refused writes.
- Crystallizing under a learner's task key by another client.
- Progressive.ProgressiveService.Activate: after a retired version is revived although something was learned since, nothing more is claimed of that task's learner; `RevivalIsExact` shows that its invariant is then lost.
- Registration of one program hash more than once through reactivation: nothing is claimed about uniqueness of live hashes.
- The fields of a summary other than the active version; `status` and telemetry queries other than the aggregate.
- The builder, the fallback, models and tools: what they return is a parameter; a builder's envelope, and a failure to prepare its tests, count as no proposal.
- Programs given as text rather than as JSON values, and `_literal_collections`, which nothing calls.
- The `index:` ids of calls without an id, the parsing of arguments, and everything around the chunk loop of the agent strategy: prompts, logging, usage, grounding and token estimates.
- The tool and provider adapters, YAML and packaging.
