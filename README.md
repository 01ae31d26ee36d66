# processor-ec2-instance-tags, modelled in Dafny

The plugin is a processor in a metrics pipeline. It looks up the tags of the
EC2 instance it runs on and attaches them to every metric record passing
through it. This project models the logic around the network calls:

- the default key normaliser `nocase` and the default filter `identity`;
- how the constructor turns the `filter` and `include` options into a filter,
  including the two errors it throws;
- the checks `fetchData` makes on the instance id and region;
- the loop that turns the tagging API's tag list into an object;
- the shared, single-flight fetch `fetchDataCached` (`thunky(fetchData)`);
- the `Processor`'s `start`, `stop` and `process`.

Files:

- `wrappers.dfy`: `Option` and `Result`.
- `js.dfy`: the JavaScript notions the code relies on:
  - dynamically typed values;
  - errors;
  - assignment into a plain object `{}`, where keys keep their first-insertion order and a `__proto__` key is not created.
- `key_policy.dfy`: `nocase`, `identity` and filter selection (`SelectFilter`).
- `fetch.dfy`: identity validation (`ResolveIdentity`), the tag loop as an imperative method (`ConvertTags`) proved against the fold `BuildObject`, and `FetchData`.
- `single_flight.dfy`: the thunk's memo slot.
  - A pure transition function `Step` and its replay over event traces, with lemmas that the fetch runs at most once, that no caller is lost or answered twice, and that all callers receive the same outcome.
  - A `Thunk` class whose methods are proved against `Step`.
- `plugin.dfy`: construction (`Configure`, `Create`) and the `Processor` class.
  - `Start` and `Complete` are the synchronous half of `start` and its callback.
  - `Stop` and `Process` are also here.
  - The `for...in` loops are verified `for`/`while` loops, proved against the folds `NormalizeInto` and `Merged`.
- `scenarios.dfy`: the scenarios of `test.js` replayed on the model, plus a few edge cases of `index.js`.

Definitions without a contract of their own, used by the members in the table:

- `Fetch.Get`: `map.get(k)` on the metadata answer (index.js:26-27).
- `Fetch.RequestFor`: the client options and `describeTags` parameters (index.js:41-49).
- `Fetch.TagValue`: `tag.Value === undefined ? 'true' : String(tag.Value)` (index.js:59).
- `KeyPolicy.Identity`: `identity` (index.js:8).
- `KeyPolicy.KeyFilter.Accepts`: whether `this._filter(key)` is truthy, for each of the three filters (index.js:81, 85-86, 91, 105).
- `Plugin.StoreTag`: one iteration of the loop in `start` (index.js:103-107).
- `Plugin.NormalizeInto`: the whole loop in `start` as a fold, the reference for `Complete` (index.js:102-108).
- `Plugin.Stored`: the keys `for...in` visits in `process`, none when the tags are `null` (index.js:120).
- `SingleFlight.Waiting`, `SingleFlight.CallersOf`, `SingleFlight.Receivers`: the callers waiting in a slot, calling in a trace, and answered by a list of deliveries (index.js:67).

Where the behaviour of the code differs from what one might read into the
project's description, the model follows the code:

- **`filter` versus `include`.** Giving both options is not an error. A function `filter` wins and `include` is ignored. A falsy `filter` with an `include` array uses the array. Only a truthy non-function `filter`, or, with a falsy `filter`, a truthy non-array `include`, throws.
- **Failed shared fetches.** A shared fetch that fails is not kept. thunky forgets an error outcome, so the next call starts a new fetch. Only a successful outcome is kept for the life of the process.
- **Enumeration order.** The raw tag object enumerates keys in the order of their first tag, not their last. A later duplicate overwrites the value but keeps the key's position.
- **Error kinds.** The id and region errors are `TypeError`s. A foreign `ResourceId` gives a plain `Error`. A `JSON.parse` failure is reported before an invalid id is.
- **`start` on error.** When the fetch fails, `start` leaves `_tags` as the empty object it set, not `null`.
- **`__proto__`.** A tag key that is, or normalises to, `__proto__` is never stored, because assigning a string to that key of `{}` is ignored.

## Model

| member | source | states |
|---|---|---|
| KeyPolicy.StripNonKeyChars | index.js:7 | the result is no longer than the input, holds only `a-z0-9`, and every `a-z0-9` character of the input occurs in it |
| KeyPolicy.StripOne | index.js:7 | on one character, the deletion keeps it exactly when it is in `a-z0-9`; with `StripConcat` this determines the result on every string |
| KeyPolicy.Nocase | index.js:7 | `nocase` never lengthens a key and yields only characters in `a-z` and `0-9` |
| KeyPolicy.StripFixedPoint | index.js:7 | deleting non-key characters changes nothing exactly when there are none |
| KeyPolicy.NocaseFixedPoint | index.js:7 | `nocase(k) == k` if and only if `k` is made only of `a-z0-9` |
| KeyPolicy.NocaseIdempotent | index.js:7 | applying `nocase` twice gives what applying it once gives |
| KeyPolicy.StripConcat | index.js:7 | the regular-expression deletion distributes over concatenation |
| KeyPolicy.NocaseConcat | index.js:7 | `nocase(a + b) == nocase(a) + nocase(b)` |
| KeyPolicy.SelectFilter | index.js:80-92 | a function `filter` is used whatever `include` holds. The filter-message `TypeError` is raised if and only if `filter` is a truthy non-function. The include-message `TypeError` is raised if and only if `filter` is falsy and `include` is a truthy non-array. An `include` array accepts exactly its members. With neither option, the filter accepts exactly the non-empty keys (`identity`, index.js:8) |
| Js.Obj.Put | index.js:59 | object assignment keeps the object well formed. A new key goes last. An existing key keeps its place and takes the new value. `__proto__` is ignored |
| Js.EntriesEachKeyOnce | index.js:102 | `for...in` over a well-formed object visits every own key, none twice, each with its current value |
| Fetch.ResolveIdentity | index.js:23-39 | a metadata error, then a parse error, then an invalid id, then an invalid region is reported, in that order, each unchanged. Success holds if and only if both the id and the region are non-empty strings, and it yields those two strings |
| Fetch.BuildObject | index.js:52-60 | the object built from a tag list is well formed |
| Fetch.BuildObjectKeys | index.js:54-60 | a key is in the built object if and only if some tag carries it and it is not `__proto__` |
| Fetch.BuildObjectLastWins | index.js:54-60 | a key's value is that of its last tag, with `'true'` for an absent value |
| Fetch.BuildObjectOrder | index.js:52-60 | keys are enumerated in the order of their first tag |
| Fetch.ConvertTags | index.js:52-62 | the loop fails with `Error('Unexpected Instance ID')` if and only if some tag's `ResourceId` is not the id. Otherwise it yields exactly the object `BuildObject` describes |
| Fetch.FetchData | index.js:22-65 | identity errors and tagging-API errors are passed on unchanged. The tagging API is asked with the validated region and id. The result is the loop's result, and a success is a well-formed object |
| SingleFlight.DeliverAll | index.js:67 | the deliveries answer exactly the waiters, in calling order, and all carry the outcome |
| SingleFlight.Step | index.js:67 | a call starts the fetch if and only if nothing is running or kept. A call during a run joins the end of the waiters. A call after a success is answered, alone, with the kept value. An answer is delivered to exactly the waiters, in order. A success is kept as the slot's value and an error empties the slot. An answer with nothing running changes nothing |
| SingleFlight.StepKeepsCallers | index.js:67 | one event loses no caller: those answered plus those waiting afterwards are those waiting before plus the new caller |
| SingleFlight.NoCallerLost | index.js:67 | over any trace, the callers answered plus those still waiting are, as a multiset, those waiting at the start plus every caller in the trace |
| SingleFlight.EveryCallerAnswered | index.js:67 | once a run has succeeded, every caller has been answered exactly once |
| SingleFlight.RunsBound | index.js:67 | over any trace, the fetch starts at most once more than the number of failed runs |
| SingleFlight.RunsAtMostOnce | index.js:67 | without a failed run, the fetch starts at most once, however many callers there are |
| SingleFlight.SettledIsFinal | index.js:67 | after a success nothing is started again, every later caller receives exactly one delivery, in calling order, and it carries the kept value |
| SingleFlight.SameOutcome | index.js:67 | without a failed run, every caller receives the same outcome |
| SingleFlight.Thunk.constructor | index.js:67 | a new thunk has an empty slot and has started nothing |
| SingleFlight.Thunk.Call | index.js:67 | calling the thunk does what `Step` says and counts the started fetches |
| SingleFlight.Thunk.Done | index.js:67 | the fetch's answer does what `Step` says and counts the failed runs, so runs always equal failures plus the current run |
| Plugin.CachedOptions | index.js:18-20 | `plugin.cached` sets `cache` and keeps every other option |
| Plugin.Configure | index.js:72-92 | the constructor fails exactly when filter selection fails, with the same error. The case function is `options.case` if given and `nocase` otherwise. The filter is the selected one and `cache` is kept |
| Plugin.Create | index.js:13-15 | `plugin(options)` throws the constructor's error, or returns a new processor with `null` tags and the configured case function, filter and fetch |
| Plugin.Processor.constructor | index.js:72-92 | a new processor holds no tags and has emitted nothing |
| Plugin.NormalizedKeys | index.js:102-107 | after the loop in `start`, a key is stored if and only if it was already stored, or it is non-empty, accepted and `case(rawKey)` for some raw key |
| Plugin.NormalizedLastWins | index.js:102-107 | the stored value is that of the last raw key, in enumeration order, that normalises to the key |
| Plugin.NormalizedUntouched | index.js:102-107 | a key that no raw key normalises to keeps its value |
| Plugin.StoredKeysFromTags | index.js:54-60 | from tag list to stored tags: a key is stored if and only if it is storable and is `case(tag.Key)` for some tag other than `__proto__` |
| Plugin.Processor.Start | index.js:95-96 | `start` first sets the tags to the empty object |
| Plugin.Processor.Complete | index.js:99-111 | on a fetch error the callback receives that error and the tags are unchanged. Otherwise the tags are those of the loop, and every stored key stays storable |
| Plugin.Processor.Stop | index.js:114-115 | `stop` sets the tags to `null` |
| Plugin.Processor.Process | index.js:119-125 | `metric.tags` becomes the merge of the old tags with the stored ones, and the metric is emitted once |
| Plugin.Merged | index.js:119-122 | the merged keys are the union. A stored key takes the stored value. Every other key keeps its old value |
| Plugin.MergeIdempotent | index.js:119-122 | processing the same record twice gives what processing it once gives |
| Scenarios.FetchTestTags | test.js:28-62 | with the test's metadata and tag list, the fetch yields `{a_A: 'a', b: 'b', c: 'c'}` in that order |
| Scenarios.BasicScenario | test.js:64-84 | with a filter rejecting `b`, the record becomes `{existing: '1', aa: 'a', c: 'c'}` |
| Scenarios.IncludeScenario | test.js:123-143 | with `include: ['aa', 'c']`, the record becomes `{existing: '1', aa: 'a', c: 'c'}` |
| Scenarios.CustomCaseScenario | test.js:182-200 | with upper-casing and a filter rejecting `B`, the record becomes `{existing: '1', A_A: 'a', C: 'c'}` |
| Scenarios.SharedFetch | test.js:202-230 | two callers of one thunk start one fetch and both receive its object |
| Scenarios.CachedScenario | test.js:232-265 | two cached processors cause one fetch and each applies its own policy: `{existing: '1', aa: 'a', c: 'c'}` and `{existing: '1', B: 'b', C: 'c'}` |
| Scenarios.UndefinedValueScenario | index.js:59 | a tag without a `Value` is stored as the string `'true'` |
| Scenarios.ForeignTagScenario | index.js:55-56 | a tag of another instance makes `start` fail with `Unexpected Instance ID`, and `process` then adds nothing |
| Scenarios.StoppedScenario | index.js:114-122 | after `stop`, `process` adds nothing |

## Left out

- The metadata client `ec2-info` and the `aws-sdk` EC2 client are network I/O (index.js:23, index.js:49). Their answers are parameters of `FetchData`: the metadata map or its error, and the tag list or its error.
- `JSON.parse(doc).region` (index.js:30) is a parameter that yields a value or an error.
- Listener dispatch of the `'metric'` event (index.js:124) is library code. The model records only the sequence of emitted records.
- Deferral to a later tick (`process.nextTick` in `stop`, and thunky's deferred callbacks) is scheduling, not data. `stop` takes no callback in the model.
- Plugin.Processor.Complete requires that the tags are not `null`. The model leaves out the race in which `stop` runs before a pending fetch answers and the callback writes into `null`, because the code has no guard for it.
- KeyPolicy.ToLowerCase lower-cases ASCII letters only. Unicode characters whose lower case is an ASCII letter or digit (KELVIN SIGN, U+0130) are not modelled.
- Js.Obj.Entries enumerates keys in insertion order. JavaScript enumerates integer-like keys (`"1"`, `"42"`) first, in ascending order; that is not modelled.
- A user-supplied `case` is a pure function from string to string. A truthy non-function `case` value, which would throw at the first key, is not modelled.
- The tagging API's `Value` is modelled as a string or absent. `String(v)` on other value types is not modelled.
- The key order of `metric.tags` is not modelled: a record's tags are a map.
- The process-wide `fetchDataCached` is an explicit `Thunk` object in the model. `Processor` records only whether it uses the cached fetch (`cached`). The model does not route each processor's calls through one global thunk. `CachedScenario` wires two processors to one thunk by hand.
- thunky is an npm dependency, not part of index.js. The slot follows thunky's behaviour: an error is forgotten, and a value is kept.
- KeyPolicy.Identity (`identity`, index.js:8) has no contract of its own. Its use as the default filter, a truthiness test on the key, is stated in `KeyPolicy.SelectFilter`.
