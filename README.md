# Glean event metrics, error counters and UUID metric — a Dafny model

This project models three small parts of the Glean telemetry client and proves what
they promise.

- **Event metrics (Kotlin, `EventMetricType`).** An event metric registers itself with
  the native layer and keeps the handle it gets back. Before recording, it checks a gate:
  Glean must be initialized and the native layer must let the metric record. A recorded
  event's optional extra map (extra-key enum constant → string) is sent over the native
  boundary as two parallel arrays, key ordinals and values, plus their length. For tests,
  events are read back from a JSON array and turned into `RecordedEventData` values, in
  array order.
- **Error counters (Kotlin, `ErrorRecording`).** There is a fixed table from error type to
  error name. A test can read how many errors of one type a metric recorded through a
  synthetic counter metric: category `glean.error`, name `<errorName>/<identifier>`,
  lifetime `Ping`, sent in the queried ping only.
- **UUID metric (Rust, `UuidMetric`).** `set`, `generate` and `generate_if_missing` write
  a UUID into the metric storage. Each is gated on the metric recording and upload being
  enabled. `generate_if_missing` keeps a UUID that is already stored.

Files: `wrappers.dfy` (Option, Result), `lifetimes.dfy` (metric lifetimes), `json.dfy`
(parsed JSON values), `events.dfy`, `error_recording.dfy`, `uuid.dfy`.

The native layer behind the Kotlin code is the class `Events.Native`. Its fields are the
global Glean state, the answers its foreign functions give, and a log of the calls that
change native state: metric creation and event recording. Work sent to the dispatcher
runs at once, in submission order. The Rust storage is a map from metric identity
(`CommonMetricData`) to a `Metric` value.

Three behaviours of the code that are easy to misread:

- An array element that is not an event object makes `testGetValue` fail with a JSON error
  (`TestError.JsonError`), not with the "no value" error. Only building the `JSONArray`
  sits inside the `try` that turns a parse failure into a `NullPointerException`.
  `getJSONObject`, `getString` and `getLong` inside `deserializeEvent` throw
  `JSONException`, and nothing catches it.
- An `extra` member that is an empty object gives an empty map, not a null `extra`.
  Only a missing `extra` member, or one that is not an object, gives null.
- When no ping name is passed and the metric is sent in no ping, the default argument
  `sendInPings.first()` throws `NoSuchElementException` (`TestError.NoSuchElement`).

## Model

| member | source | states |
|---|---|---|
| `Events.Identifier` | glean-core/android/src/main/java/mozilla/telemetry/glean/private/EventMetricType.kt:32 | the identifier always ends with the name; it is just the name for an empty category, and otherwise the category followed by a dot and then the name |
| `Events.IdentifierRoundTrip` | glean-core/android/src/main/java/mozilla/telemetry/glean/private/EventMetricType.kt:32 | for a name without dots, splitting the identifier at its last dot gives back exactly the category and the name |
| `Events.Native.NewEventMetric` | glean-core/android/src/main/java/mozilla/telemetry/glean/private/EventMetricType.kt:73-82 | creating a metric adds exactly one definition to the registry and returns its non-zero handle |
| `Lifetimes.Ordinal` | glean-core/android/src/main/java/mozilla/telemetry/glean/private/EventMetricType.kt:78 | the lifetime crosses the native boundary as its declaration position, a number below 3 |
| `Lifetimes.OrdinalInjective` | glean-core/android/src/main/java/mozilla/telemetry/glean/private/EventMetricType.kt:78 | two lifetimes have the same ordinal if and only if they are the same lifetime |
| `Events.Native.EventsJson` | glean-core/android/src/main/java/mozilla/telemetry/glean/private/EventMetricType.kt:204-208 | the answer to the JSON query is a null pointer exactly when the native layer holds no JSON for this handle and ping, and otherwise is that JSON |
| `Events.EventMetricType.ShouldRecord` | glean-core/android/src/main/java/mozilla/telemetry/glean/private/EventMetricType.kt:85-91 | the gate is closed whenever Glean is not initialized, and whenever the native layer does not let this metric record |
| `Events.Native.EventRecord` | glean-core/android/src/main/java/mozilla/telemetry/glean/private/EventMetricType.kt:126-133 | a record call appends exactly that call to the log of record calls |
| `Events.EventMetricType.FromHandle` | glean-core/android/src/main/java/mozilla/telemetry/glean/private/EventMetricType.kt:53-56 | the internal constructor keeps the given handle and ping list |
| `Events.EventMetricType.constructor` | glean-core/android/src/main/java/mozilla/telemetry/glean/private/EventMetricType.kt:60-83 | exactly one creation call is made; it carries the category, name, pings and ping count, lifetime ordinal, disabled flag and allowed keys, with an allowed-key count of 0 when there are no allowed keys; the handle returned is the one kept |
| `Events.EventMetricType.Record` | glean-core/android/src/main/java/mozilla/telemetry/glean/private/EventMetricType.kt:85-135 | with the gate closed (Glean not initialized, or the native layer says no) the call log is unchanged; otherwise exactly one call is appended, for this metric's handle and the Glean handle, carrying the timestamp read before dispatch and an encoding of the extras as `EncodesExtra` defines it |
| `Events.ToList` | glean-core/android/src/main/java/mozilla/telemetry/glean/private/EventMetricType.kt:120 | the list has one pair per map entry; each pair is an entry of the map; no key appears twice; every entry of the map appears in the list |
| `Events.EncodeExtra` | glean-core/android/src/main/java/mozilla/telemetry/glean/private/EventMetricType.kt:116-124 | no map gives null keys, null values and length 0; a map gives two arrays whose length is the map's size and equals `len`; slot i of both arrays holds one entry's key ordinal and that same entry's value; no ordinal is repeated and every entry appears |
| `Events.EncodeExtraRoundTrip` | glean-core/android/src/main/java/mozilla/telemetry/glean/private/EventMetricType.kt:120-123 | decoding the two arrays pair by pair (the key with ordinal `keys[i]` carries `values[i]`) gives back exactly the recorded map, whatever order the pairs were listed in |
| `Events.EventMetricType.PingOrDefault` | glean-core/android/src/main/java/mozilla/telemetry/glean/private/EventMetricType.kt:148 | the queried ping is the one given, or else the first ping in the metric's ping list; there is none when the list is empty |
| `Events.EventMetricType.TestHasValue` | glean-core/android/src/main/java/mozilla/telemetry/glean/private/EventMetricType.kt:148-157 | the result is the native answer for this handle and the queried ping; it fails with no-such-element when no ping can be found |
| `Events.EventMetricType.DeserializeEvent` | glean-core/android/src/main/java/mozilla/telemetry/glean/private/EventMetricType.kt:170-187 | the call succeeds exactly when the object has a string category, a string name, an integer timestamp, and an `extra` that is either not an object or an object of strings; the event then takes its category, name and timestamp from the object; `extra` is null exactly when there is no `extra` object, and otherwise holds every member of it; any other object gives a JSON error |
| `Events.EventObjectDescribed` | glean-core/android/src/main/java/mozilla/telemetry/glean/private/EventMetricType.kt:170-186 | an object has the event shape if and only if some event is what it stands for |
| `Events.DescribesUnique` | glean-core/android/src/main/java/mozilla/telemetry/glean/private/EventMetricType.kt:170-186 | an object stands for at most one event |
| `Events.EventArray` | glean-core/android/src/main/java/mozilla/telemetry/glean/private/EventMetricType.kt:204-217 | the answer holds events exactly when it is a non-null pointer to text that parses to a non-empty JSON array; a null pointer, unparsable text, a non-array and an empty array are all "no value" |
| `Events.EventMetricType.TestGetValue` | glean-core/android/src/main/java/mozilla/telemetry/glean/private/EventMetricType.kt:200-224 | no ping gives no-such-element; "no value" (as `EventArray` defines it) gives the null-pointer error; otherwise the call succeeds exactly when every element is an event object, and then returns one event per element, in array order, each being what its element stands for; if not, it fails with a JSON error |
| `ErrorRecording.ErrorNamesTotal` | glean-core/android/src/main/java/mozilla/telemetry/glean/error/ErrorRecording.kt:20-30 | every error type has a name in the table, so the `!!` lookup never fails; `InvalidValue` is named `invalid_value` and `InvalidLabel` is named `invalid_label` |
| `ErrorRecording.ErrorNamesInjective` | glean-core/android/src/main/java/mozilla/telemetry/glean/error/ErrorRecording.kt:27-30 | distinct error types have distinct names |
| `ErrorRecording.ErrorCounterRead` | glean-core/android/src/main/java/mozilla/telemetry/glean/error/ErrorRecording.kt:49-59 | the counter that is read is enabled, has category `glean.error` and lifetime `Ping`, is named the error name followed by `/` and the identifier, and is sent in exactly the queried ping; it is read from that same ping |
| `ErrorRecording.ErrorCounterNamesDistinct` | glean-core/android/src/main/java/mozilla/telemetry/glean/error/ErrorRecording.kt:49-55 | equal counter names mean equal error types and equal metric identifiers, so each (error type, metric) pair reads its own counter |
| `UuidMetrics.RecordWith` | glean-core/src/metrics/uuid.rs:36-45 | the metric's new value is the transform of its old value (or of its absence); every other metric keeps its entry, or stays absent |
| `UuidMetrics.KeepOrGenerate` | glean-core/src/metrics/uuid.rs:38-45 | the result is always a UUID; a stored UUID is kept unchanged; an absent value, or a value of another type, is replaced by the newly generated UUID |
| `UuidMetrics.GenerateIfMissingIdempotent` | glean-core/src/metrics/uuid.rs:38-45 | running the update a second time, with any newly generated UUID, leaves the storage as the first run left it |
| `UuidMetrics.GenerateIfMissingKeepsStored` | glean-core/src/metrics/uuid.rs:38-39 | when the metric already holds a UUID, the update leaves the whole storage unchanged |
| `UuidMetrics.UuidMetric.constructor` | glean-core/src/metrics/uuid.rs:11-13 | the metric keeps the given metadata |
| `UuidMetrics.UuidMetric.Enabled` | glean-core/src/metrics/uuid.rs:16 | the gate of `set` (and the identical test in `generate_if_missing`, uuid.rs:32) is closed whenever the metric is disabled, and whenever upload is disabled |
| `UuidMetrics.UuidMetric.Set` | glean-core/src/metrics/uuid.rs:15-23 | when the metric does not record or upload is disabled, the storage is unchanged; otherwise the metric holds `Metric::Uuid` of the given UUID and no other entry changes |
| `UuidMetrics.UuidMetric.Generate` | glean-core/src/metrics/uuid.rs:25-29 | returns exactly the UUID it generated, and changes the storage as `set` with that UUID would |
| `UuidMetrics.UuidMetric.GenerateIfMissing` | glean-core/src/metrics/uuid.rs:31-46 | when the metric does not record or upload is disabled, the storage is unchanged; otherwise the metric's value goes through `KeepOrGenerate` by `record_with`, and no other entry changes |

## Left out

- Asynchronous dispatch: `Dispatchers.API.launch` is modelled as running the dispatched block at once. The model has no queue, no draining and no interleaving of threads.
- `assertInTestingMode`: test-only operations are assumed to run in testing mode.
- The clock: the timestamp from `SystemClock.elapsedRealtime()` is a parameter of `Record`. So the model cannot show that no clock read happens when the gate is closed; it only shows that nothing is recorded.
- JSON parsing by org.json: the parsed document is an input (`Json.JsonText`). Numbers are integers only. org.json's conversions are not modelled: a number read by `getString`, a numeric string read by `getLong`, or a fractional number. Any value of another type counts as a JSON error.
- The order in which the native layer lists JSON object members, and the order in which a Kotlin map iterates its entries: both are left open. The loops pick any remaining key.
- FFI marshalling: `StringArray`, UTF-8 encoding, `getAndConsumeRustString`, and the byte/boolean conversions `toByte` and `toBoolean`. Flags are booleans in the model.
- The native layer's behaviour: what `should_record`, `test_has_value` and `test_get_value_as_json_string` answer is state of `Events.Native`. How recorded events end up in that JSON is not part of this model.
- An extra-keys enum constant is modelled by its ordinal alone. The empty `NoExtraKeys` enum needs no separate model: a map keyed by it is always empty.
- `RecordedEventData.identifier` is a constructor parameter with a default value. The model always derives it with `Identifier`, which is what `deserializeEvent` does.
- Mutating the `timestamp` field of `RecordedEventData` is not modelled.
- ErrorCounterRead: returns the counter and the ping it is read from, not the count. `CounterMetricType.testGetValue` is not part of this model.
- `Lifetime` enum: its declaration is not part of this model. Its ordinals are taken as Ping 0, Application 1, User 2.
- `CommonMetricData::should_record`: its definition is not part of this model. It is taken to be "not disabled".
- The `Metric` enum: its declaration is not part of this model. Only a few variants are modelled besides `Uuid`.
- UUID generation and formatting: `uuid::Uuid::new_v4()` randomness and `to_string` are left out. A UUID is its text, passed in as a parameter.
- Storage internals: `glean.storage().record` / `record_with` are a single map update, keyed by the metric's metadata. There is no per-ping or per-lifetime layout and no persistence.
- glean-core/tests/common/mod.rs: test support code (temporary directories, logging, reading pings from disk, date conversion) and is not part of this model.
