/** The UUID metric of the Rust core: storing a UUID, generating one, and generating
    one only when none is stored yet. */
module UuidMetrics {
  import opened Wrappers
  import opened Lifetimes

  /** The values the storage holds, one variant per metric type. A UUID is held in its
      text form. */
  datatype Metric =
    | Boolean(b: bool)
    | Counter(n: int)
    | String(s: string)
    | Uuid(text: string)

  /** What identifies a metric in the storage and decides whether it records. */
  datatype CommonMetricData = CommonMetricData(
    category: string,
    name: string,
    sendInPings: seq<string>,
    lifetime: Lifetime,
    disabled: bool)
  {
    /** A metric records unless it is disabled. */
    predicate ShouldRecord()
    {
      !disabled
    }
  }

  /** The parts of the Glean object a UUID metric uses: the upload switch and the storage. */
  class Glean {
    var uploadEnabled: bool
    var storage: map<CommonMetricData, Metric>
  }

  /** The stored value of `meta`, if any. */
  function Lookup(storage: map<CommonMetricData, Metric>, meta: CommonMetricData): Option<Metric>
  {
    if meta in storage then Some(storage[meta]) else None
  }

  /** `storage.record_with(meta, transform)`: the value of `meta` becomes `transform` of its
      old value; every other metric keeps its entry, or its absence. */
  function RecordWith(
    storage: map<CommonMetricData, Metric>, meta: CommonMetricData, transform: Option<Metric> -> Metric)
    : (r: map<CommonMetricData, Metric>)
    ensures meta in r && r[meta] == transform(Lookup(storage, meta))
    ensures forall other :: other != meta ==> (other in r <==> other in storage)
    ensures forall other :: other != meta && other in storage ==> r[other] == storage[other]
  {
    storage[meta := transform(Lookup(storage, meta))]
  }

  /** The update `generate_if_missing` passes to `record_with`: a stored UUID stays as it
      is; an absent value, or one of another type, gives way to the `generated` UUID. */
  function KeepOrGenerate(previous: Option<Metric>, generated: string): (m: Metric)
    ensures m.Uuid?
    ensures previous.Some? && previous.value.Uuid? ==> m == previous.value
    ensures !(previous.Some? && previous.value.Uuid?) ==> m == Uuid(generated)
  {
    match previous
    case Some(Uuid(text)) => Uuid(text)
    case _ => Uuid(generated)
  }

  /** A second `generate_if_missing` changes nothing, whatever UUID it would generate. */
  lemma GenerateIfMissingIdempotent(
    storage: map<CommonMetricData, Metric>, meta: CommonMetricData, generated: string, regenerated: string)
    ensures var once := RecordWith(storage, meta, previous => KeepOrGenerate(previous, generated));
            RecordWith(once, meta, previous => KeepOrGenerate(previous, regenerated)) == once
  {
  }

  /** When a UUID is already stored, `generate_if_missing` leaves the storage as it is. */
  lemma GenerateIfMissingKeepsStored(
    storage: map<CommonMetricData, Metric>, meta: CommonMetricData, generated: string)
    requires meta in storage && storage[meta].Uuid?
    ensures RecordWith(storage, meta, previous => KeepOrGenerate(previous, generated)) == storage
  {
  }

  class UuidMetric {
    const meta: CommonMetricData

    constructor (meta: CommonMetricData)
      ensures this.meta == meta
    {
      this.meta := meta;
    }

    /** The gate of every operation: the metric records and upload is enabled. */
    predicate Enabled(glean: Glean)
      reads glean
      ensures meta.disabled ==> !Enabled(glean)
      ensures !glean.uploadEnabled ==> !Enabled(glean)
    {
      meta.ShouldRecord() && glean.uploadEnabled
    }

    /** `set(value)`, with `value` the UUID's text form: when the gate is closed the storage
        is unchanged; otherwise this metric now holds that UUID and no other entry moves. */
    method Set(glean: Glean, value: string)
      modifies glean`storage
      ensures !Enabled(glean) ==> glean.storage == old(glean.storage)
      ensures Enabled(glean) ==> glean.storage == old(glean.storage)[meta := Uuid(value)]
    {
      if !meta.ShouldRecord() || !glean.uploadEnabled {
        return;
      }
      glean.storage := glean.storage[meta := Uuid(value)];
    }

    /** `generate()`, with `generated` the text of the UUID it creates: stores it as `set` would
        and returns that same UUID. */
    method Generate(glean: Glean, generated: string) returns (uuid: string)
      modifies glean`storage
      ensures uuid == generated
      ensures !Enabled(glean) ==> glean.storage == old(glean.storage)
      ensures Enabled(glean) ==> glean.storage == old(glean.storage)[meta := Uuid(generated)]
    {
      uuid := generated;
      Set(glean, uuid);
    }

    /** `generate_if_missing()`, with `generated` the text of the UUID it would create: when the
        gate is closed the storage is unchanged; otherwise this metric's value goes through
        `KeepOrGenerate` and no other entry moves. */
    method GenerateIfMissing(glean: Glean, generated: string)
      modifies glean`storage
      ensures !Enabled(glean) ==> glean.storage == old(glean.storage)
      ensures Enabled(glean) ==>
        glean.storage == RecordWith(old(glean.storage), meta, previous => KeepOrGenerate(previous, generated))
    {
      if !meta.ShouldRecord() || !glean.uploadEnabled {
        return;
      }
      glean.storage := RecordWith(glean.storage, meta, previous => KeepOrGenerate(previous, generated));
    }
  }
}
