/** The `samples` table's record and the three view shapes clients send or receive. */
module Models {
  import opened Wrappers

  /** A UUID, taken as an opaque 128-bit value. */
  type Uuid = x: int | 0 <= x < 0x1_0000_0000_0000_0000_0000_0000_0000_0000

  const DefaultName := "default sample"

  /** A stored row; `id` is the primary key, the timestamps are clock readings. */
  datatype Sample = Sample(id: Uuid, name: string, createdAt: int, updatedAt: int)

  /** The creation input: the caller always supplies the id. */
  datatype SampleCreate = SampleCreate(id: Uuid, name: string)

  /** What clients see: id and name, no timestamps. */
  datatype SamplePublic = SamplePublic(id: Uuid, name: string)

  /** The partial update input: `None` means "leave the name alone". */
  datatype SampleUpdate = SampleUpdate(name: Option<string>)

  /** `Sample(...)` with some fields omitted: a missing name takes the default,
      a missing id is the value `uuid4()` yields (`generated`), and both timestamps
      are the clock reading `now`. */
  function NewSample(id: Option<Uuid>, name: Option<string>, now: int, generated: Uuid): Sample {
    Sample(id.GetOr(generated), name.GetOr(DefaultName), now, now)
  }

  /** `SampleCreate(...)`: the id is required, the name defaults. */
  function NewSampleCreate(id: Uuid, name: Option<string>): SampleCreate {
    SampleCreate(id, name.GetOr(DefaultName))
  }

  /** `Sample.model_validate(input)`: the fields of the input, and generated timestamps.
      A create input always carries its id, so the `uuid4()` that `Sample()` drew
      (python/src/repositories/sample_repository.py:28) is discarded by `model_validate`;
      the value passed as `generated` is never used. */
  function Validate(input: SampleCreate, now: int): Sample {
    NewSample(Some(input.id), Some(input.name), now, input.id)
  }

  /** The public view of a record. */
  function ToPublic(s: Sample): SamplePublic {
    SamplePublic(s.id, s.name)
  }

  /** An omitted name is "default sample", in a record and in a create input alike. */
  lemma NameDefaults(id: Uuid, now: int, generated: Uuid)
    ensures NewSample(Some(id), None, now, generated).name == DefaultName
    ensures NewSample(None, None, now, generated).name == DefaultName
    ensures NewSampleCreate(id, None).name == DefaultName
  {
  }

  /** A given id is kept; the generator is used only when none is given. */
  lemma IdGeneratedOnlyWhenMissing(id: Option<Uuid>, name: Option<string>, now: int, generated: Uuid)
    ensures id.Some? ==> NewSample(id, name, now, generated).id == id.value
    ensures id.None? ==> NewSample(id, name, now, generated).id == generated
  {
  }

  /** Construction stamps both timestamps with the same clock reading. */
  lemma TimestampsAtConstruction(input: SampleCreate, now: int)
    ensures Validate(input, now).createdAt == now && Validate(input, now).updatedAt == now
    ensures Validate(input, now).id == input.id && Validate(input, now).name == input.name
  {
  }

  /** The public view keeps exactly the id and name. */
  lemma PublicViewDropsTimestamps(s: Sample, t: Sample)
    ensures ToPublic(s).id == s.id && ToPublic(s).name == s.name
    ensures ToPublic(s) == ToPublic(t) <==> s.id == t.id && s.name == t.name
  {
  }
}
