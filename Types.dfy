/** The records and enumerations of the application (types.ts). */
module Types {
  import opened Wrappers

  /** A notebook card in the gallery. `coverColor` is an opaque style tag. */
  datatype Notebook = Notebook(id: string, title: string, coverColor: string, lastEdited: string)

  /** An attendance stamp; `date` is `undefined` for a stamp not yet earned. */
  datatype Stamp = Stamp(id: int, achieved: bool, date: Option<string>)

  datatype SoundType = RAIN | FIRE | CAFE | LIBRARY

  /** `name` holds the source's `label` field (`label` is a Dafny keyword). */
  datatype SoundTrack = SoundTrack(soundType: SoundType, name: string, icon: string)

  /** Which overlay is open. `CREATE_NOTEBOOK` is declared but never set anywhere. */
  datatype ModalType = NONE | MAP | SOUND | CREATE_NOTEBOOK

  /**
    A simulated user on the light map. The source's `x`, `y` and `isActive`
    fields (random floating-point placement) are not part of this model.
  */
  datatype UserLocation = UserLocation(id: string, message: Option<string>)
}
