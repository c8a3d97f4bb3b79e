/** The records the note store keeps: a note, the global settings, and the
    partial settings record that `updateSettings` merges in. */
module NoteTypes {

  datatype Option<+T> = None | Some(value: T)

  datatype Theme = Light | Dark

  /** Global settings; `timerDuration` is in seconds. */
  datatype Settings = Settings(timerDuration: int, theme: Theme)

  /** A `Partial<Settings>`: a field that is `None` is absent from the object. */
  datatype SettingsPatch = SettingsPatch(timerDuration: Option<int>, theme: Option<Theme>)

  /** One note. `content` is the editor's serialized markup, kept opaque;
      `createdAt` is a millisecond timestamp. */
  datatype Note = Note(
    id: string,
    title: string,
    content: string,
    createdAt: int,
    durationSeconds: int,
    isLocked: bool)
}
