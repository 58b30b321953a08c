/** Shared by all components. */
module Options {
  datatype Option<+T> = None | Some(value: T)

  /** The owner of what belongs to no user in particular. */
  const GLOBAL: string := "global"
}
