/** The key codes the handlers distinguish (crossterm's `KeyCode`); every other code is `Other`. */
module Keys {

  datatype Key =
    | Char(c: char)
    | Enter
    | Esc
    | Tab
    | BackTab
    | Backspace
    | Up
    | Down
    | Other

  /** True while the typed command line starts with ':' (`command_input.starts_with(':')`). */
  predicate InCommandMode(commandInput: string)
  {
    |commandInput| > 0 && commandInput[0] == ':'
  }
}
