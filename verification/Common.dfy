/** Shared outcome types, file maps and a maximum. */
module Common {
  datatype Option<+T> = None | Some(value: T)

  /** Go's (value, error) pairs. */
  datatype Result<+T> = Ok(value: T) | Err(error: string)

  /** Regular files by path. */
  type Files = map<string, string>

  /** os.Rename of a file that exists. */
  function Renamed(files: Files, from: string, to: string): Files
    requires from in files
  {
    if from == to then files else (files - {from})[to := files[from]]
  }

  function Max(x: int, y: int): int { if x < y then y else x }
}
