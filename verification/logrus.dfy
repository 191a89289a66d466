/**
 The part of the structured-logging backend that the channel registry drives.
 A logger is an opaque handle; what the registry can observe of it, and the
 only state it changes, is its minimum level, its formatter, its caller
 reporting flag, its hook list and its output.  Formatters, hooks and file
 handles are opaque identifiers.
 */
module Logrus {

  /** logrus.Level is a uint32; the package that drives the backend names levels 0 through 6. */
  newtype Level = x: int | 0 <= x < 0x1_0000_0000

  /** An opened file handle, named by the order in which it was opened. */
  type FileId = nat

  /** The backend's own text formatter, the package's local-time JSON formatter,
      or a formatter the host application supplies. */
  datatype Formatter = TextFormatter | LocalJsonFormatter | UserFormatter(id: nat)

  /** A hook the host application supplies, or the daily rotation hook built
      from a path, a retention in days and a formatter. */
  datatype Hook = UserHook(id: nat) | LfsHook(path: string, days: int, format: Formatter)

  /** Where a logger writes its own formatted records: standard error, or a
      handle together with the path it was opened on. */
  datatype Output = Stderr | ToFile(file: FileId, path: string)

  datatype Logger = Logger(
    level: Level,
    formatter: Formatter,
    reportCaller: bool,
    hooks: seq<Hook>,    // in the order they were added
    out: Output
  )

  /** The state of a logger fresh from logrus.New(), at the info level (4); the
      standard logger starts out the same way. */
  function New(): Logger {
    Logger(4, TextFormatter, false, [], Stderr)
  }
}
