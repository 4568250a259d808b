/** The log-level option of src/main.rs (lines 93-98). */
module Logging {

  datatype Level = INFO | DEBUG | TRACE

  /** The `match level.as_str()` that turns the `--loglevel` argument into a level: the three
      names select their level and every other string falls back to INFO. */
  function ParseLevel(name: string): (level: Level)
    ensures level == DEBUG <==> name == "debug"
    ensures level == TRACE <==> name == "trace"
    ensures level == INFO <==> name != "debug" && name != "trace"
  {
    match name
    case "info" => INFO
    case "debug" => DEBUG
    case "trace" => TRACE
    case _ => INFO
  }

  /** The name the command line uses for each level. */
  function LevelName(level: Level): string {
    match level
    case INFO => "info"
    case DEBUG => "debug"
    case TRACE => "trace"
  }

  /** Round trip: every level is selected by its own name. */
  lemma ParseLevelName(level: Level)
    ensures ParseLevel(LevelName(level)) == level
  {
  }
}
