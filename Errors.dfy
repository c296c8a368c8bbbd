/** The application's error enum (src-tauri/src/error.rs) and the text each variant displays. */
module Errors {
  import opened Wrappers

  /** One variant per subsystem; each carries the message it was raised with. */
  datatype AppError =
    | Audio(msg: string)
    | Whisper(msg: string)
    | Llm(msg: string)
    | Settings(msg: string)
    | History(msg: string)
    | Hotkey(msg: string)
    | Output(msg: string)
    | Io(msg: string)
    | Other(msg: string)

  type Res<T> = Result<T, AppError>

  /** The prefix `Display` puts in front of the message. */
  function Prefix(e: AppError): string {
    match e
    case Audio(_) => "Audio error: "
    case Whisper(_) => "Whisper error: "
    case Llm(_) => "LLM error: "
    case Settings(_) => "Settings error: "
    case History(_) => "History error: "
    case Hotkey(_) => "Hotkey error: "
    case Output(_) => "Output error: "
    case Io(_) => "IO error: "
    case Other(_) => ""
  }

  /** `e.to_string()`: the subsystem prefix followed by the message, which is kept whole at the end. */
  function Display(e: AppError): (text: string)
    ensures |text| >= |e.msg| && text[|text| - |e.msg|..] == e.msg
    ensures !e.Other? ==> |text| > |e.msg|
  {
    Prefix(e) + e.msg
  }
}
