/** Shared result types and the error conditions the preset store can raise. */
module Common {

  /** The ways an operation of the preset store fails. */
  datatype Error =
    | NotRampParameter   // TypeError from RampPreset.from_parm on a non-ramp parameter
    | UnknownRampType    // ValueError from RampType(...) on a tag other than "float"/"color"
    | DuplicateName      // ValueError "Name ... already exists in presets file"
    | FileNotFound       // the preset file does not exist when it is read
    | NotAList           // the older store appends to a document that is a JSON object

  datatype Option<T> = None | Some(value: T)

  datatype Result<T> = Ok(value: T) | Err(error: Error)

  /** The result of an operation that returns nothing but may fail. */
  datatype Outcome = Pass | Fail(error: Error)
}
