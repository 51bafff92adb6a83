/** A value that may be absent: the model's stand-in for a null pointer, a null
    `QDomNode` and a null `QString`. */
module Options {

  datatype Option<+T> = None | Some(value: T)
}
