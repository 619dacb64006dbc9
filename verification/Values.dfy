/** Values shared by every part of the model. */
module Values {

  datatype Option<+T> = None | Some(value: T)

  datatype Result<+T, +E> = Ok(value: T) | Err(error: E)

  /** An untyped configuration or claim value: what MessagePack or JSON decodes to. */
  datatype Any =
    | Nil
    | Bool(flag: bool)
    | Number(n: int)
    | Str(text: string)
    | List(items: seq<Any>)
    | Map(entries: map<string, Any>)

  /** The claims of a verified token, and the rules configured for one provider. */
  type Claims = map<string, Any>
}
