/** Values shared by the control-plane and the data-plane routers. */
module Common {

  datatype Option<+T> = None | Some(value: T)

  /** A field of a JSON request body that is present. A string is kept as it is;
      any other JSON value (number, boolean, null, array, object) is kept only as
      the text JavaScript's String() conversion gives it, which is all a regular
      expression's test() ever sees of it. An absent field (`undefined`) is
      `None` in an `Option<Value>`. */
  datatype Value = Str(s: string) | NonString(text: string)

  /** The text `RegExp.prototype.test` matches against when handed this value. */
  function Text(v: Value): (t: string)
    ensures v.Str? ==> t == v.s
  {
    match v
    case Str(s) => s
    case NonString(text) => text
  }

  /** `typeof field === 'string' ? field : undefined`: the request id handed to
      the delivery collaborators. */
  function StringOrUndefined(field: Option<Value>): (r: Option<string>)
    ensures r.Some? <==> field.Some? && field.value.Str?
    ensures r.Some? ==> field == Some(Str(r.value))
  {
    match field
    case Some(Str(s)) => Some(s)
    case _ => None
  }

  /** Bytes of an uploaded file. */
  type Bytes = seq<bv8>

  /** What the blob storage collaborator reports after storing a blob. */
  datatype Metadata = Metadata(hash: string, size: int, lastUpdate: int)
}
