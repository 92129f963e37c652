/** Values shared by every part of the model: optional values, results with
    the exceptions the Python code raises, and the dynamically typed values
    that a transaction's request dictionary holds. */
module Base {

  datatype Option<T> = None | Some(value: T)

  /** The exceptions the source raises, with the detail callers can inspect. */
  datatype Error =
    | KeyError(key: string)      // a dictionary lookup with [] on a missing key
    | AttributeError             // a value lacks the method called on it (.encode, .get, .startswith)
    | TypeError                  // len() of a number, md5.update() of a non-string
    | ValueError                 // a response line without '=', a non-numeric Amount
    | IntegrityError             // a second record with an existing vendor_tx_id
    | SagePayError(detail: string, status: Option<string>)

  datatype Result<T> = Ok(value: T) | Err(error: Error)

  /** One basket line item: its keys ('description', 'quantity', ...) mapped to
      the text the item's values render as. */
  type Item = map<string, string>

  /** A value in a request dictionary: text, a number, or a basket list. */
  datatype Value = Text(text: string) | Number(n: real) | Items(items: seq<Item>)

  /** Python truthiness of a value: empty text, zero and the empty list are false. */
  predicate Truthy(v: Value)
  {
    match v
    case Text(s) => s != []
    case Number(n) => n != 0.0
    case Items(xs) => xs != []
  }

  /** `m.get(k, '')` on a dictionary of text. */
  function GetOr(m: map<string, string>, k: string, default: string): (r: string)
    ensures k in m ==> r == m[k]
    ensures k !in m ==> r == default
  {
    if k in m then m[k] else default
  }
}
