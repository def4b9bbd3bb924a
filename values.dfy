/**
 * Shared value types of the context store: optional values, results, the
 * errors the component raises, and the attribute maps attached to files.
 */
module Values {

  /** Python's `Optional[T]`: `None` or a present value. */
  datatype Option<T> = None | Some(value: T)

  /** The exceptions the context store raises, one constructor per cause. */
  datatype Error =
    | EmptyContent                  // IngestDocumentRequest validator: content blank after strip()
    | EmptyQuery                    // RetrieveRelevantChunksRequest validator: query blank after strip()
    | MaxResultsOutOfRange(n: int)  // the ge=1 / le=50 bounds on max_results
    | NoStoreConfigured             // ensure_vector_store: no id, no name and no defaults
    | StoreNotFound(id: string)     // the remote service has no store with this id
    | MissingApiKey                 // the store cannot be built without an API key

  /** Either a value or the error that was raised instead. */
  datatype Result<T> = Ok(value: T) | Err(error: Error)

  /** One attribute value: `Union[str, float, bool]`. */
  datatype AttrValue = Str(s: string) | Number(x: real) | Flag(b: bool)

  /** `AttributesType = Dict[str, Union[str, float, bool]]`. */
  type Attributes = map<string, AttrValue>

  /** Python truthiness of an optional string: present and not empty. */
  predicate Truthy(s: Option<string>) {
    s.Some? && s.value != ""
  }

  /** Python truthiness of an optional dict: present and not empty. */
  predicate NonEmptyAttributes(m: Option<Attributes>) {
    m.Some? && |m.value| > 0
  }
}
