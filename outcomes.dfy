/** Exceptions raised by the crawler and the failure-compatible wrappers that carry them. */
module Outcomes {

  /** The exception classes the modelled code raises or lets propagate. */
  datatype Error =
    | InvalidResponse     // InvalidResponseException: the service answered nothing usable
    | TypeError           // a missing label, or a Python operation applied to the wrong kind of value
    | AttributeError      // `.get`/`.keys()` on a non-dict, or reading an attribute never assigned
    | KeyError            // `d[k]` with `k` absent
    | PoiIdNotFound       // no probed video carries a POI id
    | SearchPageStatus    // the search page answered a status other than 200
    | SearchPageBadJson   // the rehydration script is not valid JSON
    | OdinIdNotFound      // no odinId in the search page
    | SearchIdNotFound    // no extra.logid in the probe response

  datatype Option<+T> = None | Some(value: T)

  datatype Result<+T> = Ok(value: T) | Err(error: Error) {
    predicate IsFailure() { Err? }

    function PropagateFailure<U>(): Result<U>
      requires Err?
    {
      Err(error)
    }

    function Extract(): T
      requires Ok?
    {
      value
    }
  }
}
