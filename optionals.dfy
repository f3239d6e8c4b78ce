/** src/Optional.ts: a wrapper around a value that may be `undefined`. */
module Optionals {
  import opened Wrappers

  const NoValueMessage := "No value present"

  /** `Absent` is `new Optional()` (the stored value is `undefined`);
      `Present(v)` is `new Optional(v)` for a defined `v`. */
  datatype Optional<+T> = Absent | Present(value: T)
  {
    predicate IsPresent() {
      Present?
    }

    /** `get()`: the stored value, or the error "No value present". */
    function Get(): (r: Result<T, string>)
      ensures r.Success? <==> IsPresent()
      ensures r.Success? ==> r.value == value
      ensures r.Failure? ==> r.error == NoValueMessage
    {
      if !IsPresent() then Failure(NoValueMessage) else Success(value)
    }
  }
}
