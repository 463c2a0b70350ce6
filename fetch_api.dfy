/** The part of the Fetch standard's `Response` the modelled code reads. */
module FetchApi {

  /** `response.ok`: the status is in the range 200 to 299. */
  predicate IsOk(status: int) {
    200 <= status <= 299
  }
}
