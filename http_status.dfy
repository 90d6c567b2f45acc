/** HTTP status classes. */
module HttpStatus {

  /** An ok status (`response.ok`; an "ok status" in the Fetch Standard): 200 to 299. */
  predicate IsOkStatus(status: int) {
    200 <= status <= 299
  }
}
