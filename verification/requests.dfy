/** What every panel of the browser client hands to, and gets back from, its single POST. */
module Requests {
  import opened Optional

  /** The backend address every component is given; the client hard-codes it. */
  const ApiBaseUrl: string := "http://localhost:8000"

  /** One form-encoded POST: the full URL and the `URLSearchParams` in append order. */
  datatype Request = Request(url: string, params: seq<(string, string)>)

  /** How the awaited `axios.post` ends: a 2xx reply carrying the panel's result field, or a
      rejection, with the reply body's `detail` when there was a reply that had one. */
  datatype Outcome = Answered(payload: string) | Failed(detail: Option<string>)

  /** `err.response?.data?.detail || fallback`: an empty detail is falsy and falls back too. */
  function FailureText(detail: Option<string>, fallback: string): string {
    if Truthy(detail) then detail.value else fallback
  }
}
