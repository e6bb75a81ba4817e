/**
 * How the screens read the end of an awaited API call: it resolves with a
 * value, or it rejects with an error whose `response.data.detail` (the
 * server's explanation) may be missing.
 */
module ApiErrors {
  import opened Wrappers

  datatype Outcome<T> = Resolved(value: T) | Rejected(detail: Option<string>)

  /**
   * `err.response?.data?.detail || fallback`: the server's explanation when
   * there is a non-empty one, the screen's own message otherwise.
   */
  function ErrorText(detail: Option<string>, fallback: string): (msg: string)
    ensures detail.Some? && detail.value != "" ==> msg == detail.value
    ensures detail.None? || detail.value == "" ==> msg == fallback
  {
    if detail.Some? && detail.value != "" then detail.value else fallback
  }

  /** With a non-empty fallback the screen never shows an empty error. */
  lemma ErrorTextNonEmpty(detail: Option<string>, fallback: string)
    requires fallback != ""
    ensures ErrorText(detail, fallback) != ""
  {
  }
}
