/** What a client operation hands to the HTTP layer and what can come back. */
module Http {
  import opened Wrappers
  import opened Urls

  /** The errors a client operation propagates with `?`: a join that failed, or a
      failure of the GET request or of JSON decoding. */
  datatype Error = InvalidUrl(cause: ParseError) | Transfer(detail: string)

  /** `reqwest::get(url)?.json()?`: GET the serialised URL and decode the body. */
  type Fetch<T> = string -> Result<T, Error>

  /** The outcome of an operation whose URL building gave `target`: a failed join is
      returned as it is and nothing is fetched; otherwise the URL is fetched. */
  function Outcome<T>(target: Result<Url, ParseError>, fetch: Fetch<T>): Result<T, Error> {
    match target
    case Failure(e) => Failure(InvalidUrl(e))
    case Success(u) => fetch(Href(u))
  }
}
