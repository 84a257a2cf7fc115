/** What one HTTP probe can observe, shared by every classifier of the model.
    The network calls themselves are not modelled: their results are inputs. */
module Http {

  datatype Option<+T> = None | Some(value: T)

  const StatusOK := 200
  const StatusNoContent := 204
  const StatusFound := 302

  /** A response as a probe sees it. `location` is the Location header,
      the empty string when the header is absent (as Go's Header.Get). */
  datatype Response = Response(status: int, location: string, body: string)

  /** The outcome of one attempt of a probe retry loop: the UDP
      reachability dial failed, the GET timed out, the GET failed in
      another way, or a response arrived. */
  datatype Attempt =
    | Unreachable
    | Timeout
    | TransportError
    | Reached(response: Response)

  /** Status codes in [300, 400). */
  predicate IsRedirect(status: int) {
    300 <= status < 400
  }
}
