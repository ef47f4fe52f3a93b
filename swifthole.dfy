/**
  The values that cross the boundary to the SwiftHole client library: the
  errors it reports, the summary it decodes and the requests it is asked to
  perform. The library itself is not part of this model; its answers reach
  the view model as `Result` values.
 */
module SwiftHole {

  /**
    The six failures SwiftHole reports. `InvalidDecode` and `SessionError`
    carry the `localizedDescription` of the underlying decoding or URL-session
    error, `InvalidResponseCode` the HTTP status code.
   */
  datatype SwiftHoleError =
    | MalformedURL
    | InvalidDecode(decodeDescription: string)
    | NoAPITokenProvided
    | SessionError(sessionDescription: string)
    | InvalidResponseCode(responseCode: int)
    | InvalidResponse

  /**
    The fields of a decoded Pi-hole summary that the view model reads.
    `adsPercentageToday` is a Swift `Double`, modelled as a real number.
   */
  datatype Summary = Summary(
    dnsQueriesToday: int,
    adsBlockedToday: int,
    adsPercentageToday: real,
    domainsBeingBlocked: int,
    status: string)

  /** A call into the client, with the host and token it was built from. */
  datatype Request =
    | FetchSummary(host: string, apiToken: string)
    | EnablePiHole(host: string, apiToken: string)
    | DisablePiHole(host: string, apiToken: string)
}
