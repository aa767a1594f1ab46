/**
 * The JSON shapes the client decodes, and the abstract reply to one GET request.
 */
module Api {
  import opened Go

  const StatusOK := 200

  /** The answer of the `getkey` endpoint (`api_key`, `success`). */
  datatype ApiKeyRecord = ApiKeyRecord(apiKey: string, success: bool)

  /** One show found by a search (`first_aired`, `in_show_list`, `indexer`, `name`, `tvdbid`). */
  datatype TVDBResult = TVDBResult(firstAired: string, inShowList: bool, indexer: int, name: string, tvdbId: int)

  datatype TVDBData = TVDBData(results: seq<TVDBResult>)

  /** The answer of `show.addnew` and `sb.searchtvdb` (`data.results`, `message`, `result`). */
  datatype TVDBResults = TVDBResults(data: TVDBData, message: string, result: string)

  /** `TVDBResults{}`: the zero value the operations return beside an error. */
  function EmptyResults(): TVDBResults {
    TVDBResults(TVDBData([]), "", "")
  }

  /**
   * What one GET gives the client. Either the transport failed (`httpClient.Get`
   * returned an error), or a response arrived: its status code, the bytes the body
   * read produced and that read's error, and what JSON decoding of the body into
   * a zero `T` left behind together with the decoder's error. Operations that do
   * not decode ignore the last two fields.
   */
  datatype Reply<T> =
    | TransportError(msg: string)
    | Response(status: int, body: string, readErr: Error, decoded: T, decodeErr: Error)
}
