# go-sickchill-api, modelled in Dafny

A model of the Go client library for the SickChill HTTP API (`sickchill.go`). The
client renders an authenticated base address (`http[s]://host:port[/base]/api/<key>/`)
after checking the API key's shape, attaches operation-specific query parameters,
performs GET requests and turns the replies into Go's `(value, error)` pairs. One
operation, `SearchTVDB`, retries in a loop.

What the model covers:

- `address.dfy` (module `Address`): the client settings, the path-prefix
  normalisation, the unanchored `[a-z0-9]{32}` key match, and `GetAddr` with its three
  panics in source order.
- `decimal.dfy` (module `Decimal`): `strconv.Itoa` for the port, with the parser that
  inverts it.
- `query.dfy` (module `Query`): `url.Values` as the list of added pairs, and
  `Values.Encode` as a stable sort by key (byte order, as `sort.Strings` does it).
- `api.dfy` (module `Api`): the JSON record shapes and the abstract `Reply<T>` to one
  GET (transport error, or status, body bytes and read error, decoded value and
  decode error).
- `operations.dfy` (module `Operations`): the requests and reply handling of
  `GetApiKey`, `AddMovie`, `AddNewShow` and `FullSearch`.
- `search.dfy` (module `Search`): `SearchTVDB` as a method with the source's
  `tries` loop and its inner counting loop, proved equal to a two-attempt
  specification `SearchRun`.
- `go.dfy` (module `Go`): Go's nil/non-nil `error`, `panic`/`log.Panic` and
  `log.Fatal` as a `Halted` outcome, and the `(value, error)` pair.

The code itself shows what it was meant to do in four places, and each of these
disagrees with what it does:

- The loop bound `for tries < 3` (sickchill.go:258) asks for three attempts. The search makes at most two GETs.
- The message "No results found, either try again or change search terms" (sickchill.go:286) is built. The error returned at the end has empty text.
- The comment "Return JSON result" (sickchill.go:198) says the body is returned. `AddMovie` and `FullSearch` return `""` after a successful read.
- The commented-out `io.WriteString(h, c.password)` (sickchill.go:90) shows credentials were meant to be hashed. `GetApiKey` hashes the empty input.

The first three are modelled twice, as written and corrected (see Findings). So
is a fourth bug that no comment points to: `GetApiKey` tests the read error but
returns the decode error `jerr` (sickchill.go:118-120). The password hash is not
modelled, because MD5 is left out and no corrected `GetApiKey` hashes a
password. The operations themselves are modelled as written.

## Model

| member | source | states |
|---|---|---|
| `Decimal.Itoa` | sickchill.go:139 | the port text is a minus sign exactly for negative ports, followed by decimal digits without leading zeros |
| `Decimal.ItoaRoundTrip` | sickchill.go:139 | reading the port text back gives the configured port |
| `Decimal.ItoaInjective` | sickchill.go:139 | two ports render to the same text only if they are equal |
| `Address.HasKeyRunWindows` | sickchill.go:157 | the unanchored pattern `[a-z0-9]{n}` matches exactly when some n consecutive characters are all in `[a-z0-9]` |
| `Address.KeyMatchIsWholeKey` | sickchill.go:153-160 | once the length is 32, the unanchored match holds iff every character of the key is a lowercase letter or digit |
| `Address.NormaliseBase` | sickchill.go:141-147 | the prefix is empty iff the base is; a base starting with '/' is appended verbatim, any other base gets exactly one '/' prepended |
| `Address.NormaliseIdempotent` | sickchill.go:141-147 | normalising twice is the same as normalising once |
| `Address.NormaliseAbsorbsOneSlash` | sickchill.go:141-147 | prepending '/' leaves the prefix unchanged iff the base is non-empty and does not already start with '/' |
| `Address.GetAddr` | sickchill.go:133-166 | an address is returned iff the key is 32 characters of `[a-z0-9]`; an empty key, a wrong length and bad characters panic with their own messages in that order; the address is scheme, "://", host, ":", decimal port, normalised base, "/api/", key, "/" |
| `Address.AddressCarriesKey` | sickchill.go:163 | every address ends in `/api/<key>/`, and the key can be read back from its last 33 characters |
| `Address.AddressScheme` | sickchill.go:135-138 | the address starts with "https://" iff ssl is set, and with "http://" otherwise |
| `Address.BaseSlashInsensitive` | sickchill.go:141-147 | clients that differ only in a base "foo" versus "/foo" get identical addresses |
| `Query.Encode` | sickchill.go:185 | the encoded pairs are sorted by key and are a permutation of the added pairs |
| `Query.EncodeKeepsValues` | sickchill.go:185 | for every key, encoding keeps exactly the values added under it, in the order they were added |
| `Query.EncodeSortedIsIdentity` | sickchill.go:102-106 | pairs already added in strictly increasing key order are encoded unchanged |
| `Operations.KeyRequest` | sickchill.go:99-106 | the key request appends "/getkey/" to the server URL and sends `p` then `u`, both the MD5 of the empty input |
| `Operations.AddMovieRequest` | sickchill.go:176-185 | `movie.add` carries exactly `force_readd=false`, `identifier`, `title`, in that key order |
| `Operations.AddNewShowRequest` | sickchill.go:213-221 | the query is `cmd=show.addnew`, then `initial` only if non-empty, then `tvdbid=<decimal id>`, on the base address itself |
| `Operations.InitialSentIffGiven` | sickchill.go:216-219 | the `initial` key carries one value, the given one, iff the argument is non-empty, and is absent otherwise |
| `Operations.GetApiKey` | sickchill.go:83-131 | never halts; a nil error needs a parsed URL and a response, and when the body was read it means `success` was true and the value is the decoded key; with the body read, `success` false gives "Failed getting API key" with an error; an unparsable URL gives "Bad serverUrl" with the parse error, a transport error gives "Can't GET " and the key request with that error, and a failed read gives "Failed unmarshalling JSON" with the decode error, whatever the read error was |
| `Operations.GetApiKeyNilErrorWithoutSuccess` | sickchill.go:115-124 | a body read with an error that still decodes with `success` false yields "Failed unmarshalling JSON" and a nil error |
| `Operations.GetApiKeyChecked` | sickchill.go:115-130 | with the decode error tested, a nil error always means `success` was true and the value is the decoded key |
| `Operations.BodyResult` | sickchill.go:195-203 | the error is nil iff the status is 200 and the body read succeeded, and then the value is ""; a non-200 gives "" with an error of empty text; a non-empty value comes only from a transport error or a failed read; on a 200 the error is the read error, and a failed read returns the bytes read with it |
| `Operations.BodyResultDropsReadBody` | sickchill.go:195-201 | a 200 whose body `{"result":"success"}` is read in full returns "" with a nil error |
| `Operations.BodyResultCorrected` | sickchill.go:195-203 | with the read test the right way round, a nil error comes with exactly the body text |
| `Operations.AddMovie` | sickchill.go:168-204 | an invalid key halts with GetAddr's panic, an unparsable address panics with "Bad serverUrl", otherwise the reply is handled as BodyResult on the `movie.add` request |
| `Operations.FullSearchRequest` | sickchill.go:307-308 | the full search appends `movie.searcher.full_search` to the address and sends no query |
| `Operations.FullSearch` | sickchill.go:300-325 | as AddMovie, on `movie.searcher.full_search` with no query |
| `Operations.FullSearchAgreesWithAddMovie` | sickchill.go:317-324 | once a response arrives, FullSearch and AddMovie return the same value and error |
| `Operations.AddNewShow` | sickchill.go:206-240 | once the key and URL checks pass the call always returns, never halts; the error is nil iff a response arrived and decoded, and then the decoded pointer is returned; a transport error or a decode failure return the empty result with the transport error or "Failed parsing API response" |
| `Operations.AddNewShowIgnoresStatus` | sickchill.go:229-239 | the status code of the response never changes the outcome |
| `Search.SearchRequest` | sickchill.go:250-254 | the search sends `cmd=sb.searchtvdb` and `name=<q>` on the base address |
| `Search.SearchTVDB` | sickchill.go:243-298 | the loop's outcome and GET count equal SearchRun's, at most 2 GETs are made, and each GET is the search request |
| `Search.SearchSucceedsIff` | sickchill.go:268-291 | the call returns v with a nil error iff one of the first two GETs is a 200 decoding to a non-empty list equal to v and every earlier GET failed |
| `Search.TransportErrorEndsSearch` | sickchill.go:261-265 | a transport error ends the call at once with that error and the empty result, after k+1 GETs |
| `Search.SearchGivesUpAfterTwo` | sickchill.go:256-297 | two failed attempts end the call with the empty result and an error of empty text, after exactly two GETs |
| `Search.SearchNeverReachesThirdGet` | sickchill.go:258-295 | the call's course depends only on the replies to the first two GETs |
| `Search.SearchTVDBCorrected` | sickchill.go:256-297 | with one count per attempt and the message kept, the loop matches the three-attempt specification and makes at most 3 GETs |
| `Search.IntendedGivesUpAfterThree` | sickchill.go:284-297 | corrected, three failures make three GETs and the error says "No results found ..." when one of them saw an empty list |
| `Search.ThirdAttemptNeverMade` | sickchill.go:258-295 | for a server answering 500, 500, then a hit, the code gives up after two GETs while the corrected loop returns the hit |
| `Search.GiveUpMessageLost` | sickchill.go:284-297 | for a server that always finds nothing, the code's error text is empty while the corrected loop's is "No results found ..." |

## Left out

- The HTTP transport is not modelled: `httpClient.Get`, the 10-second timeout, `ioutil.ReadAll` and `resp.Body.Close`. Each GET's outcome is an input `Reply`, and in the search it is a function of the attempt number.
- JSON decoding is a foreign library. What it leaves in the zero value, and its error, are fields of the `Reply`.
- MD5 hashing is not computed. `GetApiKey` only ever hashes the empty input, so its digest is the constant `d41d8cd98f00b204e9800998ecf8427e`.
- `url.Parse` is library behaviour. Its error is an input (`parseErr`).
- Percent-escaping in `Values.Encode` and the re-encoding in `URL.String` are library behaviour. `Query.Target` renders the "Can't GET" text unescaped.
- Logging calls are not modelled.
- The `Movie`, `MovieResults`, `Poster` and `ImdbRating` types are passive JSON shapes that no logic uses. So the round trip of a movie record through JSON is not modelled.
- `NewClient` only stores its arguments. The `Client` datatype is that record. The unused `auth` flag and the `http.Client` are not modelled.
- Operations.AddNewShow, Operations.AddMovie, Operations.FullSearch: the request each sends is given by its request function. The reply parameter stands for the server's answer to that request, and these members do not return the request.
- Address.GetAddr: strings are sequences of characters, while Go's `len` counts bytes. A key that contains non-ASCII characters can get a different panic message here, but it panics in both. A key of 32 characters that includes non-ASCII ones has more than 32 bytes, so Go panics with the length message and the model with the characters message. A key of 32 bytes that includes non-ASCII ones has fewer than 32 characters, so Go reaches the regexp and panics with the characters message, and the model panics with the length message.
- Search.SearchTVDB: the `defer resp.Body.Close()` calls accumulated inside the loop are not modelled.

## Findings

| source | as written | input that shows it | evidently intended | confidence | as-written member | corrected member |
|---|---|---|---|---|---|---|
| sickchill.go:258-295 | a failed attempt adds 2 to `tries` under `tries < 3`, so at most two GETs are made | a server answering 500, 500, then a hit (`Search.ThirdAttemptNeverMade`) | three attempts, one count each | high, not executed | `Search.SearchTVDB` | `Search.SearchTVDBCorrected` |
| sickchill.go:286 | `errorMsg :=` declares a new variable, so the error returned at line 297 always has empty text | a server that always answers 200 with no results (`Search.GiveUpMessageLost`) | the returned error says "No results found, either try again or change search terms" | high, not executed | `Search.SearchTVDB` | `Search.SearchTVDBCorrected` |
| sickchill.go:118-120 | the read error `err` is tested, but the decode error `jerr` is returned | a body read with an error that still decodes to `{"success":false}` gives "Failed unmarshalling JSON" and a nil error (`Operations.GetApiKeyNilErrorWithoutSuccess`) | test `jerr`, so a nil error always comes with a successful key | medium, not executed | `Operations.GetApiKey` | `Operations.GetApiKeyChecked` |
| sickchill.go:197-200 | the body is copied only when `err2 != nil`, so a fully read 200 returns "" (same at lines 319-321) | a 200 with body `{"result":"success"}` (`Operations.BodyResultDropsReadBody`) | return the body when the read succeeds, as the comment "Return JSON result" says | high, not executed | `Operations.BodyResult` | `Operations.BodyResultCorrected` |
