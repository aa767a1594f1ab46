/**
 * The single-GET operations of the client: key retrieval, movie registration,
 * show registration and the full-search trigger. Each builds its request on the
 * base address, performs one GET (given here as its Reply) and turns the reply
 * into Go's (value, error) pair.
 */
module Operations {
  import opened Go
  import opened Api
  import opened Query
  import opened Address
  import Decimal

  const BadServerUrlMsg := "Bad serverUrl"
  const CantGetPrefix := "Can't GET "
  const FailedUnmarshalMsg := "Failed unmarshalling JSON"
  const FailedKeyMsg := "Failed getting API key"
  const FailedParseMsg := "Failed parsing API response"

  /**
   * The hex MD5 digest of the empty input (RFC 1321, appendix A.5). Both the
   * username and the password hash are taken over nothing, so both are this.
   */
  const EmptyMd5Hex := "d41d8cd98f00b204e9800998ecf8427e"

  // ---------------------------------------------------------------- requests

  /** `<serverUrl>/getkey/?p=<md5>&u=<md5>`. */
  function KeyRequest(serverUrl: string): (req: Request)
    ensures req.base == serverUrl && req.path == "/getkey/"
    ensures req.query == [("p", EmptyMd5Hex), ("u", EmptyMd5Hex)]
  {
    var parameters := [("p", EmptyMd5Hex), ("u", EmptyMd5Hex)];
    EncodeSortedIsIdentity(parameters);
    Request(serverUrl, "/getkey/", Encode(parameters))
  }

  /** The pairs `AddMovie` adds, in call order. */
  function AddMovieValues(id: string, title: string): Values {
    [("identifier", id), ("title", title), ("force_readd", "false")]
  }

  lemma AddMovieEncoding(id: string, title: string)
    ensures Encode(AddMovieValues(id, title)) == [("force_readd", "false"), ("identifier", id), ("title", title)]
  {
    var f, i, t := ("force_readd", "false"), ("identifier", id), ("title", title);
    EncodeCons(f, []);
    InsertFront(f, []);
    EncodeCons(t, [f]);
    InsertBehind(t, f);
    assert [i] + [t, f] == AddMovieValues(id, title);
    EncodeCons(i, [t, f]);
    assert Insert(i, [f, t]) == [f] + Insert(i, [t]);
    InsertFront(i, [t]);
  }

  /** `movie.add` with the identifier, the title and `force_readd=false`, keys in sorted order. */
  function AddMovieRequest(addr: string, id: string, title: string): (req: Request)
    ensures req.base == addr && req.path == "movie.add"
    ensures req.query == [("force_readd", "false"), ("identifier", id), ("title", title)]
  {
    AddMovieEncoding(id, title);
    Request(addr, "movie.add", Encode(AddMovieValues(id, title)))
  }

  /** The pairs `AddNewShow` adds, in call order (`id` is the rendered show id): `initial` last and only when non-empty. */
  function AddNewShowValues(id: string, initial: string): Values {
    var parameters := [("cmd", "show.addnew"), ("tvdbid", id)];
    if initial != "" then parameters + [("initial", initial)] else parameters
  }

  lemma AddNewShowEncodingWithout(id: string)
    ensures Encode(AddNewShowValues(id, "")) == [("cmd", "show.addnew"), ("tvdbid", id)]
  {
    var c, t := ("cmd", "show.addnew"), ("tvdbid", id);
    EncodeCons(t, []);
    InsertFront(t, []);
    assert [c] + [t] == AddNewShowValues(id, "");
    EncodeCons(c, [t]);
    InsertFront(c, [t]);
  }

  lemma AddNewShowEncodingWith(id: string, initial: string)
    requires initial != ""
    ensures Encode(AddNewShowValues(id, initial)) == [("cmd", "show.addnew"), ("initial", initial), ("tvdbid", id)]
  {
    var c, t, i := ("cmd", "show.addnew"), ("tvdbid", id), ("initial", initial);
    EncodeCons(i, []);
    InsertFront(i, []);
    EncodeCons(t, [i]);
    InsertBehind(t, i);
    assert [c] + [t, i] == AddNewShowValues(id, initial);
    EncodeCons(c, [t, i]);
    InsertFront(c, [i, t]);
  }

  /**
   * `cmd=show.addnew` and `tvdbid=<decimal id>` on the base address itself, with
   * `initial` between them (in key order) exactly when a quality was given.
   */
  function AddNewShowRequest(addr: string, tvdbid: int, initial: string): (req: Request)
    ensures req.base == addr && req.path == ""
    ensures initial == "" ==> req.query == [("cmd", "show.addnew"), ("tvdbid", Decimal.Itoa(tvdbid))]
    ensures initial != "" ==>
      req.query == [("cmd", "show.addnew"), ("initial", initial), ("tvdbid", Decimal.Itoa(tvdbid))]
  {
    var id := Decimal.Itoa(tvdbid);
    if initial == "" then
      AddNewShowEncodingWithout(id);
      Request(addr, "", Encode(AddNewShowValues(id, initial)))
    else
      AddNewShowEncodingWith(id, initial);
      Request(addr, "", Encode(AddNewShowValues(id, initial)))
  }

  lemma InitialValues(id: string, initial: string)
    ensures ValuesOf([("cmd", "show.addnew"), ("tvdbid", id)], "initial") == []
    ensures ValuesOf([("cmd", "show.addnew"), ("initial", initial), ("tvdbid", id)], "initial") == [initial]
  {
    var c, i, t := ("cmd", "show.addnew"), ("initial", initial), ("tvdbid", id);
    ValuesOfAbsentKey([c, t], "initial");
    ValuesOfAbsentKey([t], "initial");
    ValuesOfCons(i, [t], "initial");
    assert [c, i, t] == [c] + [i, t];
    ValuesOfCons(c, [i, t], "initial");
  }

  /** The `initial` parameter is sent, once and with the given value, exactly when it is non-empty. */
  lemma InitialSentIffGiven(addr: string, tvdbid: int, initial: string)
    ensures var q := AddNewShowRequest(addr, tvdbid, initial).query;
      ValuesOf(q, "initial") == if initial == "" then [] else [initial]
  {
    InitialValues(Decimal.Itoa(tvdbid), initial);
  }

  /** `movie.searcher.full_search` with no query at all. */
  function FullSearchRequest(addr: string): (req: Request)
    ensures req.base == addr && req.path == "movie.searcher.full_search" && req.query == []
  {
    Request(addr, "movie.searcher.full_search", [])
  }

  // -------------------------------------------------------------- GetApiKey

  /**
   * `client.GetApiKey`. The status code is not looked at; the read error decides
   * whether the decode error is returned, and otherwise the `success` flag decides.
   */
  function GetApiKey(serverUrl: string, parseErr: Error, reply: Reply<ApiKeyRecord>): (r: Outcome<string>)
    ensures r.Returned?
    ensures r.err == Nil ==> parseErr == Nil && reply.Response?
    ensures r.err == Nil && reply.Response? && reply.readErr == Nil ==>
      reply.decoded.success && r.value == reply.decoded.apiKey
    ensures parseErr == Nil && reply.Response? && reply.readErr == Nil ==>
      r == if reply.decoded.success then Returned(reply.decoded.apiKey, Nil)
           else Returned(FailedKeyMsg, Err(FailedKeyMsg))
    ensures parseErr.Err? ==> r == Returned(BadServerUrlMsg, parseErr)
    ensures parseErr == Nil && reply.TransportError? ==>
      r == Returned(CantGetPrefix + Target(KeyRequest(serverUrl)), Err(reply.msg))
    ensures parseErr == Nil && reply.Response? && reply.readErr.Err? ==>
      r == Returned(FailedUnmarshalMsg, reply.decodeErr)
  {
    if parseErr.Err? then Returned(BadServerUrlMsg, parseErr)
    else
      match reply
      case TransportError(e) => Returned(CantGetPrefix + Target(KeyRequest(serverUrl)), Err(e))
      case Response(_, _, err, apikey, jerr) =>
        if err.Err? then Returned(FailedUnmarshalMsg, jerr)
        else if apikey.success then Returned(apikey.apiKey, err)
        else Returned(FailedKeyMsg, Err(FailedKeyMsg))
  }

  /**
   * A body that was read with an error but still decoded: GetApiKey reports a nil
   * error while what it returns is not a key and `success` was false.
   */
  lemma GetApiKeyNilErrorWithoutSuccess()
    ensures var reply := Response(StatusOK, "{\"api_key\":\"\",\"success\":false}", Err("unexpected EOF"),
                                  ApiKeyRecord("", false), Nil);
      GetApiKey("http://localhost:8081", Nil, reply) == Returned(FailedUnmarshalMsg, Nil)
  {
  }

  /** GetApiKey with the decode error tested where the read error is. */
  function GetApiKeyChecked(serverUrl: string, parseErr: Error, reply: Reply<ApiKeyRecord>): (r: Outcome<string>)
    ensures r.Returned?
    ensures r.err == Nil ==> parseErr == Nil && reply.Response? && reply.decoded.success && r.value == reply.decoded.apiKey
    ensures parseErr == Nil && reply.Response? && reply.readErr == Nil && reply.decodeErr == Nil ==>
      r == if reply.decoded.success then Returned(reply.decoded.apiKey, Nil)
           else Returned(FailedKeyMsg, Err(FailedKeyMsg))
  {
    if parseErr.Err? then Returned(BadServerUrlMsg, parseErr)
    else
      match reply
      case TransportError(e) => Returned(CantGetPrefix + Target(KeyRequest(serverUrl)), Err(e))
      case Response(_, _, err, apikey, jerr) =>
        if jerr.Err? then Returned(FailedUnmarshalMsg, jerr)
        else if apikey.success then Returned(apikey.apiKey, err)
        else Returned(FailedKeyMsg, Err(FailedKeyMsg))
  }

  // ------------------------------------------------- AddMovie and FullSearch

  /**
   * What AddMovie and FullSearch make of their one reply, as written: the body
   * text is kept only when reading it failed, so a 200 read in full gives "" and
   * no error, and any other status gives "" and an error with empty text.
   */
  function BodyResult<T>(target: string, reply: Reply<T>): (r: Outcome<string>)
    ensures r.Returned?
    ensures r.err == Nil <==> reply.Response? && reply.status == StatusOK && reply.readErr == Nil
    ensures r.err == Nil ==> r.value == ""
    ensures reply.Response? && reply.status != StatusOK ==> r == Returned("", Err(""))
    ensures r.value != "" ==> reply.TransportError? || reply.readErr.Err?
    ensures reply.TransportError? ==> r == Returned(CantGetPrefix + target, Err(reply.msg))
    ensures reply.Response? && reply.status == StatusOK ==>
      r.err == reply.readErr && (reply.readErr.Err? ==> r.value == reply.body)
  {
    match reply
    case TransportError(e) => Returned(CantGetPrefix + target, Err(e))
    case Response(status, bodyBytes, err2, _, _) =>
      if status == StatusOK then
        var bodyString := if err2.Err? then bodyBytes else "";
        Returned(bodyString, err2)
      else Returned("", Err(""))
  }

  /** A 200 whose body `{"result":"success"}` was read in full comes back as "", not as the body. */
  lemma BodyResultDropsReadBody(target: string)
    ensures BodyResult(target, Response(StatusOK, "{\"result\":\"success\"}", Nil, (), Nil)) == Returned("", Nil)
  {
  }

  /** The body handling with the read-error test the right way round: a 200 read in full yields its body. */
  function BodyResultCorrected<T>(target: string, reply: Reply<T>): (r: Outcome<string>)
    ensures r.Returned?
    ensures r.err == Nil <==> reply.Response? && reply.status == StatusOK && reply.readErr == Nil
    ensures r.err == Nil ==> r.value == reply.body
    ensures reply.Response? && reply.readErr.Err? ==> r.value == ""
    ensures reply.Response? && reply.status != StatusOK ==> r == Returned("", Err(""))
  {
    match reply
    case TransportError(e) => Returned(CantGetPrefix + target, Err(e))
    case Response(status, bodyBytes, err2, _, _) =>
      if status == StatusOK then
        var bodyString := if err2 == Nil then bodyBytes else "";
        Returned(bodyString, err2)
      else Returned("", Err(""))
  }

  /** `client.AddMovie`: the address (or its panic), then `movie.add`, then the body handling above. */
  function AddMovie(c: Client, parseErr: Error, id: string, title: string, reply: Reply<()>): (r: Outcome<string>)
    ensures !ValidKey(c.apiKey) ==> r == Halted(GetAddr(c).how)
    ensures ValidKey(c.apiKey) && parseErr.Err? ==> r == Halted(Panic(BadServerUrlMsg))
    ensures ValidKey(c.apiKey) && parseErr == Nil ==>
      r == BodyResult(Target(AddMovieRequest(GetAddr(c).value, id, title)), reply)
  {
    match GetAddr(c)
    case Halted(how) => Halted(how)
    case Returned(addr, _) =>
      if parseErr.Err? then Halted(Panic(BadServerUrlMsg))
      else BodyResult(Target(AddMovieRequest(addr, id, title)), reply)
  }

  /** `client.FullSearch`: like AddMovie, on `movie.searcher.full_search` without a query. */
  function FullSearch(c: Client, parseErr: Error, reply: Reply<()>): (r: Outcome<string>)
    ensures !ValidKey(c.apiKey) ==> r == Halted(GetAddr(c).how)
    ensures ValidKey(c.apiKey) && parseErr.Err? ==> r == Halted(Panic(BadServerUrlMsg))
    ensures ValidKey(c.apiKey) && parseErr == Nil ==>
      r == BodyResult(Target(FullSearchRequest(GetAddr(c).value)), reply)
  {
    match GetAddr(c)
    case Halted(how) => Halted(how)
    case Returned(addr, _) =>
      if parseErr.Err? then Halted(Panic(BadServerUrlMsg))
      else BodyResult(Target(FullSearchRequest(addr)), reply)
  }

  /** Once a response arrives, AddMovie and FullSearch return the same thing; only the "Can't GET" text differs. */
  lemma FullSearchAgreesWithAddMovie(c: Client, parseErr: Error, id: string, title: string, reply: Reply<()>)
    requires reply.Response?
    ensures FullSearch(c, parseErr, reply) == AddMovie(c, parseErr, id, title, reply)
  {
  }

  // ------------------------------------------------------------- AddNewShow

  /**
   * `client.AddNewShow`; `reply` answers AddNewShowRequest on the address. The status code is never looked at and the read error is
   * overwritten by the decode error; a decoded JSON `null` gives a nil pointer
   * (None) and no error.
   */
  function AddNewShow(c: Client, parseErr: Error, tvdbid: int, initial: string,
                      reply: Reply<Option<TVDBResults>>): (r: Outcome<Option<TVDBResults>>)
    ensures !ValidKey(c.apiKey) ==> r == Halted(GetAddr(c).how)
    ensures ValidKey(c.apiKey) && parseErr.Err? ==> r == Halted(Panic(BadServerUrlMsg))
    ensures ValidKey(c.apiKey) && parseErr == Nil ==> r.Returned?
    ensures r.Returned? ==> (r.err == Nil <==> reply.Response? && reply.decodeErr == Nil)
    ensures r.Returned? && r.err == Nil ==> r.value == reply.decoded
    ensures r.Returned? && reply.TransportError? ==> r == Returned(Some(EmptyResults()), Err(reply.msg))
    ensures r.Returned? && reply.Response? && reply.decodeErr.Err? ==>
      r == Returned(Some(EmptyResults()), Err(FailedParseMsg))
  {
    match GetAddr(c)
    case Halted(how) => Halted(how)
    case Returned(addr, _) =>
      if parseErr.Err? then Halted(Panic(BadServerUrlMsg))
      else
        match reply
        case TransportError(e) => Returned(Some(EmptyResults()), Err(e))
        case Response(_, _, _, s, err) =>
          if err.Err? then Returned(Some(EmptyResults()), Err(FailedParseMsg))
          else Returned(s, err)
  }

  /** A non-200 response whose body decodes is returned as a result, exactly as a 200 would be. */
  lemma AddNewShowIgnoresStatus(c: Client, parseErr: Error, tvdbid: int, initial: string,
                                reply: Reply<Option<TVDBResults>>, status: int)
    requires reply.Response?
    ensures AddNewShow(c, parseErr, tvdbid, initial, reply)
         == AddNewShow(c, parseErr, tvdbid, initial, reply.(status := status))
  {
  }
}
