/**
 * `client.SearchTVDB`, the one operation that retries: it GETs
 * `cmd=sb.searchtvdb&name=<q>` until a 200 brings a non-empty result list, a GET
 * fails outright, or the tries counter reaches 3. A failed attempt adds 2 to the
 * counter (once at the top of the loop, once in the branch that saw the failure),
 * so at most two GETs are made.
 *
 * The server is a function from the attempt number (0, 1, ...) to the reply
 * that GET gets.
 */
module Search {
  import opened Go
  import opened Api
  import opened Query
  import opened Address
  import Operations

  const NoResultsMsg := "No results found, either try again or change search terms"

  /** `cmd=sb.searchtvdb` and `name=<q>` on the base address itself. */
  function SearchRequest(addr: string, q: string): (req: Request)
    ensures req.base == addr && req.path == ""
    ensures req.query == [("cmd", "sb.searchtvdb"), ("name", q)]
  {
    var parameters := [("cmd", "sb.searchtvdb"), ("name", q)];
    EncodeSortedIsIdentity(parameters);
    Request(addr, "", Encode(parameters))
  }

  /**
   * What one GET decides. None: a failed attempt (a status other than 200, or a
   * decoded empty list). Some(o): the call ends with o: the decoded value on a
   * non-empty list, the transport error, or `log.Fatal` on a body that does not decode.
   */
  function Verdict(reply: Reply<TVDBResults>): Option<Outcome<TVDBResults>> {
    match reply
    case TransportError(e) => Some(Returned(EmptyResults(), Err(e)))
    case Response(status, _, _, val, decodeErr) =>
      if status != StatusOK then None
      else if decodeErr.Err? then Some(Halted(Fatal(decodeErr.msg)))
      else if val.data.results == [] then None
      else Some(Returned(val, Nil))
  }

  /** A 200 whose body decoded to a non-empty list, namely `v`. */
  predicate Hit(reply: Reply<TVDBResults>, v: TVDBResults) {
    reply.Response? && reply.status == StatusOK && reply.decodeErr == Nil
    && reply.decoded.data.results != [] && reply.decoded == v
  }

  /** A 200 whose body decoded to an empty list. */
  predicate EmptyList(reply: Reply<TVDBResults>) {
    reply.Response? && reply.status == StatusOK && reply.decodeErr == Nil && reply.decoded.data.results == []
  }

  /** Every attempt before attempt k failed. */
  predicate FailedBefore(server: nat -> Reply<TVDBResults>, k: nat) {
    forall j: nat :: j < k ==> Verdict(server(j)).None?
  }

  /** How a search call ends, and how many GETs it made. */
  datatype Run = Run(outcome: Outcome<TVDBResults>, gets: nat)

  /** The address and URL checks every operation makes before its first GET. */
  function Preflight(c: Client, parseErr: Error): Option<Outcome<TVDBResults>> {
    if !ValidKey(c.apiKey) then Some(Halted(GetAddr(c).how))
    else if parseErr.Err? then Some(Halted(Panic(Operations.BadServerUrlMsg)))
    else None
  }

  /**
   * The course of a search call as written: attempt 0, and attempt 1 if
   * attempt 0 failed; after two failures the call gives up with the empty
   * result and an error whose text is empty.
   */
  function SearchRun(c: Client, parseErr: Error, server: nat -> Reply<TVDBResults>): Run {
    match Preflight(c, parseErr)
    case Some(o) => Run(o, 0)
    case None =>
      match Verdict(server(0))
      case Some(o) => Run(o, 1)
      case None =>
        match Verdict(server(1))
        case Some(o) => Run(o, 2)
        case None => Run(Returned(EmptyResults(), Err("")), 2)
  }

  /**
   * `client.SearchTVDB` as written, loop and counters included. `sent` lists the
   * requests it GETs, in order.
   */
  method SearchTVDB(c: Client, parseErr: Error, q: string, server: nat -> Reply<TVDBResults>)
    returns (r: Outcome<TVDBResults>, sent: seq<Request>)
    ensures Run(r, |sent|) == SearchRun(c, parseErr, server)
    ensures |sent| <= 2
    ensures forall k :: 0 <= k < |sent| ==> GetAddr(c).Returned? && sent[k] == SearchRequest(GetAddr(c).value, q)
  {
    var errorMsg := "";
    var addr := GetAddr(c);
    if addr.Halted? {
      return Halted(addr.how), [];
    }
    if parseErr.Err? {
      return Halted(Panic(Operations.BadServerUrlMsg)), [];
    }
    var url := SearchRequest(addr.value, q);
    sent := [];
    var tries := 0;
    while tries < 3
      invariant tries == 2 * |sent| && |sent| <= 2
      invariant forall k :: 0 <= k < |sent| ==> sent[k] == url
      invariant FailedBefore(server, |sent|)
      decreases 3 - tries
    {
      tries := tries + 1;
      var resp := server(|sent|);
      sent := sent + [url];
      if resp.TransportError? {
        return Returned(EmptyResults(), Err(resp.msg)), sent;
      }
      if resp.status == StatusOK {
        if resp.decodeErr.Err? {
          return Halted(Fatal(resp.decodeErr.msg)), sent;
        }
        var val := resp.decoded;
        var resultCount := 0;
        for i := 0 to |val.data.results|
          invariant resultCount == i
        {
          resultCount := resultCount + 1;
        }
        if resultCount == 0 {
          var errorMsg := NoResultsMsg;
          tries := tries + 1;
        } else {
          return Returned(val, Nil), sent;
        }
      } else {
        tries := tries + 1;
      }
    }
    r := Returned(EmptyResults(), Err(errorMsg));
  }

  /**
   * The call returns a value with a nil error exactly when one of the first two
   * GETs is a 200 with a non-empty list and every GET before it failed; the value
   * is that decoded reply, unchanged.
   */
  lemma SearchSucceedsIff(c: Client, parseErr: Error, server: nat -> Reply<TVDBResults>, v: TVDBResults)
    ensures SearchRun(c, parseErr, server).outcome == Returned(v, Nil) <==>
      && Preflight(c, parseErr) == None
      && exists k: nat :: k < 2 && FailedBefore(server, k) && Hit(server(k), v)
  {
    if Preflight(c, parseErr) == None {
      if SearchRun(c, parseErr, server).outcome == Returned(v, Nil) {
        if Verdict(server(0)).Some? {
          assert FailedBefore(server, 0) && Hit(server(0), v);
        } else {
          assert FailedBefore(server, 1) && Hit(server(1), v);
        }
      }
      if exists k: nat :: k < 2 && FailedBefore(server, k) && Hit(server(k), v) {
        var k: nat :| k < 2 && FailedBefore(server, k) && Hit(server(k), v);
        if k == 1 {
          assert Verdict(server(0)).None?;
        }
      }
    }
  }

  /** A transport error ends the call at once, with that error and the empty result. */
  lemma TransportErrorEndsSearch(c: Client, parseErr: Error, server: nat -> Reply<TVDBResults>, k: nat)
    requires Preflight(c, parseErr) == None
    requires k < 2 && FailedBefore(server, k) && server(k).TransportError?
    ensures SearchRun(c, parseErr, server) == Run(Returned(EmptyResults(), Err(server(k).msg)), k + 1)
  {
    if k == 1 {
      assert Verdict(server(0)).None?;
    }
  }

  /** Two failed attempts end the call: empty result, an error with empty text, two GETs. */
  lemma SearchGivesUpAfterTwo(c: Client, parseErr: Error, server: nat -> Reply<TVDBResults>)
    requires Preflight(c, parseErr) == None && FailedBefore(server, 2)
    ensures SearchRun(c, parseErr, server) == Run(Returned(EmptyResults(), Err("")), 2)
  {
    assert Verdict(server(0)).None? && Verdict(server(1)).None?;
  }

  /** Whatever the server would answer from the third GET on never matters. */
  lemma SearchNeverReachesThirdGet(c: Client, parseErr: Error, server: nat -> Reply<TVDBResults>,
                                   server': nat -> Reply<TVDBResults>)
    requires server(0) == server'(0) && server(1) == server'(1)
    ensures SearchRun(c, parseErr, server) == SearchRun(c, parseErr, server')
  {
  }

  // ------------------------------------------------------------ corrected

  /**
   * Attempts k, k+1, ... up to the third, one GET each; `msg` is the error text so
   * far, set to NoResultsMsg by every attempt that saw an empty list.
   */
  function AttemptsFrom(server: nat -> Reply<TVDBResults>, k: nat, msg: string): Run
    decreases 3 - k
  {
    if k >= 3 then Run(Returned(EmptyResults(), Err(msg)), k)
    else
      match Verdict(server(k))
      case Some(o) => Run(o, k + 1)
      case None => AttemptsFrom(server, k + 1, if EmptyList(server(k)) then NoResultsMsg else msg)
  }

  /** The course of a search call with one count per attempt and the message kept. */
  function IntendedRun(c: Client, parseErr: Error, server: nat -> Reply<TVDBResults>): Run {
    match Preflight(c, parseErr)
    case Some(o) => Run(o, 0)
    case None => AttemptsFrom(server, 0, "")
  }

  /**
   * SearchTVDB with `tries` counted once per attempt and the message assigned
   * to the variable that is returned: up to three GETs.
   */
  method SearchTVDBCorrected(c: Client, parseErr: Error, q: string, server: nat -> Reply<TVDBResults>)
    returns (r: Outcome<TVDBResults>, sent: seq<Request>)
    ensures Run(r, |sent|) == IntendedRun(c, parseErr, server)
    ensures |sent| <= 3
    ensures forall k :: 0 <= k < |sent| ==> GetAddr(c).Returned? && sent[k] == SearchRequest(GetAddr(c).value, q)
  {
    var errorMsg := "";
    var addr := GetAddr(c);
    if addr.Halted? {
      return Halted(addr.how), [];
    }
    if parseErr.Err? {
      return Halted(Panic(Operations.BadServerUrlMsg)), [];
    }
    var url := SearchRequest(addr.value, q);
    sent := [];
    var tries := 0;
    while tries < 3
      invariant tries == |sent| <= 3
      invariant forall k :: 0 <= k < |sent| ==> sent[k] == url
      invariant AttemptsFrom(server, tries, errorMsg) == AttemptsFrom(server, 0, "")
      decreases 3 - tries
    {
      var resp := server(tries);
      tries := tries + 1;
      sent := sent + [url];
      if resp.TransportError? {
        return Returned(EmptyResults(), Err(resp.msg)), sent;
      }
      if resp.status == StatusOK {
        if resp.decodeErr.Err? {
          return Halted(Fatal(resp.decodeErr.msg)), sent;
        }
        var val := resp.decoded;
        var resultCount := 0;
        for i := 0 to |val.data.results|
          invariant resultCount == i
        {
          resultCount := resultCount + 1;
        }
        if resultCount == 0 {
          errorMsg := NoResultsMsg;
        } else {
          return Returned(val, Nil), sent;
        }
      }
    }
    r := Returned(EmptyResults(), Err(errorMsg));
  }

  /**
   * With the correction, three failed attempts make three GETs, and the error
   * says "No results found ..." when one of them saw an empty list.
   */
  lemma IntendedGivesUpAfterThree(c: Client, parseErr: Error, server: nat -> Reply<TVDBResults>)
    requires Preflight(c, parseErr) == None && FailedBefore(server, 3)
    ensures IntendedRun(c, parseErr, server) == Run(Returned(EmptyResults(),
      Err(if EmptyList(server(0)) || EmptyList(server(1)) || EmptyList(server(2)) then NoResultsMsg else "")), 3)
  {
    assert Verdict(server(0)).None? && Verdict(server(1)).None? && Verdict(server(2)).None?;
  }

  /** A server that fails twice with status 500 and then has a hit. */
  function FlakyServer(k: nat): Reply<TVDBResults> {
    var hit := TVDBResults(TVDBData([TVDBResult("2008-01-20", false, 1, "Breaking Bad", 81189)]), "", "success");
    if k < 2 then Response(500, "", Nil, EmptyResults(), Nil) else Response(StatusOK, "", Nil, hit, Nil)
  }

  /** As written, the hit on the third GET is never fetched; with the correction it is returned. */
  lemma ThirdAttemptNeverMade(c: Client)
    requires ValidKey(c.apiKey)
    ensures SearchRun(c, Nil, FlakyServer) == Run(Returned(EmptyResults(), Err("")), 2)
    ensures IntendedRun(c, Nil, FlakyServer) == Run(Returned(FlakyServer(2).decoded, Nil), 3)
  {
    assert Verdict(FlakyServer(0)).None? && Verdict(FlakyServer(1)).None?;
  }

  /** A server whose every answer is a 200 with an empty list. */
  function EmptyServer(k: nat): Reply<TVDBResults> {
    Response(StatusOK, "{}", Nil, EmptyResults(), Nil)
  }

  /** As written, giving up reports an error with empty text; with the correction it carries NoResultsMsg. */
  lemma GiveUpMessageLost(c: Client)
    requires ValidKey(c.apiKey)
    ensures SearchRun(c, Nil, EmptyServer).outcome.err == Err("")
    ensures IntendedRun(c, Nil, EmptyServer).outcome.err == Err(NoResultsMsg)
  {
    assert Verdict(EmptyServer(0)).None? && EmptyList(EmptyServer(0));
  }
}
