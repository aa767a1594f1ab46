/**
 * The address builder: the client's connection settings and the base URL of the
 * API (`client.GetAddr`), with the shape check it makes on the API key first.
 */
module Address {
  import opened Go
  import Decimal

  /**
   * The settings `NewClient` stores. They are never changed afterwards, so the
   * client is a value. (The unused `auth` flag and the HTTP client are not modelled.)
   */
  datatype Client = Client(hostname: string, port: int, apiKey: string, urlBase: string, ssl: bool)

  const KeyLength: nat := 32
  const NoKeyMsg := "No API key specified"
  const KeyLengthMsg := "API key length not 32"
  const KeyCharsMsg := "API key contains invalid characters"

  /** A character of the class `[a-z0-9]`. */
  predicate IsKeyChar(ch: char) {
    'a' <= ch <= 'z' || '0' <= ch <= '9'
  }

  predicate AllKeyChars(s: string) {
    forall i :: 0 <= i < |s| ==> IsKeyChar(s[i])
  }

  /** The key shape the client insists on: exactly 32 characters from `[a-z0-9]`. */
  predicate ValidKey(key: string) {
    |key| == KeyLength && AllKeyChars(key)
  }

  /**
   * Whether the unanchored pattern `[a-z0-9]{n}` matches somewhere in `s`, i.e.
   * whether `s` holds n consecutive key characters (what `regexp.MatchString`
   * answers for n = 32).
   */
  function HasKeyRun(s: string, n: nat): bool
    decreases |s|
  {
    if |s| < n then false
    else AllKeyChars(s[..n]) || (n < |s| && HasKeyRun(s[1..], n))
  }

  /** The n characters of `s` from index i are all key characters. */
  predicate KeyRunAt(s: string, i: nat, n: nat) {
    i + n <= |s| && AllKeyChars(s[i..i + n])
  }

  lemma WindowOfTail(s: string, i: nat, n: nat)
    requires i + n < |s|
    ensures s[1..][i..i + n] == s[i + 1..i + 1 + n]
  {
    var a, b := s[1..][i..i + n], s[i + 1..i + 1 + n];
    assert |a| == n == |b|;
    forall j | 0 <= j < n
      ensures a[j] == b[j]
    {
      assert a[j] == s[1..][i + j];
    }
  }

  /** The run search finds exactly the windows of n key characters. */
  lemma {:induction false} HasKeyRunWindows(s: string, n: nat)
    ensures HasKeyRun(s, n) <==> exists i: nat :: KeyRunAt(s, i, n)
    decreases |s|
  {
    if |s| < n {
    } else if AllKeyChars(s[..n]) {
      assert s[0..0 + n] == s[..n];
      assert KeyRunAt(s, 0, n);
    } else if n < |s| {
      HasKeyRunWindows(s[1..], n);
      if HasKeyRun(s, n) {
        var i: nat :| KeyRunAt(s[1..], i, n);
        WindowOfTail(s, i, n);
        assert KeyRunAt(s, i + 1, n);
      }
      if exists i: nat :: KeyRunAt(s, i, n) {
        var i: nat :| KeyRunAt(s, i, n);
        assert i != 0 by { assert s[0..0 + n] == s[..n]; }
        WindowOfTail(s, i - 1, n);
        assert KeyRunAt(s[1..], i - 1, n);
      }
    }
  }

  /**
   * Once the length is known to be 32, the unanchored match is a check of every
   * character: the only 32-long window is the key itself.
   */
  lemma KeyMatchIsWholeKey(key: string)
    requires |key| == KeyLength
    ensures HasKeyRun(key, KeyLength) <==> AllKeyChars(key)
  {
    HasKeyRunWindows(key, KeyLength);
    if AllKeyChars(key) {
      assert key[0..0 + KeyLength] == key;
      assert KeyRunAt(key, 0, KeyLength);
    }
  }

  /**
   * The path prefix as it is appended after `host:port`: nothing for an empty
   * base, the base itself when it starts with '/', otherwise the base with one '/'
   * in front.
   */
  function NormaliseBase(base: string): (p: string)
    ensures p == [] <==> base == []
    ensures p != [] ==> p[0] == '/' && (p == base || p == "/" + base)
    ensures base != [] && base[0] == '/' ==> p == base
    ensures base != [] && base[0] != '/' ==> p == "/" + base
  {
    if base == [] then []
    else if base[0] == '/' then base
    else "/" + base
  }

  /** Normalising a normalised prefix changes nothing. */
  lemma NormaliseIdempotent(base: string)
    ensures NormaliseBase(NormaliseBase(base)) == NormaliseBase(base)
  {
  }

  /** "foo" and "/foo" give the same prefix, and a leading '/' is never doubled or dropped otherwise. */
  lemma NormaliseAbsorbsOneSlash(base: string)
    ensures NormaliseBase("/" + base) == NormaliseBase(base) <==> (base != [] && base[0] != '/')
  {
    if base == [] {
      assert NormaliseBase("/" + base) == "/";
    } else if base[0] == '/' {
      assert |NormaliseBase("/" + base)| == |base| + 1;
    }
  }

  function Scheme(ssl: bool): string {
    if ssl then "https" else "http"
  }

  /**
   * `client.GetAddr`: the scheme, `host:port`, the normalised prefix, then
   * `/api/<key>/`. The key is checked after the address is assembled: missing,
   * then length, then characters, each a `log.Panic`.
   */
  function GetAddr(c: Client): (r: Outcome<string>)
    ensures r.Returned? <==> ValidKey(c.apiKey)
    ensures c.apiKey == [] ==> r == Halted(Panic(NoKeyMsg))
    ensures c.apiKey != [] && |c.apiKey| != KeyLength ==> r == Halted(Panic(KeyLengthMsg))
    ensures |c.apiKey| == KeyLength && !AllKeyChars(c.apiKey) ==> r == Halted(Panic(KeyCharsMsg))
    ensures r.Returned? ==>
      && r.err == Nil
      && r.value == Scheme(c.ssl) + "://" + c.hostname + ":" + Decimal.Itoa(c.port)
                    + NormaliseBase(c.urlBase) + "/api/" + c.apiKey + "/"
  {
    var serverUrl := "http" + (if c.ssl then "s" else "");
    var serverUrl := serverUrl + "://" + c.hostname + ":" + Decimal.Itoa(c.port);
    var serverUrl :=
      if c.urlBase == [] then serverUrl
      else if c.urlBase[0] == '/' then serverUrl + c.urlBase
      else serverUrl + "/" + c.urlBase;
    if c.apiKey == [] then Halted(Panic(NoKeyMsg))
    else if |c.apiKey| != KeyLength then Halted(Panic(KeyLengthMsg))
    else if !HasKeyRun(c.apiKey, KeyLength) then
      KeyMatchIsWholeKey(c.apiKey);
      Halted(Panic(KeyCharsMsg))
    else
      KeyMatchIsWholeKey(c.apiKey);
      Returned(serverUrl + "/api/" + c.apiKey + "/", Nil)
  }

  /** The key as it sits in an address: the 32 characters before the final '/'. */
  function KeyOf(addr: string): string
    requires |addr| >= KeyLength + 1
  {
    addr[|addr| - KeyLength - 1..|addr| - 1]
  }

  /**
   * Every address ends in `/api/<key>/`, so the key can be read back from it and
   * every operation's path can be appended directly.
   */
  lemma AddressCarriesKey(c: Client)
    requires GetAddr(c).Returned?
    ensures var a := GetAddr(c).value;
      |a| >= KeyLength + 6 && a[|a| - 1] == '/' && a[|a| - KeyLength - 6..|a| - KeyLength - 1] == "/api/"
      && KeyOf(a) == c.apiKey
  {
    var a := GetAddr(c).value;
    var head := Scheme(c.ssl) + "://" + c.hostname + ":" + Decimal.Itoa(c.port) + NormaliseBase(c.urlBase);
    assert a == head + "/api/" + c.apiKey + "/";
    assert a[|a| - KeyLength - 6..|a| - KeyLength - 1] == "/api/";
    assert KeyOf(a) == c.apiKey;
  }

  /** The scheme is "https" exactly when the client was made with ssl. */
  lemma SchemePrefix(ssl: bool, tail: string)
    requires tail != []
    ensures var a := Scheme(ssl) + "://" + tail;
      |a| >= 8 && (a[..8] == "https://" <==> ssl) && (!ssl ==> a[..7] == "http://")
  {
    var a := Scheme(ssl) + "://" + tail;
    if ssl {
      assert a[..8] == "https://" + tail[..0];
    } else {
      assert a[..7] == "http://";
      assert |a| >= 8 && a[..8][4] == ':' && "https://"[4] == 's';
    }
  }

  /** Everything of an address after "<scheme>://". */
  function AddressTail(c: Client): string {
    c.hostname + ":" + Decimal.Itoa(c.port) + NormaliseBase(c.urlBase) + "/api/" + c.apiKey + "/"
  }

  /** An address is its scheme, "://" and its tail. */
  lemma AddressSplits(c: Client)
    requires GetAddr(c).Returned?
    ensures GetAddr(c).value == Scheme(c.ssl) + "://" + AddressTail(c)
  {
    var s, h, p, b, k := Scheme(c.ssl) + "://", c.hostname, Decimal.Itoa(c.port), NormaliseBase(c.urlBase), c.apiKey;
    assert s + h + ":" + p + b + "/api/" + k + "/" == s + (h + ":" + p + b + "/api/" + k + "/");
  }

  lemma AddressScheme(c: Client)
    requires GetAddr(c).Returned?
    ensures var a := GetAddr(c).value;
      |a| >= 8 && (a[..8] == "https://" <==> c.ssl) && (!c.ssl ==> a[..7] == "http://")
  {
    AddressSplits(c);
    SchemePrefix(c.ssl, AddressTail(c));
  }

  /** A base given as "foo" or as "/foo" yields the very same address. */
  lemma BaseSlashInsensitive(c: Client, base: string)
    requires base != [] && base[0] != '/'
    ensures GetAddr(c.(urlBase := base)) == GetAddr(c.(urlBase := "/" + base))
  {
    NormaliseAbsorbsOneSlash(base);
  }
}
