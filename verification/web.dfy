// What both workers share: optional values, HTTP replies, the host's URL
// parser and the few string operations the routers use.
module Web {

  datatype Option<+T> = None | Some(value: T)

  // Status codes, as RFC 9110 defines them.
  const Ok := 200                   // section 15.3.1
  const MovedPermanently := 301     // section 15.4.2
  const Found := 302                // section 15.4.3
  const BadRequest := 400           // section 15.5.1
  const NotFound := 404             // section 15.5.5
  const MethodNotAllowed := 405     // section 15.5.6
  const InternalServerError := 500  // section 15.6.1

  /** A reply: its status and a body whose kinds each worker defines. */
  datatype Response<+B> = Response(status: int, body: B)

  /** The parts of a parsed URL the workers look at: `protocol` is the scheme
      followed by ':', and `href` is the URL's serialisation. */
  datatype ParsedUrl = ParsedUrl(protocol: string, href: string)

  /** The host's URL parser (the basic URL parser of the WHATWG URL Standard,
      with no base URL), as seen through `new URL(s)`: None where the
      constructor throws. Its internals are not modelled. */
  type UrlParser = string -> Option<ParsedUrl>

  /** `isValidUrl`: `new URL(s)` succeeds and gives the protocol `http:` or
      `https:`; a parse failure is caught and gives false. */
  function IsValidUrl(parse: UrlParser, s: string): (valid: bool)
    ensures valid <==> parse(s).Some? && parse(s).value.protocol in {"http:", "https:"}
    ensures parse(s).None? ==> !valid
  {
    match parse(s)
    case None => false
    case Some(u) => u.protocol == "http:" || u.protocol == "https:"
  }

  /** JavaScript truthiness of a string that may be missing. */
  predicate Truthy(v: Option<string>)
  {
    v.Some? && v.value != ""
  }

  /** `Map.get` / `KV.get`: the stored value, or None when the key is absent. */
  function Lookup(m: map<string, string>, key: string): (v: Option<string>)
    ensures v.Some? <==> key in m
    ensures v.Some? ==> v.value == m[key]
  {
    if key in m then Some(m[key]) else None
  }

  predicate StartsWith(s: string, prefix: string)
  {
    |prefix| <= |s| && s[..|prefix|] == prefix
  }

  /** The part of `s` before the first occurrence of `sep` (all of `s` when
      `sep` does not occur): the second piece of `(sep + s).split(sep)`. */
  function Before(s: string, sep: string): (r: string)
    requires sep != ""
    ensures |r| <= |s| && r == s[..|r|]
    ensures forall i :: 0 <= i < |r| ==> !StartsWith(s[i..], sep)
    ensures |r| == |s| || StartsWith(s[|r|..], sep)
  {
    if |s| < |sep| then s
    else if StartsWith(s, sep) then ""
    else
      var rest := Before(s[1..], sep);
      assert forall i :: 1 <= i <= |s| ==> s[i..] == s[1..][i - 1..];
      [s[0]] + rest
  }

  /** When `s` does not even contain the first character of `sep`, nothing
      is cut off. */
  lemma BeforeMissing(s: string, sep: string)
    requires sep != "" && sep[0] !in s
    ensures Before(s, sep) == s
  {
    forall i | 0 <= i < |s|
      ensures !StartsWith(s[i..], sep)
    {
      assert s[i] in s;
      assert |sep| <= |s| - i ==> s[i..][..|sep|][0] == s[i];
    }
  }
}
