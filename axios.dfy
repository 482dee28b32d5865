/** The configured HTTP client: the `getCookie` helper, which reads one cookie
    out of the browser's `document.cookie` string with the regular expression
    `(^|;\s*)(NAME)=([^;]*)`, and the request interceptor that copies the
    `XSRF-TOKEN` cookie into the `X-XSRF-TOKEN` header. The cookie string is an
    input, and `decodeURIComponent` is a function-valued parameter. */
module Http {
  import opened Remote

  const XsrfCookie := "XSRF-TOKEN"
  const XsrfHeader := "X-XSRF-TOKEN"

  /** The characters of JavaScript's `\s` class. */
  predicate IsSpace(c: char) {
    c == ' ' || c == '\t' || c == '\n' || c == '\U{000B}' || c == '\U{000C}' || c == '\r' ||
    c == '\U{00A0}' || c == '\U{1680}' || ('\U{2000}' <= c <= '\U{200A}') || c == '\U{2028}' ||
    c == '\U{2029}' || c == '\U{202F}' || c == '\U{205F}' || c == '\U{3000}' || c == '\U{FEFF}'
  }

  /** `NAME=` is spelled out in `s` starting at index `q`. */
  predicate NameAt(s: string, name: string, q: nat) {
    q + |name| < |s| && s[q..q + |name|] == name && s[q + |name|] == '='
  }

  /** The regular expression's prefix `(^|;\s*)` can begin at `p` and end at `q`:
      either both are the start of the string, or `p` holds a `;` and only
      whitespace lies between it and `q`. */
  ghost predicate PrefixSpan(s: string, p: nat, q: nat) {
    (p == 0 && q == 0) ||
    (p < q <= |s| && s[p] == ';' && forall j :: p < j < q ==> IsSpace(s[j]))
  }

  /** `NAME=` occurs at `q` where the regular expression can see it. */
  ghost predicate Occurs(s: string, name: string, q: nat) {
    NameAt(s, name, q) && exists p: nat :: p <= q && PrefixSpan(s, p, q)
  }

  /** The length of the run of whitespace at `i`. */
  function SpaceRun(s: string, i: nat): (n: nat)
    requires i <= |s|
    ensures i + n <= |s|
    ensures forall j :: i <= j < i + n ==> IsSpace(s[j])
    ensures i + n == |s| || !IsSpace(s[i + n])
    decreases |s| - i
  {
    if i < |s| && IsSpace(s[i]) then 1 + SpaceRun(s, i + 1) else 0
  }

  /** `\s*` backtracking after a `;` at `b - 1`: tries `NAME=` after `k`, `k - 1`, ..., 0 spaces. */
  function Backtrack(s: string, name: string, b: nat, k: nat): (q: Option<nat>)
    ensures q.Some? ==> b <= q.value <= b + k && NameAt(s, name, q.value)
    ensures q.Some? ==> forall j :: q.value < j <= b + k ==> !NameAt(s, name, j)
    ensures q.None? ==> forall j :: b <= j <= b + k ==> !NameAt(s, name, j)
    decreases k
  {
    if NameAt(s, name, b + k) then Some(b + k)
    else if k == 0 then None
    else Backtrack(s, name, b, k - 1)
  }

  /** The match attempt that starts at `p`: where `NAME` begins, if the
      attempt succeeds. The `^` alternative is tried before `;\s*`. */
  function MatchAt(s: string, name: string, p: nat): (q: Option<nat>)
    requires p <= |s|
    ensures q.Some? ==> p <= q.value && NameAt(s, name, q.value) && PrefixSpan(s, p, q.value)
  {
    if p == 0 && NameAt(s, name, 0) then Some(0)
    else if p < |s| && s[p] == ';' then Backtrack(s, name, p + 1, SpaceRun(s, p + 1))
    else None
  }

  /** The start of the leftmost match at or after `p0`, as `String.prototype.match` finds it. */
  function FirstMatch(s: string, name: string, p0: nat): (p: Option<nat>)
    requires p0 <= |s|
    ensures p.Some? ==> p0 <= p.value <= |s| && MatchAt(s, name, p.value).Some?
    decreases |s| - p0
  {
    if MatchAt(s, name, p0).Some? then Some(p0)
    else if p0 == |s| then None
    else FirstMatch(s, name, p0 + 1)
  }

  /** `([^;]*)` at `i`: the text up to the next `;` or the end. */
  function ValueAt(s: string, i: nat): (v: string)
    requires i <= |s|
    ensures i + |v| <= |s| && s[i..i + |v|] == v
    ensures ';' !in v
    ensures i + |v| == |s| || s[i + |v|] == ';'
    decreases |s| - i
  {
    if i == |s| || s[i] == ';' then "" else [s[i]] + ValueAt(s, i + 1)
  }

  /** `getCookie(name)` over the cookie string: the third group of the first
      match, or null. It is null exactly when `NAME=` occurs neither at the
      start of the string nor right after a `;` and optional whitespace. */
  function GetCookie(cookie: string, name: string): (r: Option<string>)
    ensures r.None? <==> forall q: nat :: !Occurs(cookie, name, q)
    ensures r.Some? ==> ';' !in r.value
  {
    var first := FirstMatch(cookie, name, 0);
    if first.None? then
      NoMatchMeansNoOccurrence(cookie, name);
      None
    else
      var q := MatchAt(cookie, name, first.value).value;
      MatchIsOccurrence(cookie, name, first.value);
      Some(ValueAt(cookie, q + |name| + 1))
  }

  /** An attempt at `p` fails only if no occurrence's prefix starts at `p`. */
  lemma MatchAtComplete(s: string, name: string, p: nat, q: nat)
    requires p <= q && PrefixSpan(s, p, q) && NameAt(s, name, q)
    ensures MatchAt(s, name, p).Some?
  {
    if !(p == 0 && NameAt(s, name, 0)) {
      var run := SpaceRun(s, p + 1);
      assert q <= p + 1 + run;
    }
  }

  /** Every attempt the scan from `p0` passes over, or every attempt at all when it finds nothing, fails. */
  lemma {:induction false} FirstMatchSkips(s: string, name: string, p0: nat, p: nat)
    requires p0 <= p <= |s|
    requires FirstMatch(s, name, p0).None? || p < FirstMatch(s, name, p0).value
    ensures MatchAt(s, name, p).None?
    decreases p - p0
  {
    var first := FirstMatch(s, name, p0);
    if MatchAt(s, name, p0).Some? {
      assert false;
    } else if p0 < p {
      assert first == FirstMatch(s, name, p0 + 1);
      FirstMatchSkips(s, name, p0 + 1, p);
    }
  }

  /** A successful attempt finds an occurrence of `NAME=`. */
  lemma MatchIsOccurrence(s: string, name: string, p: nat)
    requires p <= |s| && MatchAt(s, name, p).Some?
    ensures Occurs(s, name, MatchAt(s, name, p).value)
  {
  }

  /** When `getCookie` yields a value, it is the text after the `=` of a
      visible `NAME=`, up to the next `;` or the end of the string. */
  lemma GetCookieFound(s: string, name: string)
    requires GetCookie(s, name).Some?
    ensures exists q: nat :: Occurs(s, name, q) && GetCookie(s, name).value == ValueAt(s, q + |name| + 1)
  {
    var p := FirstMatch(s, name, 0).value;
    var q := MatchAt(s, name, p).value;
    assert Occurs(s, name, q);
  }

  /** When the scan finds no match, `NAME=` occurs nowhere the regular expression can see it. */
  lemma NoMatchMeansNoOccurrence(s: string, name: string)
    requires FirstMatch(s, name, 0).None?
    ensures forall q: nat :: !Occurs(s, name, q)
  {
    forall q: nat | Occurs(s, name, q) ensures false {
      var p: nat :| p <= q && PrefixSpan(s, p, q);
      MatchAtComplete(s, name, p, q);
      FirstMatchSkips(s, name, 0, p);
    }
  }

  /** For a cookie name that does not start with whitespace (such as
      `XSRF-TOKEN`), the value comes from the first visible occurrence. */
  lemma GetCookieTakesFirst(s: string, name: string)
    requires name != [] && !IsSpace(name[0])
    ensures GetCookie(s, name).Some? ==>
              exists q: nat :: Occurs(s, name, q) && GetCookie(s, name).value == ValueAt(s, q + |name| + 1) &&
                               forall q': nat :: q' < q ==> !Occurs(s, name, q')
  {
    if FirstMatch(s, name, 0).Some? {
      var p := FirstMatch(s, name, 0).value;
      var q := MatchAt(s, name, p).value;
      assert Occurs(s, name, q);
      forall q': nat | q' < q && Occurs(s, name, q') ensures false {
        var p': nat :| p' <= q' && PrefixSpan(s, p', q');
        MatchAtComplete(s, name, p', q');
        // An earlier start p' would have stopped the scan. The same start
        // p' == p is ruled out because the greedy `\s*` ran over the
        // whitespace at q' and name[0] is not whitespace; a later one because
        // its `;` would lie in the whitespace between p and q.
        if p' < p {
          FirstMatchSkips(s, name, 0, p');
        }
      }
    }
  }

  /** In a cookie string without `;`, only a cookie at the very start can be found. */
  lemma OnlyFirstCookieWithoutSemicolon(s: string, name: string)
    requires ';' !in s && !NameAt(s, name, 0)
    ensures GetCookie(s, name) == None
  {
  }

  /** `MY-XSRF-TOKEN=v` is not the `XSRF-TOKEN` cookie. */
  lemma NoMatchInsideLongerName()
    ensures GetCookie("MY-XSRF-TOKEN=v", XsrfCookie) == None
  {
    var s := "MY-XSRF-TOKEN=v";
    assert s[0..10][0] != XsrfCookie[0];
    OnlyFirstCookieWithoutSemicolon(s, XsrfCookie);
  }

  /** With two `XSRF-TOKEN` cookies, the first one wins, and its value ends at the `;`. */
  lemma FirstOfTwoCookies()
    ensures GetCookie("XSRF-TOKEN=a1; XSRF-TOKEN=b2", XsrfCookie) == Some("a1")
  {
    var s := "XSRF-TOKEN=a1; XSRF-TOKEN=b2";
    assert s[0..10] == XsrfCookie;
    assert NameAt(s, XsrfCookie, 0);
    assert MatchAt(s, XsrfCookie, 0) == Some(0);
    assert FirstMatch(s, XsrfCookie, 0) == Some(0);
    assert s[11] == 'a' && s[12] == '1' && s[13] == ';';
    assert ValueAt(s, 13) == "";
    assert ValueAt(s, 12) == "1";
    assert ValueAt(s, 11) == [s[11]] + ValueAt(s, 12) == "a1";
    assert GetCookie(s, XsrfCookie) == Some(ValueAt(s, 11));
  }

  /** The request headers the interceptor leaves behind: `X-XSRF-TOKEN` is
      set to the decoded cookie when the lookup yields a non-empty value;
      otherwise the headers are left as they were. */
  function WithXsrfHeader(headers: map<string, string>, cookie: string, decode: string -> string): (r: map<string, string>)
    ensures forall k :: k != XsrfHeader ==> (k in r <==> k in headers)
    ensures forall k :: k != XsrfHeader && k in headers ==> r[k] == headers[k]
    ensures XsrfHeader in r <==> XsrfHeader in headers || (GetCookie(cookie, XsrfCookie).Some? && GetCookie(cookie, XsrfCookie).value != "")
    ensures GetCookie(cookie, XsrfCookie).Some? && GetCookie(cookie, XsrfCookie).value != "" ==>
              r[XsrfHeader] == decode(GetCookie(cookie, XsrfCookie).value)
    ensures GetCookie(cookie, XsrfCookie).None? || GetCookie(cookie, XsrfCookie).value == "" ==> r == headers
  {
    match GetCookie(cookie, XsrfCookie)
    case Some(token) => if token != "" then headers[XsrfHeader := decode(token)] else headers
    case None => headers
  }

  /** An outgoing request's configuration, which the interceptor edits in place. */
  class RequestConfig {
    var url: string
    var verb: string
    var data: string
    var withCredentials: bool
    var headers: map<string, string>

    constructor (url: string, verb: string, data: string, headers: map<string, string>)
      ensures this.url == url && this.verb == verb && this.data == data
      ensures this.headers == headers && withCredentials
    {
      this.url, this.verb, this.data := url, verb, data;
      this.headers, this.withCredentials := headers, true;
    }
  }

  /** The request interceptor: adds the CSRF header when the cookie is there
      and returns the same configuration object, with nothing else changed. */
  method InterceptRequest(config: RequestConfig, cookie: string, decode: string -> string) returns (r: RequestConfig)
    modifies config`headers
    ensures r == config
    ensures config.headers == WithXsrfHeader(old(config.headers), cookie, decode)
    ensures config.url == old(config.url) && config.verb == old(config.verb) && config.data == old(config.data)
    ensures config.withCredentials == old(config.withCredentials)
  {
    config.headers := WithXsrfHeader(config.headers, cookie, decode);
    r := config;
  }
}
