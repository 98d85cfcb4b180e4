// Request authentication of the control plane (vps-control-api auth.ts):
// the device bearer token and the shared service token.
module Auth {
  import opened Wrappers
  import opened Strings

  /** An error reply: HTTP status code, `error` and `message`. */
  datatype Reply = Reply(code: nat, error: string, message: string)

  /** A request header as Fastify hands it over: absent, one string, or a
      repeated header's list of strings. */
  datatype Header = Absent | Text(text: string) | Repeated(texts: seq<string>)

  /** Position of the first space of `s`. */
  function SpaceIndex(s: string): (r: Option<nat>)
    ensures r.Some? ==> r.value < |s| && s[r.value] == ' ' && ' ' !in s[..r.value]
    ensures r.None? <==> ' ' !in s
  {
    if s == [] then None
    else if s[0] == ' ' then Some(0)
    else match SpaceIndex(s[1..])
      case None => None
      case Some(k) => Some(k + 1)
  }

  /** A word without spaces followed by anything: the first space of the
      whole lies after the word. */
  lemma {:induction false} SpaceIndexAfterWord(w: string, rest: string)
    requires ' ' !in w
    ensures SpaceIndex(w + rest) == match SpaceIndex(rest) case None => None case Some(k) => Some(|w| + k)
  {
    if w != [] {
      assert (w + rest)[1..] == w[1..] + rest;
      SpaceIndexAfterWord(w[1..], rest);
    } else {
      assert w + rest == rest;
    }
  }

  /** The first field of `s.split(" ")`. */
  function FirstField(s: string): (r: string)
    ensures ' ' !in r && StartsWith(s, r)
    ensures r == s || s[|r|] == ' '
  {
    match SpaceIndex(s)
    case None => s
    case Some(i) => s[..i]
  }

  /** The second field of `s.split(" ")`, `None` when `s` has no space. */
  function SecondField(s: string): (r: Option<string>)
    ensures r.None? <==> ' ' !in s
  {
    match SpaceIndex(s)
    case None => None
    case Some(i) => Some(FirstField(s[i + 1..]))
  }

  /** `extractBearer`: the token of an `authorization: <scheme> <token>`
      header whose scheme is "bearer" in any letter case. */
  function ExtractBearer(header: Option<string>): (r: Option<string>)
    ensures header.None? || header == Some("") ==> r.None?
    ensures header.Some? && ToLower(FirstField(header.value)) != "bearer" ==> r.None?
    ensures header.Some? && (SecondField(header.value) == None || SecondField(header.value) == Some("")) ==> r.None?
    ensures r.Some? ==> r.value != "" && ' ' !in r.value && Some(r.value) == SecondField(header.value)
  {
    if header.None? || header.value == "" then None
    else
      var h := header.value;
      if ToLower(FirstField(h)) != "bearer" then None
      else match SecondField(h)
        case None => None
        case Some(t) => if t == "" then None else Some(t)
  }

  /** A well-formed header yields exactly its token: `<scheme> <token>`,
      optionally followed by further space-separated text. */
  lemma BearerRoundTrip(scheme: string, token: string, rest: string)
    requires ToLower(scheme) == "bearer" && ' ' !in scheme
    requires token != "" && ' ' !in token
    requires rest == "" || rest[0] == ' '
    ensures ExtractBearer(Some(scheme + " " + token + rest)) == Some(token)
  {
    HeaderFields(scheme, token, rest);
    BearerOfFields(scheme + " " + token + rest, token);
  }

  /** The fields of `<scheme> <token><rest>`. */
  lemma HeaderFields(scheme: string, token: string, rest: string)
    requires ' ' !in scheme && ' ' !in token
    requires rest == "" || rest[0] == ' '
    ensures FirstField(scheme + " " + token + rest) == scheme
    ensures SecondField(scheme + " " + token + rest) == Some(token)
  {
    var h := scheme + " " + token + rest;
    var tail := " " + token + rest;
    assert h == scheme + tail;
    FirstFieldOfWord(scheme, tail);
    SecondFieldAfterWord(scheme, tail);
    assert h[|scheme| + 1..] == token + rest;
    FirstFieldOfWord(token, rest);
  }

  /** A header whose fields are a bearer scheme and a token. */
  lemma BearerOfFields(h: string, token: string)
    requires ToLower(FirstField(h)) == "bearer" && SecondField(h) == Some(token) && token != ""
    ensures ExtractBearer(Some(h)) == Some(token)
  {
  }

  /** A word ended by a space or by the end is the first field. */
  lemma FirstFieldOfWord(w: string, rest: string)
    requires ' ' !in w
    requires rest == "" || rest[0] == ' '
    ensures FirstField(w + rest) == w
  {
    SpaceIndexAfterWord(w, rest);
    if rest == "" {
      assert w + rest == w;
    } else {
      assert SpaceIndex(rest) == Some(0);
      assert (w + rest)[..|w|] == w;
    }
  }

  /** A word followed by a space: the second field starts after that space. */
  lemma SecondFieldAfterWord(w: string, rest: string)
    requires ' ' !in w && rest != "" && rest[0] == ' '
    ensures SecondField(w + rest) == Some(FirstField((w + rest)[|w| + 1..]))
  {
    SpaceIndexAfterWord(w, rest);
    assert SpaceIndex(rest) == Some(0);
  }

  /** What a route guard decided. */
  datatype Gate = Pass | Refuse(reply: Reply)

  /** `requireServiceToken`: with no configured token every request
      passes; otherwise only a single header equal to it, and any other
      request is refused with 401. */
  function RequireServiceToken(header: Header, expectedToken: string): (r: Gate)
    ensures expectedToken == "" ==> r.Pass?
    ensures expectedToken != "" ==> (r.Pass? <==> header == Text(expectedToken))
    ensures r.Refuse? ==> r.reply == Reply(401, "unauthorized", "invalid service token")
  {
    if expectedToken == "" then Pass
    else if header.Text? && header.text == expectedToken then Pass
    else Refuse(Reply(401, "unauthorized", "invalid service token"))
  }
}
