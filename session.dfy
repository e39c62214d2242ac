/**
 * Sessions (lib/session.ts): the user id derived from the Google account's
 * address, and the session cookie that carries it. The cookie store is a
 * map from cookie name to cookie that the jar's methods reassign.
 */
module Session {
  import opened Base

  newtype byte = x: int | 0 <= x < 256

  /** The characters the regular expression `[^a-zA-Z0-9]` does not match. */
  predicate IsAlnum(c: char)
  {
    ('a' <= c <= 'z') || ('A' <= c <= 'Z') || ('0' <= c <= '9')
  }

  /** The base64 digit for a six-bit value (RFC 4648, section 4). */
  function B64Char(v: nat): (c: char)
    requires v < 64
    ensures IsAlnum(c) <==> v < 62
  {
    if v < 26 then ('A' as int + v) as char
    else if v < 52 then ('a' as int + (v - 26)) as char
    else if v < 62 then ('0' as int + (v - 52)) as char
    else if v == 62 then '+'
    else '/'
  }

  /** The six-bit value of a base64 letter or digit. */
  function B64Value(c: char): (v: nat)
    ensures v < 64
  {
    if 'A' <= c <= 'Z' then c as int - 'A' as int
    else if 'a' <= c <= 'z' then c as int - 'a' as int + 26
    else if '0' <= c <= '9' then c as int - '0' as int + 52
    else 0
  }

  lemma B64ValueOfChar(v: nat)
    requires v < 62
    ensures B64Value(B64Char(v)) == v
  {
  }

  /** The four base64 digits of three bytes. */
  function Quad(b0: byte, b1: byte, b2: byte): (q: string)
    ensures |q| == 4
  {
    var x0, x1, x2 := b0 as int, b1 as int, b2 as int;
    [B64Char(x0 / 4), B64Char((x0 % 4) * 16 + x1 / 16), B64Char((x1 % 16) * 4 + x2 / 64), B64Char(x2 % 64)]
  }

  /** `Buffer.from(bytes).toString('base64')`: standard alphabet, padded with '='. */
  function Encode(b: seq<byte>): (s: string)
    ensures |s| == 4 * ((|b| + 2) / 3)
    decreases |b|
  {
    if b == [] then ""
    else if |b| == 1 then
      var x0 := b[0] as int;
      [B64Char(x0 / 4), B64Char((x0 % 4) * 16), '=', '=']
    else if |b| == 2 then
      var x0, x1 := b[0] as int, b[1] as int;
      [B64Char(x0 / 4), B64Char((x0 % 4) * 16 + x1 / 16), B64Char((x1 % 16) * 4), '=']
    else Quad(b[0], b[1], b[2]) + Encode(b[3..])
  }

  /** `s.replace(/[^a-zA-Z0-9]/g, '')` */
  function KeepAlnum(s: string): (r: string)
    ensures |r| <= |s|
    ensures forall i :: 0 <= i < |r| ==> IsAlnum(r[i])
    decreases |s|
  {
    if s == [] then []
    else (if IsAlnum(s[0]) then [s[0]] else []) + KeepAlnum(s[1..])
  }

  lemma {:induction false} KeepAlnumAppend(a: string, b: string)
    ensures KeepAlnum(a + b) == KeepAlnum(a) + KeepAlnum(b)
    decreases |a|
  {
    if a != [] {
      assert (a + b)[1..] == a[1..] + b;
      KeepAlnumAppend(a[1..], b);
    } else {
      assert a + b == b;
    }
  }

  lemma {:induction false} KeepAlnumKeeps(s: string)
    requires forall i :: 0 <= i < |s| ==> IsAlnum(s[i])
    ensures KeepAlnum(s) == s
    decreases |s|
  {
    if s != [] {
      KeepAlnumKeeps(s[1..]);
    }
  }

  /**
   * `createUserId(email)`: the base64 encoding of the address's bytes with
   * '+', '/' and '=' removed; only ASCII letters and digits remain, and it is
   * no longer than the encoding.
   */
  function CreateUserId(email: seq<byte>): (id: string)
    ensures forall i :: 0 <= i < |id| ==> IsAlnum(id[i])
    ensures |id| <= 4 * ((|email| + 2) / 3)
  {
    KeepAlnum(Encode(email))
  }

  /** A byte whose base64 digits never include '+' or '/': ASCII, and not '>', '?', '~' or DEL. */
  predicate SafeByte(x: byte)
  {
    x < 128 && x as int % 64 < 62
  }

  /** Reads an id back into bytes, four digits to three bytes, a final two or three digits to one or two bytes. */
  function DecodeId(s: string): (b: seq<byte>)
    decreases |s|
  {
    if |s| < 2 then []
    else
      var v0, v1 := B64Value(s[0]), B64Value(s[1]);
      var first := (v0 * 4 + v1 / 16) as byte;
      if |s| == 2 then [first]
      else
        var v2 := B64Value(s[2]);
        var second := ((v1 % 16) * 16 + v2 / 4) as byte;
        if |s| == 3 then [first, second]
        else
          var v3 := B64Value(s[3]);
          [first, second, ((v2 % 4) * 64 + v3) as byte] + DecodeId(s[4..])
  }

  /** The four digits of three safe bytes are all letters and digits, and decode to those bytes. */
  lemma QuadRoundTrip(b0: byte, b1: byte, b2: byte, rest: string)
    requires SafeByte(b0) && SafeByte(b1) && SafeByte(b2)
    ensures forall i :: 0 <= i < 4 ==> IsAlnum(Quad(b0, b1, b2)[i])
    ensures DecodeId(Quad(b0, b1, b2) + rest) == [b0, b1, b2] + DecodeId(rest)
  {
    var x0, x1, x2 := b0 as int, b1 as int, b2 as int;
    var v0, v1, v2, v3 := x0 / 4, (x0 % 4) * 16 + x1 / 16, (x1 % 16) * 4 + x2 / 64, x2 % 64;
    B64ValueOfChar(v0);
    B64ValueOfChar(v1);
    B64ValueOfChar(v2);
    B64ValueOfChar(v3);
    var s := Quad(b0, b1, b2) + rest;
    assert s[4..] == rest;
    assert v0 * 4 + v1 / 16 == x0;
    assert (v1 % 16) * 16 + v2 / 4 == x1;
    assert (v2 % 4) * 64 + v3 == x2;
  }

  /** Removing the non-alphanumerics from letters and digits followed by padding leaves the letters and digits. */
  lemma DropPadding(s: string, pad: string)
    requires forall i :: 0 <= i < |s| ==> IsAlnum(s[i])
    requires forall i :: 0 <= i < |pad| ==> pad[i] == '='
    ensures KeepAlnum(s + pad) == s
  {
    KeepAlnumAppend(s, pad);
    KeepAlnumKeeps(s);
    DropAll(pad);
  }

  lemma {:induction false} DropAll(pad: string)
    requires forall i :: 0 <= i < |pad| ==> pad[i] == '='
    ensures KeepAlnum(pad) == []
    decreases |pad|
  {
    if pad != [] {
      DropAll(pad[1..]);
    }
  }

  /** A last single byte: two digits and "==", of which the id keeps the digits. */
  lemma TailOneRoundTrip(b0: byte)
    requires SafeByte(b0)
    ensures DecodeId(KeepAlnum(Encode([b0]))) == [b0]
  {
    var x0 := b0 as int;
    var v0, v1 := x0 / 4, (x0 % 4) * 16;
    B64ValueOfChar(v0);
    B64ValueOfChar(v1);
    var digits := [B64Char(v0), B64Char(v1)];
    assert Encode([b0]) == digits + "==";
    DropPadding(digits, "==");
    assert v0 * 4 + v1 / 16 == x0;
  }

  /** Two last bytes: three digits and "=", of which the id keeps the digits. */
  lemma TailTwoRoundTrip(b0: byte, b1: byte)
    requires SafeByte(b0) && SafeByte(b1)
    ensures DecodeId(KeepAlnum(Encode([b0, b1]))) == [b0, b1]
  {
    var x0, x1 := b0 as int, b1 as int;
    var v0, v1, v2 := x0 / 4, (x0 % 4) * 16 + x1 / 16, (x1 % 16) * 4;
    B64ValueOfChar(v0);
    B64ValueOfChar(v1);
    B64ValueOfChar(v2);
    var digits := [B64Char(v0), B64Char(v1), B64Char(v2)];
    assert Encode([b0, b1]) == digits + "=";
    DropPadding(digits, "=");
    assert v0 * 4 + v1 / 16 == x0;
    assert (v1 % 16) * 16 + v2 / 4 == x1;
  }

  /** For an address of safe bytes the user id loses nothing: it decodes back to the address. */
  lemma {:induction false} UserIdRoundTrip(email: seq<byte>)
    requires forall i :: 0 <= i < |email| ==> SafeByte(email[i])
    ensures DecodeId(CreateUserId(email)) == email
    decreases |email|
  {
    if |email| == 1 {
      TailOneRoundTrip(email[0]);
      assert email == [email[0]];
    } else if |email| == 2 {
      TailTwoRoundTrip(email[0], email[1]);
      assert email == [email[0], email[1]];
    } else if |email| > 2 {
      var rest := email[3..];
      IdSplit(email);
      QuadRoundTrip(email[0], email[1], email[2], CreateUserId(rest));
      UserIdRoundTrip(rest);
      assert email == [email[0], email[1], email[2]] + rest;
    }
  }

  /** Three leading safe bytes contribute their four digits unchanged to the id. */
  lemma IdSplit(email: seq<byte>)
    requires |email| > 2 && SafeByte(email[0]) && SafeByte(email[1]) && SafeByte(email[2])
    ensures CreateUserId(email) == Quad(email[0], email[1], email[2]) + CreateUserId(email[3..])
  {
    var q := Quad(email[0], email[1], email[2]);
    assert Encode(email) == q + Encode(email[3..]);
    KeepAlnumAppend(q, Encode(email[3..]));
    QuadRoundTrip(email[0], email[1], email[2], []);
    KeepAlnumKeeps(q);
  }

  /** Distinct addresses of safe bytes get distinct user ids. */
  lemma UserIdInjective(a: seq<byte>, b: seq<byte>)
    requires forall i :: 0 <= i < |a| ==> SafeByte(a[i])
    requires forall i :: 0 <= i < |b| ==> SafeByte(b[i])
    requires CreateUserId(a) == CreateUserId(b)
    ensures a == b
  {
    UserIdRoundTrip(a);
    UserIdRoundTrip(b);
  }

  /**
   * Outside the safe bytes the id is not unique: "ab", "ab>" and "ab?"
   * (bytes 97 98, then 62 or 63) all become "YWI", because the '=' of the
   * first and the '+' or '/' of the others are removed.
   */
  lemma UserIdCollision()
    ensures CreateUserId([97, 98]) == CreateUserId([97, 98, 62]) == CreateUserId([97, 98, 63]) == "YWI"
  {
    assert Encode([97, 98]) == "YWI" + "=";
    assert Encode([97, 98, 62]) == Quad(97, 98, 62) + Encode([]);
    assert Encode([97, 98, 62]) == "YWI" + "+";
    assert Encode([97, 98, 63]) == Quad(97, 98, 63) + Encode([]);
    assert Encode([97, 98, 63]) == "YWI" + "/";
    KeepAlnumKeeps("YWI");
    KeepAlnumAppend("YWI", "=");
    KeepAlnumAppend("YWI", "+");
    KeepAlnumAppend("YWI", "/");
  }

  const SESSION_COOKIE_NAME := "gmail_assistant_session"

  /** Thirty days, in milliseconds. */
  const SESSION_DURATION := 30 * 24 * 60 * 60 * 1000

  /** The cookie's max-age in seconds: `SESSION_DURATION / 1000`, an exact division. */
  function SessionMaxAge(): (s: nat)
    ensures s * 1000 == SESSION_DURATION && s == 2592000
  {
    SESSION_DURATION / 1000
  }

  datatype Cookie = Cookie(value: string, httpOnly: bool, secure: bool, sameSite: string, maxAge: nat, path: string)

  class CookieJar {
    var cookies: map<string, Cookie>

    constructor (cookies: map<string, Cookie>)
      ensures this.cookies == cookies
    {
      this.cookies := cookies;
    }

    /** `getSession`: the cookie's value, or null when the cookie is absent or empty. */
    function GetSession(): (r: Option<string>)
      reads this
      ensures r.Some? <==> SESSION_COOKIE_NAME in cookies && cookies[SESSION_COOKIE_NAME].value != ""
      ensures r.Some? ==> r.value == cookies[SESSION_COOKIE_NAME].value
    {
      if SESSION_COOKIE_NAME in cookies && cookies[SESSION_COOKIE_NAME].value != ""
      then Some(cookies[SESSION_COOKIE_NAME].value)
      else None
    }

    /** `isAuthenticated` */
    predicate IsAuthenticated()
      reads this
    {
      GetSession() != None
    }

    /** `setSession`: an http-only, lax, site-wide cookie for thirty days, secure in production. */
    method SetSession(userId: string, production: bool)
      modifies this
      ensures cookies == old(cookies)[SESSION_COOKIE_NAME := Cookie(userId, true, production, "lax", SessionMaxAge(), "/")]
      ensures GetSession() == if userId != "" then Some(userId) else None
      ensures IsAuthenticated() <==> userId != ""
    {
      cookies := cookies[SESSION_COOKIE_NAME := Cookie(userId, true, production, "lax", SessionMaxAge(), "/")];
    }

    /** `clearSession`: the cookie is deleted, so no session remains. */
    method ClearSession()
      modifies this
      ensures cookies == old(cookies) - {SESSION_COOKIE_NAME}
      ensures GetSession() == None && !IsAuthenticated()
    {
      cookies := cookies - {SESSION_COOKIE_NAME};
    }
  }
}
