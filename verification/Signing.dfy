/**
  The byte strings that are signed, and what a verifier's yes is worth. SHA-256,
  Ed25519 and HMAC are uninterpreted; where one is needed, a hypothesis says what
  of it is used. Strings stand for their encodings.
*/
module Signing {
  import opened Options
  import opened Text

  const MAX_AGE := 300

  // ----- int(text) -----

  predicate IsDigit(c: char) { '0' <= c <= '9' }

  /** Digits with single underscores between them; `inside` says a digit came just before. */
  function Digits(s: string, value: nat, inside: bool): Option<nat> {
    if s == "" then (if inside then Some(value) else None)
    else if IsDigit(s[0]) then Digits(s[1..], 10 * value + (s[0] as int - '0' as int), true)
    else if s[0] == '_' && inside then Digits(s[1..], value, false)
    else None
  }

  /** Python's int() on text: surrounding whitespace, one optional sign, digits. */
  function PyInt(text: string): Option<int> {
    var s := Strip(text);
    if s == "" then None
    else if s[0] == '-' || s[0] == '+' then
      match Digits(s[1..], 0, false)
      case Some(n) => var value: int := n; Some(if s[0] == '-' then -value else value)
      case None => None
    else
      match Digits(s, 0, false)
      case Some(n) => Some(n)
      case None => None
  }

  lemma {:induction false} DigitsAlphabet(s: string, value: nat, inside: bool)
    requires Digits(s, value, inside).Some?
    ensures forall c | c in s :: IsDigit(c) || c == '_'
  {
    if s != "" {
      assert s == [s[0]] + s[1..];
      if IsDigit(s[0]) {
        DigitsAlphabet(s[1..], 10 * value + (s[0] as int - '0' as int), true);
      } else {
        DigitsAlphabet(s[1..], value, false);
      }
    }
  }

  lemma {:induction false} StripLeftLoses(s: string)
    ensures forall c | c in s :: c in StripLeft(s) || IsSpace(c)
  {
    if s != "" && IsSpace(s[0]) {
      StripLeftLoses(s[1..]);
      assert s == [s[0]] + s[1..];
    }
  }

  lemma {:induction false} StripRightLoses(s: string)
    ensures forall c | c in s :: c in StripRight(s) || IsSpace(c)
  {
    if s != "" && IsSpace(s[|s| - 1]) {
      StripRightLoses(s[..|s| - 1]);
      assert s == s[..|s| - 1] + [s[|s| - 1]];
    }
  }

  /** A timestamp that int() accepts holds no colon. */
  lemma AcceptedHasNoColon(text: string)
    requires PyInt(text).Some?
    ensures Free(text, ':')
  {
    var s := Strip(text);
    StripLeftLoses(text);
    StripRightLoses(StripLeft(text));
    if s[0] == '-' || s[0] == '+' {
      DigitsAlphabet(s[1..], 0, false);
      assert s == [s[0]] + s[1..];
    } else {
      DigitsAlphabet(s, 0, false);
    }
  }

  /** A number's decimal text is read back as that number, whatever follows it. */
  lemma {:induction false} DigitsOfDecimal(n: nat, rest: string)
    ensures Digits(Decimal(n) + rest, 0, false) == Digits(rest, n, true)
  {
    if n < 10 {
      DigitOf(n, rest, 0, false);
    } else {
      DigitsOfDecimal(n / 10, Decimal(n % 10) + rest);
      assert Decimal(n) + rest == Decimal(n / 10) + (Decimal(n % 10) + rest);
      DigitOf(n % 10, rest, n / 10, true);
    }
  }

  lemma DigitOf(d: nat, rest: string, value: nat, inside: bool)
    requires d < 10
    ensures Digits(Decimal(d) + rest, value, inside) == Digits(rest, 10 * value + d, true)
  {
    assert (Decimal(d) + rest)[1..] == rest;
  }

  lemma {:induction false} DecimalIsDigits(n: nat)
    ensures Decimal(n) != "" && forall c | c in Decimal(n) :: IsDigit(c)
  {
    if n >= 10 {
      DecimalIsDigits(n / 10);
      DecimalIsDigits(n % 10);
    }
  }

  lemma DecimalIsRead(n: nat)
    ensures Digits(Decimal(n), 0, false) == Some(n)
    ensures Decimal(n) != "" && IsDigit(Decimal(n)[0])
    ensures Trimmed(Decimal(n)) && Trimmed("+" + Decimal(n)) && Trimmed("-" + Decimal(n))
  {
    var d := Decimal(n);
    DecimalIsDigits(n);
    assert d[0] in d && d[|d| - 1] in d;
    DigitsOfDecimal(n, "");
    assert d + "" == d;
  }

  /**
    What `int()` makes of a number's text: the number itself, with a plus as
    well, the negative with a minus, and the same with whitespace around.
  */
  lemma IntReadsDecimals(n: nat, l: string, r: string)
    requires AllSpace(l) && AllSpace(r)
    ensures PyInt(l + Decimal(n) + r) == Some(n)
    ensures PyInt(l + ("+" + Decimal(n)) + r) == Some(n)
    ensures PyInt(l + ("-" + Decimal(n)) + r) == Some(0 - n)
  {
    DecimalIsRead(n);
    hide Strip, Decimal, Digits;
    var d := Decimal(n);
    StripPadded(l, d, r);
    StripPadded(l, "+" + d, r);
    StripPadded(l, "-" + d, r);
    assert ("+" + d)[1..] == d && ("-" + d)[1..] == d;
  }

  lemma IntReadsDecimal(n: nat)
    ensures PyInt(Decimal(n)) == Some(n)
  {
    IntReadsDecimals(n, "", "");
    assert "" + Decimal(n) + "" == Decimal(n);
  }

  lemma DigitsStep(c: char, rest: string, value: nat, inside: bool)
    ensures Digits([c] + rest, value, inside) ==
      if IsDigit(c) then Digits(rest, 10 * value + (c as int - '0' as int), true)
      else if c == '_' && inside then Digits(rest, value, false)
      else None
  {
    assert ([c] + rest)[1..] == rest;
  }

  /** Between its digits a number may have single underscores, which do not count, and nothing else. */
  lemma UnderscoresAreSkipped(n: nat, d: nat, c: char, rest: string)
    requires d < 10 && !IsDigit(c)
    ensures Digits(Decimal(n) + ("_" + (Decimal(d) + rest)), 0, false) == Digits(rest, 10 * n + d, true)
    ensures Digits(Decimal(n) + "_", 0, false) == None
    ensures Digits(Decimal(n) + ("__" + rest), 0, false) == None
    ensures Digits("_" + rest, 0, false) == None
    ensures c != '_' ==> Digits(Decimal(n) + ([c] + rest), 0, false) == None
  {
    DigitsOfDecimal(n, "_" + (Decimal(d) + rest));
    DigitsOfDecimal(n, "_");
    DigitsOfDecimal(n, "__" + rest);
    DigitsOfDecimal(n, [c] + rest);
    DigitsStep('_', Decimal(d) + rest, n, true);
    DigitOf(d, rest, n, false);
    DigitsStep('_', "", n, true);
    DigitsStep('_', "_" + rest, n, true);
    assert "__" + rest == "_" + ("_" + rest);
    DigitsStep('_', rest, n, false);
    DigitsStep('_', rest, 0, false);
    DigitsStep(c, rest, n, true);
    assert "_" == ['_'] + "";
    hide Digits, Decimal;
  }

  // ----- requests and replies -----

  function Upper(s: string): string {
    if s == "" then ""
    else [if 'a' <= s[0] <= 'z' then (s[0] as int - 32) as char else s[0]] + Upper(s[1..])
  }

  lemma {:induction false} UpperConcat(a: string, b: string)
    ensures Upper(a + b) == Upper(a) + Upper(b)
    ensures |Upper(a)| == |a|
  {
    if a == "" {
      assert a + b == b;
    } else {
      UpperConcat(a[1..], b);
      assert (a + b)[1..] == a[1..] + b;
    }
  }

  /** Small letters become the capitals of the same place in the alphabet; nothing else changes. */
  lemma {:induction false} UpperAt(s: string, k: nat)
    requires k < |s|
    ensures |Upper(s)| == |s|
    ensures 'a' <= s[k] <= 'z' ==> Upper(s)[k] as int - 'A' as int == s[k] as int - 'a' as int
    ensures !('a' <= s[k] <= 'z') ==> Upper(s)[k] == s[k]
  {
    UpperConcat(s, "");
    if k > 0 {
      UpperAt(s[1..], k - 1);
    }
  }

  lemma {:induction false} UpperKeepsFree(s: string)
    ensures Free(Upper(s), '\n') <==> Free(s, '\n')
  {
    if s != "" {
      UpperKeepsFree(s[1..]);
      assert s == [s[0]] + s[1..];
    }
  }

  /** A hex digest of any body holds no newline. */
  ghost predicate HexDigest(digest: string -> string) {
    forall body :: Free(digest(body), '\n')
  }

  ghost predicate NoCollision(digest: string -> string) {
    forall a, b :: digest(a) == digest(b) ==> a == b
  }

  function Fields(method_: string, path: string, timestamp: string, digest: string): seq<string> {
    ["v1", Upper(method_), path, timestamp, digest]
  }

  /** What a request signs. */
  function Canonical(method_: string, path: string, timestamp: string, digest: string): string {
    Join(Fields(method_, path, timestamp, digest), '\n')
  }

  /** What a reply signs. */
  function ReplyText(timestamp: string, digest: string): string {
    Join(["v1-reply", timestamp, digest], '\n')
  }

  predicate OneLine(method_: string, path: string, timestamp: string) {
    Free(method_, '\n') && Free(path, '\n') && Free(timestamp, '\n')
  }

  lemma FieldsAreFree(method_: string, path: string, timestamp: string, digest: string)
    requires OneLine(method_, path, timestamp) && Free(digest, '\n')
    ensures AllFree(Fields(method_, path, timestamp, digest), '\n')
  {
    UpperKeepsFree(method_);
  }

  /** The method and the headers of an HTTP request hold no newline; its path may, as `%0A`. */
  predicate Carried(method_: string, timestamp: string) { Free(method_, '\n') && Free(timestamp, '\n') }

  /**
    Two requests sign the same bytes exactly when route, time and digest agree,
    up to the case of the method. If the first is one-line, the second may hold
    newlines anywhere; if HTTP carries both, their paths may hold any.
  */
  lemma RequestsDecodeUniquely(m: string, p: string, ts: string, d: string,
                               m': string, p': string, ts': string, d': string)
    requires Carried(m, ts) && Free(d, '\n')
    requires Free(p, '\n') || (Carried(m', ts') && Free(d', '\n'))
    ensures Canonical(m, p, ts, d) == Canonical(m', p', ts', d')
      <==> Upper(m) == Upper(m') && p == p' && ts == ts' && d == d'
  {
    if Canonical(m, p, ts, d) == Canonical(m', p', ts', d') {
      if Free(p, '\n') {
        var a, b := Fields(m, p, ts, d), Fields(m', p', ts', d');
        FieldsAreFree(m, p, ts, d);
        JoinInjective(a, b, '\n');
        assert a[1] == b[1] && a[2] == b[2] && a[3] == b[3] && a[4] == b[4];
      } else {
        PartsOfCarried(m, p, ts, d);
        PartsOfCarried(m', p', ts', d');
        SameParts([Upper(m)], Split(p, '\n'), [ts, d], [Upper(m')], Split(p', '\n'), [ts', d']);
        assert [ts, d][0] == [ts', d'][0] && [ts, d][1] == [ts', d'][1];
      }
    }
  }

  /** The bytes that a request signs, written out. */
  lemma CanonicalText(m: string, p: string, ts: string, d: string)
    ensures Canonical(m, p, ts, d) == "v1\n" + Upper(m) + "\n" + p + "\n" + ts + "\n" + d
    ensures Canonical(m, p, ts, d)
      == ("v1" + ['\n'] + Upper(m)) + ['\n'] + (p + ['\n'] + (ts + ['\n'] + d))
  {
    hide Upper;
    var u, nl := Upper(m), ['\n'];
    assert Join([ts, d], '\n') == ts + nl + d;
    assert Join([p, ts, d], '\n') == p + nl + (ts + nl + d);
    assert Join([u, p, ts, d], '\n') == u + nl + (p + nl + (ts + nl + d));
    assert Fields(m, p, ts, d)[1..] == [u, p, ts, d];
  }

  /** The bytes that a reply signs, written out. */
  lemma ReplyIsText(ts: string, d: string)
    ensures ReplyText(ts, d) == "v1-reply\n" + ts + "\n" + d
  {
    assert Join([ts, d], '\n') == ts + ['\n'] + d;
  }

  /** Around whatever the path is taken apart into stand the method, the timestamp and the digest. */
  lemma PartsOfCarried(m: string, p: string, ts: string, d: string)
    requires Carried(m, ts) && Free(d, '\n')
    ensures Split(Canonical(m, p, ts, d), '\n') == ["v1"] + ([Upper(m)] + Split(p, '\n') + [ts, d])
    ensures |Canonical(m, p, ts, d)| == 6 + |Upper(m)| + |p| + |ts| + |d|
    ensures Canonical(m, p, ts, d)[4 + |Upper(m)|..4 + |Upper(m)| + |p|] == p
  {
    CanonicalText(m, p, ts, d);
    UpperKeepsFree(m);
    SplitOfFree("v1", '\n');
    SplitOfFree(Upper(m), '\n');
    SplitOfFree(ts, '\n');
    SplitOfFree(d, '\n');
    hide Split, Canonical, Upper;
    var route, end := "v1" + ['\n'] + Upper(m), ts + ['\n'] + d;
    SplitAt("v1", Upper(m), '\n');
    SplitAt(route, p + ['\n'] + end, '\n');
    SplitAt(p, end, '\n');
    SplitAt(ts, d, '\n');
  }

  lemma SameParts(a: seq<string>, b: seq<string>, c: seq<string>, a': seq<string>, b': seq<string>, c': seq<string>)
    requires |a| == |a'| && |c| == |c'| && ["v1"] + (a + b + c) == ["v1"] + (a' + b' + c')
    ensures a == a' && b == b' && c == c'
  {
    var s, s' := ["v1"] + (a + b + c), ["v1"] + (a' + b' + c');
    assert |b| == |b'|;
    assert a == s[1..1 + |a|] && a' == s'[1..1 + |a|];
    assert b == s[1 + |a|..1 + |a| + |b|] && b' == s'[1 + |a|..1 + |a| + |b|];
    assert c == s[1 + |a| + |b|..] && c' == s'[1 + |a| + |b|..];
  }

  /** A different request for the same body that signs the same bytes. */
  predicate Twin(m: string, p: string, ts: string, d: string, m': string, p': string, ts': string) {
    && Canonical(m', p', ts', d) == Canonical(m, p, ts, d)
    && (Upper(m') != Upper(m) || p' != p || ts' != ts)
  }

  /** A request has no twin if and only if its own fields are one-line. */
  lemma TwinExactly(m: string, p: string, ts: string, d: string)
    requires Free(d, '\n')
    ensures OneLine(m, p, ts) <==> !exists m', p', ts' :: Twin(m, p, ts, d, m', p', ts')
  {
    if OneLine(m, p, ts) {
      forall m', p', ts' ensures !Twin(m, p, ts, d, m', p', ts') {
        RequestsDecodeUniquely(m, p, ts, d, m', p', ts', d);
      }
    } else if !Free(p, '\n') {
      var a, b := Cut(p);
      NewlinesConfuse(m, a, b, ts, d);
      assert Twin(m, p, ts, d, m, a, b + "\n" + ts);
    } else if !Free(ts, '\n') {
      var a, b := Cut(ts);
      NewlinesConfuse(m, p, a, b, d);
      assert Twin(m, p, ts, d, m, p + "\n" + a, b);
    } else {
      var a, b := Cut(m);
      MethodsConfuse(a, b, p, ts, d);
      assert Twin(m, p, ts, d, a, Upper(b) + "\n" + p, ts);
    }
  }

  /** A text with a newline is two texts around it. */
  lemma Cut(s: string) returns (a: string, b: string)
    requires !Free(s, '\n')
    ensures s == a + "\n" + b
  {
    var i :| 0 <= i < |s| && s[i] == '\n';
    a, b := s[..i], s[i + 1..];
  }

  lemma UpperAround(a: string, b: string)
    ensures Upper(a + "\n" + b) == Upper(a) + ['\n'] + Upper(b)
  {
    UpperConcat(a + "\n", b);
    UpperConcat(a, "\n");
    assert Upper("\n") == "\n";
  }

  lemma MethodsConfuse(a: string, b: string, p: string, ts: string, d: string)
    ensures Canonical(a + "\n" + b, p, ts, d) == Canonical(a, Upper(b) + "\n" + p, ts, d)
  {
    hide Upper, Join;
    UpperAround(a, b);
    MoveSeparator(["v1"], Upper(a), Upper(b), p, [ts, d], '\n');
    assert Fields(a + "\n" + b, p, ts, d) == ["v1"] + [Upper(a) + ['\n'] + Upper(b), p] + [ts, d];
    assert Fields(a, Upper(b) + "\n" + p, ts, d) == ["v1"] + [Upper(a), Upper(b) + ['\n'] + p] + [ts, d];
  }

  /**
    The same for replies, which carry no route. Between replies to real bodies,
    whose digests hold no newline, it holds of any timestamps.
  */
  lemma RepliesDecodeUniquely(ts: string, d: string, ts': string, d': string)
    requires Free(d, '\n') && (Free(ts, '\n') || Free(d', '\n'))
    ensures ReplyText(ts, d) == ReplyText(ts', d') <==> ts == ts' && d == d'
  {
    if ReplyText(ts, d) == ReplyText(ts', d') {
      var a, b := ["v1-reply", ts, d], ["v1-reply", ts', d'];
      if Free(ts, '\n') {
        JoinInjective(a, b, '\n');
        assert a[1] == b[1] && a[2] == b[2];
      } else {
        ReplyEndsWithDigest(ts, d);
        ReplyEndsWithDigest(ts', d');
      }
    }
  }

  /** The digest is what follows the last newline, and the timestamp what is left. */
  lemma ReplyEndsWithDigest(ts: string, d: string)
    requires Free(d, '\n')
    ensures var text := ReplyText(ts, d);
      var parts := Split(text, '\n');
      parts[|parts| - 1] == d && |text| == 10 + |ts| + |d| && text[9..9 + |ts|] == ts
  {
    assert Join([ts, d], '\n') == ts + ['\n'] + d;
    var front := "v1-reply" + ['\n'] + ts;
    assert ReplyText(ts, d) == front + ['\n'] + d;
    SplitAt(front, d, '\n');
    SplitOfFree(d, '\n');
    hide Split;
  }

  /** Whatever the fields hold, newlines included, no request signs what a reply signs. */
  lemma RequestIsNeverReply(m: string, p: string, ts: string, d: string, ts': string, d': string)
    ensures Canonical(m, p, ts, d) != ReplyText(ts', d')
  {
    var request, reply := Canonical(m, p, ts, d), ReplyText(ts', d');
    var rest := Join(Fields(m, p, ts, d)[1..], '\n');
    var rest' := Join(["v1-reply", ts', d'][1..], '\n');
    assert request == "v1" + ['\n'] + rest && reply == "v1-reply" + ['\n'] + rest';
    assert request[2] == '\n' && reply[2] == '-';
  }

  /** A newline moved from the path to the timestamp signs the same bytes. */
  lemma NewlinesConfuse(m: string, a: string, b: string, c: string, d: string)
    ensures Canonical(m, a + "\n" + b, c, d) == Canonical(m, a, b + "\n" + c, d)
  {
    var front := ["v1", Upper(m)];
    MoveSeparator(front, a, b, c, [d], '\n');
    assert Fields(m, a + "\n" + b, c, d) == front + [a + ['\n'] + b, c] + [d];
    assert Fields(m, a, b + "\n" + c, d) == front + [a, b + ['\n'] + c] + [d];
  }

  // ----- verifying -----

  type Bytes = seq<int>

  /** Base64 that answers nothing for malformed text, Ed25519, and the body digest. */
  datatype Crypto = Crypto(
    decode: string -> Bytes, check: (Bytes, string, Bytes) -> bool, digest: string -> string)

  /** Under this key a signature is good for one message only. */
  ghost predicate Binding(c: Crypto, key: Bytes) {
    forall a, b, signature :: c.check(key, a, signature) && c.check(key, b, signature) ==> a == b
  }

  predicate Fresh(timestamp: string, now: real, maxAge: int) {
    match PyInt(timestamp)
    case Some(n) => -(maxAge as real) <= now - n as real <= maxAge as real
    case None => false
  }

  predicate GoodSignature(c: Crypto, publicKey: string, message: string, signature: string) {
    var key, raw := c.decode(publicKey), c.decode(signature);
    |key| == 32 && |raw| == 64 && c.check(key, message, raw)
  }

  predicate Verify(c: Crypto, publicKey: string, method_: string, path: string, timestamp: string,
                   signature: string, body: string, now: real, maxAge: int)
  {
    && publicKey != "" && timestamp != "" && signature != ""
    && Fresh(timestamp, now, maxAge)
    && GoodSignature(c, publicKey, Canonical(method_, path, timestamp, c.digest(body)), signature)
  }

  predicate VerifyReply(c: Crypto, publicKey: string, timestamp: string,
                        signature: string, body: string, now: real, maxAge: int)
  {
    && publicKey != "" && timestamp != "" && signature != ""
    && Fresh(timestamp, now, maxAge)
    && GoodSignature(c, publicKey, ReplyText(timestamp, c.digest(body)), signature)
  }

  /**
    A signature accepted for one request is accepted for another, of whatever
    form, exactly if that one is fresh and signs the same bytes; and never for
    a reply.
  */
  lemma AcceptedAgainExactly(c: Crypto, key: string, signature: string,
                             m: string, p: string, ts: string, body: string, now: real,
                             m': string, p': string, ts': string, body': string, now': real, maxAge: int)
    requires Binding(c, c.decode(key))
    requires Verify(c, key, m, p, ts, signature, body, now, maxAge)
    ensures Verify(c, key, m', p', ts', signature, body', now', maxAge)
      <==> Fresh(ts', now', maxAge) && Canonical(m', p', ts', c.digest(body')) == Canonical(m, p, ts, c.digest(body))
    ensures !VerifyReply(c, key, ts', signature, body', now', maxAge)
  {
    RequestIsNeverReply(m, p, ts, c.digest(body), ts', c.digest(body'));
    assert PyInt("").None?;
  }

  /**
    A signature accepted for a request is good for no other route, time or body,
    and never for a reply, however often it is shown: whatever the other request
    holds, if the signed one is one-line, and whatever both paths hold, if HTTP
    carries both.
  */
  lemma SignatureIsForOneRequest(c: Crypto, key: string, signature: string,
                                 m: string, p: string, ts: string, body: string, now: real,
                                 m': string, p': string, ts': string, body': string, now': real, maxAge: int)
    requires Binding(c, c.decode(key)) && HexDigest(c.digest) && NoCollision(c.digest)
    requires Carried(m, ts) && (Free(p, '\n') || Carried(m', ts'))
    requires Verify(c, key, m, p, ts, signature, body, now, maxAge)
    ensures Verify(c, key, m', p', ts', signature, body', now', maxAge)
      <==> Upper(m') == Upper(m) && p' == p && ts' == ts && body' == body && Fresh(ts', now', maxAge)
    ensures !VerifyReply(c, key, ts', signature, body', now', maxAge)
  {
    AcceptedAgainExactly(c, key, signature, m, p, ts, body, now, m', p', ts', body', now', maxAge);
    RequestsDecodeUniquely(m, p, ts, c.digest(body), m', p', ts', c.digest(body'));
  }

  /**
    Beyond that it fails: `int()` strips a newline, so a request whose path ends
    with one is accepted exactly when the same request with the newline in front
    of the timestamp is, under the same signature.
  */
  lemma TwinIsAccepted(c: Crypto, key: string, signature: string,
                       m: string, a: string, ts: string, body: string, now: real, maxAge: int)
    ensures Verify(c, key, m, a + "\n", ts, signature, body, now, maxAge)
      <==> Verify(c, key, m, a, "\n" + ts, signature, body, now, maxAge)
  {
    assert a + "\n" + "" == a + "\n" && "" + "\n" + ts == "\n" + ts;
    NewlinesConfuse(m, a, "", ts, c.digest(body));
    assert ("\n" + ts)[1..] == ts;
    assert Strip("\n" + ts) == Strip(ts);
    assert Strip("") == "";
  }

  /** A decimal timestamp is fresh from `maxAge` before its moment to `maxAge` after, both ends included. */
  lemma FreshExactly(t: nat, now: real, maxAge: int)
    ensures Fresh(Decimal(t), now, maxAge)
      <==> t as real - maxAge as real <= now && now <= t as real + maxAge as real
  {
    IntReadsDecimal(t);
  }

  /**
    A correctly signed request stamped with the decimal text of `t` is accepted
    over exactly that span: correctly signed are the five lines of the request,
    under a key of 32 bytes, by a signature of 64.
  */
  lemma SignedRequestIsAccepted(c: Crypto, key: string, m: string, p: string, t: nat,
                                signature: string, body: string, now: real, maxAge: int)
    requires key != "" && signature != "" && |c.decode(key)| == 32 && |c.decode(signature)| == 64
    requires c.check(c.decode(key),
                     "v1\n" + Upper(m) + "\n" + p + "\n" + Decimal(t) + "\n" + c.digest(body), c.decode(signature))
    ensures Verify(c, key, m, p, Decimal(t), signature, body, now, maxAge)
      <==> t as real - maxAge as real <= now && now <= t as real + maxAge as real
  {
    DecimalIsRead(t);
    FreshExactly(t, now, maxAge);
    CanonicalText(m, p, Decimal(t), c.digest(body));
    hide Decimal, Canonical, Fresh, Upper;
  }

  /** The same for a reply and its three lines. */
  lemma SignedReplyIsAccepted(c: Crypto, key: string, t: nat, signature: string, body: string, now: real, maxAge: int)
    requires key != "" && signature != "" && |c.decode(key)| == 32 && |c.decode(signature)| == 64
    requires c.check(c.decode(key), "v1-reply\n" + Decimal(t) + "\n" + c.digest(body), c.decode(signature))
    ensures VerifyReply(c, key, Decimal(t), signature, body, now, maxAge)
      <==> t as real - maxAge as real <= now && now <= t as real + maxAge as real
  {
    DecimalIsRead(t);
    FreshExactly(t, now, maxAge);
    ReplyIsText(Decimal(t), c.digest(body));
    hide Decimal, ReplyText, Fresh;
  }

  /** And nothing else is accepted: a yes means a number for a timestamp, freshness and a check of those lines. */
  lemma AcceptedMeansSigned(c: Crypto, key: string, m: string, p: string, ts: string,
                            signature: string, body: string, now: real, maxAge: int)
    requires Verify(c, key, m, p, ts, signature, body, now, maxAge)
    ensures PyInt(ts).Some? && |c.decode(key)| == 32 && |c.decode(signature)| == 64
    ensures var t := PyInt(ts).value as real; t - maxAge as real <= now <= t + maxAge as real
    ensures c.check(c.decode(key),
                    "v1\n" + Upper(m) + "\n" + p + "\n" + ts + "\n" + c.digest(body), c.decode(signature))
  {
    CanonicalText(m, p, ts, c.digest(body));
    hide PyInt, Canonical, Upper;
  }

  lemma AcceptedReplyMeansSigned(c: Crypto, key: string, ts: string,
                                 signature: string, body: string, now: real, maxAge: int)
    requires VerifyReply(c, key, ts, signature, body, now, maxAge)
    ensures PyInt(ts).Some? && |c.decode(key)| == 32 && |c.decode(signature)| == 64
    ensures var t := PyInt(ts).value as real; t - maxAge as real <= now <= t + maxAge as real
    ensures c.check(c.decode(key), "v1-reply\n" + ts + "\n" + c.digest(body), c.decode(signature))
  {
    ReplyIsText(ts, c.digest(body));
    hide PyInt, ReplyText;
  }

  /** A captured request is accepted over a span of at most twice the maximal age. */
  lemma ReplayWindow(c: Crypto, key: string, m: string, p: string, ts: string,
                     signature: string, body: string, now: real, later: real, maxAge: int)
    requires Verify(c, key, m, p, ts, signature, body, now, maxAge)
    ensures Verify(c, key, m, p, ts, signature, body, later, maxAge) <==> Fresh(ts, later, maxAge)
    ensures Verify(c, key, m, p, ts, signature, body, later, maxAge) ==> later - now <= (2 * maxAge) as real
  {
  }

  // ----- Slack's requests -----

  /** What Slack signs. */
  function Base(timestamp: string, body: string): string { "v0:" + timestamp + ":" + body }

  lemma ColonSplits(a: string, b: string, x: string, y: string)
    requires Free(a, ':') && Free(b, ':') && a + ":" + x == b + ":" + y
    ensures a == b && x == y
  {
    UpToColon(a, x);
    UpToColon(b, y);
    assert x == (a + ":" + x)[|a| + 1..] && y == (b + ":" + y)[|b| + 1..];
  }

  /** A text up to its first colon is the first part of its split. */
  lemma UpToColon(a: string, x: string)
    requires Free(a, ':')
    ensures Split(a + ":" + x, ':')[0] == a
  {
    SplitAt(a, x, ':');
    SplitOfFree(a, ':');
  }

  /** With timestamps that int() accepts, the signed string splits in one way only. */
  lemma SlackDecodesUniquely(ts: string, body: string, ts': string, body': string)
    requires PyInt(ts).Some? && PyInt(ts').Some?
    ensures Base(ts, body) == Base(ts', body') <==> ts == ts' && body == body'
  {
    AcceptedHasNoColon(ts);
    AcceptedHasNoColon(ts');
    if Base(ts, body) == Base(ts', body') {
      assert Base(ts, body)[3..] == ts + ":" + body && Base(ts', body')[3..] == ts' + ":" + body';
      ColonSplits(ts, ts', body, body');
    }
  }

  /** Without that the split is not unique: the first colon of the body could end the timestamp. */
  lemma ColonsConfuse(a: string, b: string, body: string)
    ensures Base(a + ":" + b, body) == Base(a, b + ":" + body)
  {
  }

  function SlackSign(mac: (string, string) -> string, body: string, timestamp: string, secret: string): string {
    "v0=" + mac(secret, Base(timestamp, body))
  }

  predicate IsValid(mac: (string, string) -> string, body: string, timestamp: string,
                    signature: string, secret: string, now: real)
  {
    && secret != "" && timestamp != "" && signature != ""
    && Fresh(timestamp, now, MAX_AGE)
    && SlackSign(mac, body, timestamp, secret) == signature
  }

  /** The MAC under one secret tells messages apart. */
  ghost predicate Keyed(mac: (string, string) -> string, secret: string) {
    forall a, b :: mac(secret, a) == mac(secret, b) ==> a == b
  }

  /**
    What the signer makes is accepted while fresh, and a signature made for one
    timestamp and body is accepted for no other.
  */
  lemma SlackSignatureIsForOneRequest(mac: (string, string) -> string, secret: string,
                                      ts: string, body: string, ts': string, body': string, now: real)
    requires Keyed(mac, secret) && PyInt(ts).Some?
    ensures IsValid(mac, body', ts', SlackSign(mac, body, ts, secret), secret, now)
      <==> secret != "" && ts' == ts && body' == body && Fresh(ts, now, MAX_AGE)
  {
    assert SlackSign(mac, body, ts, secret)[3..] == mac(secret, Base(ts, body));
    assert SlackSign(mac, body', ts', secret)[3..] == mac(secret, Base(ts', body'));
    if PyInt(ts').Some? {
      SlackDecodesUniquely(ts, body, ts', body');
    }
    assert ts != "" by { assert Strip("") == ""; }
  }

  /**
    A request that Slack signed over "v0", the decimal text of `t` and the body
    is accepted from 300 seconds before `t` to 300 after, both ends included.
  */
  lemma SlackRequestIsAccepted(mac: (string, string) -> string, secret: string, body: string, t: nat, now: real)
    requires secret != ""
    ensures IsValid(mac, body, Decimal(t), "v0=" + mac(secret, "v0:" + Decimal(t) + ":" + body), secret, now)
      <==> t as real - 300.0 <= now && now <= t as real + 300.0
  {
    DecimalIsRead(t);
    FreshExactly(t, now, MAX_AGE);
    hide Decimal, Fresh;
  }
}
